/** The writer of the event wire: strings escaped byte by byte, objects built member by member. */
module JsonWriting {
  import opened Json
  import opened Numerals

  function IntText(n: int): string {
    if n < 0 then "-" + Show(-n) else Show(n)
  }

  lemma IntTextIsANumber(n: int)
    ensures IsNumber(IntText(n))
  {
    var digits := Show(if n < 0 then -n else n);
    AllSkipped(digits);
    if n < 0 { assert ("-" + digits)[1..] == digits; }
  }

  lemma {:induction false} AllSkipped(s: string)
    requires AllDigits(s)
    ensures SkipDigits(s) == ""
    decreases |s|
  {
    if s == "" {
    } else {
      AllSkipped(s[1..]);
    }
  }

  lemma {:induction false} EscapedGrows(s: string, c: char)
    ensures Escaped(s + [c]) == Escaped(s) + Escape(c)
    decreases |s|
  {
    hide Escape;
    if s == "" {
      assert s + [c] == [c] && [c][1..] == "";
      assert Escape(c) + "" == Escape(c);
    } else {
      assert (s + [c])[1..] == s[1..] + [c];
      EscapedGrows(s[1..], c);
      assert Escape(s[0]) + (Escaped(s[1..]) + Escape(c)) == (Escape(s[0]) + Escaped(s[1..])) + Escape(c);
    }
  }

  lemma NothingEscaped()
    ensures Escaped("") == ""
  {
  }

  method AppendChar(before: string, c: char) returns (out: string)
    ensures out == before + Escape(c)
  {
    if c == '\"' { return before + "\\\""; }
    if c == '\\' { return before + "\\\\"; }
    if c == '\n' { return before + "\\n"; }
    if c == '\r' { return before + "\\r"; }
    if c == '\t' { return before + "\\t"; }
    if c < ' ' { return before + "\\u00" + [HexDigit(c as int / 16)] + [HexDigit(c as int % 16)]; }
    return before + [c];
  }

  method AppendString(before: string, text: string) returns (out: string)
    ensures out == before + Quoted(text)
  {
    hide Escape, Escaped;
    out := before + "\"";
    assert text[..0] == "" && Escaped("") == "" by { NothingEscaped(); }
    for i := 0 to |text|
      invariant out == before + "\"" + Escaped(text[..i])
    {
      EscapedGrows(text[..i], text[i]);
      assert text[..i + 1] == text[..i] + [text[i]];
      out := AppendChar(out, text[i]);
    }
    assert text[..|text|] == text;
    out := out + "\"";
  }

  lemma {:induction false} MembersGrow(members: seq<(string, Doc)>, m: (string, Doc))
    ensures RenderMembers(members + [m])
         == RenderMembers(members) + (if members == [] then "" else ",") + RenderMember(m)
    decreases |members|
  {
    hide RenderMember;
    if members == [] {
      assert members + [m] == [m];
    } else {
      var rest := members[1..];
      assert (members + [m])[1..] == rest + [m];
      MembersGrow(rest, m);
      if rest == [] { assert members == [members[0]]; }
    }
  }

  /** One JSON object, appended to a text; `members` are those written so far. */
  class ObjectWriter {
    var out: string
    var first: bool
    ghost const before: string
    ghost var members: seq<(string, Doc)>

    ghost predicate Valid()
      reads this
    {
      out == before + "{" + RenderMembers(members) && first == (members == [])
    }

    constructor (before: string)
      ensures Valid() && members == [] && this.before == before
    {
      this.before := before;
      out, first, members := before + "{", true, [];
    }

    method Key(name: string)
      requires Valid()
      modifies this`out, this`first
      ensures out == old(out) + (if members == [] then "" else ",") + Quoted(name) + ":" && !first
    {
      if !first { out := out + ","; }
      first := false;
      out := AppendString(out, name);
      out := out + ":";
    }

    /** A member whose value is already JSON text. */
    method Raw(name: string, literal: string, ghost value: Doc)
      requires Valid() && literal == Render(value)
      modifies this
      ensures Valid() && members == old(members) + [(name, value)]
    {
      hide RenderMembers, Render, Quoted;
      MembersGrow(members, (name, value));
      Key(name);
      out := out + literal;
      members := members + [(name, value)];
    }

    method Text(name: string, value: string)
      requires Valid()
      modifies this
      ensures Valid() && members == old(members) + [(name, DText(value))]
    {
      hide RenderMembers, Escaped;
      MembersGrow(members, (name, DText(value)));
      Key(name);
      out := AppendString(out, value);
      members := members + [(name, DText(value))];
    }

    method Integer(name: string, value: int)
      requires Valid()
      modifies this
      ensures Valid() && members == old(members) + [(name, DNumber(IntText(value)))]
    {
      Raw(name, IntText(value), DNumber(IntText(value)));
    }

    method Close() returns (text: string)
      requires Valid()
      modifies this`out
      ensures text == before + Render(DObject(members))
    {
      out := out + "}";
      return out;
    }
  }
}
