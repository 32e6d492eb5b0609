/**
 * The Strategy Lab's writer: a stack of open containers over one growing text, proved to hold the
 * layout of the tree its calls describe.
 */
module LabJsonWriting {
  import opened Domain
  import opened DecimalText
  import opened Json
  import opened JsonWriting
  import opened LabJson
  import opened MachineIntegers
  import opened Numerals
  import opened Utf8Text

  datatype Frame = Frame(isObject: bool, first: bool, haveKey: bool)

  /** An open container: what is finished in it, and what waits for the value being written. */
  datatype Open =
    | OpenObject(members: seq<(string, Doc)>, key: Option<string>)
    | OpenArray(items: seq<Doc>, pending: bool)

  // ----- the text of what is open --------------------------------------------------------

  function OpenText(o: Open, st: Style, depth: nat): string {
    match o
    case OpenObject(members, key) =>
      "{" + LaidMembers(members, st, depth, true)
      + (if key.Some? then Comma(members == []) + Newline(st, depth) + QuotedText(key.value) + Colon(st) else "")
    case OpenArray(items, pending) =>
      "[" + LaidItems(items, st, depth, true)
      + (if pending then Comma(items == []) + Newline(st, depth) else "")
  }

  function OpensText(opens: seq<Open>, st: Style): string {
    if opens == [] then ""
    else OpensText(opens[..|opens| - 1], st) + OpenText(opens[|opens| - 1], st, |opens|)
  }

  predicate Awaits(o: Open) {
    match o
    case OpenObject(_, key) => key.Some?
    case OpenArray(_, pending) => pending
  }

  function Absorbed(o: Open, d: Doc): Open
    requires Awaits(o)
  {
    match o
    case OpenObject(members, key) => OpenObject(members + [(key.value, d)], None)
    case OpenArray(items, _) => OpenArray(items + [d], false)
  }

  ghost predicate GoodOpen(o: Open) {
    match o
    case OpenObject(members, key) => Good(DObject(members)) && (key.Some? ==> ValidUtf8(key.value))
    case OpenArray(items, _) => Good(DArray(items))
  }

  lemma {:induction false} ItemsExtend(items: seq<Doc>, d: Doc, st: Style, depth: nat, first: bool)
    ensures LaidItems(items + [d], st, depth, first)
         == LaidItems(items, st, depth, first)
            + (Comma(first && items == []) + Newline(st, depth) + Laid(d, st, depth))
    decreases |items|
  {
    hide Laid, Newline;
    if items == [] {
      assert items + [d] == [d] && [d][1..] == [];
    } else {
      assert (items + [d])[1..] == items[1..] + [d];
      ItemsExtend(items[1..], d, st, depth, false);
    }
  }

  lemma {:induction false} MembersExtend(members: seq<(string, Doc)>, m: (string, Doc), st: Style, depth: nat,
                                         first: bool)
    ensures LaidMembers(members + [m], st, depth, first)
         == LaidMembers(members, st, depth, first)
            + (Comma(first && members == []) + Newline(st, depth) + LaidMember(m, st, depth))
    decreases |members|
  {
    hide LaidMember, Newline;
    if members == [] {
      assert members + [m] == [m] && [m][1..] == [];
    } else {
      assert (members + [m])[1..] == members[1..] + [m];
      MembersExtend(members[1..], m, st, depth, false);
    }
  }

  /** A container that takes the value written for it holds one element more. */
  lemma FillText(o: Open, d: Doc, st: Style, depth: nat)
    requires Awaits(o)
    ensures OpenText(Absorbed(o, d), st, depth) == OpenText(o, st, depth) + Laid(d, st, depth)
  {
    hide LaidItems, LaidMembers, Laid, Newline, QuotedText;
    match o
    case OpenObject(members, key) =>
      MembersExtend(members, (key.value, d), st, depth, true);
      var a, b := LaidMembers(members, st, depth, true), Comma(members == []) + Newline(st, depth);
      var c, e := QuotedText(key.value) + Colon(st), Laid(d, st, depth);
      assert LaidMember((key.value, d), st, depth) == c + e;
      assert "{" + (a + (b + (c + e))) + "" == "{" + a + (b + QuotedText(key.value) + Colon(st)) + e;
    case OpenArray(items, _) =>
      ItemsExtend(items, d, st, depth, true);
      var a, b := LaidItems(items, st, depth, true), Comma(items == []) + Newline(st, depth);
      assert "[" + (a + (b + Laid(d, st, depth))) + "" == "[" + a + b + Laid(d, st, depth);
  }

  lemma FillKeepsGood(o: Open, d: Doc)
    requires Awaits(o) && GoodOpen(o) && Good(d)
    ensures GoodOpen(Absorbed(o, d))
  {
  }

  lemma TopText(opens: seq<Open>, o: Open, st: Style)
    ensures OpensText(opens + [o], st) == OpensText(opens, st) + OpenText(o, st, |opens| + 1)
  {
    assert (opens + [o])[..|opens|] == opens;
  }

  function Closed(o: Open): Doc {
    match o
    case OpenObject(members, _) => DObject(members)
    case OpenArray(items, _) => DArray(items)
  }

  /** Closing the innermost container completes the layout of its tree. */
  lemma CloseText(o: Open, st: Style, depth: nat)
    requires !Awaits(o)
    ensures var empty := (if o.OpenObject? then o.members == [] else o.items == []);
            OpenText(o, st, depth + 1) + Closing(empty, st, depth) + (if o.OpenObject? then "}" else "]")
            == Laid(Closed(o), st, depth)
  {
    hide LaidItems, LaidMembers, Newline;
  }

  // ----- the writer ----------------------------------------------------------------------

  class JsonWriter {
    const style: Style
    var rootDone: bool
    var out: string
    var stack: seq<Frame>
    ghost var opens: seq<Open>
    ghost var root: Option<Doc>

    /** Frames say of each open container what its text needs next. */
    ghost predicate FramesAgree(awaiting: bool)
      reads this`stack, this`opens
    {
      && |stack| == |opens|
      && (forall i :: 0 <= i < |stack| ==>
            GoodOpen(opens[i]) && FrameOf(opens[i], i < |stack| - 1 || awaiting, stack[i]))
      && (forall i :: 0 <= i < |stack| - 1 ==> Awaits(opens[i]))
    }

    ghost predicate FrameOf(o: Open, inside: bool, f: Frame) {
      match o
      case OpenObject(members, key) =>
        f.isObject && f.first == (members == [] && key.None?) && f.haveKey == (key.Some? && !inside)
      case OpenArray(items, pending) =>
        !f.isObject && f.first == (items == [] && !pending) && !f.haveKey && pending == inside
    }

    /** Between calls. */
    ghost predicate Valid()
      reads this
    {
      && FramesAgree(false)
      && (stack != [] ==> rootDone && root.None? && out == OpensText(opens, style))
      && (stack == [] ==> match root
                          case None => !rootDone && out == ""
                          case Some(d) => rootDone && Good(d) && out == Laid(d, style, 0))
    }

    /** After before_value(): the next text is a value's. */
    ghost predicate Awaiting()
      reads this
    {
      && FramesAgree(true) && rootDone && root.None?
      && (stack != [] ==> Awaits(opens[|opens| - 1]))
      && out == OpensText(opens, style)
    }

    constructor (pretty: bool, base: nat)
      ensures Valid() && root.None? && opens == [] && style == Style(pretty, base)
    {
      style := Style(pretty, base);
      rootDone, out, stack, opens, root := false, "", [], [], None;
    }

    predicate Complete()
      reads this
    {
      rootDone && stack == []
    }

    /** A value may come at the root once, in an array, and in an object after its key. */
    predicate ValueDue()
      reads this
    {
      if stack == [] then !rootDone else !stack[|stack| - 1].isObject || stack[|stack| - 1].haveKey
    }

    predicate KeyDue()
      reads this
    {
      stack != [] && stack[|stack| - 1].isObject && !stack[|stack| - 1].haveKey
    }

    method NewLine(depth: nat)
      modifies this`out
      ensures out == old(out) + Newline(style, depth)
    {
      if !style.pretty {
        assert old(out) + "" == out;
        return;
      }
      out := out + "\n";
      out := out + seq((style.base + depth) * 2, _ => ' ');
    }

    /** The containers open once the innermost awaits a value. */
    ghost function Expecting(): seq<Open>
      reads this
    {
      if opens != [] && opens[|opens| - 1].OpenArray? then
        opens[..|opens| - 1] + [opens[|opens| - 1].(pending := true)]
      else opens
    }

    /** What goes before the next value: a comma unless it is the first of an array, and its line. */
    ghost function Separator(): string
      reads this
    {
      if stack == [] || stack[|stack| - 1].isObject then ""
      else Comma(stack[|stack| - 1].first) + Newline(style, |stack|)
    }

    /** The stack once that is written: the array has an element, or the key is used up. */
    ghost function Separated(): seq<Frame>
      reads this
    {
      if stack == [] then []
      else if stack[|stack| - 1].isObject then stack[|stack| - 1 := stack[|stack| - 1].(haveKey := false)]
      else stack[|stack| - 1 := stack[|stack| - 1].(first := false)]
    }

    method BeforeValue() returns (ok: bool)
      requires Valid()
      modifies this
      ensures ok == old(ValueDue())
      ensures ok ==> Awaiting() && opens == old(Expecting())
      ensures ok ==> out == old(out + Separator()) && stack == old(Separated()) && rootDone
      ensures !ok ==> unchanged(this)
    {
      hide OpensText, OpenText, GoodOpen;
      if stack == [] {
        if rootDone { return false; }
        rootDone := true;
        assert OpensText([], style) == "" by { NothingOpen(); }
        return true;
      }
      var top := |stack| - 1;
      if stack[top].isObject {
        if !stack[top].haveKey { return false; }
        stack := stack[top := stack[top].(haveKey := false)];
        return true;
      }
      NextElement();
      return true;
    }

    /** A comma unless the element is the first, and the indentation. */
    method NextElement()
      requires Valid() && stack != [] && !stack[|stack| - 1].isObject
      modifies this`stack, this`out, this`opens
      ensures Awaiting() && opens == old(Expecting())
      ensures out == old(out + Separator()) && stack == old(Separated())
    {
      hide OpensText, OpenText, GoodOpen, Newline;
      var top := |stack| - 1;
      ghost var o, first, before := opens[top], stack[top].first, out;
      PendingText(opens[..top], o, style);
      PendingIsGood(o);
      assert opens[..top] + [o] == opens;
      if !stack[top].first { out := out + ","; }
      stack := stack[top := stack[top].(first := false)];
      assert out == before + Comma(first) by { assert before + "" == before; }
      NewLine(|stack|);
      opens := opens[..top] + [o.(pending := true)];
      assert before + Comma(first) + Newline(style, |stack|) == before + (Comma(first) + Newline(style, |stack|));
      assert forall i :: 0 <= i < top ==> opens[i] == old(opens)[i] && stack[i] == old(stack)[i];
    }

    lemma NothingOpen()
      ensures OpensText([], style) == ""
    {
    }

    lemma PendingIsGood(o: Open)
      requires o.OpenArray? && GoodOpen(o)
      ensures GoodOpen(o.(pending := true))
    {
    }

    lemma PendingText(opens: seq<Open>, o: Open, st: Style)
      requires o.OpenArray? && !o.pending
      ensures OpensText(opens + [o.(pending := true)], st)
           == OpensText(opens + [o], st) + (if o.items == [] then "" else ",") + Newline(st, |opens| + 1)
    {
      TopText(opens, o, st);
      TopText(opens, o.(pending := true), st);
      PendingAlone(o, st, |opens| + 1);
      hide OpensText, OpenText, Newline;
      Regroup(OpensText(opens, st), OpenText(o, st, |opens| + 1), Comma(o.items == []), Newline(st, |opens| + 1));
    }

    lemma PendingAlone(o: Open, st: Style, depth: nat)
      requires o.OpenArray? && !o.pending
      ensures OpenText(o.(pending := true), st, depth)
           == (OpenText(o, st, depth) + Comma(o.items == [])) + Newline(st, depth)
    {
      hide LaidItems, Newline, Comma;
    }

    /** What the containers hold after the awaited value d. */
    ghost function With(d: Doc): seq<Open>
      reads this
      requires opens != [] && Awaits(opens[|opens| - 1])
    {
      opens[..|opens| - 1] + [Absorbed(opens[|opens| - 1], d)]
    }

    /** The value's text has been written: it becomes part of the innermost container, or the root. */
    ghost method Settle(d: Doc)
      requires Good(d) && FramesAgree(true) && rootDone && root.None?
      requires stack != [] ==> Awaits(opens[|opens| - 1])
      requires out == OpensText(opens, style) + Laid(d, style, |opens|)
      modifies this`opens, this`root
      ensures Valid()
      ensures if old(opens) == [] then opens == [] && root == Some(d) else opens == old(With(d)) && root.None?
    {
      hide OpensText, OpenText, Laid, GoodOpen, Good;
      if opens == [] {
        assert OpensText([], style) == "" by { NothingOpen(); }
        assert out == Laid(d, style, |opens|);
        root := Some(d);
        return;
      }
      var top := |opens| - 1;
      var o := opens[top];
      FillText(o, d, style, |opens|);
      FillKeepsGood(o, d);
      TopText(opens[..top], o, style);
      TopText(opens[..top], Absorbed(o, d), style);
      assert opens[..top] + [o] == opens;
      opens := opens[..top] + [Absorbed(o, d)];
    }

    /** Writes a scalar; false, and nothing changed, where the source throws. */
    method Scalar(text: string, ghost d: Doc) returns (ok: bool)
      requires Valid() && Good(d) && forall depth: nat :: Laid(d, style, depth) == text
      modifies this
      ensures ok == old(ValueDue())
      ensures ok ==> Valid() && Received(old(Expecting()), d)
      ensures !ok ==> unchanged(this)
    {
      hide OpensText, Laid, Good, Separator, Separated;
      ok := BeforeValue();
      if !ok { return; }
      out := out + text;
      Settle(d);
    }

    /** The value d went where it was due. */
    ghost predicate Received(before: seq<Open>, d: Doc)
      reads this`opens, this`root
    {
      if before == [] then opens == [] && root == Some(d)
      else Awaits(before[|before| - 1]) && root.None?
           && opens == before[..|before| - 1] + [Absorbed(before[|before| - 1], d)]
    }

    method BeginObject() returns (ok: bool)
      requires Valid()
      modifies this
      ensures ok == old(ValueDue())
      ensures ok ==> Valid() && opens == old(Expecting()) + [OpenObject([], None)] && root.None?
      ensures !ok ==> unchanged(this)
    {
      hide OpensText, OpenText, GoodOpen, Separator, Separated;
      ok := BeforeValue();
      if !ok { return; }
      TopText(opens, OpenObject([], None), style);
      JustOpened(style, |opens| + 1);
      out := out + "{";
      stack := stack + [Frame(true, true, false)];
      opens := opens + [OpenObject([], None)];
    }

    lemma JustOpened(st: Style, depth: nat)
      ensures OpenText(OpenObject([], None), st, depth) == "{" && GoodOpen(OpenObject([], None))
      ensures OpenText(OpenArray([], false), st, depth) == "[" && GoodOpen(OpenArray([], false))
    {
    }

    method BeginArray() returns (ok: bool)
      requires Valid()
      modifies this
      ensures ok == old(ValueDue())
      ensures ok ==> Valid() && opens == old(Expecting()) + [OpenArray([], false)] && root.None?
      ensures !ok ==> unchanged(this)
    {
      hide OpensText, OpenText, GoodOpen, Separator, Separated;
      ok := BeforeValue();
      if !ok { return; }
      TopText(opens, OpenArray([], false), style);
      JustOpened(style, |opens| + 1);
      out := out + "[";
      stack := stack + [Frame(false, true, false)];
      opens := opens + [OpenArray([], false)];
    }

    method EndObject() returns (ok: bool)
      requires Valid()
      modifies this
      ensures ok == old(KeyDue())
      ensures ok ==> Valid() && old(opens[|opens| - 1]).OpenObject?
                     && Received(old(opens[..|opens| - 1]), DObject(old(opens[|opens| - 1]).members))
      ensures !ok ==> unchanged(this)
    {
      if stack == [] || !stack[|stack| - 1].isObject || stack[|stack| - 1].haveKey { return false; }
      CloseTop("}");
      return true;
    }

    method EndArray() returns (ok: bool)
      requires Valid()
      modifies this
      ensures ok == old(stack != [] && !stack[|stack| - 1].isObject)
      ensures ok ==> Valid() && old(opens[|opens| - 1]).OpenArray?
                     && Received(old(opens[..|opens| - 1]), DArray(old(opens[|opens| - 1]).items))
      ensures !ok ==> unchanged(this)
    {
      if stack == [] || stack[|stack| - 1].isObject { return false; }
      CloseTop("]");
      return true;
    }

    method CloseTop(mark: string)
      requires Valid() && stack != [] && !stack[|stack| - 1].haveKey
      requires mark == if stack[|stack| - 1].isObject then "}" else "]"
      modifies this
      ensures Valid() && Received(old(opens[..|opens| - 1]), Closed(old(opens[|opens| - 1])))
    {
      hide OpensText, OpenText, GoodOpen, Laid, Newline, Good;
      ghost var inner, o := opens[..|opens| - 1], opens[|opens| - 1];
      assert opens == inner + [o];
      TopText(inner, o, style);
      CloseText(o, style, |inner|);
      assert Good(Closed(o)) by { ClosedIsGood(o); }
      var empty := stack[|stack| - 1].first;
      stack := stack[..|stack| - 1];
      if !empty { NewLine(|stack|); }
      out := out + mark;
      Regroup(OpensText(inner, style), OpenText(o, style, |inner| + 1), Closing(empty, style, |inner|), mark);
      assert out == OpensText(inner, style) + Laid(Closed(o), style, |inner|);
      opens := inner;
      Settle(Closed(o));
    }

    lemma Regroup(a: string, b: string, c: string, d: string)
      ensures ((a + b) + c) + d == a + ((b + c) + d)
    {
    }

    lemma ClosedIsGood(o: Open)
      requires GoodOpen(o)
      ensures Good(Closed(o))
    {
    }

    /** A key, directly inside an object that has none waiting. */
    method Key(name: string) returns (ok: bool)
      requires Valid()
      modifies this
      ensures ok == (old(KeyDue()) && ValidUtf8(name))
      ensures ok ==> Valid() && root.None? && old(opens[|opens| - 1]).OpenObject?
                     && opens == old(opens[..|opens| - 1]) + [old(opens[|opens| - 1]).(key := Some(name))]
      ensures !ok && !old(KeyDue()) ==> unchanged(this)
      ensures !ok && old(KeyDue()) ==>
                && out == old(out + Comma(stack[|stack| - 1].first) + Newline(style, |stack|))
                && stack == old(stack[|stack| - 1 := stack[|stack| - 1].(first := false)])
                && (opens, root, rootDone) == old((opens, root, rootDone))
    {
      hide OpensText, OpenText, GoodOpen, QuotedText, Newline;
      if stack == [] || !stack[|stack| - 1].isObject || stack[|stack| - 1].haveKey { return false; }
      var top := |stack| - 1;
      ghost var o := opens[top];
      assert opens == opens[..top] + [o];
      KeyText(opens[..top], o, name, style);
      var comma := !stack[top].first;
      stack := stack[top := stack[top].(first := false)];
      ok := KeyLine(comma, name, |stack|);
      if !ok { return; }
      stack := stack[top := stack[top].(haveKey := true)];
      KeyIsGood(o, name);
      opens := opens[..top] + [o.(key := Some(name))];
    }

    /** The text of a key: the comma before it, its line, the quoted name and the colon. */
    method KeyLine(comma: bool, name: string, depth: nat) returns (ok: bool)
      modifies this`out
      ensures ok == ValidUtf8(name)
      ensures out == old(out) + (if comma then "," else "") + Newline(style, depth)
                     + (if ok then QuotedText(name) + Colon(style) else "")
    {
      hide QuotedText, Newline;
      if comma { out := out + ","; }
      NewLine(depth);
      ok := WriteString(name);
      if !ok { return; }
      out := out + (if style.pretty then ": " else ":");
    }

    lemma KeyIsGood(o: Open, name: string)
      requires o.OpenObject? && GoodOpen(o) && ValidUtf8(name)
      ensures GoodOpen(o.(key := Some(name)))
    {
    }

    lemma KeyText(opens: seq<Open>, o: Open, name: string, st: Style)
      requires o.OpenObject? && o.key.None?
      ensures OpensText(opens + [o.(key := Some(name))], st)
           == OpensText(opens + [o], st) + (if o.members == [] then "" else ",") + Newline(st, |opens| + 1)
              + QuotedText(name) + Colon(st)
    {
      TopText(opens, o, st);
      TopText(opens, o.(key := Some(name)), st);
      KeyAlone(o, name, st, |opens| + 1);
      hide OpensText, OpenText, Newline, QuotedText, Colon;
      var body, line := OpenText(o, st, |opens| + 1), Newline(st, |opens| + 1);
      Regroup(OpensText(opens, st), body, Comma(o.members == []), line);
      Regroup(OpensText(opens, st), body + Comma(o.members == []) + line, QuotedText(name), Colon(st));
    }

    lemma KeyAlone(o: Open, name: string, st: Style, depth: nat)
      requires o.OpenObject? && o.key.None?
      ensures OpenText(o.(key := Some(name)), st, depth)
           == (((OpenText(o, st, depth) + Comma(o.members == [])) + Newline(st, depth)) + QuotedText(name)) + Colon(st)
    {
      hide LaidMembers, Newline, Comma, QuotedText, Colon;
    }

    /** Escapes one piece at a time; refuses anything that is not valid UTF-8. */
    method WriteString(value: string) returns (ok: bool)
      modifies this`out
      ensures ok == ValidUtf8(value)
      ensures out == if ok then old(out) + QuotedText(value) else old(out)
    {
      hide Piece, ValidUtf8;
      ok := IsValidUtf8(value);
      if !ok { return; }
      out := out + "\"";
      ghost var start := out;
      var i := 0;
      assert value[0..] == value;
      while i < |value|
        invariant i <= |value| && start + EscapedText(value) == out + EscapedText(value[i..])
        invariant start == old(out) + "\""
        decreases |value| - i
      {
        ghost var s := value[i..];
        var piece, n := PieceAt(value, i);
        assert s[n..] == value[i + n..];
        out := out + piece;
        i := i + n;
      }
      assert value[i..] == "" && EscapedText("") == "";
      assert out == start + EscapedText(value);
      out := out + "\"";
      assert out == old(out) + ("\"" + EscapedText(value) + "\"");
    }

    method PieceAt(value: string, i: nat) returns (piece: string, n: nat)
      requires i < |value|
      ensures piece == Piece(value[i..]) && n == Step(value[i..])
    {
      ghost var s := value[i..];
      var c := value[i];
      assert s[0] == c;
      if c == '\"' { return "\\\"", 1; }
      if c == '\\' { return "\\\\", 1; }
      if c as int == 8 { return "\\b", 1; }
      if c as int == 12 { return "\\f", 1; }
      if c == '\n' { return "\\n", 1; }
      if c == '\r' { return "\\r", 1; }
      if c == '\t' { return "\\t", 1; }
      if c < ' ' || c as int == 0x7F { return "\\u00" + [HexDigit(c as int / 16), HexDigit(c as int % 16)], 1; }
      if c as int == 0xE2 && i + 2 < |value| && value[i + 1] as int == 0x80
         && (value[i + 2] as int == 0xA8 || value[i + 2] as int == 0xA9) {
        assert s[1] == value[i + 1] && s[2] == value[i + 2];
        return if value[i + 2] as int == 0xA8 then "\\u2028" else "\\u2029", 3;
      }
      if |s| >= 3 { assert s[1] == value[i + 1] && s[2] == value[i + 2]; }
      return [c], 1;
    }

    method Text(value: string) returns (ok: bool)
      requires Valid()
      modifies this
      ensures ok == (old(ValueDue()) && ValidUtf8(value))
      ensures ok ==> Valid() && Received(old(Expecting()), DText(value))
      ensures !ok && !old(ValueDue()) ==> unchanged(this)
      ensures !ok && old(ValueDue()) ==>
                && out == old(out + Separator()) && stack == old(Separated()) && rootDone
                && opens == old(Expecting()) && root.None?
    {
      hide OpensText, Good, QuotedText, GoodOpen, Separator, Separated;
      ok := BeforeValue();
      if !ok { return; }
      ok := WriteString(value);
      if !ok { return; }
      assert Good(DText(value)) by { TextIsGood(value); }
      Settle(DText(value));
    }

    lemma TextIsGood(value: string)
      requires ValidUtf8(value)
      ensures Good(DText(value))
    {
    }

    method Boolean(value: bool) returns (ok: bool)
      requires Valid()
      modifies this
      ensures ok == old(ValueDue())
      ensures ok ==> Valid() && Received(old(Expecting()), DBool(value))
      ensures !ok ==> unchanged(this)
    {
      ok := Scalar(if value then "true" else "false", DBool(value));
    }

    method Nothing() returns (ok: bool)
      requires Valid()
      modifies this
      ensures ok == old(ValueDue())
      ensures ok ==> Valid() && Received(old(Expecting()), DNull)
      ensures !ok ==> unchanged(this)
    {
      ok := Scalar("null", DNull);
    }

    method Integer(value: int) returns (ok: bool)
      requires Valid()
      modifies this
      ensures ok == old(ValueDue())
      ensures ok ==> Valid() && Received(old(Expecting()), DNumber(IntText(value)))
      ensures !ok ==> unchanged(this)
    {
      hide IntText, IsNumber;
      IntTextIsANumber(value);
      ok := Scalar(IntText(value), DNumber(IntText(value)));
    }

    /** A double, by its shortest text; NaN and the infinities have none and are refused. */
    method Number(text: Option<string>) returns (ok: bool)
      requires Valid() && (text.Some? ==> IsNumber(text.value))
      modifies this
      ensures ok == (text.Some? && old(ValueDue()))
      ensures ok ==> Valid() && Received(old(Expecting()), DNumber(text.value))
      ensures !ok ==> unchanged(this)
    {
      if text.None? { return false; }
      ok := Scalar(text.value, DNumber(text.value));
    }

    /** An exact decimal, digit for digit. */
    method ScaledNumber(scaled: Long, decimals: int) returns (ok: bool)
      requires Valid()
      modifies this
      ensures ok == old(ValueDue())
      ensures ok ==> Valid() && Received(old(Expecting()), DNumber(FormatOf(scaled, decimals)))
      ensures !ok ==> unchanged(this)
    {
      hide FormatOf, IsNumber;
      DecimalIsANumber(scaled, decimals);
      ok := Scalar(FormatOf(scaled, decimals), DNumber(FormatOf(scaled, decimals)));
    }

    /** The finished text: the tree's layout, a JSON text of exactly that tree, valid UTF-8 throughout. */
    method Finished() returns (text: Option<string>)
      requires Valid()
      ensures text.Some? <==> Complete()
      ensures text.Some? ==>
                && root.Some? && text.value == Laid(root.value, style, 0)
                && Spells(text.value, root.value) && ValidUtf8(text.value)
    {
      if !(rootDone && stack == []) { return None; }
      LaidSpells(root.value, style);
      LaidIsValid(root.value, style, 0);
      return Some(out);
    }
  }

  // ----- a caller that goes on after an exception ----------------------------------------

  // The public calls.
  datatype Call =
    | StartObject | FinishObject | StartArray | FinishArray
    | PutKey(name: string) | PutText(value: string) | PutBoolean(boolean: bool) | PutNull
    | PutInteger(integer: int) | PutNumber(shortest: Option<string>) | PutScaled(scaled: Long, decimals: int)

  ghost predicate Clean(c: Call) {
    && (c.PutKey? ==> ValidUtf8(c.name)) && (c.PutText? ==> ValidUtf8(c.value))
    && (c.PutNumber? && c.shortest.Some? ==> IsNumber(c.shortest.value))
  }

  /**
   * Any calls in any order, each misuse caught and ignored: while every string is valid UTF-8, the
   * writer keeps its promise, and what it finishes is the JSON text of the tree the accepted calls describe.
   */
  method Perform(w: JsonWriter, calls: seq<Call>)
    requires w.Valid() && forall c :: c in calls ==> Clean(c)
    modifies w
    ensures w.Valid()
  {
    hide ValidUtf8, IsNumber;
    for i := 0 to |calls|
      invariant w.Valid()
    {
      assert Clean(calls[i]);
      Attempt(w, calls[i]);
    }
  }

  /** One call; a refusal leaves the writer as it was. */
  method Attempt(w: JsonWriter, c: Call)
    requires w.Valid() && Clean(c)
    modifies w
    ensures w.Valid()
  {
    hide ValidUtf8, IsNumber;
    match c
    case StartObject => var _ := w.BeginObject();
    case FinishObject => var _ := w.EndObject();
    case StartArray => var _ := w.BeginArray();
    case FinishArray => var _ := w.EndArray();
    case PutKey(name) => var _ := w.Key(name);
    case PutText(value) => var _ := w.Text(value);
    case PutBoolean(value) => var _ := w.Boolean(value);
    case PutNull => var _ := w.Nothing();
    case PutInteger(value) => var _ := w.Integer(value);
    case PutNumber(text) => var _ := w.Number(text);
    case PutScaled(scaled, decimals) => var _ := w.ScaledNumber(scaled, decimals);
  }

  /** With a string that is not, it does not: caught at the root, the empty text is called complete. */
  method BadTextBreaksThePromise(value: string) returns (w: JsonWriter)
    requires !ValidUtf8(value)
    ensures w.Complete() && w.out == "" && forall d :: !Spells(w.out, d)
  {
    w := new JsonWriter(false, 0);
    var ok := w.Text(value);
    assert !ok;
  }

  /** A decimal's text is a JSON number. */
  lemma DecimalIsANumber(scaled: int, decimals: int)
    ensures IsNumber(FormatOf(scaled, decimals))
  {
    var places := if decimals < 0 then 0 else decimals;
    var w, f := FormatDenotes(if scaled < 0 then -scaled else scaled, places);
    hide FormatNat, Denotes, Plain;
    PartsAreANumber(w, f);
    var t := Join(w, f);
    if scaled < 0 { assert ("-" + t)[1..] == t; }
    SignedIsANumber(w, f);
  }

  lemma PartsAreANumber(w: string, f: string)
    requires Shortest(w, f)
    ensures ReadInteger(Join(w, f)) == Got((), if f == "" then "" else "." + f)
    ensures f != "" ==> ReadFraction("." + f) == Got((), "")
    ensures Join(w, f)[0] != '-'
  {
    AllSkipped(w);
    AllSkipped(f);
    var tail := if f == "" then "" else "." + f;
    assert Join(w, f) == w + tail;
    DigitsThenTail(w, tail);
    assert "" + tail == tail;
    if f != "" { assert ("." + f)[1..] == f; }
  }

  lemma SignedIsANumber(w: string, f: string)
    requires Shortest(w, f)
    ensures IsNumber(Join(w, f)) && IsNumber("-" + Join(w, f))
  {
    PartsAreANumber(w, f);
    var t := Join(w, f);
    assert ("-" + t)[1..] == t;
    assert ReadInteger("-" + t) == ReadInteger(t);
  }
}
