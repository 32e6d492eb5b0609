/**
 * The event wire's JSON: what the parser accepts, what the writer emits, and that one undoes the other.
 *
 * A string is a sequence of bytes, one per char. The parser is described by what it reads from the
 * front of a text and what it leaves.
 */
module Json {
  import opened Numerals

  const MAX_DEPTH: nat := 32

  datatype Value =
    | Null
    | Bool(boolean: bool)
    | Number(literal: string)
    | Text(text: string)
    | Array(items: seq<Value>)
    | Object(members: map<string, Value>)

  datatype Read<T> = Fail | Got(value: T, rest: string)

  // ----- reading -------------------------------------------------------------------------

  predicate IsSpace(c: char) {
    c == ' ' || c == '\t' || c == '\n' || c == '\r'
  }

  function SkipSpace(s: string): (r: string)
    ensures |r| <= |s|
  {
    if s != "" && IsSpace(s[0]) then SkipSpace(s[1..]) else s
  }

  function ReadLiteral(s: string, word: string, value: Value): Read<Value> {
    if word <= s then Got(value, s[|word|..]) else Fail
  }

  function SkipDigits(s: string): (r: string)
    ensures |r| <= |s|
  {
    if s != "" && IsDigit(s[0]) then SkipDigits(s[1..]) else s
  }

  predicate StartsWith(s: string, c: char) {
    s != "" && s[0] == c
  }

  /** Digits, at least one. */
  function AtLeastOneDigit(s: string): Read<()> {
    if SkipDigits(s) == s then Fail else Got((), SkipDigits(s))
  }

  function ReadFraction(s: string): Read<()> {
    if StartsWith(s, '.') then AtLeastOneDigit(s[1..]) else Got((), s)
  }

  function ReadExponent(s: string): Read<()> {
    if StartsWith(s, 'e') || StartsWith(s, 'E') then
      var t := s[1..];
      AtLeastOneDigit(if StartsWith(t, '+') || StartsWith(t, '-') then t[1..] else t)
    else Got((), s)
  }

  /** No leading zero before another digit. */
  function ReadInteger(s: string): Read<()> {
    var t := if StartsWith(s, '-') then s[1..] else s;
    var r := SkipDigits(t);
    if |r| == |t| || (|t| - |r| > 1 && t[0] == '0') then Fail else Got((), r)
  }

  /** What is left after a number at the front. */
  function ScanNumber(s: string): (r: Read<()>)
    ensures r.Got? ==> |r.rest| < |s|
  {
    var whole := ReadInteger(s);
    if whole.Fail? then Fail
    else
      var fraction := ReadFraction(whole.rest);
      if fraction.Fail? then Fail else ReadExponent(fraction.rest)
  }

  function ReadNumber(s: string): (r: Read<Value>)
    ensures r.Got? ==> |r.rest| < |s|
  {
    var n := ScanNumber(s);
    if n.Fail? then Fail else Got(Number(s[..|s| - |n.rest|]), n.rest)
  }

  function HexValue(c: char): (v: int)
    ensures -1 <= v < 16
  {
    if '0' <= c <= '9' then c as int - '0' as int
    else if 'a' <= c <= 'f' then c as int - 'a' as int + 10
    else if 'A' <= c <= 'F' then c as int - 'A' as int + 10
    else -1
  }

  function ReadHex4(s: string): (r: Read<nat>)
    ensures r.Got? ==> r.value < 0x10000 && |r.rest| + 4 == |s|
  {
    if |s| < 4 then Fail
    else
      var a, b, c, d := HexValue(s[0]), HexValue(s[1]), HexValue(s[2]), HexValue(s[3]);
      if a < 0 || b < 0 || c < 0 || d < 0 then Fail else Got(((a * 16 + b) * 16 + c) * 16 + d, s[4..])
  }

  function Utf8(cp: nat): string
    requires cp < 0x110000
  {
    if cp < 0x80 then [cp as char]
    else if cp < 0x800 then [(0xC0 + cp / 64) as char, (0x80 + cp % 64) as char]
    else if cp < 0x10000 then [(0xE0 + cp / 4096) as char, (0x80 + cp / 64 % 64) as char, (0x80 + cp % 64) as char]
    else [(0xF0 + cp / 262144) as char, (0x80 + cp / 4096 % 64) as char,
          (0x80 + cp / 64 % 64) as char, (0x80 + cp % 64) as char]
  }

  /** After \u: one code unit, or a surrogate pair. */
  function ReadUnicode(s: string): (r: Read<string>)
    ensures r.Got? ==> |r.rest| < |s|
  {
    var high := ReadHex4(s);
    if high.Fail? then Fail
    else if 0xD800 <= high.value <= 0xDBFF then
      if !("\\u" <= high.rest) then Fail
      else
        var low := ReadHex4(high.rest[2..]);
        if low.Fail? || low.value < 0xDC00 || low.value > 0xDFFF then Fail
        else Got(Utf8(0x10000 + (high.value - 0xD800) * 1024 + (low.value - 0xDC00)), low.rest)
    else if 0xDC00 <= high.value <= 0xDFFF then Fail
    else Got(Utf8(high.value), high.rest)
  }

  /** After a backslash. */
  function ReadEscape(s: string): (r: Read<string>)
    ensures r.Got? ==> |r.rest| < |s|
  {
    if s == "" then Fail
    else match s[0]
      case '\"' => Got("\"", s[1..])
      case '\\' => Got("\\", s[1..])
      case '/' => Got("/", s[1..])
      case 'b' => Got([8 as char], s[1..])
      case 'f' => Got([12 as char], s[1..])
      case 'n' => Got("\n", s[1..])
      case 'r' => Got("\r", s[1..])
      case 't' => Got("\t", s[1..])
      case 'u' => ReadUnicode(s[1..])
      case _ => Fail
  }

  function Prepend(front: string, r: Read<string>): Read<string> {
    if r.Fail? then Fail else Got(front + r.value, r.rest)
  }

  /** After the opening quote, through the closing one. */
  function ReadString(s: string): (r: Read<string>)
    ensures r.Got? ==> |r.rest| < |s|
    decreases |s|
  {
    if s == "" then Fail
    else if s[0] == '\"' then Got("", s[1..])
    else if s[0] < ' ' then Fail
    else if s[0] != '\\' then Prepend([s[0]], ReadString(s[1..]))
    else
      var e := ReadEscape(s[1..]);
      if e.Fail? then Fail else Prepend(e.value, ReadString(e.rest))
  }

  function ReadValue(s: string, depth: nat): (r: Read<Value>)
    ensures r.Got? ==> |r.rest| < |s|
    decreases |s|, 3
  {
    if depth > MAX_DEPTH || s == "" then Fail
    else match s[0]
      case '{' =>
        var t := SkipSpace(s[1..]);
        if StartsWith(t, '}') then Got(Object(map[]), t[1..]) else ReadMembers(t, map[], depth)
      case '[' =>
        var t := SkipSpace(s[1..]);
        if StartsWith(t, ']') then Got(Array([]), t[1..]) else ReadItems(t, [], depth)
      case '\"' =>
        var t := ReadString(s[1..]);
        if t.Fail? then Fail else Got(Text(t.value), t.rest)
      case 't' => ReadLiteral(s, "true", Bool(true))
      case 'f' => ReadLiteral(s, "false", Bool(false))
      case 'n' => ReadLiteral(s, "null", Null)
      case _ => ReadNumber(s)
  }

  /** A key, a colon and a value; `s` is past the space before the key. */
  function ReadMember(s: string, depth: nat): (r: Read<(string, Value)>)
    ensures r.Got? ==> |r.rest| < |s|
    decreases |s|, 1
  {
    if !StartsWith(s, '\"') then Fail
    else
      var key := ReadString(s[1..]);
      if key.Fail? then Fail
      else
        var colon := SkipSpace(key.rest);
        if !StartsWith(colon, ':') then Fail
        else
          var value := ReadValue(SkipSpace(colon[1..]), depth + 1);
          if value.Fail? then Fail else Got((key.value, value.value), value.rest)
  }

  /** The members from the next one on; a repeated key is refused. */
  function ReadMembers(s: string, seen: map<string, Value>, depth: nat): (r: Read<Value>)
    ensures r.Got? ==> |r.rest| < |s|
    decreases |s|, 2
  {
    var member := ReadMember(s, depth);
    if member.Fail? || member.value.0 in seen then Fail
    else
      var now := seen[member.value.0 := member.value.1];
      var t := SkipSpace(member.rest);
      if StartsWith(t, ',') then ReadMembers(SkipSpace(t[1..]), now, depth)
      else if StartsWith(t, '}') then Got(Object(now), t[1..])
      else Fail
  }

  function ReadItems(s: string, seen: seq<Value>, depth: nat): (r: Read<Value>)
    ensures r.Got? ==> |r.rest| < |s|
    decreases |s|, 4
  {
    var item := ReadValue(s, depth + 1);
    if item.Fail? then Fail
    else
      var t := SkipSpace(item.rest);
      if StartsWith(t, ',') then ReadItems(SkipSpace(t[1..]), seen + [item.value], depth)
      else if StartsWith(t, ']') then Got(Array(seen + [item.value]), t[1..])
      else Fail
  }

  /** A whole document: one value, with space around it and nothing else. */
  function DocumentOf(text: string): Read<Value> {
    var v := ReadValue(SkipSpace(text), 0);
    if v.Got? && SkipSpace(v.rest) == "" then Got(v.value, "") else Fail
  }

  // ----- writing -------------------------------------------------------------------------

  /** What is to be written: members in order, numbers as their literals. */
  datatype Doc =
    | DNull
    | DBool(boolean: bool)
    | DNumber(literal: string)
    | DText(text: string)
    | DArray(items: seq<Doc>)
    | DObject(members: seq<(string, Doc)>)

  function HexDigit(n: nat): char
    requires n < 16
  {
    if n < 10 then ('0' as int + n) as char else ('a' as int + n - 10) as char
  }

  function Escape(c: char): string {
    match c
    case '\"' => "\\\""
    case '\\' => "\\\\"
    case '\n' => "\\n"
    case '\r' => "\\r"
    case '\t' => "\\t"
    case _ => if c < ' ' then "\\u00" + [HexDigit(c as int / 16), HexDigit(c as int % 16)] else [c]
  }

  function Escaped(s: string): string {
    if s == "" then "" else Escape(s[0]) + Escaped(s[1..])
  }

  function Quoted(s: string): string {
    "\"" + Escaped(s) + "\""
  }

  function Render(d: Doc): string {
    match d
    case DNull => "null"
    case DBool(b) => if b then "true" else "false"
    case DNumber(literal) => literal
    case DText(t) => Quoted(t)
    case DArray(items) => "[" + RenderItems(items) + "]"
    case DObject(members) => "{" + RenderMembers(members) + "}"
  }

  function RenderItems(items: seq<Doc>): string {
    if items == [] then ""
    else if |items| == 1 then Render(items[0])
    else Render(items[0]) + "," + RenderItems(items[1..])
  }

  function RenderMember(m: (string, Doc)): string {
    Quoted(m.0) + ":" + Render(m.1)
  }

  function RenderMembers(members: seq<(string, Doc)>): string {
    if members == [] then ""
    else if |members| == 1 then RenderMember(members[0])
    else RenderMember(members[0]) + "," + RenderMembers(members[1..])
  }

  // ----- what a document means -----------------------------------------------------------

  function ValueOf(d: Doc): Value {
    match d
    case DNull => Null
    case DBool(b) => Bool(b)
    case DNumber(literal) => Number(literal)
    case DText(t) => Text(t)
    case DArray(items) => Array(ValuesOf(items))
    case DObject(members) => Object(MapOf(members))
  }

  function ValuesOf(items: seq<Doc>): (r: seq<Value>)
    ensures |r| == |items|
  {
    if items == [] then [] else [ValueOf(items[0])] + ValuesOf(items[1..])
  }

  function MapOf(members: seq<(string, Doc)>): map<string, Value> {
    if members == [] then map[] else MapOf(members[1..])[members[0].0 := MemberValue(members[0])]
  }

  function MemberValue(m: (string, Doc)): Value {
    ValueOf(m.1)
  }

  ghost predicate IsNumber(literal: string) {
    ScanNumber(literal) == Got((), "")
  }

  /** Keys are distinct, number literals are numbers, and nothing is nested too deep. */
  ghost predicate WellFormed(d: Doc, depth: nat) {
    depth <= MAX_DEPTH
    && match d
       case DNumber(literal) => IsNumber(literal)
       case DArray(items) => forall i :: 0 <= i < |items| ==> WellFormed(items[i], depth + 1)
       case DObject(members) =>
         && (forall i, j :: 0 <= i < j < |members| ==> members[i].0 != members[j].0)
         && forall i :: 0 <= i < |members| ==> WellFormed(members[i].1, depth + 1)
       case _ => true
  }

  // ----- strings come back ---------------------------------------------------------------

  lemma HexReadsBack(n: nat)
    requires n < 16
    ensures HexValue(HexDigit(n)) == n
  {
  }

  lemma EscapeReadsBack(c: char, tail: string)
    ensures ReadString(Escape(c) + tail) == Prepend([c], ReadString(tail))
  {
    hide ReadHex4;
    var s := Escape(c) + tail;
    if c in "\"\\\n\r\t" {
      assert s[1..][1..] == tail;
    } else if c < ' ' {
      var hex := [HexDigit(c as int / 16), HexDigit(c as int % 16)];
      assert s[1..] == "u" + ("00" + hex + tail);
      assert s[1..][1..] == "00" + hex + tail;
      ControlReadsBack(c, tail);
    } else {
      assert s[1..] == tail;
    }
  }

  lemma ControlReadsBack(c: char, tail: string)
    requires c < ' '
    ensures ReadUnicode("00" + [HexDigit(c as int / 16), HexDigit(c as int % 16)] + tail) == Got([c], tail)
  {
    HexReadsBack(c as int / 16);
    HexReadsBack(c as int % 16);
    var s := "00" + [HexDigit(c as int / 16), HexDigit(c as int % 16)] + tail;
    assert s[4..] == tail;
  }

  /** Any bytes at all: what append_string writes, parse_string reads back. */
  lemma {:induction false} StringReadsBack(s: string, tail: string)
    ensures ReadString(Escaped(s) + "\"" + tail) == Got(s, tail)
    decreases |s|
  {
    if s == "" {
      assert Escaped(s) + "\"" + tail == "\"" + tail;
    } else {
      hide ReadString, Escape;
      var after := Escaped(s[1..]) + "\"" + tail;
      assert Escaped(s) + "\"" + tail == Escape(s[0]) + after;
      EscapeReadsBack(s[0], after);
      StringReadsBack(s[1..], tail);
      assert [s[0]] + s[1..] == s;
    }
  }

  // ----- numbers come back ---------------------------------------------------------------

  /** Nothing that could still belong to a number. */
  predicate EndsNumber(tail: string) {
    tail == "" || !(IsDigit(tail[0]) || tail[0] in ".eE")
  }

  lemma {:induction false} DigitsThenTail(s: string, tail: string)
    requires tail == "" || !IsDigit(tail[0])
    ensures SkipDigits(s + tail) == SkipDigits(s) + tail
    decreases |s|
  {
    if s == "" {
      assert s + tail == tail;
    } else {
      assert (s + tail)[1..] == s[1..] + tail;
      DigitsThenTail(s[1..], tail);
    }
  }

  lemma OneDigitThenTail(s: string, tail: string)
    requires AtLeastOneDigit(s).Got? && EndsNumber(tail)
    ensures AtLeastOneDigit(s + tail) == Got((), AtLeastOneDigit(s).rest + tail)
  {
    DigitsThenTail(s, tail);
    if SkipDigits(s) + tail == s + tail { assert |SkipDigits(s)| == |s|; SameLength(SkipDigits(s), s, tail); }
  }

  lemma SameLength(a: string, b: string, tail: string)
    requires a + tail == b + tail
    ensures a == b
  {
    assert |a| == |b|;
    assert (a + tail)[..|a|] == a && (b + tail)[..|b|] == b;
  }

  lemma IntegerThenTail(s: string, tail: string)
    requires ReadInteger(s).Got? && EndsNumber(tail)
    ensures ReadInteger(s + tail) == Got((), ReadInteger(s).rest + tail)
  {
    var t := if StartsWith(s, '-') then s[1..] else s;
    assert (if StartsWith(s + tail, '-') then (s + tail)[1..] else s + tail) == t + tail;
    DigitsThenTail(t, tail);
  }

  lemma NumberReadsBack(literal: string, tail: string)
    requires IsNumber(literal) && EndsNumber(tail)
    ensures ReadNumber(literal + tail) == Got(Number(literal), tail)
  {
    hide AtLeastOneDigit, ReadInteger;
    IntegerThenTail(literal, tail);
    var r := ReadInteger(literal).rest;
    if StartsWith(r, '.') {
      assert (r + tail)[1..] == r[1..] + tail;
      OneDigitThenTail(r[1..], tail);
    } else if r == "" {
      assert r + tail == tail;
    }
    var f := ReadFraction(r).rest;
    assert ReadFraction(r + tail) == Got((), f + tail);
    if StartsWith(f, 'e') || StartsWith(f, 'E') {
      var t := f[1..];
      assert (f + tail)[1..] == t + tail;
      if StartsWith(t, '+') || StartsWith(t, '-') {
        assert (t + tail)[1..] == t[1..] + tail;
        OneDigitThenTail(t[1..], tail);
      } else {
        NoSignHere(t, tail);
        OneDigitThenTail(t, tail);
      }
    } else if f == "" {
      assert f + tail == tail;
    }
    assert ScanNumber(literal + tail) == Got((), "" + tail);
    assert "" + tail == tail;
    assert (literal + tail)[..|literal|] == literal;
  }

  lemma NoSignHere(t: string, tail: string)
    requires AtLeastOneDigit(t).Got?
    ensures t != "" && (t + tail)[0] == t[0]
  {
  }

  // ----- documents come back -------------------------------------------------------------

  /** A value's text starts with no space and cannot be taken for an end. */
  lemma RenderStarts(d: Doc, depth: nat)
    requires WellFormed(d, depth)
    ensures Render(d) != "" && !IsSpace(Render(d)[0]) && Render(d)[0] !in "]},:"
  {
    if d.DNumber? { NumberStarts(d.literal); }
  }

  lemma NumberStarts(literal: string)
    requires IsNumber(literal)
    ensures literal != "" && (literal[0] == '-' || IsDigit(literal[0]))
  {
  }

  lemma NoSpace(s: string)
    requires s != "" ==> !IsSpace(s[0])
    ensures SkipSpace(s) == s
  {
  }

  /** What parse reads from a rendered document is the document's value, whatever follows. */
  lemma {:induction false} DocReadsBack(d: Doc, depth: nat, tail: string)
    requires WellFormed(d, depth) && EndsNumber(tail)
    ensures ReadValue(Render(d) + tail, depth) == Got(ValueOf(d), tail)
    decreases d, 2
  {
    hide ReadValue, Render, ValueOf, EndsNumber;
    match d
    case DNull => WordReadsBack(d, depth, tail);
    case DBool(_) => WordReadsBack(d, depth, tail);
    case DNumber(literal) => NumberDocReadsBack(literal, depth, tail);
    case DText(t) => TextDocReadsBack(t, depth, tail);
    case DArray(items) =>
      ArrayReadsBack(items, depth, tail);
      assert Render(d) == "[" + RenderItems(items) + "]" && ValueOf(d) == Array(ValuesOf(items)) by { Unfold(d); }
    case DObject(members) =>
      ObjectReadsBack(members, depth, tail);
      assert Render(d) == "{" + RenderMembers(members) + "}" && ValueOf(d) == Object(MapOf(members)) by { Unfold(d); }
  }

  lemma Unfold(d: Doc)
    ensures d.DArray? ==> Render(d) == "[" + RenderItems(d.items) + "]" && ValueOf(d) == Array(ValuesOf(d.items))
    ensures d.DObject? ==> Render(d) == "{" + RenderMembers(d.members) + "}" && ValueOf(d) == Object(MapOf(d.members))
  {
  }

  lemma TextDocReadsBack(t: string, depth: nat, tail: string)
    requires depth <= MAX_DEPTH
    ensures ReadValue(Render(DText(t)) + tail, depth) == Got(ValueOf(DText(t)), tail)
  {
    hide ReadString, Escaped;
    StringReadsBack(t, tail);
    var s := Render(DText(t)) + tail;
    assert s == "\"" + (Escaped(t) + "\"" + tail);
    assert s[1..] == Escaped(t) + "\"" + tail;
  }

  lemma NumberDocReadsBack(literal: string, depth: nat, tail: string)
    requires depth <= MAX_DEPTH && IsNumber(literal) && EndsNumber(tail)
    ensures ReadValue(Render(DNumber(literal)) + tail, depth) == Got(ValueOf(DNumber(literal)), tail)
  {
    NumberStarts(literal);
    NumberReadsBack(literal, tail);
    hide ReadNumber, IsNumber;
    assert (literal + tail)[0] == literal[0];
  }

  lemma WordReadsBack(d: Doc, depth: nat, tail: string)
    requires depth <= MAX_DEPTH && (d.DNull? || d.DBool?)
    ensures ReadValue(Render(d) + tail, depth) == Got(ValueOf(d), tail)
  {
    hide ReadLiteral;
    if d.DNull? {
      LiteralReadsBack("null", Null, tail);
    } else if d.boolean {
      LiteralReadsBack("true", Bool(true), tail);
    } else {
      LiteralReadsBack("false", Bool(false), tail);
    }
  }

  lemma LiteralReadsBack(word: string, value: Value, tail: string)
    ensures ReadLiteral(word + tail, word, value) == Got(value, tail)
  {
    assert (word + tail)[|word|..] == tail;
  }

  lemma {:induction false} ArrayReadsBack(items: seq<Doc>, depth: nat, tail: string)
    requires WellFormed(DArray(items), depth)
    ensures ReadValue("[" + RenderItems(items) + "]" + tail, depth) == Got(Array(ValuesOf(items)), tail)
    decreases items, 1
  {
    var inner := RenderItems(items) + "]" + tail;
    var s := "[" + RenderItems(items) + "]" + tail;
    assert s[1..] == inner;
    if items == [] {
      assert inner == "]" + tail;
      NoSpace(inner);
    } else {
      hide ReadItems;
      ItemsReadBack(items, [], depth, tail);
      ItemsStart(items, depth);
      NoSpace(inner);
      assert [] + ValuesOf(items) == ValuesOf(items);
    }
  }

  lemma ItemsStart(items: seq<Doc>, depth: nat)
    requires items != [] && WellFormed(DArray(items), depth)
    ensures RenderItems(items) != "" && !IsSpace(RenderItems(items)[0]) && RenderItems(items)[0] != ']'
  {
    RenderStarts(items[0], depth + 1);
  }

  /** The first item and what follows it: the reading goes on after the comma, or ends. */
  lemma OneItemReads(d: Doc, seen: seq<Value>, depth: nat, after: string)
    requires SkipSpace(after) == after
    requires ReadValue(Render(d) + after, depth + 1) == Got(ValueOf(d), after)
    ensures ReadItems(Render(d) + after, seen, depth) ==
            if StartsWith(after, ',') then ReadItems(SkipSpace(after[1..]), seen + [ValueOf(d)], depth)
            else if StartsWith(after, ']') then Got(Array(seen + [ValueOf(d)]), after[1..])
            else Fail
  {
    hide ReadValue, Render, ValueOf, SkipSpace;
  }

  lemma LastItemReads(d: Doc, seen: seq<Value>, depth: nat, tail: string)
    requires ReadValue(Render(d) + ("]" + tail), depth + 1) == Got(ValueOf(d), "]" + tail)
    ensures ReadItems(Render(d) + ("]" + tail), seen, depth) == Got(Array(seen + [ValueOf(d)]), tail)
  {
    hide ReadValue, Render, ValueOf, SkipSpace, ReadItems;
    NoSpace("]" + tail);
    OneItemReads(d, seen, depth, "]" + tail);
    assert ("]" + tail)[1..] == tail;
  }

  lemma NextItemReads(d: Doc, seen: seq<Value>, depth: nat, rest: string)
    requires rest != "" && !IsSpace(rest[0])
    requires ReadValue(Render(d) + ("," + rest), depth + 1) == Got(ValueOf(d), "," + rest)
    ensures ReadItems(Render(d) + ("," + rest), seen, depth) == ReadItems(rest, seen + [ValueOf(d)], depth)
  {
    hide ReadValue, Render, ValueOf, SkipSpace, ReadItems;
    NoSpace("," + rest);
    NoSpace(rest);
    OneItemReads(d, seen, depth, "," + rest);
    assert ("," + rest)[1..] == rest;
  }

  lemma {:induction false} ItemsReadBack(items: seq<Doc>, seen: seq<Value>, depth: nat, tail: string)
    requires items != [] && WellFormed(DArray(items), depth)
    ensures ReadItems(RenderItems(items) + "]" + tail, seen, depth) == Got(Array(seen + ValuesOf(items)), tail)
    decreases items, 0
  {
    hide ReadValue, Render, ValueOf, ReadItems;
    var s := RenderItems(items) + "]" + tail;
    if |items| == 1 {
      assert s == Render(items[0]) + ("]" + tail);
      DocReadsBack(items[0], depth + 1, "]" + tail);
      LastItemReads(items[0], seen, depth, tail);
      assert seen + [ValueOf(items[0])] == seen + ValuesOf(items);
    } else {
      var rest := RenderItems(items[1..]) + "]" + tail;
      assert s == Render(items[0]) + ("," + rest);
      DocReadsBack(items[0], depth + 1, "," + rest);
      ItemsStart(items[1..], depth);
      NextItemReads(items[0], seen, depth, rest);
      ItemsReadBack(items[1..], seen + [ValueOf(items[0])], depth, tail);
      assert (seen + [ValueOf(items[0])]) + ValuesOf(items[1..]) == seen + ValuesOf(items);
    }
  }

  lemma {:induction false} ObjectReadsBack(members: seq<(string, Doc)>, depth: nat, tail: string)
    requires WellFormed(DObject(members), depth)
    ensures ReadValue("{" + RenderMembers(members) + "}" + tail, depth) == Got(Object(MapOf(members)), tail)
    decreases members, 1
  {
    hide ReadMembers, ReadMember, RenderMember, ReadString, SkipSpace;
    var inner := RenderMembers(members) + "}" + tail;
    var s := "{" + RenderMembers(members) + "}" + tail;
    assert s[1..] == inner;
    if members == [] {
      assert inner == "}" + tail;
      NoSpace(inner);
    } else {
      MembersReadBack(members, map[], depth, tail);
      MembersStart(members);
      NoSpace(inner);
      assert map[] + MapOf(members) == MapOf(members);
    }
  }

  lemma MembersStart(members: seq<(string, Doc)>)
    requires members != []
    ensures StartsWith(RenderMembers(members), '\"')
  {
  }

  /** The first member and what follows it: the reading goes on after the comma, or ends. */
  lemma OneMemberReads(m: (string, Doc), seen: map<string, Value>, depth: nat, after: string)
    requires m.0 !in seen && SkipSpace(after) == after
    requires ReadMember(RenderMember(m) + after, depth) == Got((m.0, ValueOf(m.1)), after)
    ensures var now := seen[m.0 := ValueOf(m.1)];
            ReadMembers(RenderMember(m) + after, seen, depth) ==
            if StartsWith(after, ',') then ReadMembers(SkipSpace(after[1..]), now, depth)
            else if StartsWith(after, '}') then Got(Object(now), after[1..])
            else Fail
  {
    hide ReadMember, RenderMember, ValueOf, SkipSpace;
  }

  lemma LastMemberReads(m: (string, Doc), seen: map<string, Value>, depth: nat, tail: string)
    requires m.0 !in seen
    requires ReadMember(RenderMember(m) + ("}" + tail), depth) == Got((m.0, ValueOf(m.1)), "}" + tail)
    ensures ReadMembers(RenderMember(m) + ("}" + tail), seen, depth) == Got(Object(seen[m.0 := ValueOf(m.1)]), tail)
  {
    hide ReadMember, RenderMember, ValueOf, SkipSpace, ReadMembers;
    NoSpace("}" + tail);
    OneMemberReads(m, seen, depth, "}" + tail);
    assert ("}" + tail)[1..] == tail;
  }

  lemma NextMemberReads(m: (string, Doc), seen: map<string, Value>, depth: nat, rest: string)
    requires m.0 !in seen && StartsWith(rest, '\"')
    requires ReadMember(RenderMember(m) + ("," + rest), depth) == Got((m.0, ValueOf(m.1)), "," + rest)
    ensures ReadMembers(RenderMember(m) + ("," + rest), seen, depth) ==
            ReadMembers(rest, seen[m.0 := ValueOf(m.1)], depth)
  {
    hide ReadMember, RenderMember, ValueOf, SkipSpace, ReadMembers;
    NoSpace("," + rest);
    NoSpace(rest);
    OneMemberReads(m, seen, depth, "," + rest);
    assert ("," + rest)[1..] == rest;
  }

  lemma {:induction false} MembersReadBack(members: seq<(string, Doc)>, seen: map<string, Value>, depth: nat,
                                           tail: string)
    requires members != [] && WellFormed(DObject(members), depth)
    requires forall i :: 0 <= i < |members| ==> members[i].0 !in seen
    ensures ReadMembers(RenderMembers(members) + "}" + tail, seen, depth) == Got(Object(seen + MapOf(members)), tail)
    decreases members, 0
  {
    hide ReadMember, RenderMember, ValueOf, ReadMembers, SkipSpace;
    var s := RenderMembers(members) + "}" + tail;
    var now := seen[members[0].0 := ValueOf(members[0].1)];
    if |members| == 1 {
      assert s == RenderMember(members[0]) + ("}" + tail);
      MemberReadsBack(members[0], depth, "}" + tail);
      LastMemberReads(members[0], seen, depth, tail);
      assert now == seen + MapOf(members);
    } else {
      var rest := RenderMembers(members[1..]) + "}" + tail;
      assert s == RenderMember(members[0]) + ("," + rest);
      MemberReadsBack(members[0], depth, "," + rest);
      MembersStart(members[1..]);
      NextMemberReads(members[0], seen, depth, rest);
      MembersReadBack(members[1..], now, depth, tail);
      KeysOfRest(members);
      assert now + MapOf(members[1..]) == seen + MapOf(members);
    }
  }

  lemma KeysOfRest(members: seq<(string, Doc)>)
    requires members != [] && forall i :: 0 < i < |members| ==> members[0].0 != members[i].0
    ensures members[0].0 !in MapOf(members[1..])
  {
    KeysAreMembers(members[1..], members[0].0);
  }

  lemma {:induction false} KeysAreMembers(members: seq<(string, Doc)>, key: string)
    ensures key in MapOf(members) ==> exists i :: 0 <= i < |members| && members[i].0 == key
    decreases |members|
  {
    if members != [] && key in MapOf(members) && key != members[0].0 {
      KeysAreMembers(members[1..], key);
      var i :| 0 <= i < |members[1..]| && members[1..][i].0 == key;
      assert members[i + 1].0 == key;
    }
  }

  lemma {:induction false} MemberReadsBack(m: (string, Doc), depth: nat, tail: string)
    requires WellFormed(m.1, depth + 1) && EndsNumber(tail)
    ensures ReadMember(RenderMember(m) + tail, depth) == Got((m.0, ValueOf(m.1)), tail)
    decreases m, 3
  {
    hide ReadString, ReadValue, Render, ValueOf;
    var value := Render(m.1) + tail;
    var s := RenderMember(m) + tail;
    assert s == "\"" + (Escaped(m.0) + "\"" + (":" + value));
    assert s[1..] == Escaped(m.0) + "\"" + (":" + value);
    StringReadsBack(m.0, ":" + value);
    NoSpace(":" + value);
    assert (":" + value)[1..] == value;
    RenderStarts(m.1, depth + 1);
    NoSpace(value);
    DocReadsBack(m.1, depth + 1, tail);
  }

  /** parse(render(d)) is d's value. */
  lemma ParseUndoesRender(d: Doc)
    requires WellFormed(d, 0)
    ensures DocumentOf(Render(d)) == Got(ValueOf(d), "")
  {
    hide ReadValue, Render, ValueOf;
    RenderStarts(d, 0);
    NoSpace(Render(d));
    assert Render(d) + "" == Render(d);
    DocReadsBack(d, 0, "");
  }
}
