/**
 * The Strategy Lab's JSON: how a tree is laid out as text, compact or indented, and that the grammar
 * of RFC 8259 reads exactly that tree from it.
 */
module LabJson {
  import opened Json
  import opened Utf8Text
  import opened Numerals

  datatype Style = Style(pretty: bool, base: nat)

  // ----- strings -------------------------------------------------------------------------

  function EscapeAscii(c: char): string {
    match c
    case '\"' => "\\\""
    case '\\' => "\\\\"
    case '\n' => "\\n"
    case '\r' => "\\r"
    case '\t' => "\\t"
    case _ =>
      if c as int == 8 then "\\b"
      else if c as int == 12 then "\\f"
      else if c < ' ' || c as int == 0x7F then "\\u00" + [HexDigit(c as int / 16), HexDigit(c as int % 16)]
      else [c]
  }

  /** U+2028 or U+2029 at the front: the two line separators JavaScript does not take in strings. */
  predicate LineSeparator(s: string) {
    |s| >= 3 && s[0] as int == 0xE2 && s[1] as int == 0x80 && s[2] as int in {0xA8, 0xA9}
  }

  function SeparatorText(s: string): string
    requires LineSeparator(s)
  {
    if s[2] as int == 0xA8 then "\\u2028" else "\\u2029"
  }

  /** How many bytes the loop takes at once, and what it writes for them. */
  function Step(s: string): (n: nat)
    requires s != ""
    ensures 1 <= n <= |s|
  {
    if LineSeparator(s) then 3 else 1
  }

  function Piece(s: string): string
    requires s != ""
  {
    if LineSeparator(s) then SeparatorText(s) else if s[0] as int < 0x80 then EscapeAscii(s[0]) else [s[0]]
  }

  function EscapedText(s: string): string {
    if s == "" then "" else Piece(s) + EscapedText(s[Step(s)..])
  }

  function QuotedText(s: string): string {
    "\"" + EscapedText(s) + "\""
  }

  // ----- layout --------------------------------------------------------------------------

  function Newline(st: Style, depth: nat): string {
    if st.pretty then "\n" + seq((st.base + depth) * 2, _ => ' ') else ""
  }

  function Colon(st: Style): string {
    if st.pretty then ": " else ":"
  }

  function Comma(first: bool): string {
    if first then "" else ","
  }

  function Laid(d: Doc, st: Style, depth: nat): string {
    match d
    case DNull => "null"
    case DBool(b) => if b then "true" else "false"
    case DNumber(literal) => literal
    case DText(t) => QuotedText(t)
    case DArray(items) => "[" + LaidItems(items, st, depth + 1, true) + Closing(items == [], st, depth) + "]"
    case DObject(members) => "{" + LaidMembers(members, st, depth + 1, true) + Closing(members == [], st, depth) + "}"
  }

  function Closing(empty: bool, st: Style, depth: nat): string {
    if empty then "" else Newline(st, depth)
  }

  function LaidItems(items: seq<Doc>, st: Style, depth: nat, first: bool): string {
    if items == [] then ""
    else Comma(first) + Newline(st, depth) + Laid(items[0], st, depth) + LaidItems(items[1..], st, depth, false)
  }

  function LaidMember(m: (string, Doc), st: Style, depth: nat): string {
    QuotedText(m.0) + Colon(st) + Laid(m.1, st, depth)
  }

  function LaidMembers(members: seq<(string, Doc)>, st: Style, depth: nat, first: bool): string {
    if members == [] then ""
    else
      Comma(first) + Newline(st, depth) + LaidMember(members[0], st, depth)
        + LaidMembers(members[1..], st, depth, false)
  }

  /** Every string is valid UTF-8 and every number literal a number. */
  ghost predicate Good(d: Doc) {
    match d
    case DNumber(literal) => IsNumber(literal)
    case DText(t) => ValidUtf8(t)
    case DArray(items) => forall i :: 0 <= i < |items| ==> Good(items[i])
    case DObject(members) => forall i :: 0 <= i < |members| ==> GoodMember(members[i])
    case _ => true
  }

  ghost predicate GoodMember(m: (string, Doc)) {
    ValidUtf8(m.0) && Good(m.1)
  }

  // ----- the grammar, with no bound on nesting and repeated keys kept --------------------

  function ReadTree(s: string): (r: Read<Doc>)
    ensures r.Got? ==> |r.rest| < |s|
    decreases |s|, 3
  {
    if s == "" then Fail
    else match s[0]
      case '{' =>
        var t := SkipSpace(s[1..]);
        if StartsWith(t, '}') then Got(DObject([]), t[1..]) else ReadPairs(t, [])
      case '[' =>
        var t := SkipSpace(s[1..]);
        if StartsWith(t, ']') then Got(DArray([]), t[1..]) else ReadElements(t, [])
      case '\"' =>
        var t := ReadString(s[1..]);
        if t.Fail? then Fail else Got(DText(t.value), t.rest)
      case 't' => if "true" <= s then Got(DBool(true), s[4..]) else Fail
      case 'f' => if "false" <= s then Got(DBool(false), s[5..]) else Fail
      case 'n' => if "null" <= s then Got(DNull, s[4..]) else Fail
      case _ =>
        var n := ScanNumber(s);
        if n.Fail? then Fail else Got(DNumber(s[..|s| - |n.rest|]), n.rest)
  }

  function ReadPair(s: string): (r: Read<(string, Doc)>)
    ensures r.Got? ==> |r.rest| < |s|
    decreases |s|, 1
  {
    if !StartsWith(s, '\"') then Fail
    else
      var key := ReadString(s[1..]);
      if key.Fail? then Fail
      else
        var colon := SkipSpace(key.rest);
        if !StartsWith(colon, ':') then Fail
        else
          var value := ReadTree(SkipSpace(colon[1..]));
          if value.Fail? then Fail else Got((key.value, value.value), value.rest)
  }

  function ReadPairs(s: string, seen: seq<(string, Doc)>): (r: Read<Doc>)
    ensures r.Got? ==> |r.rest| < |s|
    decreases |s|, 2
  {
    var pair := ReadPair(s);
    if pair.Fail? then Fail
    else
      var t := SkipSpace(pair.rest);
      if StartsWith(t, ',') then ReadPairs(SkipSpace(t[1..]), seen + [pair.value])
      else if StartsWith(t, '}') then Got(DObject(seen + [pair.value]), t[1..])
      else Fail
  }

  function ReadElements(s: string, seen: seq<Doc>): (r: Read<Doc>)
    ensures r.Got? ==> |r.rest| < |s|
    decreases |s|, 4
  {
    var item := ReadTree(s);
    if item.Fail? then Fail
    else
      var t := SkipSpace(item.rest);
      if StartsWith(t, ',') then ReadElements(SkipSpace(t[1..]), seen + [item.value])
      else if StartsWith(t, ']') then Got(DArray(seen + [item.value]), t[1..])
      else Fail
  }

  /** The text is a JSON text of the grammar, and its tree is d. */
  predicate Spells(text: string, d: Doc) {
    var r := ReadTree(SkipSpace(text));
    r.Got? && r.value == d && SkipSpace(r.rest) == ""
  }

  // ----- strings come back ---------------------------------------------------------------

  lemma AsciiReadsBack(c: char, tail: string)
    requires c as int < 0x80
    ensures ReadString(EscapeAscii(c) + tail) == Prepend([c], ReadString(tail))
  {
    hide ReadUnicode;
    if c in "\"\\\n\r\t" || c as int in {8, 12} {
      var s := EscapeAscii(c) + tail;
      assert s[1..][1..] == tail;
    } else if c < ' ' || c as int == 0x7F {
      CodeEscapeReadsBack(c, tail);
    } else {
      assert EscapeAscii(c) == [c];
      assert ([c] + tail)[1..] == tail;
    }
  }

  lemma CodeEscapeReadsBack(c: char, tail: string)
    requires c as int < 0x80
    ensures var hex := [HexDigit(c as int / 16), HexDigit(c as int % 16)];
            ReadString("\\u00" + hex + tail) == Prepend([c], ReadString(tail))
  {
    var hex := [HexDigit(c as int / 16), HexDigit(c as int % 16)];
    var s := "\\u00" + hex + tail;
    assert s[1..] == "u" + ("00" + hex + tail);
    assert s[1..][1..] == "00" + hex + tail;
    CodeReadsBack(c, tail);
    hide ReadUnicode, ReadString;
    EscapeThenRest(s, [c], tail);
  }

  lemma CodeReadsBack(c: char, tail: string)
    requires c as int < 0x80
    ensures ReadUnicode("00" + [HexDigit(c as int / 16), HexDigit(c as int % 16)] + tail) == Got([c], tail)
  {
    HexReadsBack(c as int / 16);
    HexReadsBack(c as int % 16);
    var s := "00" + [HexDigit(c as int / 16), HexDigit(c as int % 16)] + tail;
    assert s[4..] == tail;
  }

  lemma SeparatorReadsBack(s: string, tail: string)
    requires LineSeparator(s)
    ensures ReadString(SeparatorText(s) + tail) == Prepend(s[..3], ReadString(tail))
  {
    var t := SeparatorText(s) + tail;
    assert t[1..] == "u" + (SeparatorText(s)[2..] + tail);
    assert t[1..][1..] == SeparatorText(s)[2..] + tail;
    hide ReadString, SeparatorText;
    SeparatorCode(s, tail);
    EscapeThenRest(t, s[..3], tail);
  }

  lemma EscapeThenRest(t: string, value: string, tail: string)
    requires t != "" && t[0] == '\\' && ReadEscape(t[1..]) == Got(value, tail)
    ensures ReadString(t) == Prepend(value, ReadString(tail))
  {
  }

  lemma SeparatorCode(s: string, tail: string)
    requires LineSeparator(s)
    ensures ReadUnicode(SeparatorText(s)[2..] + tail) == Got(s[..3], tail)
  {
    var t := SeparatorText(s)[2..] + tail;
    assert t[..4] == SeparatorText(s)[2..];
    assert t[4..] == tail;
    assert Utf8(if s[2] as int == 0xA8 then 0x2028 else 0x2029) == s[..3];
  }

  lemma RawReadsBack(c: char, tail: string)
    requires c as int >= 0x80
    ensures ReadString([c] + tail) == Prepend([c], ReadString(tail))
  {
    assert ([c] + tail)[1..] == tail;
  }

  lemma PieceReadsBack(s: string, tail: string)
    requires s != ""
    ensures ReadString(Piece(s) + tail) == Prepend(s[..Step(s)], ReadString(tail))
  {
    hide EscapeAscii, SeparatorText, ReadString;
    assert s[..1] == [s[0]];
    if LineSeparator(s) {
      SeparatorReadsBack(s, tail);
    } else if s[0] as int < 0x80 {
      AsciiReadsBack(s[0], tail);
    } else {
      RawReadsBack(s[0], tail);
    }
  }

  /** Any bytes written as a string are read back as those bytes. */
  lemma {:induction false} TextReadsBack(s: string, tail: string)
    ensures ReadString(EscapedText(s) + "\"" + tail) == Got(s, tail)
    decreases |s|
  {
    if s == "" {
      assert EscapedText(s) + "\"" + tail == "\"" + tail;
    } else {
      hide Piece, Step, ReadString;
      var n := Step(s);
      var after := EscapedText(s[n..]) + "\"" + tail;
      assert EscapedText(s) + "\"" + tail == Piece(s) + after;
      PieceReadsBack(s, after);
      TextReadsBack(s[n..], tail);
      assert s[..n] + s[n..] == s;
    }
  }

  // ----- trees come back -----------------------------------------------------------------

  lemma {:induction false} SkipLayout(st: Style, depth: nat, rest: string)
    requires rest != "" && !IsSpace(rest[0])
    ensures SkipSpace(Newline(st, depth) + rest) == rest
  {
    NoSpace(rest);
    if st.pretty {
      SkipBlanks((st.base + depth) * 2, rest);
      var blanks := seq((st.base + depth) * 2, _ => ' ');
      assert (Newline(st, depth) + rest)[1..] == blanks + rest;
    } else {
      assert Newline(st, depth) + rest == rest;
    }
  }

  lemma {:induction false} SkipBlanks(n: nat, rest: string)
    requires rest != "" && !IsSpace(rest[0])
    ensures SkipSpace(seq(n, _ => ' ') + rest) == rest
    decreases n
  {
    if n == 0 {
      assert seq(0, _ => ' ') + rest == rest;
      NoSpace(rest);
    } else {
      assert (seq(n, _ => ' ') + rest)[1..] == seq(n - 1, _ => ' ') + rest;
      SkipBlanks(n - 1, rest);
    }
  }

  lemma LayoutEndsNumber(st: Style, depth: nat, rest: string)
    requires rest != "" && rest[0] in ",]}"
    ensures EndsNumber(rest) && EndsNumber(Newline(st, depth) + rest)
  {
    if !st.pretty { assert Newline(st, depth) + rest == rest; }
  }

  lemma LaidStarts(d: Doc, st: Style, depth: nat)
    requires Good(d)
    ensures Laid(d, st, depth) != "" && !IsSpace(Laid(d, st, depth)[0]) && Laid(d, st, depth)[0] !in "]}"
  {
    if d.DNumber? { NumberStarts(d.literal); }
  }

  /** The grammar reads from a laid out tree that tree, whatever follows it. */
  lemma {:induction false} TreeReadsBack(d: Doc, st: Style, depth: nat, tail: string)
    requires Good(d) && EndsNumber(tail)
    ensures ReadTree(Laid(d, st, depth) + tail) == Got(d, tail)
    decreases d, 2
  {
    hide ReadTree, Laid, EndsNumber;
    match d
    case DArray(items) => ArrayReadsBackLaid(items, st, depth, tail);
    case DObject(members) => ObjectReadsBackLaid(members, st, depth, tail);
    case _ => LeafReadsBack(d, st, depth, tail);
  }

  lemma LeafReadsBack(d: Doc, st: Style, depth: nat, tail: string)
    requires Good(d) && EndsNumber(tail) && !d.DArray? && !d.DObject?
    ensures ReadTree(Laid(d, st, depth) + tail) == Got(d, tail)
  {
    match d
    case DNull => assert ("null" + tail)[4..] == tail;
    case DBool(b) =>
      if b {
        assert ("true" + tail)[4..] == tail;
      } else {
        assert ("false" + tail)[5..] == tail;
      }
    case DNumber(literal) => NumberLeaf(literal, tail);
    case DText(t) => TextLeaf(t, tail);
  }

  lemma NumberLeaf(literal: string, tail: string)
    requires IsNumber(literal) && EndsNumber(tail)
    ensures ReadTree(literal + tail) == Got(DNumber(literal), tail)
  {
    NumberStarts(literal);
    NumberReadsBack(literal, tail);
    hide ScanNumber;
    assert (literal + tail)[0] == literal[0];
  }

  lemma TextLeaf(t: string, tail: string)
    ensures ReadTree(QuotedText(t) + tail) == Got(DText(t), tail)
  {
    hide ReadString, EscapedText;
    TextReadsBack(t, tail);
    var s := QuotedText(t) + tail;
    assert s == "\"" + (EscapedText(t) + "\"" + tail);
    assert s[1..] == EscapedText(t) + "\"" + tail;
  }

  // The texts above, nested to the right and followed by `end`.

  function ItemsText(items: seq<Doc>, st: Style, depth: nat, first: bool, end: string): string {
    if items == [] then end
    else
      Comma(first) + (Newline(st, depth) + (Laid(items[0], st, depth) + ItemsText(items[1..], st, depth, false, end)))
  }

  function MembersText(members: seq<(string, Doc)>, st: Style, depth: nat, first: bool, end: string): string {
    if members == [] then end
    else
      Comma(first)
      + (Newline(st, depth) + (LaidMember(members[0], st, depth) + MembersText(members[1..], st, depth, false, end)))
  }

  lemma {:induction false} ItemsTextIs(items: seq<Doc>, st: Style, depth: nat, first: bool, end: string)
    ensures ItemsText(items, st, depth, first, end) == LaidItems(items, st, depth, first) + end
    decreases |items|
  {
    hide Laid, Newline, Comma;
    if items == [] {
      assert "" + end == end;
    } else {
      ItemsTextIs(items[1..], st, depth, false, end);
      var a, b := Comma(first), Newline(st, depth);
      var c, d := Laid(items[0], st, depth), LaidItems(items[1..], st, depth, false);
      assert (a + b + c + d) + end == a + (b + (c + (d + end)));
    }
  }

  lemma {:induction false} MembersTextIs(members: seq<(string, Doc)>, st: Style, depth: nat, first: bool, end: string)
    ensures MembersText(members, st, depth, first, end) == LaidMembers(members, st, depth, first) + end
    decreases |members|
  {
    hide LaidMember, Newline, Comma;
    if members == [] {
      assert "" + end == end;
    } else {
      MembersTextIs(members[1..], st, depth, false, end);
      var a, b := Comma(first), Newline(st, depth);
      var c, d := LaidMember(members[0], st, depth), LaidMembers(members[1..], st, depth, false);
      assert (a + b + c + d) + end == a + (b + (c + (d + end)));
    }
  }

  // One step of each loop of the grammar.

  lemma OpensArray(lead: string, first: string)
    requires SkipSpace(lead + first) == first && first != "" && first[0] != ']'
    ensures ReadTree("[" + (lead + first)) == ReadElements(first, [])
  {
    hide ReadElements, SkipSpace;
    assert ("[" + (lead + first))[1..] == lead + first;
  }

  lemma OpensObject(lead: string, first: string)
    requires SkipSpace(lead + first) == first && first != "" && first[0] != '}'
    ensures ReadTree("{" + (lead + first)) == ReadPairs(first, [])
  {
    hide ReadPairs, SkipSpace;
    assert ("{" + (lead + first))[1..] == lead + first;
  }

  lemma EmptyContainers(tail: string)
    ensures ReadTree("[" + ("]" + tail)) == Got(DArray([]), tail)
    ensures ReadTree("{" + ("}" + tail)) == Got(DObject([]), tail)
  {
    assert ("[" + ("]" + tail))[1..] == "]" + tail && ("]" + tail)[1..] == tail;
    assert ("{" + ("}" + tail))[1..] == "}" + tail && ("}" + tail)[1..] == tail;
  }

  lemma LastElement(s: string, item: Doc, lead: string, tail: string, seen: seq<Doc>)
    requires ReadTree(s) == Got(item, lead + ("]" + tail)) && SkipSpace(lead + ("]" + tail)) == "]" + tail
    ensures ReadElements(s, seen) == Got(DArray(seen + [item]), tail)
  {
    hide ReadTree, SkipSpace;
    assert ("]" + tail)[1..] == tail;
  }

  lemma OneElement(s: string, item: Doc, lead: string, next: string, seen: seq<Doc>)
    requires ReadTree(s) == Got(item, "," + (lead + next)) && SkipSpace(lead + next) == next
    ensures ReadElements(s, seen) == ReadElements(next, seen + [item])
  {
    NoSpace("," + (lead + next));
    hide ReadTree, SkipSpace;
    assert ("," + (lead + next))[1..] == lead + next;
  }

  lemma LastPair(s: string, pair: (string, Doc), lead: string, tail: string, seen: seq<(string, Doc)>)
    requires ReadPair(s) == Got(pair, lead + ("}" + tail)) && SkipSpace(lead + ("}" + tail)) == "}" + tail
    ensures ReadPairs(s, seen) == Got(DObject(seen + [pair]), tail)
  {
    hide ReadPair, SkipSpace;
    assert ("}" + tail)[1..] == tail;
  }

  lemma OnePair(s: string, pair: (string, Doc), lead: string, next: string, seen: seq<(string, Doc)>)
    requires ReadPair(s) == Got(pair, "," + (lead + next)) && SkipSpace(lead + next) == next
    ensures ReadPairs(s, seen) == ReadPairs(next, seen + [pair])
  {
    NoSpace("," + (lead + next));
    hide ReadPair, SkipSpace;
    assert ("," + (lead + next))[1..] == lead + next;
  }

  lemma {:induction false} ArrayReadsBackLaid(items: seq<Doc>, st: Style, depth: nat, tail: string)
    requires Good(DArray(items))
    ensures ReadTree(Laid(DArray(items), st, depth) + tail) == Got(DArray(items), tail)
    decreases items, 1
  {
    hide ReadTree, ReadElements, SkipSpace, Newline;
    var end := Closing(items == [], st, depth) + ("]" + tail);
    var inner := LaidItems(items, st, depth + 1, true);
    assert Laid(DArray(items), st, depth) + tail == "[" + (inner + end);
    hide Laid;
    ItemsTextIs(items, st, depth + 1, true, end);
    if items == [] {
      assert inner + end == "]" + tail;
      EmptyContainers(tail);
    } else {
      var first := Laid(items[0], st, depth + 1) + ItemsText(items[1..], st, depth + 1, false, end);
      assert "" + (Newline(st, depth + 1) + first) == Newline(st, depth + 1) + first;
      LaidStarts(items[0], st, depth + 1);
      assert first[0] == Laid(items[0], st, depth + 1)[0];
      SkipLayout(st, depth + 1, first);
      OpensArray(Newline(st, depth + 1), first);
      ItemsReadBackLaid(items, [], st, depth, tail);
      assert [] + items == items;
    }
  }

  lemma {:induction false} ItemsReadBackLaid(items: seq<Doc>, seen: seq<Doc>, st: Style, depth: nat, tail: string)
    requires items != [] && Good(DArray(items))
    ensures var end := Newline(st, depth) + ("]" + tail);
            ReadElements(Laid(items[0], st, depth + 1) + ItemsText(items[1..], st, depth + 1, false, end), seen)
            == Got(DArray(seen + items), tail)
    decreases items, 0
  {
    hide ReadTree, ReadElements, Laid, SkipSpace, Newline, EndsNumber;
    var end := Newline(st, depth) + ("]" + tail);
    var after := ItemsText(items[1..], st, depth + 1, false, end);
    var s := Laid(items[0], st, depth + 1) + after;
    if |items| == 1 {
      LayoutEndsNumber(st, depth, "]" + tail);
      TreeReadsBack(items[0], st, depth + 1, after);
      SkipLayout(st, depth, "]" + tail);
      LastElement(s, items[0], Newline(st, depth), tail, seen);
      assert items == [items[0]];
    } else {
      var rest := items[1..];
      var next := Laid(rest[0], st, depth + 1) + ItemsText(rest[1..], st, depth + 1, false, end);
      assert after == "," + (Newline(st, depth + 1) + next);
      LayoutEndsNumber(st, depth, after);
      TreeReadsBack(items[0], st, depth + 1, after);
      LaidStarts(rest[0], st, depth + 1);
      assert next[0] == Laid(rest[0], st, depth + 1)[0];
      SkipLayout(st, depth + 1, next);
      OneElement(s, items[0], Newline(st, depth + 1), next, seen);
      ItemsReadBackLaid(rest, seen + [items[0]], st, depth, tail);
      assert (seen + [items[0]]) + rest == seen + items;
    }
  }

  lemma {:induction false} ObjectReadsBackLaid(members: seq<(string, Doc)>, st: Style, depth: nat, tail: string)
    requires Good(DObject(members))
    ensures ReadTree(Laid(DObject(members), st, depth) + tail) == Got(DObject(members), tail)
    decreases members, 1
  {
    hide ReadTree, ReadPairs, SkipSpace, Newline;
    var end := Closing(members == [], st, depth) + ("}" + tail);
    var inner := LaidMembers(members, st, depth + 1, true);
    assert Laid(DObject(members), st, depth) + tail == "{" + (inner + end);
    hide Laid, LaidMember;
    MembersTextIs(members, st, depth + 1, true, end);
    if members == [] {
      assert inner + end == "}" + tail;
      EmptyContainers(tail);
    } else {
      var first := LaidMember(members[0], st, depth + 1) + MembersText(members[1..], st, depth + 1, false, end);
      assert "" + (Newline(st, depth + 1) + first) == Newline(st, depth + 1) + first;
      PairStarts(members[0], st, depth + 1);
      assert first[0] == LaidMember(members[0], st, depth + 1)[0];
      SkipLayout(st, depth + 1, first);
      OpensObject(Newline(st, depth + 1), first);
      MembersReadBackLaid(members, [], st, depth, tail);
      assert [] + members == members;
    }
  }

  lemma {:induction false} MembersReadBackLaid(members: seq<(string, Doc)>, seen: seq<(string, Doc)>, st: Style,
                                               depth: nat, tail: string)
    requires members != [] && Good(DObject(members))
    ensures var end := Newline(st, depth) + ("}" + tail);
            ReadPairs(LaidMember(members[0], st, depth + 1) + MembersText(members[1..], st, depth + 1, false, end),
                      seen)
            == Got(DObject(seen + members), tail)
    decreases members, 0
  {
    hide ReadPair, ReadPairs, LaidMember, SkipSpace, Newline, EndsNumber;
    var end := Newline(st, depth) + ("}" + tail);
    var after := MembersText(members[1..], st, depth + 1, false, end);
    var s := LaidMember(members[0], st, depth + 1) + after;
    assert GoodMember(members[0]);
    if |members| == 1 {
      LayoutEndsNumber(st, depth, "}" + tail);
      PairReadsBack(members[0], st, depth + 1, after);
      SkipLayout(st, depth, "}" + tail);
      LastPair(s, members[0], Newline(st, depth), tail, seen);
      assert members == [members[0]];
    } else {
      var rest := members[1..];
      var next := LaidMember(rest[0], st, depth + 1) + MembersText(rest[1..], st, depth + 1, false, end);
      assert after == "," + (Newline(st, depth + 1) + next);
      LayoutEndsNumber(st, depth, after);
      PairReadsBack(members[0], st, depth + 1, after);
      PairStarts(rest[0], st, depth + 1);
      assert next[0] == LaidMember(rest[0], st, depth + 1)[0];
      SkipLayout(st, depth + 1, next);
      OnePair(s, members[0], Newline(st, depth + 1), next, seen);
      MembersReadBackLaid(rest, seen + [members[0]], st, depth, tail);
      assert (seen + [members[0]]) + rest == seen + members;
    }
  }

  lemma PairStarts(m: (string, Doc), st: Style, depth: nat)
    ensures StartsWith(LaidMember(m, st, depth), '\"')
  {
  }

  lemma {:induction false} PairReadsBack(m: (string, Doc), st: Style, depth: nat, tail: string)
    requires GoodMember(m) && EndsNumber(tail)
    ensures ReadPair(LaidMember(m, st, depth) + tail) == Got(m, tail)
    decreases m, 3
  {
    hide ReadString, ReadTree, Laid, EscapedText, EndsNumber;
    var value := Laid(m.1, st, depth) + tail;
    var s := LaidMember(m, st, depth) + tail;
    var colon := Colon(st) + value;
    assert s == "\"" + (EscapedText(m.0) + "\"" + colon);
    assert s[1..] == EscapedText(m.0) + "\"" + colon;
    TextReadsBack(m.0, colon);
    NoSpace(colon);
    LaidStarts(m.1, st, depth);
    assert value[0] == Laid(m.1, st, depth)[0];
    NoSpace(value);
    if st.pretty {
      assert colon[1..] == " " + value && (" " + value)[1..] == value;
      assert SkipSpace(" " + value) == SkipSpace(value);
    } else {
      assert colon[1..] == value;
    }
    TreeReadsBack(m.1, st, depth, tail);
  }

  /** Whatever the style, a laid out tree is a JSON text of exactly that tree. */
  lemma LaidSpells(d: Doc, st: Style)
    requires Good(d)
    ensures Spells(Laid(d, st, 0), d)
  {
    hide ReadTree, Laid;
    LaidStarts(d, st, 0);
    NoSpace(Laid(d, st, 0));
    assert Laid(d, st, 0) + "" == Laid(d, st, 0);
    TreeReadsBack(d, st, 0, "");
  }

  // ----- the text is valid UTF-8 throughout ----------------------------------------------

  lemma NumberIsAscii(literal: string)
    requires IsNumber(literal)
    ensures ValidUtf8(literal)
  {
    ReadKeepsAscii(literal);
    AsciiIsValid(literal);
  }

  predicate Ascii(s: string) {
    forall i :: 0 <= i < |s| ==> Between(s[i], 0, 0x7F)
  }

  lemma {:induction false} DigitsAreAscii(s: string)
    requires Ascii(SkipDigits(s))
    ensures Ascii(s)
    decreases |s|
  {
    if s != "" && IsDigit(s[0]) {
      DigitsAreAscii(s[1..]);
      assert forall i :: 0 < i < |s| ==> s[i] == s[1..][i - 1];
    }
  }

  lemma FrontIsAscii(s: string)
    requires s != "" && Between(s[0], 0, 0x7F) && Ascii(s[1..])
    ensures Ascii(s)
  {
    assert forall i :: 0 < i < |s| ==> s[i] == s[1..][i - 1];
  }

  lemma ReadKeepsAscii(literal: string)
    requires IsNumber(literal)
    ensures Ascii(literal)
  {
    hide SkipDigits, Ascii;
    var r := ReadInteger(literal).rest;
    var f := ReadFraction(r).rest;
    assert Ascii("") by { NothingIsAscii(); }
    if StartsWith(f, 'e') || StartsWith(f, 'E') {
      var t := f[1..];
      if StartsWith(t, '+') || StartsWith(t, '-') {
        DigitsAreAscii(t[1..]);
        FrontIsAscii(t);
      } else {
        DigitsAreAscii(t);
      }
      FrontIsAscii(f);
    }
    if StartsWith(r, '.') {
      DigitsAreAscii(r[1..]);
      FrontIsAscii(r);
    }
    if StartsWith(literal, '-') {
      DigitsAreAscii(literal[1..]);
      FrontIsAscii(literal);
    } else {
      DigitsAreAscii(literal);
    }
  }

  lemma NothingIsAscii()
    ensures Ascii("")
  {
  }

  /** Escaping keeps text valid: it works on whole characters. */
  lemma {:induction false} EscapedIsValid(s: string)
    requires ValidUtf8(s)
    ensures ValidUtf8(EscapedText(s))
    decreases |s|
  {
    hide EscapeAscii, CharLength;
    if s == "" {
    } else {
      var n := CharLength(s);
      EscapedIsValid(s[n..]);
      FirstCharIsValid(s);
      if LineSeparator(s) {
        SeparatorLength(s);
        AsciiIsValid(SeparatorText(s));
        ValidJoins(SeparatorText(s), EscapedText(s[3..]));
      } else if n == 1 {
        LengthOne(s);
        AsciiEscapes(s[0]);
        ValidJoins(EscapeAscii(s[0]), EscapedText(s[1..]));
      } else {
        CopiedWhole(s, n);
        ValidJoins(s[..n], EscapedText(s[n..]));
      }
    }
  }

  lemma SeparatorLength(s: string)
    requires LineSeparator(s)
    ensures CharLength(s) == 3
  {
  }

  lemma LengthOne(s: string)
    requires CharLength(s) == 1
    ensures s[0] as int < 0x80
  {
  }

  lemma AsciiEscapes(c: char)
    requires c as int < 0x80
    ensures ValidUtf8(EscapeAscii(c))
  {
    AsciiIsValid(EscapeAscii(c));
  }

  lemma RawByte(s: string)
    requires s != "" && s[0] as int >= 0x80 && !LineSeparator(s)
    ensures EscapedText(s) == [s[0]] + EscapedText(s[1..])
  {
  }

  lemma {:induction false} TailsAreCopied(s: string, i: nat, n: nat)
    requires i <= n <= |s| && forall j :: i <= j < n ==> Tail(s[j])
    ensures EscapedText(s[i..]) == s[i..n] + EscapedText(s[n..])
    decreases n - i
  {
    hide EscapedText;
    if i == n {
      assert s[i..n] + EscapedText(s[n..]) == EscapedText(s[n..]);
    } else {
      assert s[i..][0] == s[i] && s[i..][1..] == s[i + 1..];
      RawByte(s[i..]);
      TailsAreCopied(s, i + 1, n);
      assert s[i..n] == [s[i]] + s[i + 1..n];
      assert [s[i]] + (s[i + 1..n] + EscapedText(s[n..])) == s[i..n] + EscapedText(s[n..]);
    }
  }

  lemma LongCharacter(s: string)
    requires CharLength(s) >= 2
    ensures s[0] as int >= 0x80 && forall j :: 1 <= j < CharLength(s) ==> Tail(s[j])
  {
  }

  /** A longer character is copied byte by byte. */
  lemma CopiedWhole(s: string, n: nat)
    requires CharLength(s) == n >= 2 && !LineSeparator(s)
    ensures EscapedText(s) == s[..n] + EscapedText(s[n..])
  {
    LongCharacter(s);
    hide EscapedText, CharLength, LineSeparator, Tail;
    RawByte(s);
    TailsAreCopied(s, 1, n);
    Regroup([s[0]], s[1..n], EscapedText(s[n..]));
    assert s[..n] == [s[0]] + s[1..n];
  }

  lemma Regroup(a: string, b: string, c: string)
    ensures a + (b + c) == (a + b) + c
  {
  }

  lemma QuotedIsValid(s: string)
    requires ValidUtf8(s)
    ensures ValidUtf8(QuotedText(s))
  {
    hide EscapedText;
    EscapedIsValid(s);
    AsciiIsValid("\"");
    ValidJoins("\"", EscapedText(s));
    ValidJoins("\"" + EscapedText(s), "\"");
  }

  lemma {:induction false} LaidIsValid(d: Doc, st: Style, depth: nat)
    requires Good(d)
    ensures ValidUtf8(Laid(d, st, depth))
    decreases d, 2
  {
    hide ValidUtf8, QuotedText;
    match d
    case DNull => AsciiIsValid("null");
    case DBool(b) => AsciiIsValid(if b then "true" else "false");
    case DNumber(literal) => NumberIsAscii(literal);
    case DText(t) => QuotedIsValid(t);
    case DArray(items) =>
      ItemsAreValid(items, st, depth + 1, true);
      Enclosed("[", LaidItems(items, st, depth + 1, true), Closing(items == [], st, depth), "]");
    case DObject(members) =>
      MembersAreValid(members, st, depth + 1, true);
      Enclosed("{", LaidMembers(members, st, depth + 1, true), Closing(members == [], st, depth), "}");
  }

  lemma Enclosed(open: string, inner: string, closing: string, close: string)
    requires Ascii(open) && ValidUtf8(inner) && Ascii(closing) && Ascii(close)
    ensures ValidUtf8(open + inner + closing + close)
  {
    hide ValidUtf8;
    AsciiIsValid(open);
    AsciiIsValid(closing);
    AsciiIsValid(close);
    ValidJoins(open, inner);
    ValidJoins(open + inner, closing);
    ValidJoins(open + inner + closing, close);
  }

  lemma {:induction false} ItemsAreValid(items: seq<Doc>, st: Style, depth: nat, first: bool)
    requires Good(DArray(items))
    ensures ValidUtf8(LaidItems(items, st, depth, first))
    decreases items, 1
  {
    hide Laid;
    if items == [] {
    } else {
      LaidIsValid(items[0], st, depth);
      ItemsAreValid(items[1..], st, depth, false);
      hide ValidUtf8;
      Enclosed(Comma(first) + Newline(st, depth), Laid(items[0], st, depth), "", "");
      var front := Comma(first) + Newline(st, depth) + Laid(items[0], st, depth);
      assert front + "" + "" == front;
      ValidJoins(front, LaidItems(items[1..], st, depth, false));
    }
  }

  lemma {:induction false} MembersAreValid(members: seq<(string, Doc)>, st: Style, depth: nat, first: bool)
    requires Good(DObject(members))
    ensures ValidUtf8(LaidMembers(members, st, depth, first))
    decreases members, 1
  {
    hide LaidMember;
    if members == [] {
    } else {
      assert GoodMember(members[0]);
      MemberIsValid(members[0], st, depth);
      MembersAreValid(members[1..], st, depth, false);
      hide ValidUtf8;
      Enclosed(Comma(first) + Newline(st, depth), LaidMember(members[0], st, depth), "", "");
      var front := Comma(first) + Newline(st, depth) + LaidMember(members[0], st, depth);
      assert front + "" + "" == front;
      ValidJoins(front, LaidMembers(members[1..], st, depth, false));
    }
  }

  lemma {:induction false} MemberIsValid(m: (string, Doc), st: Style, depth: nat)
    requires GoodMember(m)
    ensures ValidUtf8(LaidMember(m, st, depth))
    decreases m, 3
  {
    hide QuotedText, Laid;
    QuotedIsValid(m.0);
    LaidIsValid(m.1, st, depth);
    hide ValidUtf8;
    AsciiIsValid(Colon(st));
    ValidJoins(QuotedText(m.0), Colon(st));
    ValidJoins(QuotedText(m.0) + Colon(st), Laid(m.1, st, depth));
  }
}
