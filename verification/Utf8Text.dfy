/**
 * UTF-8 checking, repair and excerpts. A text is a sequence of bytes, one per char.
 */
module Utf8Text {

  // ----- well-formed characters (section 4 of RFC 3629) ----------------------------------

  predicate Tail(c: char) {
    0x80 as char <= c <= 0xBF as char
  }

  predicate Between(c: char, low: int, high: int) {
    low <= c as int <= high
  }

  predicate SecondOfThree(lead: char, second: char) {
    || (Between(lead, 0xE0, 0xE0) && Between(second, 0xA0, 0xBF))
    || (Between(lead, 0xE1, 0xEC) && Tail(second))
    || (Between(lead, 0xED, 0xED) && Between(second, 0x80, 0x9F))
    || (Between(lead, 0xEE, 0xEF) && Tail(second))
  }

  predicate SecondOfFour(lead: char, second: char) {
    || (Between(lead, 0xF0, 0xF0) && Between(second, 0x90, 0xBF))
    || (Between(lead, 0xF1, 0xF3) && Tail(second))
    || (Between(lead, 0xF4, 0xF4) && Between(second, 0x80, 0x8F))
  }

  /** The length of the well-formed character a text starts with; 0 when it starts with none. */
  function CharLength(s: string): (n: nat)
    ensures n <= 4 && n <= |s|
  {
    if s == "" then 0
    else if Between(s[0], 0, 0x7F) then 1
    else if |s| >= 2 && Between(s[0], 0xC2, 0xDF) && Tail(s[1]) then 2
    else if |s| >= 3 && SecondOfThree(s[0], s[1]) && Tail(s[2]) then 3
    else if |s| >= 4 && SecondOfFour(s[0], s[1]) && Tail(s[2]) && Tail(s[3]) then 4
    else 0
  }

  predicate ValidUtf8(s: string) {
    s == "" || (CharLength(s) > 0 && ValidUtf8(s[CharLength(s)..]))
  }

  lemma CharStaysFirst(s: string, tail: string)
    requires CharLength(s) > 0
    ensures CharLength(s + tail) == CharLength(s)
  {
    assert forall i :: 0 <= i < |s| ==> (s + tail)[i] == s[i];
  }

  lemma CharIsItsPrefix(s: string, n: nat)
    requires 0 < CharLength(s) <= n <= |s|
    ensures CharLength(s[..n]) == CharLength(s)
  {
    assert forall i :: 0 <= i < n ==> s[..n][i] == s[i];
  }

  lemma FirstCharIsValid(s: string)
    requires CharLength(s) > 0
    ensures ValidUtf8(s[..CharLength(s)])
  {
    hide CharLength;
    var n := CharLength(s);
    CharIsItsPrefix(s, n);
    assert s[..n][n..] == "";
  }

  lemma {:induction false} ValidJoins(a: string, b: string)
    requires ValidUtf8(a)
    ensures ValidUtf8(a + b) == ValidUtf8(b)
    decreases |a|
  {
    hide CharLength;
    if a == "" {
      assert a + b == b;
    } else {
      var n := CharLength(a);
      CharStaysFirst(a, b);
      ValidJoins(a[n..], b);
      assert (a + b)[n..] == a[n..] + b;
    }
  }

  // ----- checking ------------------------------------------------------------------------

  method IsValidUtf8(text: string) returns (valid: bool)
    ensures valid == ValidUtf8(text)
  {
    hide ValidUtf8, CharLength;
    var i := 0;
    assert text[0..] == text;
    while i < |text|
      invariant i <= |text| && ValidUtf8(text) == ValidUtf8(text[i..])
      decreases |text| - i
    {
      OneChar(text, i);
      var length := LengthAt(text, i);
      if length == 0 { return false; }
      i := i + length;
    }
    assert ValidUtf8(text[i..]) by { NothingIsValid(text[i..]); }
    return true;
  }

  lemma NothingIsValid(s: string)
    requires s == ""
    ensures ValidUtf8(s)
  {
  }

  lemma OneChar(text: string, i: nat)
    requires i < |text|
    ensures var n := CharLength(text[i..]); ValidUtf8(text[i..]) == (n > 0 && ValidUtf8(text[i + n..]))
  {
    hide CharLength;
    var n := CharLength(text[i..]);
    assert text[i..][n..] == text[i + n..];
  }

  /** The lead byte decides how many continuation bytes follow; overlong forms and surrogates are refused. */
  method LengthAt(text: string, i: nat) returns (length: nat)
    requires i < |text|
    ensures length == CharLength(text[i..])
  {
    ghost var s := text[i..];
    var lead := text[i];
    assert s[0] == lead && forall j :: 0 <= j < |s| ==> s[j] == text[i + j];
    if Between(lead, 0, 0x7F) { return 1; }
    if Between(lead, 0xC2, 0xDF) {
      if !ContinuationAt(text, i + 1) { return 0; }
      return 2;
    }
    if Between(lead, 0xE0, 0xEF) {
      if !ContinuationAt(text, i + 1) || !ContinuationAt(text, i + 2) { return 0; }
      var second := text[i + 1];
      if lead as int == 0xE0 && (second as int) < 0xA0 { return 0; }
      if lead as int == 0xED && second as int > 0x9F { return 0; }
      return 3;
    }
    if Between(lead, 0xF0, 0xF4) {
      if !ContinuationAt(text, i + 1) || !ContinuationAt(text, i + 2) || !ContinuationAt(text, i + 3) { return 0; }
      var second := text[i + 1];
      if lead as int == 0xF0 && (second as int) < 0x90 { return 0; }
      if lead as int == 0xF4 && second as int > 0x8F { return 0; }
      return 4;
    }
    return 0;
  }

  predicate ContinuationAt(text: string, i: nat) {
    i < |text| && Tail(text[i])
  }

  // ----- repair --------------------------------------------------------------------------

  /** Well-formed characters kept, every other byte replaced. */
  function Repaired(s: string): string {
    if s == "" then ""
    else
      var n := CharLength(s);
      if n > 0 then s[..n] + Repaired(s[n..]) else "?" + Repaired(s[1..])
  }

  /** Repair always yields valid text, and leaves valid text as it is. */
  lemma {:induction false} RepairedIsValid(s: string)
    ensures ValidUtf8(Repaired(s)) && (ValidUtf8(s) ==> Repaired(s) == s)
    decreases |s|
  {
    hide CharLength;
    if s == "" {
    } else {
      var n := CharLength(s);
      if n > 0 {
        RepairedIsValid(s[n..]);
        FirstCharIsValid(s);
        ValidJoins(s[..n], Repaired(s[n..]));
        assert s[..n] + s[n..] == s;
      } else {
        RepairedIsValid(s[1..]);
        AsciiIsValid("?");
        ValidJoins("?", Repaired(s[1..]));
      }
    }
  }

  /** The shortest valid stretch from a position is the character there. */
  lemma ShortestStretch(s: string, n: nat)
    requires 0 < n <= |s| && n <= 4
    requires forall m :: 0 < m < n ==> !ValidUtf8(s[..m])
    ensures ValidUtf8(s[..n]) <==> CharLength(s) == n
  {
    hide CharLength;
    if CharLength(s) == n { FirstCharIsValid(s); }
    if ValidUtf8(s[..n]) {
      var m := CharLength(s[..n]);
      FirstCharIsValid(s[..n]);
      assert s[..n][..m] == s[..m];
      CharStaysFirst(s[..n], s[n..]);
      assert s[..n] + s[n..] == s;
    }
  }

  method StretchAt(text: string, i: nat) returns (length: nat)
    requires i < |text|
    ensures length == CharLength(text[i..])
  {
    hide CharLength, ValidUtf8;
    ghost var s := text[i..];
    for n := 1 to 5
      invariant forall m :: 0 < m < n && m <= |s| ==> !ValidUtf8(s[..m]) && CharLength(s) != m
    {
      if i + n > |text| { break; }
      assert text[i..i + n] == s[..n];
      ShortestStretch(s, n);
      var valid := IsValidUtf8(text[i..i + n]);
      if valid { return n; }
      assert !ValidUtf8(s[..n]) && CharLength(s) != n;
    }
    assert |s[..CharLength(s)]| == CharLength(s);
    return 0;
  }

  method ToValidUtf8(text: string) returns (out: string)
    ensures out == Repaired(text) && ValidUtf8(out) && (ValidUtf8(text) ==> out == text)
  {
    hide CharLength, ValidUtf8, Repaired;
    RepairedIsValid(text);
    var valid := IsValidUtf8(text);
    if valid { return text; }
    out := "";
    var i := 0;
    assert text[0..] == text && out + Repaired(text) == Repaired(text);
    while i < |text|
      invariant i <= |text| && Repaired(text) == out + Repaired(text[i..])
      decreases |text| - i
    {
      var length := StretchAt(text, i);
      RepairFrom(text, i, out);
      if length == 0 {
        out := out + "?";
        i := i + 1;
      } else {
        out := out + text[i..i + length];
        i := i + length;
      }
    }
    assert text[|text|..] == "";
    NothingToRepair(out);
  }

  /** What is repaired from position i on, behind what was written. */
  lemma RepairFrom(text: string, i: nat, out: string)
    requires i < |text|
    ensures var n := CharLength(text[i..]);
            out + Repaired(text[i..]) ==
            if n > 0 then (out + text[i..i + n]) + Repaired(text[i + n..]) else (out + "?") + Repaired(text[i + 1..])
  {
    hide CharLength;
    var s, n := text[i..], CharLength(text[i..]);
    assert s[n..] == text[i + n..] && s[..n] == text[i..i + n];
    assert s[1..] == text[i + 1..];
  }

  lemma NothingToRepair(out: string)
    ensures out + Repaired("") == out
  {
  }

  // ----- excerpts ------------------------------------------------------------------------

  /** In valid text, a position is between characters exactly when no continuation byte is there. */
  lemma {:induction false} Boundaries(s: string, i: nat)
    requires ValidUtf8(s) && i < |s|
    ensures !Tail(s[i]) <==> ValidUtf8(s[..i])
    ensures ValidUtf8(s[..i]) ==> ValidUtf8(s[i..])
    decreases |s|
  {
    hide CharLength;
    var n := CharLength(s);
    if i == 0 {
      FirstIsNoTail(s);
      assert s[..0] == "" && s[0..] == s;
    } else if i < n {
      InsideAChar(s, i);
    } else {
      FirstCharIsValid(s);
      if i == n {
        FirstIsNoTail(s[n..]);
      } else {
        Boundaries(s[n..], i - n);
        assert s[n..][..i - n] == s[n..i] && s[..i] == s[..n] + s[n..i];
        ValidJoins(s[..n], s[n..i]);
        assert s[n..][i - n..] == s[i..];
      }
    }
  }

  lemma FirstIsNoTail(s: string)
    requires CharLength(s) > 0
    ensures !Tail(s[0])
  {
  }

  lemma InsideAChar(s: string, i: nat)
    requires 0 < i < CharLength(s)
    ensures Tail(s[i]) && !ValidUtf8(s[..i])
  {
    var p := s[..i];
    assert forall j :: 0 <= j < i ==> p[j] == s[j];
    assert p != "" && CharLength(p) == 0;
  }

  /** At most `maxBytes` of a valid text, cut at the last place between characters that fits. */
  method Utf8Excerpt(text: string, maxBytes: nat) returns (out: string)
    ensures |text| <= maxBytes ==> out == text
    ensures |text| > maxBytes ==>
              exists end :: 0 <= end <= maxBytes && out == text[..end] + "..."
                && (ValidUtf8(text) ==>
                      ValidUtf8(text[..end]) && forall i :: end < i <= maxBytes ==> !ValidUtf8(text[..i]))
    ensures ValidUtf8(text) ==> ValidUtf8(out)
  {
    hide ValidUtf8;
    if |text| <= maxBytes { return text; }
    var end := maxBytes;
    while end > 0 && Tail(text[end])
      invariant 0 <= end <= maxBytes
      invariant ValidUtf8(text) ==> forall i :: end < i <= maxBytes ==> !ValidUtf8(text[..i])
      decreases end
    {
      if ValidUtf8(text) { Boundaries(text, end); }
      end := end - 1;
    }
    if ValidUtf8(text) {
      if end > 0 { Boundaries(text, end); } else { NothingIsValid(text[..0]); }
      ValidJoins(text[..end], "...");
      AsciiIsValid("...");
    }
    return text[..end] + "...";
  }

  lemma {:induction false} AsciiIsValid(s: string)
    requires forall i :: 0 <= i < |s| ==> Between(s[i], 0, 0x7F)
    ensures ValidUtf8(s)
    decreases |s|
  {
    if s == "" {
    } else {
      AsciiIsValid(s[1..]);
    }
  }

  // ----- what the well-formed characters encode ------------------------------------------

  /** A Unicode scalar value: a code point that is not a surrogate. */
  predicate Scalar(c: nat) {
    c <= 0x10FFFF && !(0xD800 <= c <= 0xDFFF)
  }

  /** Section 3 of RFC 3629: the bits of the code point, six to a continuation byte. */
  function Encoded(c: nat): string
    requires Scalar(c)
  {
    if c < 0x80 then [c as char]
    else if c < 0x800 then [(0xC0 + c / 0x40) as char, (0x80 + c % 0x40) as char]
    else if c < 0x1_0000 then
      [(0xE0 + c / 0x1000) as char, (0x80 + c / 0x40 % 0x40) as char, (0x80 + c % 0x40) as char]
    else
      [(0xF0 + c / 0x4_0000) as char, (0x80 + c / 0x1000 % 0x40) as char, (0x80 + c / 0x40 % 0x40) as char,
       (0x80 + c % 0x40) as char]
  }

  function CodePoint(s: string): nat
    requires CharLength(s) > 0
  {
    match CharLength(s)
    case 1 => s[0] as int
    case 2 => (s[0] as int - 0xC0) * 0x40 + (s[1] as int - 0x80)
    case 3 => (s[0] as int - 0xE0) * 0x1000 + (s[1] as int - 0x80) * 0x40 + (s[2] as int - 0x80)
    case _ => (s[0] as int - 0xF0) * 0x4_0000 + (s[1] as int - 0x80) * 0x1000 + (s[2] as int - 0x80) * 0x40
              + (s[3] as int - 0x80)
  }

  /** The base-64 digits of a number below 64 to the fourth. */
  lemma Digits64(a: nat, b: nat, d: nat, e: nat)
    requires b < 0x40 && d < 0x40 && e < 0x40
    ensures var c := a * 0x4_0000 + b * 0x1000 + d * 0x40 + e;
            c / 0x4_0000 == a && c / 0x1000 % 0x40 == b && c / 0x40 % 0x40 == d && c % 0x40 == e
  {
    var c := a * 0x4_0000 + b * 0x1000 + d * 0x40 + e;
    assert c / 0x40 == a * 0x1000 + b * 0x40 + d;
    assert c / 0x1000 == a * 0x40 + b;
  }

  lemma EncodedIsAChar(c: nat, tail: string)
    requires Scalar(c)
    ensures CharLength(Encoded(c) + tail) == |Encoded(c)| > 0
  {
    var e := Encoded(c);
    EncodedBytes(c);
    hide Encoded;
    assert forall i :: 0 <= i < |e| ==> (e + tail)[i] == e[i];
  }

  /** The bytes of a code point are in the ranges of the table. */
  lemma EncodedBytes(c: nat)
    requires Scalar(c)
    ensures var s := Encoded(c);
            match |s|
            case 1 => Between(s[0], 0, 0x7F)
            case 2 => Between(s[0], 0xC2, 0xDF) && Tail(s[1])
            case 3 => SecondOfThree(s[0], s[1]) && Tail(s[2])
            case 4 => SecondOfFour(s[0], s[1]) && Tail(s[2]) && Tail(s[3])
            case _ => false
  {
    if c < 0x80 {
    } else if c < 0x800 {
      assert 2 <= c / 0x40 <= 0x1F;
    } else if c < 0x1_0000 {
      ThreeBytes(c / 0x1000, c / 0x40 % 0x40, c % 0x40, c);
    } else {
      FourBytes(c / 0x4_0000, c / 0x1000 % 0x40, c / 0x40 % 0x40, c % 0x40, c);
    }
  }

  lemma ThreeBytes(a: nat, b: nat, d: nat, c: nat)
    requires 0x800 <= c < 0x1_0000 && Scalar(c)
    requires a == c / 0x1000 && b == c / 0x40 % 0x40 && d == c % 0x40
    ensures a < 0x10 && b < 0x40 && d < 0x40
    ensures SecondOfThree((0xE0 + a) as char, (0x80 + b) as char) && Tail((0x80 + d) as char)
  {
    assert c == a * 0x1000 + b * 0x40 + d by { assert c / 0x40 == a * 0x40 + b; }
  }

  lemma FourBytes(a: nat, b: nat, d: nat, e: nat, c: nat)
    requires 0x1_0000 <= c <= 0x10FFFF
    requires a == c / 0x4_0000 && b == c / 0x1000 % 0x40 && d == c / 0x40 % 0x40 && e == c % 0x40
    ensures a <= 4 && b < 0x40 && d < 0x40 && e < 0x40
    ensures SecondOfFour((0xF0 + a) as char, (0x80 + b) as char)
    ensures Tail((0x80 + d) as char) && Tail((0x80 + e) as char)
  {
    assert c / 0x1000 == a * 0x40 + b;
  }

  lemma CharIsEncoded(s: string)
    requires CharLength(s) > 0
    ensures Scalar(CodePoint(s)) && s[..CharLength(s)] == Encoded(CodePoint(s))
  {
    var n := CharLength(s);
    assert forall i :: 0 <= i < n ==> s[..n][i] == s[i];
    if n == 2 {
      TwoByteChar(s);
    } else if n == 3 {
      ThreeByteChar(s);
    } else if n == 4 {
      FourByteChar(s);
    }
  }

  lemma TwoByteChar(s: string)
    requires CharLength(s) == 2
    ensures Scalar(CodePoint(s)) && s[..2] == Encoded(CodePoint(s))
  {
    var d, e := s[0] as int - 0xC0, s[1] as int - 0x80;
    Digits64(0, 0, d, e);
    assert CodePoint(s) == d * 0x40 + e && 0x80 <= CodePoint(s) < 0x800 && CodePoint(s) / 0x40 == d;
  }

  lemma ThreeByteChar(s: string)
    requires CharLength(s) == 3
    ensures Scalar(CodePoint(s)) && s[..3] == Encoded(CodePoint(s))
  {
    var b, d, e := s[0] as int - 0xE0, s[1] as int - 0x80, s[2] as int - 0x80;
    Digits64(0, b, d, e);
    assert CodePoint(s) == b * 0x1000 + d * 0x40 + e && 0x800 <= CodePoint(s) < 0x1_0000;
    assert CodePoint(s) / 0x1000 == b;
  }

  lemma FourByteChar(s: string)
    requires CharLength(s) == 4
    ensures Scalar(CodePoint(s)) && s[..4] == Encoded(CodePoint(s))
  {
    var a, b, d, e := s[0] as int - 0xF0, s[1] as int - 0x80, s[2] as int - 0x80, s[3] as int - 0x80;
    Digits64(a, b, d, e);
    assert CodePoint(s) == a * 0x4_0000 + b * 0x1000 + d * 0x40 + e && 0x1_0000 <= CodePoint(s) <= 0x10FFFF;
  }

  function EncodedAll(codePoints: seq<nat>): string
    requires forall c :: c in codePoints ==> Scalar(c)
  {
    if codePoints == [] then "" else Encoded(codePoints[0]) + EncodedAll(codePoints[1..])
  }

  ghost predicate Encodes(codePoints: seq<nat>, s: string) {
    (forall c :: c in codePoints ==> Scalar(c)) && EncodedAll(codePoints) == s
  }

  lemma {:induction false} EncodingIsValid(codePoints: seq<nat>)
    requires forall c :: c in codePoints ==> Scalar(c)
    ensures ValidUtf8(EncodedAll(codePoints))
    decreases |codePoints|
  {
    hide Encoded, CharLength, Scalar;
    if codePoints == [] {
    } else {
      var first, rest := Encoded(codePoints[0]), EncodedAll(codePoints[1..]);
      EncodingIsValid(codePoints[1..]);
      EncodedIsAChar(codePoints[0], rest);
      assert (first + rest)[|first|..] == rest;
    }
  }

  lemma {:induction false} ValidIsAnEncoding(s: string) returns (codePoints: seq<nat>)
    requires ValidUtf8(s)
    ensures Encodes(codePoints, s)
    decreases |s|
  {
    hide Encoded, CharLength, Scalar, CodePoint;
    if s == "" {
      codePoints := [];
    } else {
      var n := CharLength(s);
      CharIsEncoded(s);
      var rest := ValidIsAnEncoding(s[n..]);
      codePoints := [CodePoint(s)] + rest;
      assert codePoints[1..] == rest && s == s[..n] + s[n..];
    }
  }

  /** Valid is exactly what encodes some sequence of Unicode scalar values: nothing overlong, no surrogate. */
  lemma ValidMeansEncoded(s: string)
    ensures ValidUtf8(s) <==> exists codePoints :: Encodes(codePoints, s)
  {
    hide ValidUtf8, EncodedAll, Scalar;
    if ValidUtf8(s) {
      var codePoints := ValidIsAnEncoding(s);
    } else if codePoints :| Encodes(codePoints, s) {
      EncodingIsValid(codePoints);
    }
  }
}
