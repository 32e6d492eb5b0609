/** The parser as it runs: one position moving over the text, proved to read what Json describes. */
module JsonParsing {
  import opened Domain
  import opened Json
  import opened Numerals

  lemma Drop(text: string, pos: nat, k: nat)
    requires pos + k <= |text|
    ensures text[pos..][k..] == text[pos + k..]
  {
  }

  // What follows a member or an item.
  datatype Separation = More | Closed | Neither

  class Parser {
    const text: string
    var pos: nat

    ghost predicate Valid()
      reads this
    {
      pos <= |text|
    }

    ghost function Rest(): string
      reads this
      requires Valid()
    {
      text[pos..]
    }

    /** The position moved, and the result given, as the description says. */
    ghost predicate Did<T>(r: Read<T>, out: Option<T>)
      reads this
    {
      Valid() && match r
                 case Fail => out.None?
                 case Got(v, rest) => out == Some(v) && Rest() == rest
    }

    constructor (text: string)
      ensures Valid() && this.text == text && Rest() == text
    {
      this.text, pos := text, 0;
    }

    predicate At(c: char)
      reads this
      requires Valid()
    {
      pos < |text| && text[pos] == c
    }

    method SkipWs()
      requires Valid()
      modifies this
      ensures Valid() && Rest() == SkipSpace(old(Rest())) && pos >= old(pos)
    {
      while pos < |text| && (text[pos] == ' ' || text[pos] == '\t' || text[pos] == '\n' || text[pos] == '\r')
        invariant Valid() && SkipSpace(Rest()) == SkipSpace(old(Rest())) && pos >= old(pos)
        decreases |text| - pos
      {
        Drop(text, pos, 1);
        pos := pos + 1;
      }
    }

    method Literal(word: string, value: Value) returns (out: Option<Value>)
      requires Valid()
      modifies this
      ensures Did(ReadLiteral(old(Rest()), word, value), out)
    {
      var end := if pos + |word| <= |text| then pos + |word| else |text|;
      if text[pos..end] != word { return None; }
      assert word <= Rest() by { assert text[pos..end] == Rest()[..end - pos]; }
      Drop(text, pos, |word|);
      pos := pos + |word|;
      return Some(value);
    }

    method Digits() returns (count: nat)
      requires Valid()
      modifies this
      ensures Valid() && Rest() == SkipDigits(old(Rest())) && pos == old(pos) + count
    {
      var start := pos;
      while pos < |text| && '0' <= text[pos] <= '9'
        invariant Valid() && SkipDigits(Rest()) == SkipDigits(old(Rest())) && pos >= start
        decreases |text| - pos
      {
        Drop(text, pos, 1);
        pos := pos + 1;
      }
      count := pos - start;
    }

    method ParseNumber() returns (out: Option<Value>)
      requires Valid()
      modifies this
      ensures Did(ReadNumber(old(Rest())), out)
    {
      hide ReadInteger, ReadFraction, ReadExponent;
      var start := pos;
      var ok := ParseInteger();
      if !ok { return None; }
      ok := ParseFraction();
      if !ok { return None; }
      ok := ParseExponent();
      if !ok { return None; }
      assert old(Rest())[..|old(Rest())| - |Rest()|] == text[start..pos];
      return Some(Number(text[start..pos]));
    }

    method ParseInteger() returns (ok: bool)
      requires Valid()
      modifies this
      ensures Did(ReadInteger(old(Rest())), if ok then Some(()) else None)
      ensures pos >= old(pos)
    {
      hide SkipDigits;
      if At('-') {
        Drop(text, pos, 1);
        pos := pos + 1;
      }
      var intStart := pos;
      var intDigits := Digits();
      return intDigits != 0 && !(intDigits > 1 && text[intStart] == '0');
    }

    method ParseFraction() returns (ok: bool)
      requires Valid()
      modifies this
      ensures Did(ReadFraction(old(Rest())), if ok then Some(()) else None)
      ensures pos >= old(pos)
    {
      hide SkipDigits;
      if At('.') {
        Drop(text, pos, 1);
        pos := pos + 1;
        var count := Digits();
        return count != 0;
      }
      return true;
    }

    method ParseExponent() returns (ok: bool)
      requires Valid()
      modifies this
      ensures Did(ReadExponent(old(Rest())), if ok then Some(()) else None)
      ensures pos >= old(pos)
    {
      hide SkipDigits;
      if At('e') || At('E') {
        Drop(text, pos, 1);
        pos := pos + 1;
        if At('+') || At('-') {
          Drop(text, pos, 1);
          pos := pos + 1;
        }
        var count := Digits();
        return count != 0;
      }
      return true;
    }

    method Hex4() returns (out: Option<nat>)
      requires Valid()
      modifies this
      ensures Did(ReadHex4(old(Rest())), out)
    {
      hide HexValue;
      if pos + 4 > |text| { return None; }
      ghost var start, s := pos, Rest();
      var value := 0;
      for i := 0 to 4
        invariant pos == start + i && Valid() && value >= 0
        invariant forall j :: 0 <= j < i ==> HexValue(s[j]) >= 0
        invariant i == 1 ==> value == HexValue(s[0])
        invariant i == 2 ==> value == HexValue(s[0]) * 16 + HexValue(s[1])
        invariant i == 3 ==> value == (HexValue(s[0]) * 16 + HexValue(s[1])) * 16 + HexValue(s[2])
        invariant i == 4 ==>
                    value == ((HexValue(s[0]) * 16 + HexValue(s[1])) * 16 + HexValue(s[2])) * 16 + HexValue(s[3])
        invariant i == 0 ==> value == 0
      {
        var digit := HexValue(text[pos]);
        assert text[pos] == s[i];
        pos := pos + 1;
        if digit < 0 { return None; }
        value := value * 16 + digit;
      }
      Drop(text, start, 4);
      return Some(value);
    }

    /** After \u. */
    method ParseUnicode() returns (out: Option<string>)
      requires Valid()
      modifies this
      ensures Did(ReadUnicode(old(Rest())), out)
    {
      hide ReadHex4, Utf8;
      var high := Hex4();
      if high.None? { return None; }
      var cp := high.value;
      if 0xD800 <= cp <= 0xDBFF {
        if pos + 2 > |text| || text[pos] != '\\' || text[pos + 1] != 'u' { return None; }
        Drop(text, pos, 2);
        assert "\\u" <= Rest() by { assert Rest()[..2] == "\\u"; }
        pos := pos + 2;
        var low := Hex4();
        if low.None? || low.value < 0xDC00 || low.value > 0xDFFF { return None; }
        cp := 0x10000 + (cp - 0xD800) * 1024 + (low.value - 0xDC00);
      } else if 0xDC00 <= cp <= 0xDFFF {
        return None;
      }
      return Some(Utf8(cp));
    }

    /** From the opening quote, through the closing one. */
    method ParseString() returns (out: Option<string>)
      requires Valid() && At('\"')
      modifies this
      ensures Did(ReadString(old(Rest())[1..]), out)
      ensures out.Some? ==> pos > old(pos)
    {
      hide ReadEscape, ReadString, Prepend;
      Drop(text, pos, 1);
      ghost var start := old(Rest())[1..];
      pos := pos + 1;
      var result := "";
      PrependNothing(ReadString(start));
      while pos < |text|
        invariant Valid() && pos > old(pos)
        invariant ReadString(start) == Prepend(result, ReadString(Rest()))
        decreases |text| - pos
      {
        var c := text[pos];
        NextChar(Rest(), result);
        Drop(text, pos, 1);
        pos := pos + 1;
        if c == '\"' { return Some(result); }
        if c < ' ' { return None; }
        if c != '\\' {
          result := result + [c];
          continue;
        }
        var escape := ParseEscape();
        if escape.None? { return None; }
        result := result + escape.value;
      }
      NoChar(result);
      return None;
    }

    lemma NextChar(s: string, result: string)
      requires s != ""
      ensures Prepend(result, ReadString(s)) ==
              if s[0] == '\"' then Got(result, s[1..])
              else if s[0] < ' ' then Fail
              else if s[0] != '\\' then Prepend(result + [s[0]], ReadString(s[1..]))
              else
                var e := ReadEscape(s[1..]);
                if e.Fail? then Fail else Prepend(result + e.value, ReadString(e.rest))
    {
      hide ReadEscape;
      if s[0] == '\"' {
        assert result + "" == result;
      } else if s[0] >= ' ' {
        if s[0] != '\\' {
          PrependTwice(result, [s[0]], ReadString(s[1..]));
        } else {
          var e := ReadEscape(s[1..]);
          if e.Got? { PrependTwice(result, e.value, ReadString(e.rest)); }
        }
      }
    }

    lemma NoChar(result: string)
      ensures Prepend(result, ReadString("")) == Fail
    {
    }

    lemma PrependNothing(r: Read<string>)
      ensures Prepend("", r) == r
    {
      if r.Got? { assert "" + r.value == r.value; }
    }

    lemma PrependTwice(a: string, b: string, r: Read<string>)
      ensures Prepend(a, Prepend(b, r)) == Prepend(a + b, r)
    {
      if r.Got? { assert a + (b + r.value) == a + b + r.value; }
    }

    /** After a backslash. */
    method ParseEscape() returns (out: Option<string>)
      requires Valid()
      modifies this
      ensures Did(ReadEscape(old(Rest())), out)
      ensures out.Some? ==> pos > old(pos)
    {
      hide ReadUnicode;
      if pos >= |text| { return None; }
      var escape := text[pos];
      Drop(text, pos, 1);
      pos := pos + 1;
      match escape
      case '\"' => return Some("\"");
      case '\\' => return Some("\\");
      case '/' => return Some("/");
      case 'b' => return Some([8 as char]);
      case 'f' => return Some([12 as char]);
      case 'n' => return Some("\n");
      case 'r' => return Some("\r");
      case 't' => return Some("\t");
      case 'u' => out := ParseUnicode();
      case _ => return None;
    }

    method ParseValue(depth: nat) returns (out: Option<Value>)
      requires Valid()
      modifies this
      ensures Did(ReadValue(old(Rest()), depth), out)
      ensures out.Some? ==> pos > old(pos)
      decreases |text| - pos, 3
    {
      hide ReadMembers, ReadItems, ReadString, ReadNumber, ReadLiteral, SkipSpace;
      if depth > MAX_DEPTH || pos >= |text| { return None; }
      var c := text[pos];
      if c == '{' {
        out := ParseObject(depth);
      } else if c == '[' {
        out := ParseArray(depth);
      } else if c == '\"' {
        var t := ParseString();
        out := if t.None? then None else Some(Text(t.value));
      } else if c == 't' {
        out := Literal("true", Bool(true));
      } else if c == 'f' {
        out := Literal("false", Bool(false));
      } else if c == 'n' {
        out := Literal("null", Null);
      } else {
        out := ParseNumber();
      }
    }

    /** The tail of either loop: a comma goes on, the closing character ends, anything else is refused. */
    method Separator(close: char) returns (mark: Separation)
      requires Valid() && close != ','
      modifies this
      ensures Valid() && pos >= old(pos)
      ensures var t := SkipSpace(old(Rest()));
              match mark
              case More => StartsWith(t, ',') && Rest() == SkipSpace(t[1..]) && pos > old(pos)
              case Closed => StartsWith(t, close) && Rest() == t[1..] && pos > old(pos)
              case Neither => !StartsWith(t, ',') && !StartsWith(t, close)
    {
      hide SkipSpace;
      SkipWs();
      if pos >= |text| { return Neither; }
      if text[pos] == ',' {
        Drop(text, pos, 1);
        pos := pos + 1;
        SkipWs();
        return More;
      }
      if text[pos] == close {
        Drop(text, pos, 1);
        pos := pos + 1;
        return Closed;
      }
      return Neither;
    }

    /** The start of either: past the opening character, and past the closing one if it comes at once. */
    method Opening(close: char) returns (empty: bool)
      requires Valid() && pos < |text|
      modifies this
      ensures Valid() && pos > old(pos)
      ensures var t := SkipSpace(old(Rest())[1..]);
              empty == StartsWith(t, close) && Rest() == if empty then t[1..] else t
    {
      hide SkipSpace;
      Drop(text, pos, 1);
      pos := pos + 1;
      SkipWs();
      empty := At(close);
      if empty {
        Drop(text, pos, 1);
        pos := pos + 1;
      }
    }

    method ParseObject(depth: nat) returns (out: Option<Value>)
      requires Valid() && At('{')
      modifies this
      ensures var t := SkipSpace(old(Rest())[1..]);
              Did(if StartsWith(t, '}') then Got(Object(map[]), t[1..]) else ReadMembers(t, map[], depth), out)
      decreases |text| - pos, 2
    {
      hide SkipSpace, ReadMember, ReadMembers, Rest;
      var empty := Opening('}');
      if empty { return Some(Object(map[])); }
      ghost var first := Rest();
      var members: map<string, Value> := map[];
      while true
        invariant Valid() && pos > old(pos)
        invariant ReadMembers(first, map[], depth) == ReadMembers(Rest(), members, depth)
        decreases |text| - pos
      {
        NextMember(Rest(), members, depth);
        var member := ParseMember(depth);
        if member.None? { return None; }
        if member.value.0 in members { return None; }
        members := members[member.value.0 := member.value.1];
        var mark := Separator('}');
        if mark == Neither { return None; }
        if mark == Closed { return Some(Object(members)); }
      }
    }

    lemma NextMember(s: string, seen: map<string, Value>, depth: nat)
      ensures ReadMembers(s, seen, depth) ==
              var member := ReadMember(s, depth);
              if member.Fail? || member.value.0 in seen then Fail
              else
                var now, t := seen[member.value.0 := member.value.1], SkipSpace(member.rest);
                if StartsWith(t, ',') then ReadMembers(SkipSpace(t[1..]), now, depth)
                else if StartsWith(t, '}') then Got(Object(now), t[1..])
                else Fail
    {
    }

    lemma NextItem(s: string, seen: seq<Value>, depth: nat)
      ensures ReadItems(s, seen, depth) ==
              var item := ReadValue(s, depth + 1);
              if item.Fail? then Fail
              else
                var now, t := seen + [item.value], SkipSpace(item.rest);
                if StartsWith(t, ',') then ReadItems(SkipSpace(t[1..]), now, depth)
                else if StartsWith(t, ']') then Got(Array(now), t[1..])
                else Fail
    {
    }

    method ParseMember(depth: nat) returns (out: Option<(string, Value)>)
      requires Valid()
      modifies this
      ensures Did(ReadMember(old(Rest()), depth), out)
      ensures out.Some? ==> pos > old(pos)
      decreases |text| - pos, 4
    {
      hide SkipSpace, ReadString, ReadValue;
      if pos >= |text| || text[pos] != '\"' { return None; }
      var key := ParseString();
      if key.None? { return None; }
      SkipWs();
      if pos >= |text| || text[pos] != ':' { return None; }
      Drop(text, pos, 1);
      pos := pos + 1;
      SkipWs();
      var value := ParseValue(depth + 1);
      if value.None? { return None; }
      return Some((key.value, value.value));
    }

    method ParseArray(depth: nat) returns (out: Option<Value>)
      requires Valid() && At('[')
      modifies this
      ensures var t := SkipSpace(old(Rest())[1..]);
              Did(if StartsWith(t, ']') then Got(Array([]), t[1..]) else ReadItems(t, [], depth), out)
      decreases |text| - pos, 2
    {
      hide SkipSpace, ReadValue, ReadItems, Rest;
      var empty := Opening(']');
      if empty { return Some(Array([])); }
      ghost var first := Rest();
      var items: seq<Value> := [];
      while true
        invariant Valid() && pos > old(pos)
        invariant ReadItems(first, [], depth) == ReadItems(Rest(), items, depth)
        decreases |text| - pos
      {
        NextItem(Rest(), items, depth);
        var item := ParseValue(depth + 1);
        if item.None? { return None; }
        items := items + [item.value];
        var mark := Separator(']');
        if mark == Neither { return None; }
        if mark == Closed { return Some(Array(items)); }
      }
    }

    method Document() returns (out: Option<Value>)
      requires pos == 0
      modifies this
      ensures out == match DocumentOf(text) case Got(v, _) => Some(v) case Fail => None
    {
      assert text[0..] == text;
      SkipWs();
      var value := ParseValue(0);
      if value.None? { return None; }
      SkipWs();
      if pos != |text| { return None; }
      return value;
    }
  }
}
