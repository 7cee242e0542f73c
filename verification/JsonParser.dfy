/** The recursive descent parser of include/radixforge/json_minimal.h: a position in the source text
    that its methods move. */
module JsonParser {
  import opened Bytes
  import opened JsonGrammar
  import opened JsonReading

  /** A result, or the exception that a syntax error raises. */
  datatype Parsed<T> = Value(value: T) | SyntaxError

  class Parser {
    const src: Text
    const finite: Text -> bool   // can the library represent this numeral as a finite double?
    var pos: nat

    ghost predicate Valid()
      reads this
    {
      pos <= |src|
    }

    ghost function Rest(): Text
      requires Valid()
      reads this
    {
      src[pos..]
    }

    constructor (input: Text, finite: Text -> bool)
      ensures Valid() && src == input && this.finite == finite && pos == 0
    {
      src, this.finite, pos := input, finite, 0;
    }

    method SkipWs()
      requires Valid()
      modifies this`pos
      ensures Valid() && pos >= old(pos) && Rest() == DropWs(old(Rest()))
    {
      while pos < |src| && IsWs(src[pos])
        invariant Valid() && pos >= old(pos) && DropWs(Rest()) == DropWs(old(Rest()))
      {
        assert Rest()[1..] == src[pos + 1..];
        pos := pos + 1;
      }
    }

    method Advance()
      requires Valid() && pos < |src|
      modifies this`pos
      ensures Valid() && pos == old(pos) + 1 && Rest() == old(Rest())[1..]
    {
      assert Rest()[1..] == src[pos + 1..];
      pos := pos + 1;
    }

    method SkipDigits()
      requires Valid()
      modifies this`pos
      ensures Valid() && pos >= old(pos) && Rest() == DropDigits(old(Rest()))
    {
      while pos < |src| && IsDigit(src[pos])
        invariant Valid() && pos >= old(pos) && DropDigits(Rest()) == DropDigits(old(Rest()))
      {
        assert Rest()[1..] == src[pos + 1..];
        pos := pos + 1;
      }
    }

    method Expect(c: Byte) returns (ok: bool)
      requires Valid()
      modifies this`pos
      ensures Valid() && pos >= old(pos)
      ensures var at := DropWs(old(Rest()));
              (ok <==> at != [] && at[0] == c) && (ok ==> pos > old(pos) && Rest() == at[1..])
    {
      SkipWs();
      if pos >= |src| || src[pos] != c { return false; }
      pos := pos + 1;
      return true;
    }

    /** Four hexadecimal digits. */
    method ParseUnicodeCodeUnit() returns (r: Parsed<int>)
      requires Valid()
      modifies this`pos
      ensures Valid() && pos >= old(pos)
      ensures ReadUnit(old(Rest())) == if r.Value? then Good(r.value, Rest()) else Bad
      ensures r.Value? ==> 0 <= r.value <= 0xFFFF
    {
      if pos + 4 > |src| { return SyntaxError; }
      ghost var h := Rest()[..4];
      var codeUnit := 0;
      var index := 0;
      while index < 4
        invariant 0 <= index <= 4 && pos == old(pos) + index
        invariant forall i | 0 <= i < index :: HexValue(h[i]) >= 0
        invariant codeUnit == Digits(h, index)
      {
        var value := HexValue(src[pos]);
        pos := pos + 1;
        assert h[index] == src[old(pos) + index];
        if value < 0 {
          assert !IsHex4(h);
          return SyntaxError;
        }
        codeUnit := codeUnit * 16 + value;
        index := index + 1;
      }
      assert codeUnit == Digits(h, 4) == CodeUnit(h) by {
        assert Digits(h, 1) == HexValue(h[0]);
        assert Digits(h, 2) == HexValue(h[0]) * 16 + HexValue(h[1]);
        assert Digits(h, 3) == (HexValue(h[0]) * 16 + HexValue(h[1])) * 16 + HexValue(h[2]);
      }
      assert old(Rest())[4..] == Rest();
      return Value(codeUnit);
    }

    method AppendUnicodeEscape() returns (r: Parsed<Text>)
      requires Valid()
      modifies this`pos
      ensures Valid() && pos >= old(pos)
      ensures ReadUnicode(old(Rest())) == if r.Value? then Good(r.value, Rest()) else Bad
    {
      hide ReadUnit;
      var unit := ParseUnicodeCodeUnit();
      if unit.SyntaxError? { return SyntaxError; }
      var codePoint := unit.value;
      if IsHigh(codePoint) {
        if pos + 2 > |src| || src[pos] != BACKSLASH || src[pos + 1] != LETTER_U { return SyntaxError; }
        assert Rest()[2..] == src[pos + 2..];
        pos := pos + 2;
        var low := ParseUnicodeCodeUnit();
        if low.SyntaxError? || !IsLow(low.value) { return SyntaxError; }
        codePoint := PairValue(codePoint, low.value);
      } else if IsLow(codePoint) {
        return SyntaxError;
      }
      return Value(Encode(codePoint));
    }

    method ParseString() returns (r: Parsed<Text>)
      requires Valid()
      modifies this`pos
      ensures Valid() && pos >= old(pos)
      ensures var at := DropWs(old(Rest()));
              (if at != [] && at[0] == QUOTE then ReadString(at[1..], []) else Bad) ==
              if r.Value? then Good(r.value, Rest()) else Bad
      ensures r.Value? ==> pos > old(pos)
    {
      hide ReadUnicode, DropWs, ReadString;
      var ok := Expect(QUOTE);
      if !ok { return SyntaxError; }
      ghost var start := Rest();
      var result: Text := [];
      while pos < |src|
        invariant Valid() && pos > old(pos) && ReadString(start, []) == ReadString(Rest(), result)
      {
        var c := src[pos];
        ghost var at := Rest();
        StringStep(at, result);
        Advance();
        if c == QUOTE { return Value(result); }
        if c < 0x20 { return SyntaxError; }
        if c != BACKSLASH {
          result := result + [c];
          continue;
        }
        if pos >= |src| { return SyntaxError; }
        var e := src[pos];
        assert at[1] == e && at[2..] == Rest()[1..];
        Advance();
        if e == LETTER_U {
          var bytes := AppendUnicodeEscape();
          if bytes.SyntaxError? { return SyntaxError; }
          result := result + bytes.value;
        } else if ShortEscape(e) >= 0 {
          result := result + [ShortEscape(e) as Byte];
        } else {
          return SyntaxError;
        }
      }
      return SyntaxError;
    }

    /** A number, as the stretch of text it takes up. */
    method ParseNumber() returns (r: Parsed<Text>)
      requires Valid() && pos < |src|
      modifies this`pos
      ensures Valid() && pos >= old(pos)
      ensures ReadNumber(old(Rest())) == if r.Value? then Good(r.value, Rest()) else Bad
    {
      hide NumberEnd, FractionEnd;
      var start := pos;
      var ok := ParseWhole();
      if !ok { return SyntaxError; }
      ok := ParseFraction();
      if !ok { return SyntaxError; }
      assert old(Rest())[..pos - start] == src[start..pos];
      return Value(src[start..pos]);
    }

    /** The sign and the digits before any fraction. */
    method ParseWhole() returns (ok: bool)
      requires Valid() && pos < |src|
      modifies this`pos
      ensures Valid() && pos >= old(pos)
      ensures NumberEnd(old(Rest())) == if ok then FractionEnd(Rest()) else Nowhere
    {
      hide DropDigits, FractionEnd;
      if src[pos] == MINUS {
        assert Rest()[1..] == src[pos + 1..];
        pos := pos + 1;
      }
      if pos >= |src| { return false; }
      ghost var at := Rest();
      assert at[1..] == src[pos + 1..];
      if src[pos] == ZERO {
        pos := pos + 1;
        if pos < |src| && IsDigit(src[pos]) { return false; }
      } else if IsDigit(src[pos]) {
        pos := pos + 1;
        SkipDigits();
      } else {
        return false;
      }
      return true;
    }

    /** The fraction and the exponent, if there are any. */
    method ParseFraction() returns (ok: bool)
      requires Valid()
      modifies this`pos
      ensures Valid() && pos >= old(pos)
      ensures FractionEnd(old(Rest())) == if ok then Before(Rest()) else Nowhere
    {
      hide DropDigits;
      if pos < |src| && src[pos] == DOT {
        assert Rest()[1..] == src[pos + 1..];
        pos := pos + 1;
        var fractionStart := pos;
        SkipDigits();
        if pos == fractionStart { return false; }
      }
      ghost var at := Rest();
      if pos < |src| && (src[pos] == 0x65 || src[pos] == 0x45) {
        assert at[1..] == src[pos + 1..] && (|at| >= 2 ==> at[2..] == src[pos + 2..]);
        pos := pos + 1;
        if pos < |src| && (src[pos] == PLUS || src[pos] == MINUS) {
          pos := pos + 1;
        }
        var exponentStart := pos;
        SkipDigits();
        if pos == exponentStart { return false; }
      }
      return true;
    }

    method ParseLiteral(word: Text) returns (ok: bool)
      requires Valid()
      modifies this`pos
      ensures Valid() && pos >= old(pos)
      ensures ok <==> word <= old(Rest())
      ensures Rest() == if ok then old(Rest())[|word|..] else old(Rest())
    {
      ok := pos + |word| <= |src| && src[pos..pos + |word|] == word;
      assert ok <==> word <= Rest() by {
        if pos + |word| <= |src| { assert Rest()[..|word|] == src[pos..pos + |word|]; }
      }
      if ok {
        assert Rest()[|word|..] == src[pos + |word|..];
        pos := pos + |word|;
      }
    }

    method ParseValue(depth: nat) returns (r: Parsed<Json>)
      requires Valid()
      modifies this`pos
      ensures Valid() && pos >= old(pos)
      ensures ReadValue(old(Rest()), depth, finite) == if r.Value? then Good(r.value, Rest()) else Bad
      decreases |src| - pos, 1
    {
      hide DropWs, ReadString, ReadNumber, ReadArray, ReadObject;
      if depth > MAX_DEPTH { return SyntaxError; }
      SkipWs();
      if pos >= |src| { return SyntaxError; }
      var c := src[pos];
      ghost var at := Rest();
      if c == QUOTE {
        assert DropWs(at) == at by { DropWsTwice(old(Rest())); }
        var text := ParseString();
        return if text.Value? then Value(JString(text.value)) else SyntaxError;
      }
      if c == LBRACE {
        r := ParseObject(depth + 1);
        return;
      }
      if c == LBRACKET {
        r := ParseArray(depth + 1);
        return;
      }
      if c == TRUE[0] || c == FALSE[0] {
        var yes := ParseLiteral(TRUE);
        if yes { return Value(JBool(true)); }
        var no := ParseLiteral(FALSE);
        return if no then Value(JBool(false)) else SyntaxError;
      }
      if c == NULL[0] {
        var ok := ParseLiteral(NULL);
        return if ok then Value(JNull) else SyntaxError;
      }
      if c == MINUS || IsDigit(c) {
        var lexeme := ParseNumber();
        return if lexeme.Value? && finite(lexeme.value) then Value(JNumber(lexeme.value)) else SyntaxError;
      }
      return SyntaxError;
    }

    method ParseArray(depth: nat) returns (r: Parsed<Json>)
      requires Valid() && pos < |src| && src[pos] == LBRACKET
      modifies this`pos
      ensures Valid() && pos >= old(pos)
      ensures ReadArray(old(Rest())[1..], depth, finite) == if r.Value? then Good(r.value, Rest()) else Bad
      decreases |src| - pos, 0
    {
      hide ReadValue, DropWs, ReadElems;
      assert DropWs(Rest()) == Rest() by { NoWsThere(Rest()); }
      var _ := Expect(LBRACKET);
      SkipWs();
      if pos < |src| && src[pos] == RBRACKET {
        Advance();
        return Value(JArray([]));
      }
      ghost var start := Rest();
      var arr: seq<Json> := [];
      while true
        invariant Valid() && pos > old(pos)
        invariant ReadElems(start, depth, finite, []) == ReadElems(Rest(), depth, finite, arr)
        decreases |src| - pos
      {
        ElemsStep(Rest(), depth, finite, arr);
        var v := ParseValue(depth);
        if v.SyntaxError? { return SyntaxError; }
        arr := arr + [v.value];
        SkipWs();
        if pos >= |src| { return SyntaxError; }
        if src[pos] == RBRACKET {
          Advance();
          return Value(JArray(arr));
        }
        if src[pos] != COMMA { return SyntaxError; }
        Advance();
      }
    }

    method ParseObject(depth: nat) returns (r: Parsed<Json>)
      requires Valid() && pos < |src| && src[pos] == LBRACE
      modifies this`pos
      ensures Valid() && pos >= old(pos)
      ensures ReadObject(old(Rest())[1..], depth, finite) == if r.Value? then Good(r.value, Rest()) else Bad
      decreases |src| - pos, 0
    {
      hide ReadMember, DropWs, Emplace, ReadMembers;
      assert DropWs(Rest()) == Rest() by { NoWsThere(Rest()); }
      var _ := Expect(LBRACE);
      SkipWs();
      if pos < |src| && src[pos] == RBRACE {
        Advance();
        return Value(JObject(map[]));
      }
      ghost var start := Rest();
      var obj: map<Text, Json> := map[];
      while true
        invariant Valid() && pos > old(pos)
        invariant ReadMembers(start, depth, finite, map[]) == ReadMembers(Rest(), depth, finite, obj)
        decreases |src| - pos
      {
        MembersStep(Rest(), depth, finite, obj);
        var member := ParseMember(depth);
        if member.SyntaxError? { return SyntaxError; }
        obj := Emplace(obj, member.value);
        SkipWs();
        if pos >= |src| { return SyntaxError; }
        if src[pos] == RBRACE {
          Advance();
          return Value(JObject(obj));
        }
        if src[pos] != COMMA { return SyntaxError; }
        Advance();
      }
    }

    /** A key, a colon and a value. */
    method ParseMember(depth: nat) returns (member: Parsed<(Text, Json)>)
      requires Valid()
      modifies this`pos
      ensures Valid() && pos >= old(pos) && (member.Value? ==> pos > old(pos))
      ensures ReadMember(old(Rest()), depth, finite) == if member.Value? then Good(member.value, Rest()) else Bad
      decreases |src| - pos, 2
    {
      hide ReadKey, ReadValue;
      var key := ParseKey();
      if key.SyntaxError? { return SyntaxError; }
      var v := ParseValue(depth);
      return if v.Value? then Value((key.value, v.value)) else SyntaxError;
    }

    /** A key and the colon behind it. */
    method ParseKey() returns (key: Parsed<Text>)
      requires Valid()
      modifies this`pos
      ensures Valid() && pos >= old(pos) && (key.Value? ==> pos > old(pos))
      ensures ReadKey(old(Rest())) == if key.Value? then Good(key.value, Rest()) else Bad
    {
      hide DropWs, ReadString;
      SkipWs();
      if pos >= |src| || src[pos] != QUOTE { return SyntaxError; }
      assert DropWs(Rest()) == Rest() by { NoWsThere(Rest()); }
      key := ParseString();
      if key.SyntaxError? { return; }
      var colon := Expect(COLON);
      if !colon { return SyntaxError; }
    }
  }

  ghost function Digits(h: Text, n: nat): int
    requires n <= |h|
  {
    if n == 0 then 0 else Digits(h, n - 1) * 16 + HexValue(h[n - 1])
  }

  lemma NoWsThere(s: Text)
    requires s == [] || !IsWs(s[0])
    ensures DropWs(s) == s
  {
  }

  /** Parse a whole text: it is accepted exactly when the grammar has it, with its meaning there. */
  method Parse(input: Text, finite: Text -> bool) returns (r: Parsed<Json>)
    ensures r.Value? ==> Accepted(input, finite, r.value)
    ensures r.SyntaxError? ==> forall v :: !Accepted(input, finite, v)
  {
    hide ReadValue, Accepted, DropWs;
    var p := new Parser(input, finite);
    assert p.Rest() == input;
    var v := p.ParseValue(0);
    ghost var rest := if v.Value? then p.Rest() else [];
    if v.Value? { p.SkipWs(); }
    r := if v.Value? && p.pos == |input| then v else SyntaxError;
    assert v.Value? ==> (p.pos == |input| <==> DropWs(rest) == []);
    forall w ensures ReadText(input, finite) == Good(w, []) <==> Accepted(input, finite, w) {
      ReadsTheGrammar(input, finite, w);
    }
  }
}
