/** What the tables and formulas of the JSON text layer stand for, said without them: UTF-8 by section 3 of RFC 3629,
    surrogate pairs by section 2.1 of RFC 2781, and the characters of RFC 8259. */
module Unicode {
  import opened Bytes
  import Utf8
  import opened JsonGrammar

  // ---------------------------------------------------------------- UTF-8

  /** A code point that UTF-8 can encode. */
  predicate Scalar(cp: int) { 0 <= cp <= 0xD7FF || 0xE000 <= cp <= 0x10FFFF }

  /** The code point of a character: the payload bits of its lead byte and of its continuation bytes. */
  function Decode(s: Text): int
    requires 1 <= |s| <= 4
  {
    if |s| == 1 then s[0] as int
    else if |s| == 2 then (s[0] as int % 0x20) * 0x40 + s[1] as int % 0x40
    else if |s| == 3 then ((s[0] as int % 0x10) * 0x40 + s[1] as int % 0x40) * 0x40 + s[2] as int % 0x40
    else (((s[0] as int % 0x08) * 0x40 + s[1] as int % 0x40) * 0x40 + s[2] as int % 0x40) * 0x40 + s[3] as int % 0x40
  }

  /** Digits to the base 64. */
  lemma Digits2(a: nat, b: nat)
    requires b < 0x40
    ensures (a * 0x40 + b) / 0x40 == a && (a * 0x40 + b) % 0x40 == b
  {
  }

  lemma Digits3(a: nat, b: nat, c: nat)
    requires b < 0x40 && c < 0x40
    ensures var n := (a * 0x40 + b) * 0x40 + c;
            n / 0x1000 == a && n / 0x40 % 0x40 == b && n % 0x40 == c
  {
    Digits2(a * 0x40 + b, c);
    Digits2(a, b);
  }

  lemma Digits4(a: nat, b: nat, c: nat, d: nat)
    requires b < 0x40 && c < 0x40 && d < 0x40
    ensures var n := ((a * 0x40 + b) * 0x40 + c) * 0x40 + d;
            n / 0x40000 == a && n / 0x1000 % 0x40 == b && n / 0x40 % 0x40 == c && n % 0x40 == d
  {
    Digits2((a * 0x40 + b) * 0x40 + c, d);
    Digits3(a, b, c);
  }

  /** Marking and unmarking a byte. */
  lemma Marks(q: nat)
    ensures q < 0x40 ==> (0x80 + q) / 0x40 == 2 && (0x80 + q) % 0x40 == q
    ensures q < 0x20 ==> (0xC0 + q) / 0x20 == 6 && (0xC0 + q) % 0x20 == q
    ensures q < 0x10 ==> (0xE0 + q) / 0x10 == 14 && (0xE0 + q) % 0x10 == q
    ensures q < 0x08 ==> (0xF0 + q) / 0x08 == 30 && (0xF0 + q) % 0x08 == q
  {
  }

  /** A code point is encoded in as few bytes as hold it, each marked as lead or continuation, and decoded it is
      itself. */
  lemma EncodeDecodes(cp: int)
    requires Scalar(cp)
    ensures var s := Encode(cp);
            && |s| == (if cp < 0x80 then 1 else if cp < 0x800 then 2 else if cp < 0x10000 then 3 else 4)
            && (|s| == 2 ==> s[0] as int / 0x20 == 6) && (|s| == 3 ==> s[0] as int / 0x10 == 14)
            && (|s| == 4 ==> s[0] as int / 0x08 == 30) && (forall i | 1 <= i < |s| :: s[i] as int / 0x40 == 2)
            && Decode(s) == cp
  {
    var d := cp % 0x40;
    Marks(d);
    if 0x80 <= cp < 0x800 {
      Marks(cp / 0x40);
    } else if 0x800 <= cp < 0x10000 {
      Marks(cp / 0x1000);
      Marks(cp / 0x40 % 0x40);
      ByThree(cp);
    } else if cp >= 0x10000 {
      Marks(cp / 0x40000);
      Marks(cp / 0x1000 % 0x40);
      Marks(cp / 0x40 % 0x40);
      ByFour(cp);
    }
  }

  lemma ByThree(n: nat)
    ensures (n / 0x1000 * 0x40 + n / 0x40 % 0x40) * 0x40 + n % 0x40 == n
  {
    assert n / 0x1000 == n / 0x40 / 0x40;
  }

  lemma ByFour(n: nat)
    ensures ((n / 0x40000 * 0x40 + n / 0x1000 % 0x40) * 0x40 + n / 0x40 % 0x40) * 0x40 + n % 0x40 == n
  {
    var m := n / 0x40;
    assert n / 0x1000 == m / 0x40 && n / 0x40000 == m / 0x1000;
    ByThree(m);
  }

  /** A complete character is the encoding of the code point it decodes to. */
  lemma DecodeEncodes(s: Text)
    requires Utf8.StartsWithChar(s) && |s| == Utf8.Expected(s[0])
    ensures 1 <= |s| <= 4 && Scalar(Decode(s)) && Encode(Decode(s)) == s
  {
    assert forall i | 1 <= i < |s| :: Utf8.IsTail(s[i]);
    if |s| == 2 {
      var a, b := s[0] as int - 0xC0, s[1] as int - 0x80;
      Marks(a);
      Marks(b);
      Digits2(a, b);
    } else if |s| == 3 {
      ThreeEncodes(s);
    } else if |s| == 4 {
      FourEncodes(s);
    }
  }

  lemma ThreeEncodes(s: Text)
    requires Utf8.StartsWithChar(s) && |s| == Utf8.Expected(s[0]) == 3
    ensures Scalar(Decode(s)) && Encode(Decode(s)) == s
  {
    var a, b, c := s[0] as int - 0xE0, s[1] as int - 0x80, s[2] as int - 0x80;
    Marks(a);
    Marks(b);
    Marks(c);
    Digits3(a, b, c);
    assert Decode(s) == (a * 0x40 + b) * 0x40 + c;
  }

  lemma FourEncodes(s: Text)
    requires Utf8.StartsWithChar(s) && |s| == Utf8.Expected(s[0]) == 4
    ensures Scalar(Decode(s)) && Encode(Decode(s)) == s
  {
    var a, b, c, d := s[0] as int - 0xF0, s[1] as int - 0x80, s[2] as int - 0x80, s[3] as int - 0x80;
    Marks(a);
    Marks(b);
    Marks(c);
    Marks(d);
    Digits4(a, b, c, d);
    assert Decode(s) == ((a * 0x40 + b) * 0x40 + c) * 0x40 + d;
  }

  function EncodeAll(cps: seq<int>): Text
    requires forall i | 0 <= i < |cps| :: Scalar(cps[i])
  {
    if cps == [] then [] else assert Scalar(cps[0]); Encode(cps[0]) + EncodeAll(cps[1..])
  }

  /** Valid text is the encoding of code points. */
  lemma {:induction false} ValidDecodes(s: Text) returns (cps: seq<int>)
    requires Utf8.Valid(s)
    ensures (forall i | 0 <= i < |cps| :: Scalar(cps[i])) && EncodeAll(cps) == s
    decreases |s|
  {
    cps := [];
    if s != [] {
      var n := Utf8.Expected(s[0]);
      var c := s[..n];
      assert Utf8.StartsWithChar(c);
      DecodeEncodes(c);
      var rest := ValidDecodes(s[n..]);
      cps := [Decode(c)] + rest;
      assert cps[1..] == rest && s == c + s[n..];
    }
  }

  /** And any code points encode to valid text. */
  lemma {:induction false} EncodeAllIsValid(cps: seq<int>)
    requires forall i | 0 <= i < |cps| :: Scalar(cps[i])
    ensures Utf8.Valid(EncodeAll(cps))
    decreases |cps|
  {
    if cps != [] {
      var c, rest := Encode(cps[0]), EncodeAll(cps[1..]);
      EncodeIsValid(cps[0]);
      EncodeAllIsValid(cps[1..]);
      assert (c + rest)[0] == c[0] && (c + rest)[Utf8.Expected(c[0])..] == rest;
      assert forall i | 0 <= i < |c| :: (c + rest)[i] == c[i];
      assert Utf8.StartsWithChar(c + rest);
    }
  }

  // ---------------------------------------------------------------- surrogate pairs

  /** High and low surrogate are recovered from the code point. */
  lemma PairSplits(hi: int, lo: int)
    requires IsHigh(hi) && IsLow(lo)
    ensures var u := PairValue(hi, lo) - 0x10000;
            0 <= u < 0x100000 && hi == 0xD800 + u / 0x400 && lo == 0xDC00 + u % 0x400
  {
  }

  /** Every code point beyond the first 0x10000 is that of a pair. */
  lemma PairReaches(cp: int)
    requires 0x10000 <= cp <= 0x10FFFF
    ensures var hi, lo := 0xD800 + (cp - 0x10000) / 0x400, 0xDC00 + (cp - 0x10000) % 0x400;
            0xD800 <= hi <= 0xDBFF && 0xDC00 <= lo <= 0xDFFF && IsHigh(hi) && IsLow(lo) && PairValue(hi, lo) == cp
  {
  }

  /** Surrogates are the code units no character has. */
  lemma Surrogates(u: int)
    requires 0 <= u <= 0xFFFF
    ensures IsHigh(u) || IsLow(u) <==> !Scalar(u)
    ensures !(IsHigh(u) && IsLow(u))
  {
  }

  // ---------------------------------------------------------------- characters

  predicate Is(b: Byte, c: char) { b as int == c as int }

  predicate OneOf(b: Byte, s: string) { exists i :: 0 <= i < |s| && Is(b, s[i]) }

  /** A text of ASCII bytes is the string it looks like. */
  predicate Looks(w: Text, s: string) { |w| == |s| && forall i | 0 <= i < |w| :: Is(w[i], s[i]) }

  lemma Punctuation()
    ensures Looks([QUOTE, BACKSLASH, COMMA, COLON, LBRACKET, RBRACKET, LBRACE, RBRACE], "\"\\,:[]{}")
    ensures Looks([MINUS, PLUS, DOT, ZERO, LETTER_U], "-+.0u")
    ensures Looks(TRUE, "true") && Looks(FALSE, "false") && Looks(NULL, "null")
  {
  }

  /** White space and digits. */
  lemma Classes(b: Byte)
    ensures IsWs(b) <==> OneOf(b, " \t\n\r")
    ensures IsDigit(b) <==> OneOf(b, "0123456789")
  {
    var ws, digits := " \t\n\r", "0123456789";
    if IsWs(b) {
      assert Is(b, ws[0]) || Is(b, ws[1]) || Is(b, ws[2]) || Is(b, ws[3]);
    }
    if IsDigit(b) { assert Is(b, digits[b as int - 0x30]); }
  }

  /** A hexadecimal digit has its place in the row of digits as its value, in either case. */
  lemma HexDigits(b: Byte)
    ensures var n := HexValue(b);
            if n >= 0 then Is(b, "0123456789abcdef"[n]) || Is(b, "0123456789ABCDEF"[n])
            else !OneOf(b, "0123456789abcdefABCDEF")
  {
  }

  lemma HexDigitsAll(n: nat, b: Byte)
    requires n < 16 && (Is(b, "0123456789abcdef"[n]) || Is(b, "0123456789ABCDEF"[n]))
    ensures HexValue(b) == n
  {
  }

  /** The digits of a code unit are those of its value to the base 16. */
  lemma CodeUnitDigits(h: Text)
    requires IsHex4(h)
    ensures var u := CodeUnit(h);
            && HexValue(h[0]) == u / 0x1000 && HexValue(h[1]) == u / 0x100 % 0x10
            && HexValue(h[2]) == u / 0x10 % 0x10 && HexValue(h[3]) == u % 0x10
  {
  }

  /** Numerals by section 6 of RFC 8259: no leading zero, digits throughout, and an exponent marked by a letter and
      a sign at most. */
  lemma Numerals(n: Numeral)
    ensures NumeralOk(n) <==>
              && |n.whole| > 0 && (|n.whole| > 1 ==> OneOf(n.whole[0], "123456789"))
              && (forall b | b in n.whole + n.fraction + n.exponent :: OneOf(b, "0123456789"))
              && (n.exponent != [] ==>
                    && (|n.mark| == 1 || (|n.mark| == 2 && OneOf(n.mark[1], "+-"))) && OneOf(n.mark[0], "eE"))
  {
    var marks, signs, some := "eE", "+-", "123456789";
    forall b: Byte
      ensures OneOf(b, marks) <==> b == 0x65 || b == 0x45
      ensures OneOf(b, signs) <==> b == PLUS || b == MINUS
      ensures IsDigit(b) <==> OneOf(b, "0123456789")
      ensures OneOf(b, some) <==> IsDigit(b) && b != ZERO
    {
      Classes(b);
      assert Is(b, marks[0]) <==> b == 0x65;
      assert Is(b, marks[1]) <==> b == 0x45;
      assert Is(b, signs[0]) <==> b == PLUS;
      assert Is(b, signs[1]) <==> b == MINUS;
      if IsDigit(b) && b != ZERO { assert Is(b, some[b as int - 0x31]); }
    }
    hide OneOf;
  }

  /** The two-character escapes and what they stand for. */
  lemma ShortEscapes(c: Byte)
    ensures ShortEscape(c) >= 0 <==> OneOf(c, "\"\\/bfnrt")
    ensures Is(c, '\"') || Is(c, '\\') || Is(c, '/') ==> ShortEscape(c) == c as int
    ensures Is(c, 'n') ==> ShortEscape(c) == '\n' as int
    ensures Is(c, 'r') ==> ShortEscape(c) == '\r' as int
    ensures Is(c, 't') ==> ShortEscape(c) == '\t' as int
    ensures Is(c, 'b') ==> ShortEscape(c) == 8
    ensures Is(c, 'f') ==> ShortEscape(c) == 12
  {
    var letters := "\"\\/bfnrt";
    if ShortEscape(c) >= 0 {
      assert Is(c, letters[0]) || Is(c, letters[1]) || Is(c, letters[2]) || Is(c, letters[3]) ||
             Is(c, letters[4]) || Is(c, letters[5]) || Is(c, letters[6]) || Is(c, letters[7]);
    }
  }
}
