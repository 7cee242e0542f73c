/** Reading JSON from the front of a text: what the recursive descent parser computes, and that it
    accepts exactly the grammar. */
module JsonReading {
  import opened Bytes
  import opened JsonGrammar

  /** A result and the text behind it, or a syntax error. */
  datatype Read<T> = Good(value: T, rest: Text) | Bad

  const MAX_DEPTH: nat := 64

  function DropWs(s: Text): (r: Text)
    ensures |r| <= |s|
  {
    if s != [] && IsWs(s[0]) then DropWs(s[1..]) else s
  }

  function DropDigits(s: Text): (r: Text)
    ensures |r| <= |s|
  {
    if s != [] && IsDigit(s[0]) then DropDigits(s[1..]) else s
  }

  lemma {:induction false} WsDropped(s: Text) returns (w: Text)
    ensures s == w + DropWs(s) && AllWs(w)
    ensures DropWs(s) == [] || (!IsWs(DropWs(s)[0]) && DropWs(s) == [DropWs(s)[0]] + DropWs(s)[1..])
  {
    w := [];
    if s != [] && IsWs(s[0]) {
      w := WsDropped(s[1..]);
      w := [s[0]] + w;
    }
  }

  lemma {:induction false} DigitsDropped(s: Text) returns (w: Text)
    ensures s == w + DropDigits(s) && AllDigits(w)
    ensures DropDigits(s) == [] || !IsDigit(DropDigits(s)[0])
  {
    w := [];
    if s != [] && IsDigit(s[0]) {
      w := DigitsDropped(s[1..]);
      w := [s[0]] + w;
    }
  }

  // ---------------------------------------------------------------- the reader

  function ReadUnit(s: Text): (r: Read<int>)
    ensures r.Good? ==> 0 <= r.value <= 0xFFFF && |r.rest| < |s|
  {
    if |s| >= 4 && IsHex4(s[..4]) then Good(CodeUnit(s[..4]), s[4..]) else Bad
  }

  /** An escape after `\u`. */
  function ReadUnicode(s: Text): (r: Read<Text>)
    ensures r.Good? ==> |r.rest| < |s|
  {
    match ReadUnit(s)
    case Bad => Bad
    case Good(u, r) =>
      if IsHigh(u) then
        if |r| >= 2 && r[0] == BACKSLASH && r[1] == LETTER_U then
          match ReadUnit(r[2..])
          case Bad => Bad
          case Good(l, r2) => if IsLow(l) then Good(Encode(PairValue(u, l)), r2) else Bad
        else Bad
      else if IsLow(u) then Bad
      else Good(Encode(u), r)
  }

  /** The rest of a string after its opening quote, `acc` being what was read of it. */
  function ReadString(s: Text, acc: Text): (r: Read<Text>)
    ensures r.Good? ==> |r.rest| < |s|
    decreases |s|
  {
    if s == [] then Bad
    else if s[0] == QUOTE then Good(acc, s[1..])
    else if s[0] < 0x20 then Bad
    else if s[0] != BACKSLASH then ReadString(s[1..], acc + [s[0]])
    else if |s| < 2 then Bad
    else if s[1] == LETTER_U then
      match ReadUnicode(s[2..])
      case Bad => Bad
      case Good(bytes, r) => ReadString(r, acc + bytes)
    else if ShortEscape(s[1]) >= 0 then ReadString(s[2..], acc + [ShortEscape(s[1]) as Byte])
    else Bad
  }

  /** What the first bytes of the rest of a string decide. */
  lemma StringStep(s: Text, acc: Text)
    ensures s == [] ==> ReadString(s, acc).Bad?
    ensures s != [] && s[0] == QUOTE ==> ReadString(s, acc) == Good(acc, s[1..])
    ensures s != [] && s[0] < 0x20 ==> ReadString(s, acc).Bad?
    ensures s != [] && s[0] >= 0x20 && s[0] != QUOTE && s[0] != BACKSLASH ==>
              ReadString(s, acc) == ReadString(s[1..], acc + [s[0]])
    ensures |s| == 1 && s[0] == BACKSLASH ==> ReadString(s, acc).Bad?
    ensures |s| >= 2 && s[0] == BACKSLASH ==>
              if s[1] == LETTER_U then
                var r := ReadUnicode(s[2..]);
                ReadString(s, acc) == if r.Good? then ReadString(r.rest, acc + r.value) else Bad
              else if ShortEscape(s[1]) >= 0 then
                ReadString(s, acc) == ReadString(s[2..], acc + [ShortEscape(s[1]) as Byte])
              else ReadString(s, acc).Bad?
  {
  }

  /** Where a part of a number ends. */
  datatype End = Before(rest: Text) | Nowhere

  function ExponentEnd(at: Text): (r: End)
    ensures r.Before? ==> |r.rest| <= |at|
  {
    if at != [] && (at[0] == 0x65 || at[0] == 0x45) then
      var digits := if |at| >= 2 && (at[1] == PLUS || at[1] == MINUS) then at[2..] else at[1..];
      var r := DropDigits(digits);
      if |r| == |digits| then Nowhere else Before(r)
    else Before(at)
  }

  function FractionEnd(at: Text): (r: End)
    ensures r.Before? ==> |r.rest| <= |at|
  {
    if at != [] && at[0] == DOT then
      var r := DropDigits(at[1..]);
      if |r| == |at| - 1 then Nowhere else ExponentEnd(r)
    else ExponentEnd(at)
  }

  function NumberEnd(s: Text): (r: End)
    ensures r.Before? ==> |r.rest| < |s|
  {
    var at := if s != [] && s[0] == MINUS then s[1..] else s;
    if at == [] then Nowhere
    else if at[0] == ZERO then
      if |at| >= 2 && IsDigit(at[1]) then Nowhere else FractionEnd(at[1..])
    else if IsDigit(at[0]) then FractionEnd(DropDigits(at[1..]))
    else Nowhere
  }

  /** A number, as the text it takes up. */
  function ReadNumber(s: Text): (r: Read<Text>)
    ensures r.Good? ==> |r.rest| < |s|
  {
    match NumberEnd(s)
    case Nowhere => Bad
    case Before(r) => Good(s[..|s| - |r|], r)
  }

  function ReadValue(s: Text, depth: nat, finite: Text -> bool): (r: Read<Json>)
    ensures r.Good? ==> |r.rest| < |s|
    decreases |s|, 0
  {
    if depth > MAX_DEPTH then Bad
    else
      var at := DropWs(s);
      if at == [] then Bad
      else if at[0] == QUOTE then
        match ReadString(at[1..], [])
        case Bad => Bad
        case Good(text, r) => Good(JString(text), r)
      else if at[0] == LBRACE then ReadObject(at[1..], depth + 1, finite)
      else if at[0] == LBRACKET then ReadArray(at[1..], depth + 1, finite)
      else if TRUE <= at then Good(JBool(true), at[4..])
      else if FALSE <= at then Good(JBool(false), at[5..])
      else if NULL <= at then Good(JNull, at[4..])
      else if at[0] == MINUS || IsDigit(at[0]) then
        match ReadNumber(at)
        case Bad => Bad
        case Good(lexeme, r) => if finite(lexeme) then Good(JNumber(lexeme), r) else Bad
      else Bad
  }

  function ReadArray(s: Text, depth: nat, finite: Text -> bool): (r: Read<Json>)
    ensures r.Good? ==> |r.rest| < |s|
    decreases |s|, 2
  {
    var at := DropWs(s);
    if at != [] && at[0] == RBRACKET then Good(JArray([]), at[1..])
    else
      match ReadElems(at, depth, finite, [])
      case Bad => Bad
      case Good(elements, r) => Good(JArray(elements), r)
  }

  function ReadElems(s: Text, depth: nat, finite: Text -> bool, acc: seq<Json>): (r: Read<seq<Json>>)
    ensures r.Good? ==> |r.rest| < |s|
    decreases |s|, 1
  {
    match ReadValue(s, depth, finite)
    case Bad => Bad
    case Good(v, r) =>
      var at := DropWs(r);
      if at == [] then Bad
      else if at[0] == RBRACKET then Good(acc + [v], at[1..])
      else if at[0] == COMMA then ReadElems(at[1..], depth, finite, acc + [v])
      else Bad
  }

  function ReadObject(s: Text, depth: nat, finite: Text -> bool): (r: Read<Json>)
    ensures r.Good? ==> |r.rest| < |s|
    decreases |s|, 2
  {
    var at := DropWs(s);
    if at != [] && at[0] == RBRACE then Good(JObject(map[]), at[1..])
    else
      match ReadMembers(at, depth, finite, map[])
      case Bad => Bad
      case Good(members, r) => Good(JObject(members), r)
  }

  /** A key, up to and including the colon behind it. */
  function ReadKey(s: Text): (r: Read<Text>)
    ensures r.Good? ==> |r.rest| < |s|
  {
    var at := DropWs(s);
    if at == [] || at[0] != QUOTE then Bad
    else
      match ReadString(at[1..], [])
      case Bad => Bad
      case Good(key, r) =>
        var colon := DropWs(r);
        if colon == [] || colon[0] != COLON then Bad else Good(key, colon[1..])
  }

  function ReadMember(s: Text, depth: nat, finite: Text -> bool): (r: Read<(Text, Json)>)
    ensures r.Good? ==> |r.rest| < |s|
    decreases |s|, 0
  {
    match ReadKey(s)
    case Bad => Bad
    case Good(key, r) =>
      match ReadValue(r, depth, finite)
      case Bad => Bad
      case Good(v, r2) => Good((key, v), r2)
  }

  function ReadMembers(s: Text, depth: nat, finite: Text -> bool, acc: map<Text, Json>): (r: Read<map<Text, Json>>)
    ensures r.Good? ==> |r.rest| < |s|
    decreases |s|, 1
  {
    match ReadMember(s, depth, finite)
    case Bad => Bad
    case Good(member, r) =>
      var end := DropWs(r);
      if end == [] then Bad
      else if end[0] == RBRACE then Good(Emplace(acc, member), end[1..])
      else if end[0] == COMMA then ReadMembers(end[1..], depth, finite, Emplace(acc, member))
      else Bad
  }

  /** A whole text. */
  function ReadText(input: Text, finite: Text -> bool): Read<Json> {
    match ReadValue(input, 0, finite)
    case Bad => Bad
    case Good(v, r) => if DropWs(r) == [] then Good(v, []) else Bad
  }

  // ---------------------------------------------------------------- whatever is read is in the grammar

  lemma UnicodeSound(s: Text) returns (i: Item)
    requires ReadUnicode(s).Good?
    ensures ItemOk(i) && ItemMeaning(i) == ReadUnicode(s).value
    ensures [BACKSLASH, LETTER_U] + s == SpellItem(i, ReadUnicode(s).rest)
  {
    var h := s[..4];
    var r := s[4..];
    assert s == h + r;
    if IsHigh(CodeUnit(h)) {
      var lo := r[2..][..4];
      assert r == [BACKSLASH, LETTER_U] + (lo + r[2..][4..]);
      i := Pair(h, lo);
    } else {
      i := Unit(h);
    }
  }

  /** One element of a string. */
  lemma ItemSound(s: Text, acc: Text) returns (i: Item, r: Text)
    requires ReadString(s, acc).Good? && s[0] != QUOTE
    ensures ItemOk(i) && s == SpellItem(i, r) && |r| < |s| && ReadString(s, acc) == ReadString(r, acc + ItemMeaning(i))
  {
    hide ReadString, ReadUnicode;
    StringStep(s, acc);
    if s[0] != BACKSLASH {
      i, r := Plain(s[0]), s[1..];
    } else if s[1] == LETTER_U {
      i := UnicodeSound(s[2..]);
      r := ReadUnicode(s[2..]).rest;
      hide SpellItem, ItemMeaning;
      assert s == [BACKSLASH, LETTER_U] + s[2..];
    } else {
      i, r := Short(s[1]), s[2..];
    }
  }

  lemma StringNotEmpty(s: Text, acc: Text)
    requires ReadString(s, acc).Good?
    ensures s != [] && s == [s[0]] + s[1..] && (s[0] == QUOTE ==> ReadString(s, acc) == Good(acc, s[1..]))
  {
  }

  lemma ItemsMore(i: Item, more: seq<Item>, acc: Text, k: Text)
    requires ItemOk(i) && ItemsOk(more)
    ensures ItemsOk([i] + more) && SpellItems([i] + more, k) == SpellItem(i, SpellItems(more, k))
    ensures acc + ItemsMeaning([i] + more) == acc + ItemMeaning(i) + ItemsMeaning(more)
  {
    hide SpellItem, ItemMeaning, ItemOk;
    assert ([i] + more)[1..] == more;
    assert acc + ItemMeaning(i) + ItemsMeaning(more) == acc + (ItemMeaning(i) + ItemsMeaning(more));
  }

  lemma {:induction false} StringSound(s: Text, acc: Text) returns (items: seq<Item>)
    requires ReadString(s, acc).Good?
    ensures ItemsOk(items) && s == SpellItems(items, [QUOTE] + ReadString(s, acc).rest)
    ensures ReadString(s, acc).value == acc + ItemsMeaning(items)
    decreases |s|
  {
    hide ReadString, SpellItem, ItemMeaning, ItemOk;
    StringNotEmpty(s, acc);
    items := [];
    if s[0] != QUOTE {
      var i, r := ItemSound(s, acc);
      var more := StringSound(r, acc + ItemMeaning(i));
      items := [i] + more;
      ItemsMore(i, more, acc, [QUOTE] + ReadString(s, acc).rest);
      hide ItemsOk, SpellItems, ItemsMeaning;
    }
  }

  predicate MarkOk(mark: Text) {
    1 <= |mark| <= 2 && (mark[0] == 0x65 || mark[0] == 0x45) && (|mark| == 2 ==> mark[1] == PLUS || mark[1] == MINUS)
  }

  lemma ExponentSound(at: Text) returns (mark: Text, exponent: Text)
    requires ExponentEnd(at).Before?
    ensures AllDigits(exponent) && (exponent != [] ==> MarkOk(mark))
    ensures at == if exponent == [] then ExponentEnd(at).rest else mark + (exponent + ExponentEnd(at).rest)
  {
    mark, exponent := [], [];
    if at != [] && (at[0] == 0x65 || at[0] == 0x45) {
      var n := if |at| >= 2 && (at[1] == PLUS || at[1] == MINUS) then 2 else 1;
      var digits := at[n..];
      mark := at[..n];
      exponent := DigitsDropped(digits);
      assert at == mark + digits;
    }
  }

  lemma FractionSound(at: Text) returns (fraction: Text, mark: Text, exponent: Text)
    requires FractionEnd(at).Before?
    ensures AllDigits(fraction) && AllDigits(exponent) && (exponent != [] ==> MarkOk(mark))
    ensures var tail := if exponent == [] then FractionEnd(at).rest else mark + (exponent + FractionEnd(at).rest);
            at == if fraction == [] then tail else [DOT] + (fraction + tail)
  {
    fraction := [];
    if at != [] && at[0] == DOT {
      fraction := DigitsDropped(at[1..]);
      assert at == [DOT] + at[1..];
      mark, exponent := ExponentSound(DropDigits(at[1..]));
    } else {
      mark, exponent := ExponentSound(at);
    }
  }

  /** The digits before fraction and exponent, and where they end. */
  lemma WholeSound(s: Text) returns (minus: bool, whole: Text, r: Text)
    requires NumberEnd(s).Before?
    ensures |whole| > 0 && AllDigits(whole) && (whole[0] == ZERO ==> |whole| == 1)
    ensures s == if minus then [MINUS] + (whole + r) else whole + r
    ensures NumberEnd(s) == FractionEnd(r)
  {
    hide FractionEnd;
    minus := s[0] == MINUS;
    var at := if minus then s[1..] else s;
    assert at == [at[0]] + at[1..];
    whole, r := [at[0]], at[1..];
    if at[0] != ZERO {
      var more := DigitsDropped(at[1..]);
      whole, r := [at[0]] + more, DropDigits(at[1..]);
      assert at == whole + r;
    }
  }

  lemma NumberSound(s: Text) returns (n: Numeral)
    requires ReadNumber(s).Good?
    ensures NumeralOk(n) && s == SpellNumeral(n, ReadNumber(s).rest) && ReadNumber(s).value == SpellNumeral(n, [])
  {
    hide FractionEnd, NumberEnd;
    var minus, whole, r := WholeSound(s);
    var fraction, mark, exponent := FractionSound(r);
    n := Numeral(minus, whole, fraction, mark, exponent);
    assert s == SpellNumeral(n, ReadNumber(s).rest);
    NumeralAppend(n, ReadNumber(s).rest);
    hide SpellNumeral;
    assert s[..|s| - |ReadNumber(s).rest|] == SpellNumeral(n, []);
  }

  lemma NumeralAppend(n: Numeral, k: Text)
    ensures SpellNumeral(n, k) == SpellNumeral(n, []) + k
  {
    assert SpellExponent(n, k) == SpellExponent(n, []) + k;
    assert SpellFraction(n, k) == SpellFraction(n, []) + k;
  }

  lemma {:induction false} ValueSound(s: Text, depth: nat, finite: Text -> bool) returns (w: Text, t: Tree)
    requires ReadValue(s, depth, finite).Good?
    ensures AllWs(w) && TreeOk(t) && depth + Height(t) <= MAX_DEPTH && TreeFinite(t, finite)
    ensures s == w + Spell(t, ReadValue(s, depth, finite).rest) && ReadValue(s, depth, finite).value == Meaning(t)
    decreases |s|, 0
  {
    hide DropWs, ReadString, ReadObject, ReadArray, ReadNumber, SpellItems, SpellElems, SpellMembers, SpellNumeral,
         AllWs, ItemsOk, ElemsOk, MembersOk, NumeralOk, ItemsMeaning, ElemsMeaning, MembersMeaning, ElemsFinite,
         MembersFinite, ElemsHeight, MembersHeight;
    var at := DropWs(s);
    w := WsDropped(s);
    if at[0] == QUOTE {
      var items := StringSound(at[1..], []);
      t := Str(items);
      assert [] + ItemsMeaning(items) == ItemsMeaning(items);
    } else if at[0] == LBRACE {
      t := ObjectSound(at[1..], depth + 1, finite);
    } else if at[0] == LBRACKET {
      t := ArraySound(at[1..], depth + 1, finite);
    } else if TRUE <= at {
      t := True;
      assert at == TRUE + at[4..];
    } else if FALSE <= at {
      t := False;
      assert at == FALSE + at[5..];
    } else if NULL <= at {
      t := Null;
      assert at == NULL + at[4..];
    } else {
      var n := NumberSound(at);
      t := Num(n);
    }
  }

  lemma {:induction false} ArraySound(s: Text, depth: nat, finite: Text -> bool) returns (t: Tree)
    requires ReadArray(s, depth, finite).Good? && 1 <= depth <= MAX_DEPTH + 1
    ensures TreeOk(t) && depth - 1 + Height(t) <= MAX_DEPTH && TreeFinite(t, finite)
    ensures [LBRACKET] + s == Spell(t, ReadArray(s, depth, finite).rest)
    ensures ReadArray(s, depth, finite).value == Meaning(t)
    decreases |s|, 2
  {
    hide DropWs, ReadElems, AllWs;
    var at := DropWs(s);
    var ws := WsDropped(s);
    if at != [] && at[0] == RBRACKET {
      t := EmptyArr(ws);
    } else {
      ElemsSkipWs(s, depth, finite, []);
      var e := ElemsSound(s, depth, finite, []);
      t := Arr(e);
      assert [] + ElemsMeaning(e) == ElemsMeaning(e);
    }
  }

  lemma {:induction false} DropWsTwice(s: Text)
    ensures DropWs(DropWs(s)) == DropWs(s)
  {
    if s != [] && IsWs(s[0]) { DropWsTwice(s[1..]); }
  }

  /** White space in front of a list makes no difference. */
  lemma ElemsSkipWs(s: Text, depth: nat, finite: Text -> bool, acc: seq<Json>)
    ensures ReadElems(DropWs(s), depth, finite, acc) == ReadElems(s, depth, finite, acc)
  {
    hide DropWs;
    DropWsTwice(s);
    assert ReadValue(DropWs(s), depth, finite) == ReadValue(s, depth, finite);
  }

  lemma MembersSkipWs(s: Text, depth: nat, finite: Text -> bool, acc: map<Text, Json>)
    ensures ReadMembers(DropWs(s), depth, finite, acc) == ReadMembers(s, depth, finite, acc)
  {
    hide DropWs;
    DropWsTwice(s);
    assert ReadKey(DropWs(s)) == ReadKey(s);
    hide ReadKey;
    assert ReadMember(DropWs(s), depth, finite) == ReadMember(s, depth, finite);
  }

  /** One element read: what the text behind it decides. */
  lemma ElemsStep(s: Text, depth: nat, finite: Text -> bool, acc: seq<Json>)
    ensures ReadValue(s, depth, finite).Bad? ==> ReadElems(s, depth, finite, acc).Bad?
    ensures ReadValue(s, depth, finite).Good? ==>
              var v, at := ReadValue(s, depth, finite).value, DropWs(ReadValue(s, depth, finite).rest);
              && (at == [] || (at[0] != RBRACKET && at[0] != COMMA) ==> ReadElems(s, depth, finite, acc).Bad?)
              && (at != [] && at[0] == RBRACKET ==> ReadElems(s, depth, finite, acc) == Good(acc + [v], at[1..]))
              && (at != [] && at[0] == COMMA ==>
                    ReadElems(s, depth, finite, acc) == ReadElems(at[1..], depth, finite, acc + [v]))
  {
  }

  lemma MembersStep(s: Text, depth: nat, finite: Text -> bool, acc: map<Text, Json>)
    ensures ReadMember(s, depth, finite).Bad? ==> ReadMembers(s, depth, finite, acc).Bad?
    ensures ReadMember(s, depth, finite).Good? ==>
              var acc', at := Emplace(acc, ReadMember(s, depth, finite).value),
                  DropWs(ReadMember(s, depth, finite).rest);
              && (at == [] || (at[0] != RBRACE && at[0] != COMMA) ==> ReadMembers(s, depth, finite, acc).Bad?)
              && (at != [] && at[0] == RBRACE ==> ReadMembers(s, depth, finite, acc) == Good(acc', at[1..]))
              && (at != [] && at[0] == COMMA ==>
                    ReadMembers(s, depth, finite, acc) == ReadMembers(at[1..], depth, finite, acc'))
  {
  }

  lemma {:induction false} ElemsSound(s: Text, depth: nat, finite: Text -> bool, acc: seq<Json>) returns (e: Elems)
    requires ReadElems(s, depth, finite, acc).Good?
    ensures ElemsOk(e) && depth + ElemsHeight(e) <= MAX_DEPTH && ElemsFinite(e, finite)
    ensures s == SpellElems(e, [RBRACKET] + ReadElems(s, depth, finite, acc).rest)
    ensures ReadElems(s, depth, finite, acc).value == acc + ElemsMeaning(e)
    decreases |s|, 1
  {
    hide DropWs, ReadValue, AllWs, Spell, Meaning, TreeOk, Height, TreeFinite;
    var before, value := ValueSound(s, depth, finite);
    var r, v := ReadValue(s, depth, finite).rest, ReadValue(s, depth, finite).value;
    var at := DropWs(r);
    var after := WsDropped(r);
    if at[0] == RBRACKET {
      e := LastElem(before, value, after);
      assert [v] + [] == [v];
    } else {
      var rest := ElemsSound(at[1..], depth, finite, acc + [v]);
      e := Elem(before, value, after, rest);
      assert acc + [v] + ElemsMeaning(rest) == acc + ([v] + ElemsMeaning(rest));
    }
  }

  lemma KeySound(s: Text) returns (before: Text, key: seq<Item>, colon: Text)
    requires ReadKey(s).Good?
    ensures AllWs(before) && ItemsOk(key) && AllWs(colon) && ReadKey(s).value == ItemsMeaning(key)
    ensures s == before + ([QUOTE] + SpellItems(key, [QUOTE] + (colon + ([COLON] + ReadKey(s).rest))))
  {
    hide DropWs, ReadString, AllWs, ItemsOk;
    var at := DropWs(s);
    before := WsDropped(s);
    key := StringSound(at[1..], []);
    colon := WsDropped(ReadString(at[1..], []).rest);
    assert [] + ItemsMeaning(key) == ItemsMeaning(key);
  }

  lemma {:induction false} ObjectSound(s: Text, depth: nat, finite: Text -> bool) returns (t: Tree)
    requires ReadObject(s, depth, finite).Good? && 1 <= depth <= MAX_DEPTH + 1
    ensures TreeOk(t) && depth - 1 + Height(t) <= MAX_DEPTH && TreeFinite(t, finite)
    ensures [LBRACE] + s == Spell(t, ReadObject(s, depth, finite).rest)
    ensures ReadObject(s, depth, finite).value == Meaning(t)
    decreases |s|, 2
  {
    hide DropWs, ReadMembers, AllWs, ItemsOk, ItemsMeaning, SpellItems;
    var at := DropWs(s);
    var ws := WsDropped(s);
    if at != [] && at[0] == RBRACE {
      t := EmptyObj(ws);
    } else {
      MembersSkipWs(s, depth, finite, map[]);
      var m := MembersSound(s, depth, finite, map[]);
      t := Obj(m);
    }
  }

  lemma {:induction false} MembersSound(s: Text, depth: nat, finite: Text -> bool, acc: map<Text, Json>)
    returns (m: Members)
    requires ReadMembers(s, depth, finite, acc).Good?
    ensures MembersOk(m) && depth + MembersHeight(m) <= MAX_DEPTH && MembersFinite(m, finite)
    ensures s == SpellMembers(m, [RBRACE] + ReadMembers(s, depth, finite, acc).rest)
    ensures ReadMembers(s, depth, finite, acc).value == MembersMeaning(m, acc)
    decreases |s|, 1
  {
    hide DropWs, ReadValue, ReadKey, AllWs, Spell, Meaning, TreeOk, Height, TreeFinite, ItemsOk, ItemsMeaning,
         SpellItems;
    var before, key, colon := KeySound(s);
    var at := ReadKey(s).rest;
    var ws, value := ValueSound(at, depth, finite);
    var r, v := ReadValue(at, depth, finite).rest, ReadValue(at, depth, finite).value;
    var end := DropWs(r);
    var after := WsDropped(r);
    if end[0] == RBRACE {
      m := LastMember(before, key, colon, ws, value, after);
    } else {
      var rest := MembersSound(end[1..], depth, finite, Emplace(acc, (ItemsMeaning(key), v)));
      m := Member(before, key, colon, ws, value, after, rest);
    }
  }

  // ---------------------------------------------------------------- whatever is in the grammar is read

  lemma {:induction false} DropWsOver(w: Text, k: Text)
    requires AllWs(w) && (k == [] || !IsWs(k[0]))
    ensures DropWs(w + k) == k
  {
    if w == [] {
      assert w + k == k;
    } else {
      assert (w + k)[1..] == w[1..] + k;
      DropWsOver(w[1..], k);
    }
  }

  lemma {:induction false} DropDigitsOver(w: Text, k: Text)
    requires AllDigits(w) && (k == [] || !IsDigit(k[0]))
    ensures DropDigits(w + k) == k
  {
    if w == [] {
      assert w + k == k;
    } else {
      assert (w + k)[1..] == w[1..] + k;
      DropDigitsOver(w[1..], k);
    }
  }

  lemma UnitComplete(h: Text, k: Text)
    requires IsHex4(h)
    ensures ReadUnit(h + k) == Good(CodeUnit(h), k)
  {
    assert (h + k)[..4] == h && (h + k)[4..] == k;
  }

  lemma UnicodeComplete(i: Item, k: Text)
    requires ItemOk(i) && (i.Unit? || i.Pair?)
    ensures var s := SpellItem(i, k);
            |s| >= 2 && s[0] == BACKSLASH && s[1] == LETTER_U && ReadUnicode(s[2..]) == Good(ItemMeaning(i), k)
  {
    var s := SpellItem(i, k);
    if i.Unit? {
      assert s[2..] == i.h + k;
      UnitComplete(i.h, k);
    } else {
      var more := [BACKSLASH, LETTER_U] + (i.lo + k);
      assert s[2..] == i.hi + more && more[2..] == i.lo + k;
      UnitComplete(i.hi, more);
      UnitComplete(i.lo, k);
    }
  }

  lemma ItemComplete(i: Item, k: Text, acc: Text)
    requires ItemOk(i)
    ensures ReadString(SpellItem(i, k), acc) == ReadString(k, acc + ItemMeaning(i))
  {
    hide ReadString, ReadUnicode;
    var s := SpellItem(i, k);
    StringStep(s, acc);
    match i
    case Plain(b) => assert s[1..] == k;
    case Short(c) => assert s[2..] == k;
    case _ =>
      UnicodeComplete(i, k);
      hide SpellItem, ItemMeaning, ItemOk;
  }

  lemma {:induction false} StringComplete(items: seq<Item>, k: Text, acc: Text)
    requires ItemsOk(items)
    ensures ReadString(SpellItems(items, [QUOTE] + k), acc) == Good(acc + ItemsMeaning(items), k)
    decreases |items|
  {
    if items == [] {
      assert ([QUOTE] + k)[1..] == k && acc + [] == acc;
    } else {
      hide ReadString, SpellItem, ItemMeaning, ItemOk;
      ItemComplete(items[0], SpellItems(items[1..], [QUOTE] + k), acc);
      StringComplete(items[1..], k, acc + ItemMeaning(items[0]));
      assert acc + ItemMeaning(items[0]) + ItemsMeaning(items[1..]) ==
               acc + (ItemMeaning(items[0]) + ItemsMeaning(items[1..]));
    }
  }

  /** What may follow a value. */
  predicate Stops(k: Text) {
    k == [] || IsWs(k[0]) || k[0] == COMMA || k[0] == RBRACKET || k[0] == RBRACE
  }

  lemma ExponentComplete(n: Numeral, k: Text)
    requires NumeralOk(n) && Stops(k)
    ensures ExponentEnd(SpellExponent(n, k)) == Before(k)
    ensures SpellExponent(n, k) == [] || (!IsDigit(SpellExponent(n, k)[0]) && SpellExponent(n, k)[0] != DOT)
  {
    if n.exponent != [] {
      var at := SpellExponent(n, k);
      var digits := n.exponent + k;
      assert at[|n.mark|..] == digits;
      if |n.mark| == 1 {
        assert at[1] == n.exponent[0];
      }
      DropDigitsOver(n.exponent, k);
      assert |DropDigits(digits)| < |digits|;
    }
  }

  lemma FractionComplete(n: Numeral, k: Text)
    requires NumeralOk(n) && Stops(k)
    ensures FractionEnd(SpellFraction(n, k)) == Before(k)
    ensures SpellFraction(n, k) == [] || !IsDigit(SpellFraction(n, k)[0])
  {
    ExponentComplete(n, k);
    hide ExponentEnd, SpellExponent;
    if n.fraction != [] {
      var at, tail := SpellFraction(n, k), SpellExponent(n, k);
      assert at[1..] == n.fraction + tail;
      DropDigitsOver(n.fraction, tail);
    }
  }

  lemma NumberComplete(n: Numeral, k: Text)
    requires NumeralOk(n) && Stops(k)
    ensures ReadNumber(SpellNumeral(n, k)) == Good(SpellNumeral(n, []), k)
    ensures SpellNumeral(n, k) != [] && (SpellNumeral(n, k)[0] == MINUS || IsDigit(SpellNumeral(n, k)[0]))
  {
    hide FractionEnd, SpellFraction, NumberEnd;
    NumberEndComplete(n, k);
    NumeralAppend(n, k);
    hide SpellNumeral;
    var s := SpellNumeral(n, k);
    assert s[..|s| - |k|] == SpellNumeral(n, []);
  }

  lemma NumberEndComplete(n: Numeral, k: Text)
    requires NumeralOk(n) && Stops(k)
    ensures NumberEnd(SpellNumeral(n, k)) == Before(k)
    ensures SpellNumeral(n, k) != [] && (SpellNumeral(n, k)[0] == MINUS || IsDigit(SpellNumeral(n, k)[0]))
  {
    FractionComplete(n, k);
    hide FractionEnd, SpellFraction, DropDigits;
    var s, tail := SpellNumeral(n, k), SpellFraction(n, k);
    var at := n.whole + tail;
    assert n.minus ==> s[1..] == at;
    assert at[0] == n.whole[0] && at[1..] == n.whole[1..] + tail;
    DropDigitsOver(n.whole[1..], tail);
    if n.whole[0] == ZERO { assert at[1..] == tail; }
  }

  /** How the text of a value begins. */
  lemma SpellStarts(t: Tree, k: Text)
    requires TreeOk(t) && Stops(k)
    ensures Spell(t, k) != [] && !IsWs(Spell(t, k)[0]) && Spell(t, k)[0] != RBRACKET && Spell(t, k)[0] != RBRACE
  {
    if t.Num? { NumberComplete(t.n, k); }
  }

  lemma {:induction false} ValueComplete(w: Text, t: Tree, k: Text, depth: nat, finite: Text -> bool)
    requires AllWs(w) && TreeOk(t) && Stops(k) && depth + Height(t) <= MAX_DEPTH && TreeFinite(t, finite)
    ensures ReadValue(w + Spell(t, k), depth, finite) == Good(Meaning(t), k)
    decreases t, 0
  {
    hide DropWs, ReadString, ReadObject, ReadArray, ReadNumber, SpellItems, SpellElems, SpellMembers, SpellNumeral,
         AllWs, ItemsOk, ElemsOk, MembersOk, NumeralOk, ItemsMeaning, ElemsMeaning, MembersMeaning, ElemsFinite,
         MembersFinite, ElemsHeight, MembersHeight, Stops;
    var at := Spell(t, k);
    SpellStarts(t, k);
    DropWsOver(w, at);
    match t
    case Null => assert at[4..] == k;
    case True => assert at[4..] == k;
    case False => assert at[5..] == k;
    case Num(n) => NumberComplete(n, k);
    case Str(items) =>
      assert at[1..] == SpellItems(items, [QUOTE] + k);
      StringComplete(items, k, []);
      assert [] + ItemsMeaning(items) == ItemsMeaning(items);
    case EmptyArr(ws) =>
      assert at[1..] == ws + ([RBRACKET] + k);
      EmptyArrayComplete(ws, k, depth + 1, finite);
    case Arr(elems) =>
      assert at[1..] == SpellElems(elems, [RBRACKET] + k);
      ArrayComplete(elems, k, depth + 1, finite);
    case EmptyObj(ws) =>
      assert at[1..] == ws + ([RBRACE] + k);
      EmptyObjectComplete(ws, k, depth + 1, finite);
    case Obj(members) =>
      assert at[1..] == SpellMembers(members, [RBRACE] + k);
      ObjectComplete(members, k, depth + 1, finite);
  }

  lemma EmptyArrayComplete(ws: Text, k: Text, depth: nat, finite: Text -> bool)
    requires AllWs(ws)
    ensures ReadArray(ws + ([RBRACKET] + k), depth, finite) == Good(JArray([]), k)
  {
    DropWsOver(ws, [RBRACKET] + k);
    assert ([RBRACKET] + k)[1..] == k;
  }

  lemma EmptyObjectComplete(ws: Text, k: Text, depth: nat, finite: Text -> bool)
    requires AllWs(ws)
    ensures ReadObject(ws + ([RBRACE] + k), depth, finite) == Good(JObject(map[]), k)
  {
    DropWsOver(ws, [RBRACE] + k);
    assert ([RBRACE] + k)[1..] == k;
  }

  lemma {:induction false} ArrayComplete(e: Elems, k: Text, depth: nat, finite: Text -> bool)
    requires ElemsOk(e) && depth + ElemsHeight(e) <= MAX_DEPTH && ElemsFinite(e, finite)
    ensures ReadArray(SpellElems(e, [RBRACKET] + k), depth, finite) == Good(JArray(ElemsMeaning(e)), k)
    decreases e, 1
  {
    hide DropWs, ReadElems, AllWs, Spell, Meaning, TreeOk, Height, TreeFinite, Stops, ElemsMeaning;
    var s, end := SpellElems(e, [RBRACKET] + k), [RBRACKET] + k;
    var behind := if e.Elem? then [COMMA] + SpellElems(e.rest, end) else end;
    AfterValue(e.after, behind);
    SpellStarts(e.value, e.after + behind);
    DropWsOver(e.before, Spell(e.value, e.after + behind));
    ElemsSkipWs(s, depth, finite, []);
    ElemsComplete(e, k, depth, finite, []);
    assert [] + ElemsMeaning(e) == ElemsMeaning(e);
  }

  lemma AfterValue(after: Text, k: Text)
    requires AllWs(after) && k != [] && (k[0] == COMMA || k[0] == RBRACKET || k[0] == RBRACE)
    ensures Stops(after + k) && DropWs(after + k) == k
  {
    DropWsOver(after, k);
  }

  lemma {:induction false} ElemsComplete(e: Elems, k: Text, depth: nat, finite: Text -> bool, acc: seq<Json>)
    requires ElemsOk(e) && depth + ElemsHeight(e) <= MAX_DEPTH && ElemsFinite(e, finite)
    ensures ReadElems(SpellElems(e, [RBRACKET] + k), depth, finite, acc) == Good(acc + ElemsMeaning(e), k)
    decreases e, 0
  {
    hide DropWs, ReadValue, AllWs, Spell, Meaning, TreeOk, Height, TreeFinite, Stops;
    var v := Meaning(e.value);
    if e.LastElem? {
      var end := [RBRACKET] + k;
      AfterValue(e.after, end);
      ValueComplete(e.before, e.value, e.after + end, depth, finite);
      assert end[1..] == k && [v] + [] == [v];
    } else {
      var end := [COMMA] + SpellElems(e.rest, [RBRACKET] + k);
      AfterValue(e.after, end);
      ValueComplete(e.before, e.value, e.after + end, depth, finite);
      assert end[1..] == SpellElems(e.rest, [RBRACKET] + k);
      ElemsComplete(e.rest, k, depth, finite, acc + [v]);
      assert acc + [v] + ElemsMeaning(e.rest) == acc + ([v] + ElemsMeaning(e.rest));
    }
  }

  lemma KeyComplete(before: Text, key: seq<Item>, colon: Text, k: Text)
    requires AllWs(before) && ItemsOk(key) && AllWs(colon)
    ensures ReadKey(before + ([QUOTE] + SpellItems(key, [QUOTE] + (colon + ([COLON] + k))))) ==
              Good(ItemsMeaning(key), k)
  {
    hide DropWs, ReadString, AllWs, ItemsOk, SpellItems, ItemsMeaning;
    var behind := colon + ([COLON] + k);
    var at := [QUOTE] + SpellItems(key, [QUOTE] + behind);
    DropWsOver(before, at);
    assert at[1..] == SpellItems(key, [QUOTE] + behind);
    StringComplete(key, behind, []);
    DropWsOver(colon, [COLON] + k);
    assert ([COLON] + k)[1..] == k && [] + ItemsMeaning(key) == ItemsMeaning(key);
  }

  lemma {:induction false} ObjectComplete(m: Members, k: Text, depth: nat, finite: Text -> bool)
    requires MembersOk(m) && depth + MembersHeight(m) <= MAX_DEPTH && MembersFinite(m, finite)
    ensures ReadObject(SpellMembers(m, [RBRACE] + k), depth, finite) == Good(JObject(MembersMeaning(m, map[])), k)
    decreases m, 1
  {
    hide DropWs, ReadMembers, AllWs, Spell, SpellItems, ItemsOk, TreeOk, MembersMeaning, MembersHeight, MembersFinite;
    var s, end := SpellMembers(m, [RBRACE] + k), [RBRACE] + k;
    var value := Spell(m.value, m.after + if m.Member? then [COMMA] + SpellMembers(m.rest, end) else end);
    DropWsOver(m.before, [QUOTE] + SpellItems(m.key, [QUOTE] + (m.colon + ([COLON] + (m.ws + value)))));
    MembersSkipWs(s, depth, finite, map[]);
    MembersComplete(m, k, depth, finite, map[]);
  }

  lemma {:induction false} MembersComplete(m: Members, k: Text, depth: nat, finite: Text -> bool, acc: map<Text, Json>)
    requires MembersOk(m) && depth + MembersHeight(m) <= MAX_DEPTH && MembersFinite(m, finite)
    ensures ReadMembers(SpellMembers(m, [RBRACE] + k), depth, finite, acc) == Good(MembersMeaning(m, acc), k)
    decreases m, 0
  {
    hide DropWs, ReadValue, ReadKey, AllWs, Spell, Meaning, TreeOk, Height, TreeFinite, Stops, ItemsOk, ItemsMeaning,
         SpellItems;
    var end := if m.Member? then [COMMA] + SpellMembers(m.rest, [RBRACE] + k) else [RBRACE] + k;
    AfterValue(m.after, end);
    ValueComplete(m.ws, m.value, m.after + end, depth, finite);
    KeyComplete(m.before, m.key, m.colon, m.ws + Spell(m.value, m.after + end));
    if m.Member? {
      assert end[1..] == SpellMembers(m.rest, [RBRACE] + k);
      MembersComplete(m.rest, k, depth, finite, Emplace(acc, (ItemsMeaning(m.key), Meaning(m.value))));
    } else {
      assert end[1..] == k;
    }
  }

  // ---------------------------------------------------------------- exactly the grammar

  /** The texts that are accepted: JSON texts in which no value has more than 64 arrays and objects
      around it and every number is finite. */
  ghost predicate Accepted(input: Text, finite: Text -> bool, v: Json) {
    exists before: Text, t: Tree, after: Text ::
      IsText(input, before, t, after) && Height(t) <= 64 && TreeFinite(t, finite) && v == Meaning(t)
  }

  /** Reading succeeds exactly on the accepted texts, with the value the grammar gives them. */
  lemma ReadsTheGrammar(input: Text, finite: Text -> bool, v: Json)
    ensures ReadText(input, finite) == Good(v, []) <==> Accepted(input, finite, v)
  {
    hide ReadValue, Spell, TreeOk, Height, TreeFinite, Meaning, AllWs, DropWs;
    if ReadText(input, finite) == Good(v, []) {
      var before, t := ValueSound(input, 0, finite);
      var after := WsDropped(ReadValue(input, 0, finite).rest);
      assert after + [] == after;
      assert IsText(input, before, t, after);
    }
    if Accepted(input, finite, v) {
      var before: Text, t: Tree, after: Text :|
        IsText(input, before, t, after) && Height(t) <= 64 && TreeFinite(t, finite) && v == Meaning(t);
      OnlyWs(after);
      ValueComplete(before, t, after, 0, finite);
    }
  }

  lemma OnlyWs(w: Text)
    requires AllWs(w)
    ensures Stops(w) && DropWs(w) == []
  {
    assert w + [] == w;
    DropWsOver(w, []);
  }

  /** No text has two meanings. */
  lemma Unambiguous(input: Text, finite: Text -> bool, v: Json, v': Json)
    requires Accepted(input, finite, v) && Accepted(input, finite, v')
    ensures v == v'
  {
    ReadsTheGrammar(input, finite, v);
    ReadsTheGrammar(input, finite, v');
  }
}
