/** JSON at the level of bytes, by sections 2 to 7 of RFC 8259: the texts it has and what they mean. */
module JsonGrammar {
  import opened Bytes
  import Utf8

  const QUOTE: Byte := 0x22
  const BACKSLASH: Byte := 0x5C
  const COMMA: Byte := 0x2C
  const COLON: Byte := 0x3A
  const LBRACKET: Byte := 0x5B
  const RBRACKET: Byte := 0x5D
  const LBRACE: Byte := 0x7B
  const RBRACE: Byte := 0x7D
  const MINUS: Byte := 0x2D
  const PLUS: Byte := 0x2B
  const DOT: Byte := 0x2E
  const ZERO: Byte := 0x30
  const LETTER_U: Byte := 0x75

  const TRUE: Text := [0x74, 0x72, 0x75, 0x65]
  const FALSE: Text := [0x66, 0x61, 0x6C, 0x73, 0x65]
  const NULL: Text := [0x6E, 0x75, 0x6C, 0x6C]

  predicate IsWs(b: Byte) { b == 0x20 || b == 0x09 || b == 0x0A || b == 0x0D }

  predicate AllWs(w: Text) { forall i | 0 <= i < |w| :: IsWs(w[i]) }

  predicate IsDigit(b: Byte) { 0x30 <= b <= 0x39 }

  predicate AllDigits(w: Text) { forall i | 0 <= i < |w| :: IsDigit(w[i]) }

  // ---------------------------------------------------------------- values

  /** A parsed value; a number is kept as it was written. */
  datatype Json =
    | JNull
    | JBool(value: bool)
    | JNumber(lexeme: Text)
    | JString(text: Text)
    | JArray(elements: seq<Json>)
    | JObject(members: map<Text, Json>)

  // ---------------------------------------------------------------- strings

  function HexValue(c: Byte): (n: int)
    ensures -1 <= n < 16
  {
    if 0x30 <= c <= 0x39 then c as int - 0x30
    else if 0x61 <= c <= 0x66 then c as int - 0x61 + 10
    else if 0x41 <= c <= 0x46 then c as int - 0x41 + 10
    else -1
  }

  predicate IsHex4(h: Text) { |h| == 4 && forall i | 0 <= i < 4 :: HexValue(h[i]) >= 0 }

  function CodeUnit(h: Text): (n: int)
    requires IsHex4(h)
    ensures 0 <= n <= 0xFFFF
  {
    ((HexValue(h[0]) * 16 + HexValue(h[1])) * 16 + HexValue(h[2])) * 16 + HexValue(h[3])
  }

  predicate IsHigh(u: int) { 0xD800 <= u <= 0xDBFF }

  predicate IsLow(u: int) { 0xDC00 <= u <= 0xDFFF }

  /** One element of a string as written: a byte that stands for itself, a two-character escape, an
      escaped code unit, or an escaped surrogate pair. */
  datatype Item = Plain(b: Byte) | Short(c: Byte) | Unit(h: Text) | Pair(hi: Text, lo: Text)

  /** What the letter of a two-character escape stands for. */
  function ShortEscape(c: Byte): (b: int)
    ensures -1 <= b < 256
  {
    if c == QUOTE then 0x22 else if c == BACKSLASH then 0x5C else if c == 0x2F then 0x2F else if c == 0x62 then 0x08
    else if c == 0x66 then 0x0C else if c == 0x6E then 0x0A
    else if c == 0x72 then 0x0D else if c == 0x74 then 0x09 else -1
  }

  predicate ItemOk(i: Item) {
    match i
    case Plain(b) => b >= 0x20 && b != QUOTE && b != BACKSLASH
    case Short(c) => ShortEscape(c) >= 0
    case Unit(h) => IsHex4(h) && !IsHigh(CodeUnit(h)) && !IsLow(CodeUnit(h))
    case Pair(hi, lo) => IsHex4(hi) && IsHex4(lo) && IsHigh(CodeUnit(hi)) && IsLow(CodeUnit(lo))
  }

  /** The UTF-8 form of a code point. */
  function Encode(cp: int): (r: Text)
    requires 0 <= cp <= 0x10FFFF
  {
    if cp <= 0x7F then [cp as Byte]
    else if cp <= 0x7FF then [(0xC0 + cp / 0x40) as Byte, (0x80 + cp % 0x40) as Byte]
    else if cp <= 0xFFFF then [(0xE0 + cp / 0x1000) as Byte, (0x80 + cp / 0x40 % 0x40) as Byte,
                               (0x80 + cp % 0x40) as Byte]
    else [(0xF0 + cp / 0x40000) as Byte, (0x80 + cp / 0x1000 % 0x40) as Byte, (0x80 + cp / 0x40 % 0x40) as Byte,
          (0x80 + cp % 0x40) as Byte]
  }

  /** Every escape that is accepted stands for one valid UTF-8 character. */
  lemma EncodeIsValid(cp: int)
    requires 0 <= cp <= 0x10FFFF && !IsHigh(cp) && !IsLow(cp)
    ensures Utf8.StartsWithChar(Encode(cp)) && Utf8.Valid(Encode(cp)) && |Encode(cp)| == Utf8.Expected(Encode(cp)[0])
  {
    var r := Encode(cp);
    assert Utf8.StartsWithChar(r);
    assert r[Utf8.Expected(r[0])..] == [];
  }

  function PairValue(hi: int, lo: int): (cp: int)
    requires IsHigh(hi) && IsLow(lo)
    ensures 0x10000 <= cp <= 0x10FFFF
  {
    0x10000 + (hi - 0xD800) * 0x400 + (lo - 0xDC00)
  }

  function ItemMeaning(i: Item): Text
    requires ItemOk(i)
  {
    match i
    case Plain(b) => [b]
    case Short(c) => [ShortEscape(c) as Byte]
    case Unit(h) => Encode(CodeUnit(h))
    case Pair(hi, lo) => Encode(PairValue(CodeUnit(hi), CodeUnit(lo)))
  }

  /** `Spell…(x, k)` is `x` as written, followed by the text `k`. */
  function SpellItem(i: Item, k: Text): Text {
    match i
    case Plain(b) => [b] + k
    case Short(c) => [BACKSLASH, c] + k
    case Unit(h) => [BACKSLASH, LETTER_U] + (h + k)
    case Pair(hi, lo) => [BACKSLASH, LETTER_U] + (hi + ([BACKSLASH, LETTER_U] + (lo + k)))
  }

  function SpellItems(items: seq<Item>, k: Text): Text {
    if items == [] then k else SpellItem(items[0], SpellItems(items[1..], k))
  }

  predicate ItemsOk(items: seq<Item>) { forall i | 0 <= i < |items| :: ItemOk(items[i]) }

  function ItemsMeaning(items: seq<Item>): Text
    requires ItemsOk(items)
  {
    if items == [] then [] else ItemMeaning(items[0]) + ItemsMeaning(items[1..])
  }

  // ---------------------------------------------------------------- numbers

  /** A numeral by its parts; an empty fraction or exponent is one that is not there. */
  datatype Numeral = Numeral(minus: bool, whole: Text, fraction: Text, mark: Text, exponent: Text)

  predicate NumeralOk(n: Numeral) {
    && |n.whole| > 0 && AllDigits(n.whole) && (n.whole[0] == ZERO ==> |n.whole| == 1)
    && AllDigits(n.fraction) && AllDigits(n.exponent)
    && (n.exponent != [] ==>
          && 1 <= |n.mark| <= 2 && (n.mark[0] == 0x65 || n.mark[0] == 0x45)
          && (|n.mark| == 2 ==> n.mark[1] == PLUS || n.mark[1] == MINUS))
  }

  function SpellExponent(n: Numeral, k: Text): Text { if n.exponent == [] then k else n.mark + (n.exponent + k) }

  function SpellFraction(n: Numeral, k: Text): Text {
    if n.fraction == [] then SpellExponent(n, k) else [DOT] + (n.fraction + SpellExponent(n, k))
  }

  function SpellNumeral(n: Numeral, k: Text): Text {
    if n.minus then [MINUS] + (n.whole + SpellFraction(n, k)) else n.whole + SpellFraction(n, k)
  }

  // ---------------------------------------------------------------- values as written

  datatype Tree =
    | Null
    | True
    | False
    | Num(n: Numeral)
    | Str(items: seq<Item>)
    | EmptyArr(ws: Text)
    | Arr(elems: Elems)
    | EmptyObj(ws: Text)
    | Obj(members: Members)

  /** Array elements, each with the white space around it. */
  datatype Elems =
    | LastElem(before: Text, value: Tree, after: Text)
    | Elem(before: Text, value: Tree, after: Text, rest: Elems)

  datatype Members =
    | LastMember(before: Text, key: seq<Item>, colon: Text, ws: Text, value: Tree, after: Text)
    | Member(before: Text, key: seq<Item>, colon: Text, ws: Text, value: Tree, after: Text, rest: Members)

  function Spell(t: Tree, k: Text): Text {
    match t
    case Null => NULL + k
    case True => TRUE + k
    case False => FALSE + k
    case Num(n) => SpellNumeral(n, k)
    case Str(items) => [QUOTE] + SpellItems(items, [QUOTE] + k)
    case EmptyArr(ws) => [LBRACKET] + (ws + ([RBRACKET] + k))
    case Arr(elems) => [LBRACKET] + SpellElems(elems, [RBRACKET] + k)
    case EmptyObj(ws) => [LBRACE] + (ws + ([RBRACE] + k))
    case Obj(members) => [LBRACE] + SpellMembers(members, [RBRACE] + k)
  }

  function SpellElems(e: Elems, k: Text): Text {
    match e
    case LastElem(before, value, after) => before + Spell(value, after + k)
    case Elem(before, value, after, rest) => before + Spell(value, after + ([COMMA] + SpellElems(rest, k)))
  }

  function SpellMembers(m: Members, k: Text): Text {
    match m
    case LastMember(before, key, colon, ws, value, after) =>
      before + ([QUOTE] + SpellItems(key, [QUOTE] + (colon + ([COLON] + (ws + Spell(value, after + k))))))
    case Member(before, key, colon, ws, value, after, rest) =>
      var more := Spell(value, after + ([COMMA] + SpellMembers(rest, k)));
      before + ([QUOTE] + SpellItems(key, [QUOTE] + (colon + ([COLON] + (ws + more)))))
  }

  predicate TreeOk(t: Tree) {
    match t
    case Num(n) => NumeralOk(n)
    case Str(items) => ItemsOk(items)
    case EmptyArr(ws) => AllWs(ws)
    case EmptyObj(ws) => AllWs(ws)
    case Arr(elems) => ElemsOk(elems)
    case Obj(members) => MembersOk(members)
    case _ => true
  }

  predicate ElemsOk(e: Elems) {
    AllWs(e.before) && TreeOk(e.value) && AllWs(e.after) && (e.Elem? ==> ElemsOk(e.rest))
  }

  predicate MembersOk(m: Members) {
    && AllWs(m.before) && ItemsOk(m.key) && AllWs(m.colon) && AllWs(m.ws) && TreeOk(m.value) && AllWs(m.after)
    && (m.Member? ==> MembersOk(m.rest))
  }

  /** The largest number of arrays and objects around any value inside `t`. */
  function Height(t: Tree): nat {
    match t
    case Arr(elems) => 1 + ElemsHeight(elems)
    case Obj(members) => 1 + MembersHeight(members)
    case _ => 0
  }

  function Max(a: nat, b: nat): nat { if a <= b then b else a }

  function ElemsHeight(e: Elems): nat {
    match e
    case LastElem(_, value, _) => Height(value)
    case Elem(_, value, _, rest) => Max(Height(value), ElemsHeight(rest))
  }

  function MembersHeight(m: Members): nat {
    match m
    case LastMember(_, _, _, _, value, _) => Height(value)
    case Member(_, _, _, _, value, _, rest) => Max(Height(value), MembersHeight(rest))
  }

  /** Every numeral in `t` is one for which `finite` holds: the library can represent it. */
  ghost predicate TreeFinite(t: Tree, finite: Text -> bool) {
    match t
    case Num(n) => finite(SpellNumeral(n, []))
    case Arr(elems) => ElemsFinite(elems, finite)
    case Obj(members) => MembersFinite(members, finite)
    case _ => true
  }

  ghost predicate ElemsFinite(e: Elems, finite: Text -> bool) {
    TreeFinite(e.value, finite) && (e.Elem? ==> ElemsFinite(e.rest, finite))
  }

  ghost predicate MembersFinite(m: Members, finite: Text -> bool) {
    TreeFinite(m.value, finite) && (m.Member? ==> MembersFinite(m.rest, finite))
  }

  // ---------------------------------------------------------------- what it means

  function Meaning(t: Tree): Json
    requires TreeOk(t)
  {
    match t
    case Null => JNull
    case True => JBool(true)
    case False => JBool(false)
    case Num(n) => JNumber(SpellNumeral(n, []))
    case Str(items) => JString(ItemsMeaning(items))
    case EmptyArr(_) => JArray([])
    case Arr(elems) => JArray(ElemsMeaning(elems))
    case EmptyObj(_) => JObject(map[])
    case Obj(members) => JObject(MembersMeaning(members, map[]))
  }

  function ElemsMeaning(e: Elems): seq<Json>
    requires ElemsOk(e)
  {
    [Meaning(e.value)] + if e.Elem? then ElemsMeaning(e.rest) else []
  }

  /** A key that is there already keeps its value. */
  function Emplace(acc: map<Text, Json>, member: (Text, Json)): map<Text, Json> {
    if member.0 in acc then acc else acc[member.0 := member.1]
  }

  /** The members added to those before them. */
  function MembersMeaning(m: Members, acc: map<Text, Json>): map<Text, Json>
    requires MembersOk(m)
  {
    var acc' := Emplace(acc, (ItemsMeaning(m.key), Meaning(m.value)));
    if m.Member? then MembersMeaning(m.rest, acc') else acc'
  }

  /** The members of an object in the order they are written. */
  function MemberList(m: Members): (r: seq<(Text, Json)>)
    requires MembersOk(m)
  {
    [(ItemsMeaning(m.key), Meaning(m.value))] + if m.Member? then MemberList(m.rest) else []
  }

  /** Of several members with the same key the first one counts, and every key is there. */
  lemma {:induction false} FirstWins(m: Members, acc: map<Text, Json>, i: nat)
    requires MembersOk(m) && i < |MemberList(m)|
    requires forall j | 0 <= j < i :: MemberList(m)[j].0 != MemberList(m)[i].0
    ensures var (key, v) := MemberList(m)[i];
            key in MembersMeaning(m, acc) && MembersMeaning(m, acc)[key] == if key in acc then acc[key] else v
    decreases m
  {
    hide ItemsMeaning, Meaning, ItemsOk, TreeOk, AllWs;
    var first := (ItemsMeaning(m.key), Meaning(m.value));
    var acc' := Emplace(acc, first);
    if i > 0 {
      var list, more := MemberList(m), MemberList(m.rest);
      assert list == [first] + more;
      assert forall j | 0 <= j < |more| :: list[j + 1] == more[j];
      assert list[0].0 != list[i].0;
      forall j | 0 <= j < i - 1 ensures more[j].0 != more[i - 1].0 {
        assert list[j + 1].0 != list[i].0;
      }
      FirstWins(m.rest, acc', i - 1);
    } else if m.Member? {
      Kept(m.rest, acc', first.0);
    }
  }

  lemma {:induction false} Kept(m: Members, acc: map<Text, Json>, key: Text)
    requires MembersOk(m) && key in acc
    ensures key in MembersMeaning(m, acc) && MembersMeaning(m, acc)[key] == acc[key]
    decreases m
  {
    if m.Member? {
      Kept(m.rest, Emplace(acc, (ItemsMeaning(m.key), Meaning(m.value))), key);
    }
  }

  /** A JSON text: a value with white space around it. */
  ghost predicate IsText(input: Text, before: Text, t: Tree, after: Text) {
    AllWs(before) && TreeOk(t) && AllWs(after) && input == before + Spell(t, after)
  }
}
