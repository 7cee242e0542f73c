/** Writing JSON: json_escape and error_json of src/openai_api.cpp, and that reading undoes them. */
module JsonEscape {
  import opened Bytes
  import opened JsonGrammar
  import opened JsonReading
  import opened Unicode

  /** A lower-case hexadecimal digit. */
  function HexDigit(n: int): (c: Byte)
    requires 0 <= n < 16
    ensures HexValue(c) == n
  {
    if n < 10 then (0x30 + n) as Byte else (0x61 + n - 10) as Byte
  }

  function EscapeByte(c: Byte): Text {
    if c == QUOTE then [BACKSLASH, QUOTE]
    else if c == BACKSLASH then [BACKSLASH, BACKSLASH]
    else if c == 0x0A then [BACKSLASH, 0x6E]
    else if c == 0x0D then [BACKSLASH, 0x72]
    else if c == 0x09 then [BACKSLASH, 0x74]
    else if c < 0x20 then [BACKSLASH, LETTER_U, ZERO, ZERO, HexDigit(c as int / 16), HexDigit(c as int % 16)]
    else [c]
  }

  /** What a byte is written as, in characters. */
  lemma EscapeTable(c: Byte)
    ensures Is(c, '\"') ==> Looks(EscapeByte(c), "\\\"")
    ensures Is(c, '\\') ==> Looks(EscapeByte(c), "\\\\")
    ensures Is(c, '\n') ==> Looks(EscapeByte(c), "\\n")
    ensures Is(c, '\r') ==> Looks(EscapeByte(c), "\\r")
    ensures Is(c, '\t') ==> Looks(EscapeByte(c), "\\t")
    ensures c < 0x20 && !OneOf(c, "\n\r\t") ==>
              var digits := "0123456789abcdef";
              Looks(EscapeByte(c), "\\u00" + [digits[c as int / 16], digits[c as int % 16]])
    ensures c >= 0x20 && !OneOf(c, "\"\\") ==> EscapeByte(c) == [c]
  {
    var plain, quoted := "\n\r\t", "\"\\";
    assert OneOf(c, plain) <==> Is(c, plain[0]) || Is(c, plain[1]) || Is(c, plain[2]);
    assert OneOf(c, quoted) <==> Is(c, quoted[0]) || Is(c, quoted[1]);
  }

  /** A byte string with every byte escaped where it must be. */
  function Escaped(s: Text): Text {
    if s == [] then [] else Escaped(s[..|s| - 1]) + EscapeByte(s[|s| - 1])
  }

  method JsonEscape(value: Text) returns (escaped: Text)
    ensures escaped == Escaped(value)
  {
    escaped := [];
    var i := 0;
    while i < |value|
      invariant 0 <= i <= |value| && escaped == Escaped(value[..i])
    {
      assert value[..i + 1][..i] == value[..i];
      escaped := escaped + EscapeByte(value[i]);
      i := i + 1;
    }
    assert value[..i] == value;
  }

  /** Escaping distributes over concatenation, so streamed pieces may be escaped one by one. */
  lemma {:induction false} EscapeConcat(a: Text, b: Text)
    ensures Escaped(a + b) == Escaped(a) + Escaped(b)
    decreases |b|
  {
    hide EscapeByte;
    if b == [] {
      assert a + b == a;
    } else {
      var init, c := b[..|b| - 1], b[|b| - 1];
      EscapeConcat(a, init);
      assert (a + b)[..|a + b| - 1] == a + init;
      assert Escaped(a) + Escaped(init) + EscapeByte(c) == Escaped(a) + (Escaped(init) + EscapeByte(c));
    }
  }

  /** The string element a byte is written as. */
  function ItemOf(c: Byte): Item {
    if c == QUOTE || c == BACKSLASH then Short(c)
    else if c == 0x0A then Short(0x6E)
    else if c == 0x0D then Short(0x72)
    else if c == 0x09 then Short(0x74)
    else if c < 0x20 then Unit([ZERO, ZERO, HexDigit(c as int / 16), HexDigit(c as int % 16)])
    else Plain(c)
  }

  lemma ItemOfIs(c: Byte, k: Text)
    ensures ItemOk(ItemOf(c)) && ItemMeaning(ItemOf(c)) == [c] && SpellItem(ItemOf(c), k) == EscapeByte(c) + k
  {
    if c < 0x20 && ItemOf(c).Unit? {
      assert CodeUnit(ItemOf(c).h) == c as int;
    }
  }

  function ItemsOf(s: Text): (r: seq<Item>)
    ensures |r| == |s|
  {
    if s == [] then [] else [ItemOf(s[0])] + ItemsOf(s[1..])
  }

  /** Escaped text is the spelling of a string that means the original bytes. */
  lemma {:induction false} EscapedMeans(s: Text, k: Text)
    ensures ItemsOk(ItemsOf(s)) && ItemsMeaning(ItemsOf(s)) == s && SpellItems(ItemsOf(s), k) == Escaped(s) + k
    decreases |s|
  {
    hide SpellItem, EscapeByte, ItemOf, ItemMeaning, ItemOk;
    if s == [] {
      assert Escaped(s) + k == k;
    } else {
      var items := ItemsOf(s);
      assert items[0] == ItemOf(s[0]) && items[1..] == ItemsOf(s[1..]);
      EscapedMeans(s[1..], k);
      ItemOfIs(s[0], SpellItems(items[1..], k));
      assert s == [s[0]] + s[1..];
      EscapeConcat([s[0]], s[1..]);
      EscapedOne(s[0]);
      assert EscapeByte(s[0]) + (Escaped(s[1..]) + k) == EscapeByte(s[0]) + Escaped(s[1..]) + k;
    }
  }

  lemma EscapedOne(c: Byte)
    ensures Escaped([c]) == EscapeByte(c)
  {
    assert [c][..0] == [];
  }

  /** For every byte string: reading the quoted escape gives the string back. */
  lemma EscapeRoundTrip(s: Text, k: Text)
    ensures ReadString(Escaped(s) + ([QUOTE] + k), []) == Good(s, k)
  {
    hide ReadString, SpellItems, ItemsMeaning, ItemsOk, Escaped;
    EscapedMeans(s, [QUOTE] + k);
    StringComplete(ItemsOf(s), k, []);
    assert [] + s == s;
  }

  /** A whole text that is one quoted string. */
  lemma QuotedRoundTrip(s: Text, finite: Text -> bool)
    ensures ReadText([QUOTE] + (Escaped(s) + [QUOTE]), finite) == Good(JString(s), [])
  {
    hide Spell, TreeOk, Height, TreeFinite, Meaning, ReadText, Escaped;
    StringTree(s);
    TextOfTree(Str(ItemsOf(s)), finite);
  }

  lemma StringTree(s: Text)
    ensures var t := Str(ItemsOf(s));
            TreeOk(t) && Height(t) == 0 && Meaning(t) == JString(s) && Spell(t, []) == [QUOTE] + (Escaped(s) + [QUOTE])
    ensures forall finite: Text -> bool :: TreeFinite(Str(ItemsOf(s)), finite)
  {
    EscapedMeans(s, [QUOTE]);
    assert [QUOTE] + [] == [QUOTE];
  }

  lemma TextOfTree(t: Tree, finite: Text -> bool)
    requires TreeOk(t) && Height(t) <= MAX_DEPTH && TreeFinite(t, finite)
    ensures ReadText(Spell(t, []), finite) == Good(Meaning(t), [])
  {
    hide Spell, TreeOk, Height, TreeFinite, Meaning, ReadText;
    assert [] + Spell(t, []) == Spell(t, []);
    assert IsText(Spell(t, []), [], t, []);
    assert Accepted(Spell(t, []), finite, Meaning(t));
    ReadsTheGrammar(Spell(t, []), finite, Meaning(t));
  }

  // ---------------------------------------------------------------- error_json

  const ERROR: Text := [0x65, 0x72, 0x72, 0x6F, 0x72]
  const MESSAGE: Text := [0x6D, 0x65, 0x73, 0x73, 0x61, 0x67, 0x65]
  const TYPE: Text := [0x74, 0x79, 0x70, 0x65]

  /** The text `s` in quotes, followed by `k`. */
  function InQuotes(s: Text, k: Text): Text { [QUOTE] + (s + ([QUOTE] + k)) }

  /** {"a":{"b":"…","c":"…"}} */
  function Nested(a: Text, b: Text, bText: Text, c: Text, cText: Text): Text {
    [LBRACE] + InQuotes(a, [COLON] + ([LBRACE] + InQuotes(b, [COLON] + InQuotes(bText, [COMMA] +
      InQuotes(c, [COLON] + InQuotes(cText, [RBRACE] + ([RBRACE] + [])))))))
  }

  function ErrorJson(message: Text, kind: Text): Text {
    Nested(ERROR, MESSAGE, Escaped(message), TYPE, kind)
  }

  /** Text that needs no escaping. */
  predicate IsPlain(t: Text) { forall i | 0 <= i < |t| :: t[i] >= 0x20 && t[i] != QUOTE && t[i] != BACKSLASH }

  lemma {:induction false} PlainEscape(t: Text)
    requires IsPlain(t)
    ensures Escaped(t) == t
    decreases |t|
  {
    if t != [] { PlainEscape(t[..|t| - 1]); }
  }

  function MessageMember(message: Text, kind: Text): Members {
    Member([], ItemsOf(MESSAGE), [], [], Str(ItemsOf(message)), [],
           LastMember([], ItemsOf(TYPE), [], [], Str(ItemsOf(kind)), []))
  }

  function ErrorTree(message: Text, kind: Text): Tree {
    Obj(LastMember([], ItemsOf(ERROR), [], [], Obj(MessageMember(message, kind)), []))
  }

  /** The bytes `s` as a JSON string, followed by `k`. */
  function Quoted(s: Text, k: Text): Text { InQuotes(Escaped(s), k) }

  lemma QuotedSpells(s: Text, k: Text)
    ensures Spell(Str(ItemsOf(s)), k) == Quoted(s, k) && [QUOTE] + SpellItems(ItemsOf(s), [QUOTE] + k) == Quoted(s, k)
  {
    EscapedMeans(s, [QUOTE] + k);
  }

  lemma NoSpace(k: Text)
    ensures [] + k == k
  {
  }

  lemma ErrorSpells(message: Text, kind: Text)
    ensures Spell(ErrorTree(message, kind), []) ==
            Nested(Escaped(ERROR), Escaped(MESSAGE), Escaped(message), Escaped(TYPE), Escaped(kind))
  {
    hide Escaped, SpellItems, ItemsOf, InQuotes;
    var close := [RBRACE] + ([RBRACE] + []);
    var k1 := Quoted(kind, close);
    QuotedSpells(kind, close);
    QuotedSpells(TYPE, [COLON] + k1);
    var k2 := Quoted(TYPE, [COLON] + k1);
    var k3 := Quoted(message, [COMMA] + k2);
    QuotedSpells(message, [COMMA] + k2);
    QuotedSpells(MESSAGE, [COLON] + k3);
    var k4 := [LBRACE] + Quoted(MESSAGE, [COLON] + k3);
    QuotedSpells(ERROR, [COLON] + k4);
    var inner := MessageMember(message, kind);
    NoSpace(close);
    NoSpace(k1);
    NoSpace([COLON] + k1);
    NoSpace(k2);
    NoSpace([COMMA] + k2);
    NoSpace(k3);
    NoSpace([COLON] + k3);
    assert SpellMembers(inner.rest, close) == k2;
    assert SpellMembers(inner, close) == Quoted(MESSAGE, [COLON] + k3);
    NoSpace(k4);
    NoSpace([COLON] + k4);
    NoSpace([RBRACE] + []);
    assert Spell(Obj(inner), [RBRACE] + []) == k4;
    var outer := ErrorTree(message, kind).members;
    assert SpellMembers(outer, [RBRACE] + []) == Quoted(ERROR, [COLON] + k4);
  }

  /** The error text reads back as an object whose message is the message, byte for byte. */
  lemma ErrorRecovered(message: Text, kind: Text, finite: Text -> bool)
    requires IsPlain(kind)
    ensures ReadText(ErrorJson(message, kind), finite) ==
            Good(JObject(map[ERROR := JObject(map[MESSAGE := JString(message), TYPE := JString(kind)])]), [])
  {
    var t := ErrorTree(message, kind);
    ErrorTreeMeans(message, kind, finite);
    ErrorSpells(message, kind);
    ErrorIsSpelled(message, kind);
    hide ReadText, Spell, Meaning, TreeOk, Height, TreeFinite;
    TextOfTree(t, finite);
  }

  lemma ErrorTreeMeans(message: Text, kind: Text, finite: Text -> bool)
    ensures var t := ErrorTree(message, kind);
            TreeOk(t) && Height(t) <= MAX_DEPTH && TreeFinite(t, finite) &&
            Meaning(t) == JObject(map[ERROR := JObject(map[MESSAGE := JString(message), TYPE := JString(kind)])])
  {
    hide ItemsOf, ItemsOk, ItemsMeaning;
    MessageMeans(message, kind, finite);
    hide MessageMember;
    EscapedMeans(ERROR, []);
    var inner := MessageMember(message, kind);
    var t := Obj(inner);
    assert TreeOk(t) && Height(t) == 1 && TreeFinite(t, finite);
    var outer := ErrorTree(message, kind).members;
    assert MembersOk(outer);
    LastMeaning(outer, map[]);
    assert Meaning(t) == JObject(map[MESSAGE := JString(message), TYPE := JString(kind)]);
  }

  lemma MessageMeans(message: Text, kind: Text, finite: Text -> bool)
    ensures var m := MessageMember(message, kind);
            MembersOk(m) && MembersHeight(m) == 0 && MembersFinite(m, finite) &&
            MembersMeaning(m, map[]) == map[MESSAGE := JString(message), TYPE := JString(kind)]
  {
    hide ItemsOf, ItemsOk, ItemsMeaning;
    EscapedMeans(MESSAGE, []);
    EscapedMeans(TYPE, []);
    EscapedMeans(message, []);
    EscapedMeans(kind, []);
    var m := MessageMember(message, kind);
    assert MembersOk(m.rest) && MembersFinite(m.rest, finite) && MembersHeight(m.rest) == 0;
    assert MESSAGE != TYPE by { assert |MESSAGE| != |TYPE|; }
    LastMeaning(m.rest, map[MESSAGE := JString(message)]);
  }

  lemma LastMeaning(m: Members, acc: map<Text, Json>)
    requires MembersOk(m) && m.LastMember?
    ensures MembersMeaning(m, acc) == Emplace(acc, (ItemsMeaning(m.key), Meaning(m.value)))
  {
  }

  lemma ErrorIsSpelled(message: Text, kind: Text)
    requires IsPlain(kind)
    ensures ErrorJson(message, kind) ==
            Nested(Escaped(ERROR), Escaped(MESSAGE), Escaped(message), Escaped(TYPE), Escaped(kind))
  {
    hide Escaped, Nested;
    PlainEscape(ERROR);
    PlainEscape(MESSAGE);
    PlainEscape(TYPE);
    PlainEscape(kind);
  }
}
