/** Bytes as the text layer sees them. */
module Bytes {
  newtype Byte = b: int | 0 <= b < 256

  type Text = seq<Byte>
}

/** Cutting streamed text only between characters: complete_utf8_prefix_length of src/openai_api.cpp
    and the use the streaming callback of src/http_server.cpp makes of it. */
module Utf8 {
  import opened Bytes

  // ---------------------------------------------------------------- section 4 of RFC 3629

  predicate IsTail(b: Byte) { 0x80 <= b <= 0xBF }

  predicate TailsAt(s: Text, from: int, to: int) {
    0 <= from && to <= |s| && forall i | from <= i < to :: IsTail(s[i])
  }

  /** The second byte a lead byte allows. */
  predicate SecondOk(lead: Byte, second: Byte) {
    if lead == 0xE0 then 0xA0 <= second <= 0xBF
    else if lead == 0xED then 0x80 <= second <= 0x9F
    else if lead == 0xF0 then 0x90 <= second <= 0xBF
    else if lead == 0xF4 then 0x80 <= second <= 0x8F
    else IsTail(second)
  }

  /** How long a character starting with `lead` is; 1 for bytes that start no longer one. */
  function Expected(lead: Byte): (n: nat)
    ensures 1 <= n <= 4
  {
    if 0xF0 <= lead <= 0xF4 then 4 else if 0xE0 <= lead <= 0xEF then 3 else if 0xC2 <= lead <= 0xDF then 2 else 1
  }

  /** Does `s` start with a complete character? */
  predicate StartsWithChar(s: Text) {
    && s != []
    && (if Expected(s[0]) == 1 then s[0] <= 0x7F
        else |s| >= Expected(s[0]) && SecondOk(s[0], s[1]) && TailsAt(s, 2, Expected(s[0])))
  }

  /** UTF-8: a sequence of complete characters. */
  predicate Valid(s: Text) {
    s == [] || (StartsWithChar(s) && Valid(s[Expected(s[0])..]))
  }

  /** The length of the complete characters at the front. */
  function Whole(s: Text): (n: nat)
    ensures n <= |s|
  {
    if StartsWithChar(s) then Expected(s[0]) + Whole(s[Expected(s[0])..]) else 0
  }

  /** A character that has begun and needs more bytes. */
  predicate Begun(t: Text) {
    t != [] && |t| < Expected(t[0]) && TailsAt(t, 1, |t|)
  }

  lemma {:induction false} WholeIsValid(s: Text)
    ensures Valid(s[..Whole(s)])
    decreases |s|
  {
    if StartsWithChar(s) {
      var n := Expected(s[0]);
      WholeIsValid(s[n..]);
      var w := s[..Whole(s)];
      assert w[n..] == s[n..][..Whole(s[n..])];
      assert StartsWithChar(w);
    }
  }

  /** What is left of a prefix of valid text after its complete characters is a begun character. */
  lemma {:induction false} PrefixOfValid(s: Text, all: Text)
    requires s <= all && Valid(all)
    ensures s[Whole(s)..] == [] || Begun(s[Whole(s)..])
    decreases |s|
  {
    if s != [] {
      var n := Expected(s[0]);
      if StartsWithChar(s) {
        PrefixOfValid(s[n..], all[n..]);
        assert s[Whole(s)..] == s[n..][Whole(s[n..])..];
      } else {
        assert StartsWithChar(all);
        assert forall i | 0 <= i < |s| :: s[i] == all[i];
      }
    }
  }

  lemma {:induction false} RestOfValid(s: Text, n: nat)
    requires Valid(s) && n <= |s| && Valid(s[..n])
    ensures Valid(s[n..])
    decreases n
  {
    hide Valid, StartsWithChar;
    if n > 0 {
      var k := Expected(s[0]);
      FirstChar(s);
      FirstChar(s[..n]);
      assert s[..n][0] == s[0];
      assert s[..n][k..] == s[k..][..n - k];
      RestOfValid(s[k..], n - k);
      assert s[k..][n - k..] == s[n..];
    } else {
      assert s[n..] == s;
    }
  }

  /** Valid text ends with a lead byte and exactly the tail bytes it calls for. */
  lemma {:induction false} LastChar(v: Text) returns (n: nat)
    requires Valid(v) && v != []
    ensures 1 <= n <= 4 && n <= |v| && Expected(v[|v| - n]) == n && !IsTail(v[|v| - n]) && TailsAt(v, |v| - n + 1, |v|)
    decreases |v|
  {
    var k := Expected(v[0]);
    if k == |v| {
      n := k;
    } else {
      n := LastChar(v[k..]);
      assert v[|v| - n] == v[k..][|v| - k - n];
      assert forall i | |v| - n + 1 <= i < |v| :: v[i] == v[k..][i - k];
    }
  }

  // ---------------------------------------------------------------- where the text may be cut

  /** Tail bytes at the end, at most three of them counted. */
  predicate EndsWithTails(s: Text, c: int) {
    0 <= c <= 3 && c <= |s| && TailsAt(s, |s| - c, |s|) && (c == 3 || c == |s| || !IsTail(s[|s| - c - 1]))
  }

  /** `k` is before the last lead byte if that one calls for more bytes than follow it, else the end. */
  ghost predicate IsCut(s: Text, k: nat) {
    exists c: int :: EndsWithTails(s, c) &&
                k == if c < |s| && Expected(s[|s| - 1 - c]) > c + 1 then |s| - 1 - c else |s|
  }

  method CompleteUtf8PrefixLength(text: Text) returns (k: nat)
    ensures IsCut(text, k)
    ensures k <= |text| && |text| - k <= 3
  {
    if text == [] {
      assert EndsWithTails(text, 0);
      return 0;
    }
    var continuationCount := 0;
    var suffixStart := |text|;
    while suffixStart > 0 && continuationCount < 3 && IsTail(text[suffixStart - 1])
      invariant continuationCount <= 3 && suffixStart == |text| - continuationCount
      invariant TailsAt(text, suffixStart, |text|)
    {
      suffixStart := suffixStart - 1;
      continuationCount := continuationCount + 1;
    }
    assert EndsWithTails(text, continuationCount);
    if continuationCount == 0 {
      var expected := Expected(text[|text| - 1]);
      return if expected > 1 then |text| - 1 else |text|;
    }
    if suffixStart == 0 { return |text|; }
    var leadPosition := suffixStart - 1;
    var expected := Expected(text[leadPosition]);
    var available := continuationCount + 1;
    return if expected > available then leadPosition else |text|;
  }

  /** For any prefix of valid text the cut is exactly after its last complete character. */
  lemma CutIsWhole(s: Text, all: Text, k: nat)
    requires s <= all && Valid(all) && IsCut(s, k)
    ensures k == Whole(s) && Valid(s[..k])
  {
    hide Valid, Whole, IsCut;
    var v, t := s[..Whole(s)], s[Whole(s)..];
    WholeIsValid(s);
    PrefixOfValid(s, all);
    assert s == v + t;
    if t != [] {
      CutBeforeBegun(v, t, k);
    } else {
      assert v == s;
      CutAfterValid(v, k);
    }
  }

  /** A begun character is the last lead byte and its tails, and is cut off. */
  lemma CutBeforeBegun(v: Text, t: Text, k: nat)
    requires Begun(t) && IsCut(v + t, k)
    ensures k == |v|
  {
    var s := v + t;
    var c: int :| EndsWithTails(s, c) && k == if c < |s| && Expected(s[|s| - 1 - c]) > c + 1 then |s| - 1 - c else |s|;
    assert s[|v|] == t[0];
    assert forall i | 1 <= i < |t| :: s[|v| + i] == t[i];
    LeadEnds(s, |t| - 1, c);
  }

  lemma CutAfterValid(v: Text, k: nat)
    requires Valid(v) && IsCut(v, k)
    ensures k == |v|
  {
    hide Valid;
    var c: int :| EndsWithTails(v, c) && k == if c < |v| && Expected(v[|v| - 1 - c]) > c + 1 then |v| - 1 - c else |v|;
    if v != [] {
      var n := LastChar(v);
      LeadEnds(v, n - 1, c);
    }
  }

  /** A lead byte followed by `n` tails to the end fixes the count. */
  lemma LeadEnds(s: Text, n: nat, c: int)
    requires n <= 3 && n < |s| && TailsAt(s, |s| - n, |s|) && !IsTail(s[|s| - n - 1]) && EndsWithTails(s, c)
    ensures c == n
  {
  }

  // ---------------------------------------------------------------- the stream

  /** Everything the client gets, piece by piece: the state of one streamed answer. */
  class ChunkBuffer {
    var incomplete: Text

    constructor ()
      ensures incomplete == []
    {
      incomplete := [];
    }

    /** The content of the next event: what was held back and the new token, up to the cut. */
    method OnToken(token: Text, isLast: bool) returns (content: Text)
      modifies this
      ensures content + incomplete == old(incomplete) + token
      ensures |incomplete| <= 3 && (isLast ==> incomplete == [])
      ensures !isLast ==> IsCut(old(incomplete) + token, |content|)
    {
      content := incomplete + token;
      var completeLength := CompleteUtf8PrefixLength(content);
      incomplete := content[completeLength..];
      content := content[..completeLength];
      if incomplete != [] && isLast {
        content := content + incomplete;
        incomplete := [];
      }
    }
  }

  function Concat(ts: seq<Text>): Text {
    if ts == [] then [] else Concat(ts[..|ts| - 1]) + ts[|ts| - 1]
  }

  lemma {:induction false} ConcatPrefix(ts: seq<Text>, n: nat)
    requires n <= |ts|
    ensures Concat(ts[..n]) <= Concat(ts)
    decreases |ts| - n
  {
    if n < |ts| {
      ConcatPrefix(ts, n + 1);
      assert ts[..n + 1][..n] == ts[..n];
    } else {
      assert ts[..n] == ts;
    }
  }

  /** After `k` pieces the events have said the same but for at most three bytes. */
  ghost predicate KeepsUp(events: seq<Text>, pieces: seq<Text>, k: nat)
    requires k <= |events| && k <= |pieces|
  {
    Concat(events[..k]) <= Concat(pieces[..k]) && |Concat(pieces[..k])| - |Concat(events[..k])| <= 3
  }

  /** Stream a whole answer.  However it is split into pieces, the events say exactly the pieces, never
      more than three bytes are held back, and if the answer is valid so is every event by itself. */
  method StreamAnswer(pieces: seq<Text>) returns (events: seq<Text>)
    requires pieces != []
    ensures |events| == |pieces| && Concat(events) == Concat(pieces)
    ensures forall k | 0 <= k <= |pieces| :: KeepsUp(events, pieces, k)
    ensures Valid(Concat(pieces)) ==> forall e | e in events :: Valid(e)
  {
    hide Valid, IsCut, Concat;
    var buffer := new ChunkBuffer();
    events := [];
    NothingIsValid();
    var i := 0;
    assert pieces[..i] == [] && events[..i] == [];
    while i < |pieces|
      invariant 0 <= i <= |pieces| && |events| == i
      invariant Concat(events) + buffer.incomplete == Concat(pieces[..i]) && |buffer.incomplete| <= 3
      invariant i == |pieces| ==> buffer.incomplete == []
      invariant forall k | 0 <= k <= i :: KeepsUp(events, pieces, k)
      invariant Valid(Concat(pieces)) ==> Valid(Concat(events)) && forall e | e in events :: Valid(e)
    {
      ghost var held, events0 := buffer.incomplete, events;
      var content := buffer.OnToken(pieces[i], i == |pieces| - 1);
      events := events + [content];
      SentText(events0, held, pieces, i, content, buffer.incomplete);
      forall k | 0 <= k <= i + 1 ensures KeepsUp(events, pieces, k) {
        if k <= i {
          assert KeepsUp(events0, pieces, k) && events[..k] == events0[..k];
        } else {
          assert events[..k] == events;
        }
      }
      ConcatPrefix(pieces, i + 1);
      assert i == |pieces| - 1 ==> pieces[..i + 1] == pieces;
      if Valid(Concat(pieces)) {
        SentValid(Concat(pieces), Concat(events0), held + pieces[i], content, buffer.incomplete);
      }
      i := i + 1;
    }
    assert pieces[..i] == pieces;
  }

  lemma NothingIsValid()
    ensures Valid(Concat([])) && Concat([]) == []
  {
  }

  lemma SentText(events: seq<Text>, held: Text, pieces: seq<Text>, i: nat, content: Text, left: Text)
    requires i < |pieces| && Concat(events) + held == Concat(pieces[..i]) && content + left == held + pieces[i]
    ensures Concat(events + [content]) == Concat(events) + content
    ensures Concat(events + [content]) + left == Concat(pieces[..i + 1]) == Concat(events) + (held + pieces[i])
  {
    assert (events + [content])[..|events|] == events;
    assert pieces[..i + 1][..i] == pieces[..i];
    var sent := Concat(events);
    assert sent + content + left == sent + (content + left) == sent + held + pieces[i];
  }

  /** One more event of valid text is valid and leaves the text sent so far valid. */
  lemma SentValid(all: Text, sent: Text, next: Text, content: Text, left: Text)
    requires Valid(all) && Valid(sent) && sent + next <= all && content + left == next
    requires IsCut(next, |content|) || (left == [] && sent + next == all)
    ensures Valid(content) && Valid(sent + content)
  {
    hide Valid, IsCut;
    assert all[..|sent|] == sent;
    RestOfValid(all, |sent|);
    var rest := all[|sent|..];
    assert next <= rest;
    if IsCut(next, |content|) {
      CutIsWhole(next, rest, |content|);
      assert content == next[..|content|];
    } else {
      assert content == rest;
    }
    ValidAppend(sent, content);
  }

  lemma FirstChar(s: Text)
    requires Valid(s) && s != []
    ensures StartsWithChar(s) && Expected(s[0]) <= |s| && Valid(s[Expected(s[0])..])
  {
  }

  lemma OneMoreChar(s: Text)
    requires StartsWithChar(s) && Expected(s[0]) <= |s| && Valid(s[Expected(s[0])..])
    ensures Valid(s)
  {
  }

  lemma CharAppend(a: Text, b: Text)
    requires StartsWithChar(a)
    ensures StartsWithChar(a + b) && (a + b)[0] == a[0]
  {
    assert forall i | 0 <= i < |a| :: (a + b)[i] == a[i];
  }

  lemma {:induction false} ValidAppend(a: Text, b: Text)
    requires Valid(a) && Valid(b)
    ensures Valid(a + b)
    decreases |a|
  {
    if a == [] {
      assert a + b == b;
    } else {
      hide StartsWithChar, Valid;
      FirstChar(a);
      var n := Expected(a[0]);
      ValidAppend(a[n..], b);
      assert (a + b)[n..] == a[n..] + b;
      CharAppend(a, b);
      OneMoreChar(a + b);
    }
  }
}
