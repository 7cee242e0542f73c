/** Expert caching over a routing trace: the clairvoyant policy and the LRU simulation of
    scripts/moe_study/analyze.py, and that no policy loads less than the clairvoyant one. */
module Belady {
  import opened Collections

  type Expert = int

  /** The experts each token of one layer needs, token by token. */
  type Trace = seq<seq<Expert>>

  const NEVER: int := 0x1000_0000_0000_0000   // 1 << 60

  function Needed(token: seq<Expert>): (r: set<Expert>) { set e | e in token }

  predicate DistinctExperts(token: seq<Expert>) { forall i, j | 0 <= i < j < |token| :: token[i] != token[j] }

  /** What a trace must satisfy: distinct experts per token, no more of them than there are slots. */
  predicate TraceOk(tr: Trace, c: nat) {
    |tr| <= NEVER && forall t | 0 <= t < |tr| :: DistinctExperts(tr[t]) && |tr[t]| <= c
  }

  // ---------------------------------------------------------------- policies

  /** What is resident before token `t`. */
  function Before(ps: seq<set<Expert>>, t: nat): set<Expert>
    requires t <= |ps|
  {
    if t == 0 then {} else ps[t - 1]
  }

  /** A policy is what it keeps after each token: at most `c` experts, among them those just needed. */
  predicate IsPolicy(tr: Trace, c: nat, ps: seq<set<Expert>>) {
    |ps| == |tr| && forall t | 0 <= t < |tr| :: |ps[t]| <= c && Needed(tr[t]) <= ps[t]
  }

  /** Loads over the first `n` tokens, starting with an empty cache. */
  function Loads(ps: seq<set<Expert>>, n: nat): nat
    requires n <= |ps|
  {
    if n == 0 then 0 else Loads(ps, n - 1) + |ps[n - 1] - Before(ps, n - 1)|
  }

  // ---------------------------------------------------------------- the future

  /** The experts needed from token `from` on and before token `to`. */
  ghost function Soon(tr: Trace, from: nat, to: nat): set<Expert>
    requires from <= to <= |tr|
    decreases |tr| - from
  {
    if from == to then {} else Needed(tr[from]) + Soon(tr, from + 1, to)
  }

  /** The tokens from `from` on that need `e`, the next one last: a stack to pop. */
  function UseStack(tr: Trace, e: Expert, from: nat): (r: seq<int>)
    requires from <= |tr|
    decreases |tr| - from
  {
    if from == |tr| then [] else UseStack(tr, e, from + 1) + if e in tr[from] then [from] else []
  }

  /** When `e` is needed next, from token `from` on. */
  function NextUse(tr: Trace, e: Expert, from: nat): int
    requires from <= |tr|
  {
    var s := UseStack(tr, e, from);
    if s == [] then NEVER else s[|s| - 1]
  }

  lemma {:induction false} NextIsSoon(tr: Trace, e: Expert, from: nat, to: nat)
    requires from <= to <= |tr| <= NEVER
    ensures NextUse(tr, e, from) < to <==> e in Soon(tr, from, to)
    ensures NextUse(tr, e, from) >= from
    decreases |tr| - from
  {
    if from < |tr| {
      if from < to {
        NextIsSoon(tr, e, from + 1, to);
      } else {
        NextIsSoon(tr, e, from + 1, to + 1);
      }
    }
  }

  // ---------------------------------------------------------------- counting

  lemma SplitBy(a: set<Expert>, x: set<Expert>)
    ensures |a| == |a * x| + |a - x|
  {
    assert a == (a * x) + (a - x);
  }

  lemma {:induction false} SubsetSize(a: set<Expert>, b: set<Expert>)
    requires a <= b
    ensures |a| <= |b|
  {
    SplitBy(b, a);
    assert b * a == a;
  }

  /** What must be loaded to have the needed experts and some others resident. */
  lemma LoadsAtLeast(p: set<Expert>, p': set<Expert>, r: set<Expert>, m: set<Expert>)
    requires r <= p' && r !! m
    ensures |p * m| + |p * r| + |p' - p| >= |p' * m| + |r|
  {
    var a, b := r - p, p' * m - p;
    SplitBy(r, p);
    SplitBy(p' * m, p);
    assert r * p == p * r;
    SubsetSize(p' * m * p, p * m);
    assert a !! b && a + b <= p' - p;
    SubsetSize(a + b, p' - p);
    assert |a + b| == |a| + |b|;
  }

  // ---------------------------------------------------------------- one step of the clairvoyant policy

  /** From `b` to `b'` at token `t`: the needed experts come in; if anything had to go, the cache is
      full and nothing that stays, beyond the needed, is used later than what went. */
  ghost predicate Clairvoyant(tr: Trace, c: nat, t: nat, b: set<Expert>, b': set<Expert>)
    requires t < |tr|
  {
    var r := Needed(tr[t]);
    && r <= b' <= b + r && |b'| <= c
    && (b - b' != {} ==> |b'| == c)
    && (forall v, x | v in b - b' && x in b' - r :: NextUse(tr, x, t + 1) <= NextUse(tr, v, t + 1))
  }

  ghost predicate StepAt(tr: Trace, c: nat, bs: seq<set<Expert>>, t: nat)
    requires t < |tr| && t < |bs|
  {
    Clairvoyant(tr, c, t, Before(bs, t), bs[t])
  }

  ghost predicate ClairvoyantRun(tr: Trace, c: nat, bs: seq<set<Expert>>) {
    |bs| == |tr| && forall t | 0 <= t < |tr| :: StepAt(tr, c, bs, t)
  }

  /** How many more of the experts needed from `u` on and before the horizon `h` are in `p` than in `b`. */
  ghost function Ahead(tr: Trace, u: nat, h: nat, p: set<Expert>, b: set<Expert>): int
    requires u <= h <= |tr|
  {
    |p * Soon(tr, u, h)| - |b * Soon(tr, u, h)|
  }

  /** The lead a policy can have: for any horizon, it holds no more of the experts needed before the
      horizon than the clairvoyant policy does, but for what it has paid in extra loads. */
  ghost predicate Lead(tr: Trace, u: nat, p: set<Expert>, b: set<Expert>, d: int)
    requires u <= |tr|
  {
    forall h | u <= h <= |tr| :: Ahead(tr, u, h, p, b) <= d
  }

  lemma LeadStep(tr: Trace, c: nat, t: nat, p: set<Expert>, p': set<Expert>, b: set<Expert>, b': set<Expert>, d: int)
    requires TraceOk(tr, c) && t < |tr| && Lead(tr, t, p, b, d) && Clairvoyant(tr, c, t, b, b')
    requires Needed(tr[t]) <= p' && |p'| <= c
    ensures Lead(tr, t + 1, p', b', d + |p' - p| - |Needed(tr[t]) - b|)
  {
    var r := Needed(tr[t]);
    var d' := d + |p' - p| - |r - b|;
    var u := t + 1;
    forall h | u <= h <= |tr| ensures Ahead(tr, u, h, p', b') <= d' {
      var s := Soon(tr, u, h);
      var m := s - r;
      BothHold(p', b', r, s);
      if (b - b') * m == {} {
        NothingSoonEvicted(p, p', b, b', r, m, s);
        assert Soon(tr, t, h) == r + s == r + m;
        assert Ahead(tr, t, h, p, b) <= d;
      } else {
        SomethingSoonEvicted(tr, c, t, h, p', b, b');
        NeverBehind(tr, t, p, p', b, r, d);
      }
    }
  }

  /** Both caches hold all of `r`. */
  lemma BothHold(p': set<Expert>, b': set<Expert>, r: set<Expert>, s: set<Expert>)
    requires r <= p' && r <= b'
    ensures |p' * s| - |b' * s| == |p' * (s - r)| - |b' * (s - r)|
  {
    SplitBy(p' * s, r);
    SplitBy(b' * s, r);
    assert p' * s * r == b' * s * r;
    assert p' * s - r == p' * (s - r) && b' * s - r == b' * (s - r);
  }

  lemma NothingSoonEvicted(p: set<Expert>, p': set<Expert>, b: set<Expert>, b': set<Expert>, r: set<Expert>,
                           m: set<Expert>, s: set<Expert>)
    requires r <= p' && r <= b' <= b + r && m == s - r && (b - b') * m == {}
    ensures |p' * m| - |b' * m| <= |p * (r + m)| - |b * (r + m)| + |p' - p| - |r - b|
  {
    assert b' * m == b * m;
    LoadsAtLeast(p, p', r, m);
    assert p * (r + m) == p * r + p * m && b * (r + m) == b * r + b * m;
    assert (p * r) !! (p * m) && (b * r) !! (b * m);
    SplitBy(r, b);
    assert r * b == b * r;
  }

  /** If an expert needed before the horizon went, everything that stayed is needed before it too. */
  lemma SomethingSoonEvicted(tr: Trace, c: nat, t: nat, h: nat, p': set<Expert>, b: set<Expert>, b': set<Expert>)
    requires TraceOk(tr, c) && t < h <= |tr| && Clairvoyant(tr, c, t, b, b') && Needed(tr[t]) <= p' && |p'| <= c
    requires (b - b') * (Soon(tr, t + 1, h) - Needed(tr[t])) != {}
    ensures |p' * (Soon(tr, t + 1, h) - Needed(tr[t]))| <= |b' * (Soon(tr, t + 1, h) - Needed(tr[t]))|
  {
    var r := Needed(tr[t]);
    var m := Soon(tr, t + 1, h) - r;
    var v := SomeOf((b - b') * m);
    NextIsSoon(tr, v, t + 1, h);
    forall x | x in b' - r ensures x in m {
      NextIsSoon(tr, x, t + 1, h);
    }
    assert b' * m == b' - r;
    SplitBy(b', r);
    assert b' * r == r;
    SplitBy(p', r);
    assert p' * r == r;
    SubsetSize(p' * m, p' - r);
  }

  /** The next token's own needs show that no policy is ahead after it. */
  lemma NeverBehind(tr: Trace, t: nat, p: set<Expert>, p': set<Expert>, b: set<Expert>, r: set<Expert>, d: int)
    requires t < |tr| && Lead(tr, t, p, b, d) && r == Needed(tr[t]) && r <= p'
    ensures d + |p' - p| - |r - b| >= 0
  {
    assert Soon(tr, t, t + 1) == r + Soon(tr, t + 1, t + 1) == r;
    assert Ahead(tr, t, t + 1, p, b) <= d;
    SplitBy(r, p);
    SplitBy(r, b);
    assert r * p == p * r && r * b == b * r;
    SubsetSize(r - p, p' - p);
  }

  /** Misses of a run over the first `n` tokens. */
  ghost function Misses(tr: Trace, bs: seq<set<Expert>>, n: nat): nat
    requires n <= |tr| && |bs| == |tr|
  {
    if n == 0 then 0 else Misses(tr, bs, n - 1) + |Needed(tr[n - 1]) - Before(bs, n - 1)|
  }

  lemma LeadStart(tr: Trace)
    ensures Lead(tr, 0, {}, {}, 0)
  {
    forall h | 0 <= h <= |tr| ensures Ahead(tr, 0, h, {}, {}) <= 0 {
      assert {} * Soon(tr, 0, h) == {};
    }
  }

  lemma {:induction false} LeadKept(tr: Trace, c: nat, bs: seq<set<Expert>>, ps: seq<set<Expert>>, n: nat)
    requires TraceOk(tr, c) && ClairvoyantRun(tr, c, bs) && IsPolicy(tr, c, ps) && n <= |tr|
    ensures Lead(tr, n, Before(ps, n), Before(bs, n), Loads(ps, n) - Misses(tr, bs, n))
  {
    hide Lead, Clairvoyant, TraceOk, Needed;
    if n == 0 {
      LeadStart(tr);
    } else {
      var t := n - 1;
      LeadKept(tr, c, bs, ps, t);
      assert StepAt(tr, c, bs, t) && |ps[t]| <= c && Needed(tr[t]) <= ps[t];
      LeadStep(tr, c, t, Before(ps, t), ps[t], Before(bs, t), bs[t], Loads(ps, t) - Misses(tr, bs, t));
    }
  }

  lemma StepLoads(tr: Trace, c: nat, t: nat, b: set<Expert>, b': set<Expert>)
    requires t < |tr| && Clairvoyant(tr, c, t, b, b')
    ensures |b'| <= c && Needed(tr[t]) <= b' && b' - b == Needed(tr[t]) - b
  {
  }

  /** The clairvoyant run is itself a policy, and what it misses is what it loads. */
  lemma {:induction false} RunIsPolicy(tr: Trace, c: nat, bs: seq<set<Expert>>, n: nat)
    requires ClairvoyantRun(tr, c, bs) && n <= |tr|
    ensures IsPolicy(tr, c, bs) && Loads(bs, n) == Misses(tr, bs, n)
  {
    hide Clairvoyant, Needed;
    forall t | 0 <= t < |tr| ensures |bs[t]| <= c && Needed(tr[t]) <= bs[t] {
      assert StepAt(tr, c, bs, t);
      StepLoads(tr, c, t, Before(bs, t), bs[t]);
    }
    if n > 0 {
      RunIsPolicy(tr, c, bs, n - 1);
      assert StepAt(tr, c, bs, n - 1);
      StepLoads(tr, c, n - 1, Before(bs, n - 1), bs[n - 1]);
    }
  }

  /** `m` is the least number of loads any policy can do with. */
  ghost predicate IsOptimum(tr: Trace, c: nat, m: nat) {
    && (exists ps :: IsPolicy(tr, c, ps) && Loads(ps, |tr|) == m)
    && (forall ps | IsPolicy(tr, c, ps) :: m <= Loads(ps, |tr|))
  }

  lemma ClairvoyantIsOptimal(tr: Trace, c: nat, bs: seq<set<Expert>>)
    requires TraceOk(tr, c) && ClairvoyantRun(tr, c, bs)
    ensures IsOptimum(tr, c, Misses(tr, bs, |tr|))
  {
    RunIsPolicy(tr, c, bs, |tr|);
    forall ps | IsPolicy(tr, c, ps) ensures Misses(tr, bs, |tr|) <= Loads(ps, |tr|) {
      LeadKept(tr, c, bs, ps, |tr|);
      var p, b := Before(ps, |tr|), Before(bs, |tr|);
      assert Ahead(tr, |tr|, |tr|, p, b) <= Loads(ps, |tr|) - Misses(tr, bs, |tr|);
      assert p * Soon(tr, |tr|, |tr|) == {} && b * Soon(tr, |tr|, |tr|) == {};
    }
  }

  // ---------------------------------------------------------------- belady, one layer

  function StackIn(nextUse: map<Expert, seq<int>>, e: Expert): seq<int> { if e in nextUse then nextUse[e] else [] }

  /** Every stack holds the uses from token `from` on. */
  ghost predicate StacksAt(nextUse: map<Expert, seq<int>>, tr: Trace, from: nat)
    requires from <= |tr|
  {
    forall e :: StackIn(nextUse, e) == UseStack(tr, e, from)
  }

  method BuildNextUse(tr: Trace) returns (nextUse: map<Expert, seq<int>>)
    requires forall t | 0 <= t < |tr| :: DistinctExperts(tr[t])
    ensures StacksAt(nextUse, tr, 0)
  {
    nextUse := map[];
    var t := |tr|;
    while t > 0
      invariant 0 <= t <= |tr| && StacksAt(nextUse, tr, t)
    {
      t := t - 1;
      nextUse := PushUses(nextUse, tr, t);
    }
  }

  /** Put token `t` on the stacks of the experts it needs. */
  method PushUses(nextUse0: map<Expert, seq<int>>, tr: Trace, t: nat) returns (nextUse: map<Expert, seq<int>>)
    requires t < |tr| && DistinctExperts(tr[t]) && StacksAt(nextUse0, tr, t + 1)
    ensures StacksAt(nextUse, tr, t)
  {
    hide UseStack, StackIn, Pushed;
    nextUse := nextUse0;
    var token := tr[t];
    ghost var done: set<Expert> := {};
    NonePushed(nextUse, tr, t);
    var i := 0;
    while i < |token|
      invariant 0 <= i <= |token|
      invariant forall k | 0 <= k < |token| :: token[k] in done <==> k < i
      invariant done <= Needed(token)
      invariant Pushed(nextUse, tr, t, done)
    {
      var e := token[i];
      OnePushed(nextUse, tr, t, done, e);
      nextUse := nextUse[e := StackIn(nextUse, e) + [t]];
      done := done + {e};
      i := i + 1;
    }
    AllPushed(nextUse, tr, t, done);
  }

  /** The stacks of `done` have been pushed to, the others not. */
  ghost predicate Pushed(nextUse: map<Expert, seq<int>>, tr: Trace, t: nat, done: set<Expert>)
    requires t < |tr|
  {
    forall e :: StackIn(nextUse, e) == UseStack(tr, e, t + 1) + if e in done then [t] else []
  }

  lemma NonePushed(nextUse: map<Expert, seq<int>>, tr: Trace, t: nat)
    requires t < |tr| && StacksAt(nextUse, tr, t + 1)
    ensures Pushed(nextUse, tr, t, {})
  {
    hide UseStack, StackIn;
    forall e ensures StackIn(nextUse, e) == UseStack(tr, e, t + 1) + [] {
      assert StackIn(nextUse, e) == UseStack(tr, e, t + 1);
    }
  }

  lemma OnePushed(nextUse: map<Expert, seq<int>>, tr: Trace, t: nat, done: set<Expert>, e: Expert)
    requires t < |tr| && Pushed(nextUse, tr, t, done) && e !in done
    ensures Pushed(nextUse[e := StackIn(nextUse, e) + [t]], tr, t, done + {e})
  {
    hide UseStack;
    assert StackIn(nextUse, e) == UseStack(tr, e, t + 1) + [] == UseStack(tr, e, t + 1);
    forall x ensures StackIn(nextUse[e := StackIn(nextUse, e) + [t]], x) ==
                       UseStack(tr, x, t + 1) + if x in done + {e} then [t] else []
    {
      assert StackIn(nextUse, x) == UseStack(tr, x, t + 1) + if x in done then [t] else [];
    }
  }

  lemma AllPushed(nextUse: map<Expert, seq<int>>, tr: Trace, t: nat, done: set<Expert>)
    requires t < |tr| && done <= Needed(tr[t]) && forall k | 0 <= k < |tr[t]| :: tr[t][k] in done
    requires Pushed(nextUse, tr, t, done)
    ensures StacksAt(nextUse, tr, t)
  {
    hide UseStack, StackIn;
    forall e ensures StackIn(nextUse, e) == UseStack(tr, e, t) {
      UseStackStep(tr, e, t);
      if e in tr[t] {
        var k :| 0 <= k < |tr[t]| && tr[t][k] == e;
        assert tr[t][k] in done;
      }
    }
  }

  lemma UseStackStep(tr: Trace, e: Expert, t: nat)
    requires t < |tr|
    ensures UseStack(tr, e, t) == UseStack(tr, e, t + 1) + if e in tr[t] then [t] else []
  {
  }

  /** Take this token off the stacks of the experts it needs. */
  method PopUses(nextUse0: map<Expert, seq<int>>, tr: Trace, t: nat, needed: set<Expert>)
    returns (nextUse: map<Expert, seq<int>>)
    requires t < |tr| && needed == Needed(tr[t]) && StacksAt(nextUse0, tr, t)
    ensures StacksAt(nextUse, tr, t + 1) && nextUse.Keys == nextUse0.Keys && needed <= nextUse.Keys
  {
    hide UseStack;
    nextUse := nextUse0;
    var rest := needed;
    while rest != {}
      invariant rest <= needed && nextUse.Keys == nextUse0.Keys
      invariant forall e ::
                StackIn(nextUse, e) == if e in needed - rest then UseStack(tr, e, t + 1) else UseStack(tr, e, t)
      invariant needed - rest <= nextUse.Keys
      decreases rest
    {
      var e := Pick(rest);
      UseStackStep(tr, e, t);
      assert StackIn(nextUse, e) == UseStack(tr, e, t + 1) + [t];
      nextUse := nextUse[e := nextUse[e][..|nextUse[e]| - 1]];
      rest := rest - {e};
    }
    forall e ensures StackIn(nextUse, e) == UseStack(tr, e, t + 1) {
      if e !in needed {
        UseStackStep(tr, e, t);
        assert UseStack(tr, e, t + 1) + [] == UseStack(tr, e, t + 1);
      }
    }
  }

  function Key(nextUse: map<Expert, seq<int>>, x: Expert): int {
    var s := StackIn(nextUse, x);
    if s == [] then NEVER else s[|s| - 1]
  }

  /** The victim used furthest in the future. */
  method Furthest(nextUse: map<Expert, seq<int>>, victims: set<Expert>) returns (v: Expert)
    requires victims != {}
    ensures v in victims && forall x | x in victims :: Key(nextUse, x) <= Key(nextUse, v)
  {
    v := Pick(victims);
    var rest := victims - {v};
    while rest != {}
      invariant v in victims && rest <= victims && forall x | x in victims - rest :: Key(nextUse, x) <= Key(nextUse, v)
      decreases rest
    {
      var x := Pick(rest);
      if Key(nextUse, x) > Key(nextUse, v) { v := x; }
      rest := rest - {x};
    }
  }

  /** Bring in what token `t` needs. */
  method ServeToken(nextUse: map<Expert, seq<int>>, tr: Trace, c: nat, t: nat, cache0: set<Expert>)
    returns (cache: set<Expert>, misses: nat)
    requires TraceOk(tr, c) && t < |tr| && StacksAt(nextUse, tr, t + 1) && |cache0| <= c
    ensures Clairvoyant(tr, c, t, cache0, cache) && misses == |Needed(tr[t]) - cache0|
  {
    var needed := Needed(tr[t]);
    NeededSize(tr[t]);
    assert |needed| <= c;
    hide Midway, Key, NextUse, StackIn, TraceOk, Needed, StacksAt, Clairvoyant;
    cache, misses := cache0, 0;
    var rest := needed;
    assert needed - rest - cache0 == {};
    MidwayStart(nextUse, c, needed, cache0);
    while rest != {}
      invariant rest <= needed && misses == |needed - rest - cache0| && |cache| <= c
      invariant Midway(nextUse, c, needed, cache0, cache, rest)
      decreases rest
    {
      var e := Pick(rest);
      CountOne(needed, rest, cache0, e);
      MidwayHere(nextUse, c, needed, cache0, cache, rest, e);
      if e !in cache {
        misses := misses + 1;
        if |cache| >= c {
          var victims := cache - needed;
          VictimExists(cache, needed, e, c);
          var victim := Furthest(nextUse, victims);
          Exchange(nextUse, c, needed, cache0, cache, rest, e, victim);
          cache := cache - {victim};
        }
        cache := cache + {e};
      }
      rest := rest - {e};
    }
    assert needed - rest - cache0 == needed - cache0;
    KeysAreNextUses(nextUse, tr, t + 1);
    MidwayDone(nextUse, tr, c, t, cache0, cache);
  }

  lemma CountOne(needed: set<Expert>, rest: set<Expert>, cache0: set<Expert>, e: Expert)
    requires e in rest && rest <= needed
    ensures |needed - (rest - {e}) - cache0| == |needed - rest - cache0| + if e in cache0 then 0 else 1
  {
    assert needed - (rest - {e}) - cache0 == if e in cache0 then needed - rest - cache0
                                             else needed - rest - cache0 + {e};
  }

  lemma MidwayStart(nextUse: map<Expert, seq<int>>, c: nat, needed: set<Expert>, cache0: set<Expert>)
    requires |cache0| <= c
    ensures Midway(nextUse, c, needed, cache0, cache0, needed)
  {
  }

  /** An expert that is there, or for which there is room. */
  lemma MidwayHere(nextUse: map<Expert, seq<int>>, c: nat, needed: set<Expert>,
                   cache0: set<Expert>, cache: set<Expert>, rest: set<Expert>, e: Expert)
    requires Midway(nextUse, c, needed, cache0, cache, rest) && e in rest && rest <= needed
    ensures e in cache <==> e in cache0
    ensures e in cache ==> Midway(nextUse, c, needed, cache0, cache, rest - {e})
    ensures e !in cache && |cache| < c ==> Midway(nextUse, c, needed, cache0, cache + {e}, rest - {e})
    ensures |cache| <= c
  {
    hide Key;
  }

  lemma MidwayDone(nextUse: map<Expert, seq<int>>, tr: Trace, c: nat, t: nat, cache0: set<Expert>, cache: set<Expert>)
    requires t < |tr| && Midway(nextUse, c, Needed(tr[t]), cache0, cache, {})
    requires forall x :: Key(nextUse, x) == NextUse(tr, x, t + 1)
    ensures Clairvoyant(tr, c, t, cache0, cache)
  {
    hide Key, NextUse;
  }

  /** Part of the needed experts, all but `rest`, have been brought in. */
  ghost predicate Midway(nextUse: map<Expert, seq<int>>, c: nat, needed: set<Expert>,
                         cache0: set<Expert>, cache: set<Expert>, rest: set<Expert>) {
    && needed - rest <= cache <= cache0 + needed && cache0 * needed <= cache && |cache| <= c && cache * rest <= cache0
    && (cache0 - cache != {} ==> |cache| == c)
    && (forall v, x | v in cache0 - cache && x in cache - needed :: Key(nextUse, x) <= Key(nextUse, v))
  }

  lemma Exchange(nextUse: map<Expert, seq<int>>, c: nat, needed: set<Expert>, cache0: set<Expert>, cache: set<Expert>,
                 rest: set<Expert>,
                 e: Expert, victim: Expert)
    requires Midway(nextUse, c, needed, cache0, cache, rest) && e in rest && rest <= needed && e !in cache
    requires |cache| == c
    requires victim in cache - needed && forall x | x in cache - needed :: Key(nextUse, x) <= Key(nextUse, victim)
    ensures Midway(nextUse, c, needed, cache0, cache - {victim} + {e}, rest - {e}) && |cache - {victim} + {e}| == c
  {
    hide Key;
    var cache' := cache - {victim} + {e};
    assert |cache'| == c;
    forall v, x | v in cache0 - cache' && x in cache' - needed ensures Key(nextUse, x) <= Key(nextUse, v) {
      assert x in cache - needed;
      assert v == victim || v in cache0 - cache;
    }
  }

  lemma KeysAreNextUses(nextUse: map<Expert, seq<int>>, tr: Trace, from: nat)
    requires from <= |tr| && StacksAt(nextUse, tr, from)
    ensures forall x :: Key(nextUse, x) == NextUse(tr, x, from)
  {
    forall x ensures Key(nextUse, x) == NextUse(tr, x, from) {
      assert StackIn(nextUse, x) == UseStack(tr, x, from);
    }
  }

  lemma {:induction false} NeededSize(token: seq<Expert>)
    ensures |Needed(token)| <= |token|
    decreases |token|
  {
    if token != [] {
      var init, e := token[..|token| - 1], token[|token| - 1];
      NeededSize(init);
      assert Needed(token) == Needed(init) + {e};
    }
  }

  /** With a slot for every needed expert there is always something else to evict. */
  lemma VictimExists(cache: set<Expert>, needed: set<Expert>, e: Expert, c: nat)
    requires e in needed && e !in cache && |needed| <= c <= |cache|
    ensures cache - needed != {}
  {
    SplitBy(cache, needed);
    SubsetSize(cache * needed, needed - {e});
    assert |needed - {e}| == |needed| - 1;
  }

  /** The misses of the clairvoyant policy on one layer are the least any policy can do with. */
  method BeladyLayer(tr: Trace, c: nat) returns (misses: nat)
    requires TraceOk(tr, c)
    ensures IsOptimum(tr, c, misses)
  {
    hide Clairvoyant, StacksAt, IsOptimum, DistinctExperts, Needed, MissesSoFar, Misses;
    var nextUse := BuildNextUse(tr);
    var cache: set<Expert> := {};
    ghost var bs: seq<set<Expert>> := [];
    misses := 0;
    NoMissesYet(tr);
    var t := 0;
    while t < |tr|
      invariant 0 <= t <= |tr| && |bs| == t && StacksAt(nextUse, tr, t) && |cache| <= c
      invariant cache == Before(bs, t)
      invariant forall u | 0 <= u < t :: StepAt(tr, c, bs, u)
      invariant misses == MissesSoFar(tr, bs)
    {
      nextUse := PopUses(nextUse, tr, t, Needed(tr[t]));
      ghost var bs0 := bs;
      var next, m := ServeToken(nextUse, tr, c, t, cache);
      MissesMore(tr, bs, next);
      bs := bs + [next];
      StepSize(tr, c, t, cache, next);
      assert bs[..t] == bs0;
      forall u | 0 <= u < t + 1 ensures StepAt(tr, c, bs, u) {
        if u < t { assert StepAt(tr, c, bs0, u) && Before(bs, u) == Before(bs0, u); }
      }
      cache := next;
      misses := misses + m;
      t := t + 1;
    }
    SoFarIsAll(tr, bs, |tr|);
    assert bs[..|tr|] == bs;
    ClairvoyantIsOptimal(tr, c, bs);
  }

  lemma StepSize(tr: Trace, c: nat, t: nat, b: set<Expert>, b': set<Expert>)
    requires t < |tr| && Clairvoyant(tr, c, t, b, b')
    ensures |b'| <= c
  {
  }

  ghost function MissesSoFar(tr: Trace, bs: seq<set<Expert>>): nat
    requires |bs| <= |tr|
  {
    if bs == [] then 0
    else MissesSoFar(tr, bs[..|bs| - 1]) + |Needed(tr[|bs| - 1]) - Before(bs[..|bs| - 1], |bs| - 1)|
  }

  lemma NoMissesYet(tr: Trace)
    ensures MissesSoFar(tr, []) == 0
  {
  }

  lemma MissesMore(tr: Trace, bs: seq<set<Expert>>, b: set<Expert>)
    requires |bs| < |tr|
    ensures MissesSoFar(tr, bs + [b]) == MissesSoFar(tr, bs) + |Needed(tr[|bs|]) - Before(bs, |bs|)|
  {
    assert (bs + [b])[..|bs|] == bs;
  }

  lemma {:induction false} SoFarIsAll(tr: Trace, bs: seq<set<Expert>>, n: nat)
    requires |bs| == |tr| && n <= |tr|
    ensures MissesSoFar(tr, bs[..n]) == Misses(tr, bs, n)
  {
    if n > 0 {
      SoFarIsAll(tr, bs, n - 1);
      assert bs[..n][..n - 1] == bs[..n - 1];
    }
  }

  // ---------------------------------------------------------------- the LRU policy

  function Removed(cache: seq<Expert>, e: Expert): seq<Expert> {
    if cache == [] then [] else if cache[0] == e then cache[1..] else [cache[0]] + Removed(cache[1..], e)
  }

  /** One access to a cache kept from the least to the most recently used: move to the end, or put there and
      drop the least recently used when there are too many. */
  function LruAccess(cache: seq<Expert>, e: Expert, c: nat): seq<Expert> {
    if e in cache then Removed(cache, e) + [e]
    else
      var more := cache + [e];
      if |more| > c then more[1..] else more
  }

  /** The cache after the first `n` accesses of a token, and how many of them missed. */
  function LruAfter(cache: seq<Expert>, token: seq<Expert>, n: nat, c: nat): seq<Expert>
    requires n <= |token|
  {
    if n == 0 then cache else LruAccess(LruAfter(cache, token, n - 1, c), token[n - 1], c)
  }

  function LruMissesIn(cache: seq<Expert>, token: seq<Expert>, n: nat, c: nat): nat
    requires n <= |token|
  {
    if n == 0 then 0
    else LruMissesIn(cache, token, n - 1, c) + if token[n - 1] in LruAfter(cache, token, n - 1, c) then 0 else 1
  }

  /** The cache after the first `n` tokens of a trace, and the misses on them. */
  function LruCacheAt(tr: Trace, n: nat, c: nat): seq<Expert>
    requires n <= |tr|
  {
    if n == 0 then [] else LruAfter(LruCacheAt(tr, n - 1, c), tr[n - 1], |tr[n - 1]|, c)
  }

  function LruMisses(tr: Trace, n: nat, c: nat): nat
    requires n <= |tr|
  {
    if n == 0 then 0 else LruMisses(tr, n - 1, c) + LruMissesIn(LruCacheAt(tr, n - 1, c), tr[n - 1], |tr[n - 1]|, c)
  }

  /** Access the experts of one token in turn.  They end up resident, and misses cover what was loaded. */
  method TouchToken(cache0: seq<Expert>, token: seq<Expert>, c: nat) returns (cache: seq<Expert>, misses: nat)
    requires DistinctExperts(token) && |token| <= c && DistinctExperts(cache0) && |cache0| <= c
    ensures cache == LruAfter(cache0, token, |token|, c) && misses == LruMissesIn(cache0, token, |token|, c)
    ensures DistinctExperts(cache) && |cache| <= c && Needed(token) <= Needed(cache)
    ensures |Needed(cache) - Needed(cache0)| <= misses
  {
    hide LruAccess;
    cache, misses := cache0, 0;
    ghost var loaded: set<Expert> := {};
    var i := 0;
    while i < |token|
      invariant 0 <= i <= |token| && i <= |cache| <= c && DistinctExperts(cache)
      invariant cache == LruAfter(cache0, token, i, c) && misses == LruMissesIn(cache0, token, i, c)
      invariant cache[|cache| - i..] == token[..i]
      invariant Needed(cache) <= Needed(cache0) + loaded && |loaded| <= misses
    {
      var e := token[i];
      var cache1, hit := Access(cache, e, c, i, token);
      if !hit {
        misses := misses + 1;
        loaded := loaded + {e};
      }
      cache := cache1;
      i := i + 1;
    }
    forall e | e in token ensures e in cache {
      var k :| 0 <= k < |token| && token[k] == e;
      assert cache[|cache| - i..][k] == token[..i][k];
    }
    SubsetSize(Needed(cache) - Needed(cache0), loaded);
  }

  /** One access.  What the token has accessed already stays behind it. */
  method Access(cache: seq<Expert>, e: Expert, c: nat, ghost i: nat, ghost token: seq<Expert>)
    returns (cache': seq<Expert>, hit: bool)
    requires DistinctExperts(token) && i < |token| <= c && e == token[i]
    requires DistinctExperts(cache) && i <= |cache| <= c && cache[|cache| - i..] == token[..i]
    ensures cache' == LruAccess(cache, e, c) && (hit <==> e in cache)
    ensures DistinctExperts(cache') && i + 1 <= |cache'| <= c && cache'[|cache'| - i - 1..] == token[..i + 1]
    ensures Needed(cache') <= Needed(cache) + {e}
  {
    hit := e in cache;
    assert forall k | 0 <= k < i :: cache[|cache| - i + k] == token[..i][k];
    if hit {
      var at := IndexOf(cache, e);
      RemovedAt(cache, e, at);
      cache' := cache[..at] + cache[at + 1..] + [e];
    } else {
      cache' := cache + [e];
      if |cache'| > c {
        cache' := cache'[1..];
      }
    }
    assert token[..i + 1] == token[..i] + [e];
  }

  lemma {:induction false} RemovedAt(cache: seq<Expert>, e: Expert, at: nat)
    requires at < |cache| && cache[at] == e && e !in cache[..at]
    ensures Removed(cache, e) == cache[..at] + cache[at + 1..]
  {
    if at > 0 {
      assert cache[0] == cache[..at][0];
      assert cache[1..][..at - 1] == cache[..at][1..];
      RemovedAt(cache[1..], e, at - 1);
      assert cache[..at] == [cache[0]] + cache[1..][..at - 1];
    }
  }

  method IndexOf(cache: seq<Expert>, e: Expert) returns (at: nat)
    requires e in cache
    ensures at < |cache| && cache[at] == e && e !in cache[..at]
  {
    at := 0;
    while cache[at] != e
      invariant at < |cache| && e in cache[at..] && e !in cache[..at]
      decreases |cache| - at
    {
      at := at + 1;
    }
  }

  // ---------------------------------------------------------------- recency

  /** The experts accessed since the last access to `e`; all of them when there was none. */
  ghost function Since(h: seq<Expert>, e: Expert): set<Expert> {
    if h == [] || h[|h| - 1] == e then {} else Since(h[..|h| - 1], e) + {h[|h| - 1]}
  }

  lemma SinceMore(h: seq<Expert>, x: Expert, e: Expert)
    ensures Since(h + [x], e) == if x == e then {} else Since(h, e) + {x}
  {
    assert (h + [x])[..|h|] == h;
  }

  /** `e` has been accessed and fewer than `c` others since. */
  ghost predicate RecentlyUsed(h: seq<Expert>, e: Expert, c: nat) { e in h && |Since(h, e)| < c }

  /** How many accesses were to an expert not used recently enough. */
  ghost function StaleAccesses(h: seq<Expert>, c: nat): nat {
    if h == [] then 0
    else StaleAccesses(h[..|h| - 1], c) + if RecentlyUsed(h[..|h| - 1], h[|h| - 1], c) then 0 else 1
  }

  lemma StaleMore(h: seq<Expert>, x: Expert, c: nat)
    ensures StaleAccesses(h + [x], c) == StaleAccesses(h, c) + if RecentlyUsed(h, x, c) then 0 else 1
  {
    assert (h + [x])[..|h|] == h;
  }

  /** The cache has the last used experts in the order of their last use: behind each are exactly those used since,
      and if any is missing the cache is full of such as were used after it. */
  ghost predicate ByRecency(h: seq<Expert>, cache: seq<Expert>, c: nat) {
    && DistinctExperts(cache) && |cache| <= c
    && (forall i | 0 <= i < |cache| :: cache[i] in h && Since(h, cache[i]) == Needed(cache[i + 1..]))
    && (forall e | e in h && e !in cache :: |cache| == c && Needed(cache) <= Since(h, e))
  }

  /** So it holds an expert exactly if that was used recently enough. */
  lemma HoldsTheRecent(h: seq<Expert>, cache: seq<Expert>, c: nat, e: Expert)
    requires ByRecency(h, cache, c)
    ensures e in cache <==> RecentlyUsed(h, e, c)
  {
    hide DistinctExperts, Since;
    if e in cache {
      var i :| 0 <= i < |cache| && cache[i] == e;
      NeededAtMost(cache[i + 1..]);
    } else if e in h {
      DistinctSize(cache);
      SubsetSize(Needed(cache), Since(h, e));
    }
  }

  lemma {:induction false} NeededAtMost(s: seq<Expert>)
    ensures |Needed(s)| <= |s|
  {
    if s != [] {
      NeededAtMost(s[1..]);
      assert Needed(s) == Needed(s[1..]) + {s[0]};
    }
  }

  lemma {:induction false} DistinctSize(s: seq<Expert>)
    requires DistinctExperts(s)
    ensures |Needed(s)| == |s|
  {
    if s != [] {
      DistinctSize(s[1..]);
      assert Needed(s) == Needed(s[1..]) + {s[0]};
    }
  }

  lemma NeededConcat(a: seq<Expert>, b: seq<Expert>)
    ensures Needed(a + b) == Needed(a) + Needed(b)
  {
  }

  lemma NeededMoved(a: seq<Expert>, e: Expert, b: seq<Expert>)
    ensures Needed(a + b + [e]) == Needed(a + [e] + b)
  {
    hide Needed;
    NeededConcat(a + b, [e]);
    NeededConcat(a, b);
    NeededConcat(a + [e], b);
    NeededConcat(a, [e]);
  }

  lemma HitKeepsRecency(h: seq<Expert>, cache: seq<Expert>, c: nat, e: Expert, at: nat)
    requires ByRecency(h, cache, c) && at < |cache| && cache[at] == e
    ensures ByRecency(h + [e], cache[..at] + cache[at + 1..] + [e], c)
  {
    hide Since, Needed, DistinctExperts;
    var a, b := cache[..at], cache[at + 1..];
    var cache' := a + b + [e];
    assert cache == a + [e] + b;
    NeededMoved(a, e, b);
    DistinctMoved(a, e, b);
    forall i | 0 <= i < |cache'|
      ensures cache'[i] in h + [e] && Since(h + [e], cache'[i]) == Needed(cache'[i + 1..])
    {
      SinceMore(h, e, cache'[i]);
      if i < at {
        Others(cache, i, at);
        BeforeIt(cache, e, at, i);
      } else if i < |cache'| - 1 {
        Others(cache, i + 1, at);
        BehindIt(cache, e, at, i);
      } else {
        assert cache'[i + 1..] == [] && cache'[i] == e;
        JustOne(e);
      }
    }
    forall x | x in h + [e] && x !in cache' ensures |cache'| == c && Needed(cache') <= Since(h + [e], x) {
      SinceMore(h, e, x);
    }
  }

  lemma DistinctMoved(a: seq<Expert>, e: Expert, b: seq<Expert>)
    requires DistinctExperts(a + [e] + b)
    ensures DistinctExperts(a + b + [e]) && forall x :: x in a + b + [e] <==> x in a + [e] + b
  {
    var s, t := a + [e] + b, a + b + [e];
    assert forall i | 0 <= i < |t| :: t[i] == s[if i < |a| then i else if i < |a| + |b| then i + 1 else |a|];
  }

  lemma Others(cache: seq<Expert>, i: nat, at: nat)
    requires DistinctExperts(cache) && i < |cache| && at < |cache| && i != at
    ensures cache[i] != cache[at]
  {
  }

  /** What was before the one that moves to the end has that behind it as before. */
  lemma BeforeIt(cache: seq<Expert>, e: Expert, at: nat, i: nat)
    requires at < |cache| && cache[at] == e && i < at
    ensures var cache' := cache[..at] + cache[at + 1..] + [e];
            cache'[i] == cache[i] && Needed(cache'[i + 1..]) == Needed(cache[i + 1..]) == Needed(cache[i + 1..]) + {e}
  {
    hide Needed;
    var cache' := cache[..at] + cache[at + 1..] + [e];
    var a, b := cache[i + 1..at], cache[at + 1..];
    assert cache'[i + 1..] == a + b + [e] && cache[i + 1..] == a + [e] + b;
    NeededMoved(a, e, b);
    NeededConcat(a + b, [e]);
    JustOne(e);
  }

  /** What was behind it has it behind now. */
  lemma BehindIt(cache: seq<Expert>, e: Expert, at: nat, i: nat)
    requires at < |cache| && cache[at] == e && at <= i < |cache| - 1
    ensures var cache' := cache[..at] + cache[at + 1..] + [e];
            cache'[i] == cache[i + 1] && Needed(cache'[i + 1..]) == Needed(cache[i + 2..]) + {e}
  {
    hide Needed;
    var cache' := cache[..at] + cache[at + 1..] + [e];
    assert cache'[i + 1..] == cache[i + 2..] + [e];
    NeededConcat(cache[i + 2..], [e]);
    JustOne(e);
  }

  lemma JustOne(e: Expert)
    ensures Needed([e]) == {e} && Needed([]) == {}
  {
  }

  lemma MissKeepsRecency(h: seq<Expert>, cache: seq<Expert>, c: nat, e: Expert)
    requires ByRecency(h, cache, c) && e !in cache
    ensures var more := cache + [e];
            ByRecency(h + [e], if |more| > c then more[1..] else more, c)
  {
    hide Since;
    var more := cache + [e];
    forall i | 0 <= i < |more| ensures more[i] in h + [e] && Since(h + [e], more[i]) == Needed(more[i + 1..]) {
      SinceMore(h, e, more[i]);
      if i < |cache| {
        assert more[i + 1..] == cache[i + 1..] + [e];
      } else {
        assert more[i + 1..] == [];
      }
    }
    var cache' := if |more| > c then more[1..] else more;
    forall i | 0 <= i < |cache'|
      ensures cache'[i] in h + [e] && Since(h + [e], cache'[i]) == Needed(cache'[i + 1..])
    {
      if |more| > c { assert cache'[i] == more[i + 1] && cache'[i + 1..] == more[i + 2..]; }
    }
    forall x | x in h + [e] && x !in cache' ensures |cache'| == c && Needed(cache') <= Since(h + [e], x) {
      SinceMore(h, e, x);
      if x in more {
        assert |more| > c && x == more[0] && more[0 + 1..] == cache';
      }
    }
  }

  /** The accesses of the first `n` tokens, one after the other. */
  ghost function History(tr: Trace, n: nat): seq<Expert>
    requires n <= |tr|
  {
    if n == 0 then [] else History(tr, n - 1) + tr[n - 1]
  }

  lemma AccessByRecency(h: seq<Expert>, cache: seq<Expert>, c: nat, e: Expert)
    requires ByRecency(h, cache, c)
    ensures ByRecency(h + [e], LruAccess(cache, e, c), c)
  {
    hide ByRecency;
    if e in cache {
      var at := FirstAt(cache, e);
      RemovedAt(cache, e, at);
      HitKeepsRecency(h, cache, c, e, at);
    } else {
      MissKeepsRecency(h, cache, c, e);
    }
  }

  lemma {:induction false} FirstAt(cache: seq<Expert>, e: Expert) returns (at: nat)
    requires e in cache
    ensures at < |cache| && cache[at] == e && e !in cache[..at]
  {
    at := 0;
    if cache[0] != e {
      at := FirstAt(cache[1..], e);
      assert cache[..at + 1] == [cache[0]] + cache[1..][..at];
      at := at + 1;
    }
  }

  lemma {:induction false} TokenByRecency(h: seq<Expert>, cache: seq<Expert>, token: seq<Expert>, n: nat, c: nat)
    requires ByRecency(h, cache, c) && n <= |token|
    ensures ByRecency(h + token[..n], LruAfter(cache, token, n, c), c)
    ensures StaleAccesses(h + token[..n], c) == StaleAccesses(h, c) + LruMissesIn(cache, token, n, c)
  {
    hide ByRecency, LruAccess, RecentlyUsed;
    if n == 0 {
      assert h + token[..0] == h;
    } else {
      TokenByRecency(h, cache, token, n - 1, c);
      var before, e, now := h + token[..n - 1], token[n - 1], LruAfter(cache, token, n - 1, c);
      assert h + token[..n] == before + [e];
      AccessByRecency(before, now, c, e);
      HoldsTheRecent(before, now, c, e);
      StaleMore(before, e, c);
    }
  }

  /** After any tokens the LRU cache is ordered by recency, and it has missed exactly on the accesses to experts not
      used recently enough: never before, or with `c` others in between. */
  lemma {:induction false} LruIsRecency(tr: Trace, n: nat, c: nat)
    requires n <= |tr|
    ensures ByRecency(History(tr, n), LruCacheAt(tr, n, c), c)
    ensures LruMisses(tr, n, c) == StaleAccesses(History(tr, n), c)
  {
    if n > 0 {
      LruIsRecency(tr, n - 1, c);
      hide ByRecency;
      var token := tr[n - 1];
      TokenByRecency(History(tr, n - 1), LruCacheAt(tr, n - 1, c), token, |token|, c);
      assert token[..|token|] == token;
    }
  }

  // ---------------------------------------------------------------- all layers

  /** The experts each token needs, layer by layer. */
  type Routing = seq<seq<seq<Expert>>>

  predicate RoutingOk(stream: Routing, nLayers: nat, k: nat, c: nat) {
    && |stream| <= NEVER && k <= c
    && forall t | 0 <= t < |stream| :: |stream[t]| == nLayers &&
         forall l | 0 <= l < nLayers :: |stream[t][l]| == k && DistinctExperts(stream[t][l])
  }

  function Layer(stream: Routing, nLayers: nat, k: nat, c: nat, l: nat): (tr: Trace)
    requires RoutingOk(stream, nLayers, k, c) && l < nLayers
    ensures |tr| == |stream| && (forall t | 0 <= t < |tr| :: tr[t] == stream[t][l]) && TraceOk(tr, c)
  {
    seq(|stream|, t requires 0 <= t < |stream| => stream[t][l])
  }

  function Sum(ns: seq<nat>): nat { if ns == [] then 0 else Sum(ns[..|ns| - 1]) + ns[|ns| - 1] }

  lemma SumNothing()
    ensures Sum([]) == 0
  {
  }

  lemma SumSnoc(ns: seq<nat>, n: nat)
    ensures Sum(ns + [n]) == Sum(ns) + n
  {
    assert (ns + [n])[..|ns|] == ns;
  }

  lemma {:induction false} SumUpdate(ns: seq<nat>, i: nat, n: nat)
    requires i < |ns|
    ensures Sum(ns[i := n]) == Sum(ns) - ns[i] + n
    decreases |ns|
  {
    var last := |ns| - 1;
    if i == last {
      assert ns[i := n][..last] == ns[..last];
    } else {
      SumUpdate(ns[..last], i, n);
      assert ns[i := n][..last] == ns[..last][i := n];
    }
  }

  lemma {:induction false} SumMonotone(ms: seq<nat>, ns: seq<nat>)
    requires |ms| == |ns| && forall i | 0 <= i < |ms| :: ms[i] <= ns[i]
    ensures Sum(ms) <= Sum(ns)
  {
    if ms != [] { SumMonotone(ms[..|ms| - 1], ns[..|ns| - 1]); }
  }

  /** belady: the least possible loads, layer by layer. */
  method RunBelady(stream: Routing, nLayers: nat, k: nat, c: nat)
    returns (misses: nat, accesses: nat, ghost ms: seq<nat>)
    requires RoutingOk(stream, nLayers, k, c)
    ensures accesses == |stream| * nLayers * k
    ensures |ms| == nLayers && misses == Sum(ms)
    ensures forall l | 0 <= l < nLayers :: IsOptimum(Layer(stream, nLayers, k, c, l), c, ms[l])
  {
    hide IsOptimum, Sum, RoutingOk;
    misses, ms := 0, [];
    SumNothing();
    var layer := 0;
    while layer < nLayers
      invariant 0 <= layer <= nLayers && |ms| == layer && misses == Sum(ms)
      invariant forall l | 0 <= l < layer :: IsOptimum(Layer(stream, nLayers, k, c, l), c, ms[l])
    {
      var m := BeladyLayer(Layer(stream, nLayers, k, c, layer), c);
      SumSnoc(ms, m);
      ms := ms + [m];
      misses := misses + m;
      layer := layer + 1;
    }
    accesses := |stream| * nLayers * k;
  }

  /** What a layer's LRU cache has done so far: `ps` are its contents after each token. */
  ghost predicate LruSoFar(tr: Trace, c: nat, ps: seq<set<Expert>>, cache: seq<Expert>, cost: nat) {
    && |ps| <= |tr| && (forall t | 0 <= t < |ps| :: |ps[t]| <= c && Needed(tr[t]) <= ps[t])
    && DistinctExperts(cache) && |cache| <= c && Needed(cache) == Before(ps, |ps|) && Loads(ps, |ps|) <= cost
    && cache == LruCacheAt(tr, |ps|, c) && cost == LruMisses(tr, |ps|, c)
  }

  lemma LruMore(tr: Trace, c: nat, ps: seq<set<Expert>>, cache: seq<Expert>, cost: nat, cache': seq<Expert>, m: nat)
    requires LruSoFar(tr, c, ps, cache, cost) && |ps| < |tr| && DistinctExperts(cache') && |cache'| <= c
    requires Needed(tr[|ps|]) <= Needed(cache') && |Needed(cache') - Needed(cache)| <= m
    requires cache' == LruAfter(cache, tr[|ps|], |tr[|ps|]|, c) && m == LruMissesIn(cache, tr[|ps|], |tr[|ps|]|, c)
    ensures LruSoFar(tr, c, ps + [Needed(cache')], cache', cost + m)
  {
    hide Needed, DistinctExperts, Loads, LruAfter, LruMissesIn;
    NeededSize(cache');
    LoadsMore(ps, Needed(cache'));
  }

  lemma LoadsMore(ps: seq<set<Expert>>, p: set<Expert>)
    ensures Loads(ps + [p], |ps| + 1) == Loads(ps, |ps|) + |p - Before(ps, |ps|)|
  {
    LoadsPrefix(ps, p, |ps|);
    assert Before(ps + [p], |ps|) == Before(ps, |ps|);
  }

  lemma {:induction false} LoadsPrefix(ps: seq<set<Expert>>, p: set<Expert>, n: nat)
    requires n <= |ps|
    ensures Loads(ps + [p], n) == Loads(ps, n)
  {
    if n > 0 { LoadsPrefix(ps, p, n - 1); }
  }

  /** Every layer's cache, `n` tokens on; the layers before `layer` are one token further. */
  ghost predicate AllSoFar(stream: Routing, nLayers: nat, k: nat, c: nat, caches: seq<seq<Expert>>, costs: seq<nat>,
                           ps: seq<seq<set<Expert>>>, n: nat, layer: nat)
    requires RoutingOk(stream, nLayers, k, c)
  {
    && |caches| == |costs| == |ps| == nLayers
    && forall l | 0 <= l < nLayers ::
         && LruSoFar(Layer(stream, nLayers, k, c, l), c, ps[l], caches[l], costs[l])
         && |ps[l]| == if l < layer then n + 1 else n
  }

  /** The misses of every layer's LRU cache. */
  function LruCosts(stream: Routing, nLayers: nat, k: nat, c: nat): (r: seq<nat>)
    requires RoutingOk(stream, nLayers, k, c)
    ensures |r| == nLayers
    ensures forall l | 0 <= l < nLayers :: r[l] == LruMisses(Layer(stream, nLayers, k, c, l), |stream|, c)
  {
    seq(nLayers, l requires 0 <= l < nLayers => LruMisses(Layer(stream, nLayers, k, c, l), |stream|, c))
  }

  /** simulate with the policy "lru": tokens outside, layers inside, one cache per layer. */
  method SimulateLru(stream: Routing, nLayers: nat, k: nat, c: nat)
    returns (misses: nat, ghost costs: seq<nat>, ghost ps: seq<seq<set<Expert>>>)
    requires RoutingOk(stream, nLayers, k, c)
    ensures costs == LruCosts(stream, nLayers, k, c) && misses == Sum(LruCosts(stream, nLayers, k, c))
    ensures |ps| == |costs| == nLayers
    ensures forall l | 0 <= l < nLayers ::
              costs[l] == StaleAccesses(History(Layer(stream, nLayers, k, c, l), |stream|), c)
    ensures forall l | 0 <= l < nLayers ::
              |ps[l]| == |stream| && IsPolicy(Layer(stream, nLayers, k, c, l), c, ps[l]) &&
              Loads(ps[l], |stream|) <= costs[l]
  {
    hide AllSoFar, IsPolicy, Loads;
    var caches: seq<seq<Expert>> := seq(nLayers, _ => []);
    costs, ps := seq(nLayers, _ => 0), seq(nLayers, _ => []);
    misses := 0;
    SumZeros(nLayers);
    AllStart(stream, nLayers, k, c);
    var t := 0;
    while t < |stream|
      invariant 0 <= t <= |stream| && misses == Sum(costs) && AllSoFar(stream, nLayers, k, c, caches, costs, ps, t, 0)
    {
      caches, misses, costs, ps := SimulateToken(stream, nLayers, k, c, t, caches, misses, costs, ps);
      t := t + 1;
    }
    AllDone(stream, nLayers, k, c, caches, costs, ps);
    forall l | 0 <= l < nLayers
      ensures costs[l] == StaleAccesses(History(Layer(stream, nLayers, k, c, l), |stream|), c)
    {
      LruIsRecency(Layer(stream, nLayers, k, c, l), |stream|, c);
    }
  }

  /** One token through all layers. */
  method SimulateToken(stream: Routing, nLayers: nat, k: nat, c: nat, t: nat, caches0: seq<seq<Expert>>, misses0: nat,
                       ghost costs0: seq<nat>, ghost ps0: seq<seq<set<Expert>>>)
    returns (caches: seq<seq<Expert>>, misses: nat, ghost costs: seq<nat>, ghost ps: seq<seq<set<Expert>>>)
    requires RoutingOk(stream, nLayers, k, c) && t < |stream| && misses0 == Sum(costs0)
    requires AllSoFar(stream, nLayers, k, c, caches0, costs0, ps0, t, 0)
    ensures misses == Sum(costs) && AllSoFar(stream, nLayers, k, c, caches, costs, ps, t + 1, 0)
  {
    hide AllSoFar, Sum, Needed, LruAfter, LruMissesIn;
    caches, misses, costs, ps := caches0, misses0, costs0, ps0;
    var layer := 0;
    while layer < nLayers
      invariant 0 <= layer <= nLayers && misses == Sum(costs)
      invariant AllSoFar(stream, nLayers, k, c, caches, costs, ps, t, layer)
    {
      AllHere(stream, nLayers, k, c, caches, costs, ps, t, layer);
      var cache, m := TouchToken(caches[layer], stream[t][layer], c);
      OneLayerOn(stream, nLayers, k, c, caches, costs, ps, t, layer, cache, m);
      SumUpdate(costs, layer, costs[layer] + m);
      caches := caches[layer := cache];
      ps := ps[layer := ps[layer] + [Needed(cache)]];
      costs := costs[layer := costs[layer] + m];
      misses := misses + m;
      layer := layer + 1;
    }
    AllTurn(stream, nLayers, k, c, caches, costs, ps, t);
  }

  lemma AllStart(stream: Routing, nLayers: nat, k: nat, c: nat)
    requires RoutingOk(stream, nLayers, k, c)
    ensures AllSoFar(stream, nLayers, k, c, seq(nLayers, _ => []), seq(nLayers, _ => 0), seq(nLayers, _ => []), 0, 0)
  {
    LruStart(stream, nLayers, k, c);
    hide LruSoFar;
  }

  lemma AllTurn(stream: Routing, nLayers: nat, k: nat, c: nat, caches: seq<seq<Expert>>, costs: seq<nat>,
                ps: seq<seq<set<Expert>>>, t: nat)
    requires RoutingOk(stream, nLayers, k, c) && AllSoFar(stream, nLayers, k, c, caches, costs, ps, t, nLayers)
    ensures AllSoFar(stream, nLayers, k, c, caches, costs, ps, t + 1, 0)
  {
    hide LruSoFar;
  }

  lemma AllHere(stream: Routing, nLayers: nat, k: nat, c: nat, caches: seq<seq<Expert>>, costs: seq<nat>,
                ps: seq<seq<set<Expert>>>,
                t: nat, layer: nat)
    requires RoutingOk(stream, nLayers, k, c) && AllSoFar(stream, nLayers, k, c, caches, costs, ps, t, layer)
    requires layer < nLayers
    ensures |caches| == |costs| == |ps| == nLayers && DistinctExperts(caches[layer]) && |caches[layer]| <= c
  {
    LruCache(Layer(stream, nLayers, k, c, layer), c, ps[layer], caches[layer], costs[layer]);
  }

  lemma AllDone(stream: Routing, nLayers: nat, k: nat, c: nat, caches: seq<seq<Expert>>, costs: seq<nat>,
                ps: seq<seq<set<Expert>>>)
    requires RoutingOk(stream, nLayers, k, c) && AllSoFar(stream, nLayers, k, c, caches, costs, ps, |stream|, 0)
    ensures |ps| == nLayers && costs == LruCosts(stream, nLayers, k, c)
    ensures forall l | 0 <= l < nLayers ::
              |ps[l]| == |stream| && IsPolicy(Layer(stream, nLayers, k, c, l), c, ps[l]) &&
              Loads(ps[l], |stream|) <= costs[l]
  {
    hide LruSoFar, IsPolicy, Loads;
    forall l | 0 <= l < nLayers
      ensures IsPolicy(Layer(stream, nLayers, k, c, l), c, ps[l]) && Loads(ps[l], |stream|) <= costs[l]
      ensures costs[l] == LruMisses(Layer(stream, nLayers, k, c, l), |stream|, c)
    {
      LruDone(Layer(stream, nLayers, k, c, l), c, ps[l], caches[l], costs[l]);
    }
    assert costs == LruCosts(stream, nLayers, k, c);
  }

  lemma OneLayerOn(stream: Routing, nLayers: nat, k: nat, c: nat, caches: seq<seq<Expert>>, costs: seq<nat>,
                   ps: seq<seq<set<Expert>>>, t: nat, layer: nat, cache: seq<Expert>, m: nat)
    requires RoutingOk(stream, nLayers, k, c) && AllSoFar(stream, nLayers, k, c, caches, costs, ps, t, layer)
    requires t < |stream| && layer < nLayers && DistinctExperts(cache) && |cache| <= c
    requires Needed(stream[t][layer]) <= Needed(cache) && |Needed(cache) - Needed(caches[layer])| <= m
    requires cache == LruAfter(caches[layer], stream[t][layer], |stream[t][layer]|, c)
    requires m == LruMissesIn(caches[layer], stream[t][layer], |stream[t][layer]|, c)
    ensures AllSoFar(stream, nLayers, k, c, caches[layer := cache], costs[layer := costs[layer] + m],
                     ps[layer := ps[layer] + [Needed(cache)]], t, layer + 1)
  {
    hide LruSoFar;
    LruMore(Layer(stream, nLayers, k, c, layer), c, ps[layer], caches[layer], costs[layer], cache, m);
  }

  lemma LruCache(tr: Trace, c: nat, ps: seq<set<Expert>>, cache: seq<Expert>, cost: nat)
    requires LruSoFar(tr, c, ps, cache, cost)
    ensures DistinctExperts(cache) && |cache| <= c
  {
  }

  lemma LruDone(tr: Trace, c: nat, ps: seq<set<Expert>>, cache: seq<Expert>, cost: nat)
    requires LruSoFar(tr, c, ps, cache, cost) && |ps| == |tr|
    ensures IsPolicy(tr, c, ps) && Loads(ps, |tr|) <= cost && cost == LruMisses(tr, |tr|, c)
  {
  }

  lemma LruStart(stream: Routing, nLayers: nat, k: nat, c: nat)
    requires RoutingOk(stream, nLayers, k, c)
    ensures forall l | 0 <= l < nLayers :: LruSoFar(Layer(stream, nLayers, k, c, l), c, [], [], 0)
  {
  }

  lemma {:induction false} SumZeros(n: nat)
    ensures Sum(seq(n, _ => 0)) == 0
  {
    if n > 0 {
      SumZeros(n - 1);
      assert seq(n, _ => 0)[..n - 1] == seq(n - 1, _ => 0);
    }
  }

  /** Only one number is the least any policy can do with. */
  lemma OptimumIsUnique(tr: Trace, c: nat, m: nat, n: nat)
    requires IsOptimum(tr, c, m) && IsOptimum(tr, c, n)
    ensures m == n
  {
    var ps :| IsPolicy(tr, c, ps) && Loads(ps, |tr|) == m;
    var qs :| IsPolicy(tr, c, qs) && Loads(qs, |tr|) == n;
  }

  /** The LRU simulation never beats the clairvoyant policy: `lru` are the misses of the one, `belady` those of
      the other, which are the least possible, layer by layer. */
  method CompareLru(stream: Routing, nLayers: nat, k: nat, c: nat) returns (lru: nat, belady: nat, ghost ms: seq<nat>)
    requires RoutingOk(stream, nLayers, k, c)
    ensures lru == Sum(LruCosts(stream, nLayers, k, c))
    ensures |ms| == nLayers && belady == Sum(ms)
    ensures forall l | 0 <= l < nLayers :: IsOptimum(Layer(stream, nLayers, k, c, l), c, ms[l])
    ensures forall l | 0 <= l < nLayers :: ms[l] <= LruCosts(stream, nLayers, k, c)[l]
    ensures belady <= lru
  {
    var accesses: nat;
    ghost var costs, ps;
    lru, costs, ps := SimulateLru(stream, nLayers, k, c);
    belady, accesses, ms := RunBelady(stream, nLayers, k, c);
    forall l | 0 <= l < nLayers ensures ms[l] <= costs[l] {
      assert IsOptimum(Layer(stream, nLayers, k, c, l), c, ms[l]);
      assert IsPolicy(Layer(stream, nLayers, k, c, l), c, ps[l]);
    }
    SumMonotone(ms, costs);
  }
}
