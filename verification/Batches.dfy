/** The batch handed to llama_decode and what decoding it does to the cache. */
module Batches {
  import opened Tokens
  import opened Radix
  import opened KvState
  import opened Kv
  import opened Serving
  import opened Jobs

  datatype Entry = Entry(token: Token, pos: int, seqId: SeqId, logits: bool)

  /** Each entry's token goes into the next cell of its sequence. */
  function Stored(kv: Views, batch: seq<Entry>): (r: Views)
    ensures r.Keys == kv.Keys
  {
    if batch == [] then kv
    else
      var e := batch[|batch| - 1];
      var v := Stored(kv, batch[..|batch| - 1]);
      if e.seqId in v then v[e.seqId := v[e.seqId] + [e.token]] else v
  }

  /** Every entry names the position that is next in its sequence when its turn comes: no cell is
      written twice and none is left out. */
  ghost predicate InOrder(kv: Views, batch: seq<Entry>) {
    batch == [] ||
    (var e := batch[|batch| - 1];
     var v := Stored(kv, batch[..|batch| - 1]);
     InOrder(kv, batch[..|batch| - 1]) && e.seqId in v && e.pos == |v[e.seqId]|)
  }

  /** What the sequence of entry `k` holds up to and including that entry: all its logits depend on. */
  ghost function LogitView(kv: Views, batch: seq<Entry>, k: nat): Word
    requires k < |batch| && batch[k].seqId in kv
  {
    Stored(kv, batch[..k + 1])[batch[k].seqId]
  }

  lemma StoreOne(kv: Views, batch: seq<Entry>, e: Entry)
    requires e.seqId in kv
    ensures Stored(kv, batch + [e]) == Stored(kv, batch)[e.seqId := Stored(kv, batch)[e.seqId] + [e.token]]
    ensures InOrder(kv, batch + [e]) <==> InOrder(kv, batch) && e.pos == |Stored(kv, batch)[e.seqId]|
  {
    assert (batch + [e])[..|batch|] == batch;
  }

  // ---------------------------------------------------------------- one run of entries per job

  /** The tokens `w` of one sequence from position `pos` on, with logits for the last one if wanted. */
  datatype Plan = Plan(seqId: SeqId, pos: int, w: Word, logits: bool)

  function Entries(p: Plan): (r: seq<Entry>)
    ensures |r| == |p.w|
    ensures forall i | 0 <= i < |r| :: r[i] == Entry(p.w[i], p.pos + i, p.seqId, p.logits && i == |p.w| - 1)
  {
    seq(|p.w|, i requires 0 <= i < |p.w| => Entry(p.w[i], p.pos + i, p.seqId, p.logits && i == |p.w| - 1))
  }

  ghost function Flatten(plans: seq<Plan>): seq<Entry> {
    if plans == [] then [] else Flatten(plans[..|plans| - 1]) + Entries(plans[|plans| - 1])
  }

  lemma FlattenMore(plans: seq<Plan>, p: Plan)
    ensures Flatten(plans + [p]) == Flatten(plans) + Entries(p)
  {
    assert (plans + [p])[..|plans|] == plans;
  }

  /** What the plans add to each sequence. */
  ghost function DebtsOf(plans: seq<Plan>): Debts {
    if plans == [] then map[] else DebtsOf(plans[..|plans| - 1])[plans[|plans| - 1].seqId := plans[|plans| - 1].w]
  }

  lemma DebtsMore(plans: seq<Plan>, p: Plan)
    ensures DebtsOf(plans + [p]) == DebtsOf(plans)[p.seqId := p.w]
  {
    assert (plans + [p])[..|plans|] == plans;
  }

  ghost predicate Distinct(plans: seq<Plan>) {
    forall i, j | 0 <= i < j < |plans| :: plans[i].seqId != plans[j].seqId
  }

  lemma {:induction false} DebtOf(plans: seq<Plan>, i: nat)
    requires Distinct(plans) && i < |plans|
    ensures plans[i].seqId in DebtsOf(plans) && DebtsOf(plans)[plans[i].seqId] == plans[i].w
    decreases |plans|
  {
    if i < |plans| - 1 {
      DebtOf(plans[..|plans| - 1], i);
    }
  }

  lemma {:induction false} NoDebt(plans: seq<Plan>, s: SeqId)
    requires forall i | 0 <= i < |plans| :: plans[i].seqId != s
    ensures s !in DebtsOf(plans)
    decreases |plans|
  {
    if plans != [] { NoDebt(plans[..|plans| - 1], s); }
  }

  lemma {:induction false} StoreRun(kv: Views, b: seq<Entry>, p: Plan, n: nat)
    requires InOrder(kv, b) && p.seqId in kv && |Stored(kv, b)[p.seqId]| == p.pos && n <= |p.w|
    ensures InOrder(kv, b + Entries(p)[..n])
    ensures forall s | s in kv ::
              Stored(kv, b + Entries(p)[..n])[s] == Stored(kv, b)[s] + if s == p.seqId then p.w[..n] else []
  {
    hide Stored, InOrder;
    if n == 0 {
      assert b + Entries(p)[..n] == b;
    } else {
      StoreRun(kv, b, p, n - 1);
      var e := Entries(p)[n - 1];
      assert b + Entries(p)[..n] == b + Entries(p)[..n - 1] + [e];
      StoreOne(kv, b + Entries(p)[..n - 1], e);
      assert p.w[..n] == p.w[..n - 1] + [p.w[n - 1]];
    }
  }

  ghost predicate Fits(kv: Views, plans: seq<Plan>) {
    && Distinct(plans)
    && forall i | 0 <= i < |plans| :: plans[i].seqId in kv && plans[i].pos == |kv[plans[i].seqId]|
  }

  /** A batch made of one run per sequence, each from the sequence's end on, decodes in order and
      appends to every sequence exactly its run. */
  lemma {:induction false} StorePlans(kv: Views, plans: seq<Plan>)
    requires Fits(kv, plans)
    ensures InOrder(kv, Flatten(plans))
    ensures forall s | s in kv :: Stored(kv, Flatten(plans))[s] == kv[s] + Owed(DebtsOf(plans), s)
    decreases |plans|
  {
    if plans != [] {
      hide Stored, InOrder, Flatten, DebtsOf;
      var rest, p := plans[..|plans| - 1], plans[|plans| - 1];
      assert plans == rest + [p];
      StorePlans(kv, rest);
      NoDebt(rest, p.seqId);
      StoreLast(kv, rest, p);
    }
  }

  lemma StoreLast(kv: Views, rest: seq<Plan>, p: Plan)
    requires InOrder(kv, Flatten(rest)) && p.seqId in kv && p.pos == |kv[p.seqId]| && p.seqId !in DebtsOf(rest)
    requires forall s | s in kv :: Stored(kv, Flatten(rest))[s] == kv[s] + Owed(DebtsOf(rest), s)
    ensures InOrder(kv, Flatten(rest + [p]))
    ensures forall s | s in kv :: Stored(kv, Flatten(rest + [p]))[s] == kv[s] + Owed(DebtsOf(rest + [p]), s)
  {
    hide Stored, InOrder, Flatten, DebtsOf, Entries;
    assert Stored(kv, Flatten(rest))[p.seqId] == kv[p.seqId];
    StoreRun(kv, Flatten(rest), p, |p.w|);
    assert Entries(p)[..|p.w|] == Entries(p) && p.w[..|p.w|] == p.w;
    FlattenMore(rest, p);
    DebtsMore(rest, p);
  }

  lemma {:induction false} FlattenPrefix(plans: seq<Plan>, i: nat)
    requires i <= |plans|
    ensures Flatten(plans[..i]) <= Flatten(plans)
    decreases |plans| - i
  {
    if i < |plans| {
      FlattenPrefix(plans, i + 1);
      assert plans[..i + 1] == plans[..i] + [plans[i]];
      FlattenMore(plans[..i], plans[i]);
    } else {
      assert plans[..i] == plans;
    }
  }

  /** Where the logits of the run `i` are found. */
  ghost function LogitIndex(plans: seq<Plan>, i: nat): int
    requires i < |plans|
  {
    |Flatten(plans[..i + 1])| - 1
  }

  /** The logits asked for at the end of a run depend on the whole of its sequence. */
  lemma LogitsOf(kv: Views, plans: seq<Plan>, i: nat)
    requires Fits(kv, plans) && i < |plans| && plans[i].w != []
    ensures var k := LogitIndex(plans, i);
            && 0 <= k < |Flatten(plans)|
            && Flatten(plans)[k].seqId == plans[i].seqId && Flatten(plans)[k].logits == plans[i].logits
            && LogitView(kv, Flatten(plans), k) == kv[plans[i].seqId] + plans[i].w
  {
    hide Stored, InOrder, Flatten, DebtsOf, LogitIndex;
    var upto := plans[..i + 1];
    RunEnds(plans, i);
    assert Fits(kv, upto);
    StorePlans(kv, upto);
    DebtOf(upto, i);
  }

  /** The runs up to the `i`th end with the last entry of that run. */
  lemma RunEnds(plans: seq<Plan>, i: nat)
    requires i < |plans| && plans[i].w != []
    ensures var b, k := Flatten(plans), LogitIndex(plans, i);
            && 0 <= k < |b| && b[..k + 1] == Flatten(plans[..i + 1])
            && b[k].seqId == plans[i].seqId && b[k].logits == plans[i].logits
  {
    hide Flatten;
    FlattenPrefix(plans, i + 1);
    assert plans[..i + 1] == plans[..i] + [plans[i]];
    FlattenMore(plans[..i], plans[i]);
    var k := LogitIndex(plans, i);
    assert Flatten(plans)[k] == Flatten(plans[..i + 1])[k] == Entries(plans[i])[|plans[i].w| - 1];
  }

  lemma StoredNothing(kv: Views)
    ensures Stored(kv, [][..0]) == kv && Stored(kv, []) == kv
  {
  }

  // ---------------------------------------------------------------- the batch of a step

  /** A part of a prompt that was put into the batch; `logitIndex` is -1 unless it completes the prompt. */
  datatype Submission = Submission(ctxIndex: nat, tokens: nat, logitIndex: int)

  ghost predicate SubPlanned(prefilling: seq<Job>, sub: Submission, plans: seq<Plan>, m: nat)
    requires m < |plans|
  {
    && sub.ctxIndex < |prefilling|
    && var x := prefilling[sub.ctxIndex];
    && x.Prefilling? && sub.tokens >= 1 && x.deltaStart + sub.tokens <= |x.delta|
    && var completes := x.deltaStart + sub.tokens == |x.delta|;
    && plans[m] == Plan(x.seqId, x.cachedPos + x.deltaStart, x.delta[x.deltaStart..x.deltaStart + sub.tokens],
                        completes)
    && sub.logitIndex == if completes then LogitIndex(plans, m) else -1
  }

  /** All that is left of the prompt of prefill `i` has been submitted. */
  ghost predicate AllSubmitted(prefilling: seq<Job>, subs: seq<Submission>, i: nat)
    requires i < |prefilling|
  {
    prefilling[i].Prefilling? &&
    (prefilling[i].deltaStart == |prefilling[i].delta| ||
     exists k :: 0 <= k < |subs| && subs[k].ctxIndex == i &&
                 prefilling[i].deltaStart + subs[k].tokens == |prefilling[i].delta|)
  }

  lemma StillSubmitted(prefilling: seq<Job>, subs: seq<Submission>, sub: Submission, i: nat)
    requires i < |prefilling| && AllSubmitted(prefilling, subs, i)
    ensures AllSubmitted(prefilling, subs + [sub], i)
  {
    if prefilling[i].deltaStart != |prefilling[i].delta| {
      var k :| 0 <= k < |subs| && subs[k].ctxIndex == i &&
          prefilling[i].deltaStart + subs[k].tokens == |prefilling[i].delta|;
      assert (subs + [sub])[k] == subs[k];
    }
  }

  /** The batch is one run for each generation followed by one for each submitted part of a prompt. */
  ghost predicate Planned(prefilling: seq<Job>, active: seq<Job>, batch: seq<Entry>, subs: seq<Submission>,
                          plans: seq<Plan>) {
    && batch == Flatten(plans) && |plans| == |active| + |subs|
    && (forall i | 0 <= i < |active| ::
          active[i].Generating? && plans[i] == Plan(active[i].seqId, active[i].pos, [active[i].nextToken], true))
    && (forall k | 0 <= k < |subs| :: SubPlanned(prefilling, subs[k], plans, |active| + k))
    && (forall k, l | 0 <= k < l < |subs| :: subs[k].ctxIndex < subs[l].ctxIndex)
  }

  lemma NothingPlanned(prefilling: seq<Job>)
    ensures Planned(prefilling, [], [], [], [])
  {
  }

  lemma PlanActive(prefilling: seq<Job>, active: seq<Job>, i: nat, batch: seq<Entry>, plans: seq<Plan>)
    requires i < |active| && active[i].Generating? && Planned(prefilling, active[..i], batch, [], plans)
    ensures var x := active[i];
            Planned(prefilling, active[..i + 1], batch + [Entry(x.nextToken, x.pos, x.seqId, true)], [],
                    plans + [Plan(x.seqId, x.pos, [x.nextToken], true)])
  {
    var x := active[i];
    var p := Plan(x.seqId, x.pos, [x.nextToken], true);
    FlattenMore(plans, p);
    assert Entries(p) == [Entry(x.nextToken, x.pos, x.seqId, true)];
  }

  lemma PlanPrefill(prefilling: seq<Job>, active: seq<Job>, batch: seq<Entry>, subs: seq<Submission>, plans: seq<Plan>,
                    i: nat, take: nat)
    requires Planned(prefilling, active, batch, subs, plans) && i < |prefilling| && prefilling[i].Prefilling?
    requires take >= 1 && prefilling[i].deltaStart + take <= |prefilling[i].delta|
    requires forall k | 0 <= k < |subs| :: subs[k].ctxIndex < i
    ensures var x := prefilling[i];
            var completes := x.deltaStart + take == |x.delta|;
            var p := Plan(x.seqId, x.cachedPos + x.deltaStart, x.delta[x.deltaStart..x.deltaStart + take], completes);
            var batch' := batch + Entries(p);
            Planned(prefilling, active, batch', subs + [Submission(i, take, if completes then |batch'| - 1 else -1)],
                    plans + [p])
  {
    hide Flatten;
    var x := prefilling[i];
    var completes := x.deltaStart + take == |x.delta|;
    var p := Plan(x.seqId, x.cachedPos + x.deltaStart, x.delta[x.deltaStart..x.deltaStart + take], completes);
    var batch' := batch + Entries(p);
    var plans', subs' := plans + [p], subs + [Submission(i, take, if completes then |batch'| - 1 else -1)];
    FlattenMore(plans, p);
    assert plans'[..|plans| + 1] == plans';
    assert SubPlanned(prefilling, subs'[|subs|], plans', |plans|);
    hide SubPlanned;
    forall k | 0 <= k < |subs'| ensures SubPlanned(prefilling, subs'[k], plans', |active| + k) {
      if k < |subs| {
        StillPlanned(prefilling, subs[k], plans, p, |active| + k);
      }
    }
  }

  lemma StillPlanned(prefilling: seq<Job>, sub: Submission, plans: seq<Plan>, p: Plan, m: nat)
    requires m < |plans| && SubPlanned(prefilling, sub, plans, m)
    ensures SubPlanned(prefilling, sub, plans + [p], m)
  {
    hide Flatten;
    assert (plans + [p])[..m + 1] == plans[..m + 1];
  }

  // ---------------------------------------------------------------- what a successful decode leaves to record

  lemma DistinctIds(jobs: seq<Job>, c: Cache, owed: Debts, env: Env, i: nat, j: nat)
    requires JobsOk(jobs, c, owed, env) && i < |jobs| && j < |jobs| && i != j
    ensures jobs[i].seqId != jobs[j].seqId
  {
    hide JobsOk;
    var a, b := jobs[..i], jobs[i + 1..];
    assert jobs == a + [jobs[i]] + b;
    assert jobs[j] in a + b by {
      if j < i { assert a[j] == jobs[j]; } else { assert b[j - i - 1] == jobs[j]; }
    }
    Apart(a, jobs[i], b, c, owed, env);
  }

  /** The job the run `m` belongs to. */
  ghost function JobOf(prefilling: seq<Job>, active: seq<Job>, subs: seq<Submission>, m: nat): (i: int)
    requires m < |active| + |subs|
  {
    if m < |active| then |prefilling| + m else subs[m - |active|].ctxIndex
  }

  lemma RunOfJob(prefilling: seq<Job>, active: seq<Job>, batch: seq<Entry>, subs: seq<Submission>, plans: seq<Plan>,
                 c: Cache, env: Env, m: nat)
    requires Planned(prefilling, active, batch, subs, plans) && JobsOk(prefilling + active, c, map[], env)
    requires m < |plans|
    requires forall j | j in active :: j.Generating? && !j.done
    ensures 0 <= JobOf(prefilling, active, subs, m) < |prefilling + active|
    ensures (prefilling + active)[JobOf(prefilling, active, subs, m)].seqId == plans[m].seqId
    ensures plans[m].seqId in c.leaf && plans[m].seqId in c.kv && plans[m].pos == |c.kv[plans[m].seqId]|
    ensures plans[m].w != []
    ensures plans[m].pos + |plans[m].w| <= env.nCtx
  {
    hide Flatten;
    var j := (prefilling + active)[JobOf(prefilling, active, subs, m)];
    assert m >= |active| ==> SubPlanned(prefilling, subs[m - |active|], plans, |active| + (m - |active|));
    assert j in prefilling + active;
    assert JobOk(j, c, map[], env);
    if m < |active| { assert active[m] in active; }
  }

  lemma PlansFit(prefilling: seq<Job>, active: seq<Job>, batch: seq<Entry>, subs: seq<Submission>, plans: seq<Plan>,
                 c: Cache, env: Env)
    requires Planned(prefilling, active, batch, subs, plans) && JobsOk(prefilling + active, c, map[], env)
    requires forall j | j in active :: j.Generating? && !j.done
    ensures Fits(c.kv, plans) && InOrder(c.kv, batch)
    ensures forall e | e in batch :: e.seqId in c.leaf && e.seqId in c.kv && 0 <= e.pos < env.nCtx
  {
    forall m | 0 <= m < |plans|
      ensures plans[m].seqId in c.leaf && plans[m].seqId in c.kv && plans[m].pos == |c.kv[plans[m].seqId]|
      ensures plans[m].pos + |plans[m].w| <= env.nCtx
    {
      RunOfJob(prefilling, active, batch, subs, plans, c, env, m);
    }
    forall m, n | 0 <= m < n < |plans| ensures plans[m].seqId != plans[n].seqId {
      PlansDiffer(prefilling, active, batch, subs, plans, c, env, m, n);
    }
    assert batch == Flatten(plans);
    hide Planned, JobsOk, Flatten;
    StorePlans(c.kv, plans);
    forall e | e in batch ensures e.seqId in c.leaf && e.seqId in c.kv && 0 <= e.pos < env.nCtx {
      EntryOfRun(plans, e);
    }
  }

  lemma PlansDiffer(prefilling: seq<Job>, active: seq<Job>, batch: seq<Entry>, subs: seq<Submission>, plans: seq<Plan>,
                    c: Cache, env: Env, m: nat, n: nat)
    requires Planned(prefilling, active, batch, subs, plans) && JobsOk(prefilling + active, c, map[], env)
    requires m < n < |plans|
    requires forall j | j in active :: j.Generating? && !j.done
    ensures plans[m].seqId != plans[n].seqId
  {
    RunOfJob(prefilling, active, batch, subs, plans, c, env, m);
    RunOfJob(prefilling, active, batch, subs, plans, c, env, n);
    assert n >= |active| ==> SubPlanned(prefilling, subs[n - |active|], plans, |active| + (n - |active|));
    assert m >= |active| ==> subs[m - |active|].ctxIndex < subs[n - |active|].ctxIndex;
    hide JobsOk, Flatten;
    DistinctIds(prefilling + active, c, map[], env, JobOf(prefilling, active, subs, m),
                JobOf(prefilling, active, subs, n));
  }

  lemma {:induction false} EntryOfRun(plans: seq<Plan>, e: Entry)
    requires e in Flatten(plans)
    ensures exists m ::
              0 <= m < |plans| && plans[m].seqId == e.seqId && plans[m].pos <= e.pos < plans[m].pos + |plans[m].w|
    decreases |plans|
  {
    if e in Flatten(plans[..|plans| - 1]) {
      EntryOfRun(plans[..|plans| - 1], e);
      var m :| 0 <= m < |plans| - 1 && plans[..|plans| - 1][m].seqId == e.seqId &&
               plans[..|plans| - 1][m].pos <= e.pos < plans[..|plans| - 1][m].pos + |plans[..|plans| - 1][m].w|;
      assert plans[m].seqId == e.seqId;
    } else {
      assert plans[|plans| - 1].seqId == e.seqId;
    }
  }

  /** Every job's sequence now holds what was recorded and what the batch had for it. */
  lemma DecodedJobs(jobs: seq<Job>, c: Cache, c': Cache, plans: seq<Plan>, batch: seq<Entry>, env: Env)
    requires JobsOk(jobs, c, map[], env) && Fits(c.kv, plans) && batch == Flatten(plans)
    requires c' == c.(kv := Stored(c.kv, batch))
    ensures JobsOk(jobs, c', DebtsOf(plans), env)
  {
    hide Flatten, DebtsOf, Stored;
    StorePlans(c.kv, plans);
    forall j | j in jobs ensures JobOk(j, c', DebtsOf(plans), env) {
      assert JobOk(j, c, map[], env);
      assert Held(j) + [] == Held(j);
    }
  }

  /** Entry `k` of the batch has logits, computed from `view`. */
  ghost predicate HasLogits(batch: seq<Entry>, views: seq<Word>, k: int, s: SeqId, view: Word) {
    0 <= k < |batch| == |views| && batch[k].logits && batch[k].seqId == s && views[k] == view
  }

  /** The part of the prompt of `x` that was submitted is in the cache and not yet recorded. */
  ghost predicate Due(x: Job, sub: Submission, owed: Debts, batch: seq<Entry>, views: seq<Word>) {
    && x.Prefilling? && sub.tokens >= 1 && x.deltaStart + sub.tokens <= |x.delta|
    && x.seqId in owed && owed[x.seqId] == x.delta[x.deltaStart..x.deltaStart + sub.tokens]
    && (x.deltaStart + sub.tokens < |x.delta| ==> sub.logitIndex == -1)
    && (x.deltaStart + sub.tokens == |x.delta| ==> HasLogits(batch, views, sub.logitIndex, x.seqId, x.tokens))
  }

  ghost predicate DueActive(x: Job, i: nat, owed: Debts, batch: seq<Entry>, views: seq<Word>) {
    && x.Generating? && x.seqId in owed && owed[x.seqId] == [x.nextToken]
    && HasLogits(batch, views, i, x.seqId, x.cachedTokens + [x.nextToken])
  }

  /** Whoever has something to record is a submitted prefill, from the `k`th on, or a generation from the `i`th on. */
  ghost predicate Debtor(s: SeqId, prefilling: seq<Job>, active: seq<Job>, subs: seq<Submission>, k: nat, i: nat) {
    || (exists l :: k <= l < |subs| && subs[l].ctxIndex < |prefilling| && prefilling[subs[l].ctxIndex].seqId == s)
    || (exists l :: i <= l < |active| && active[l].seqId == s)
  }

  ghost predicate Decodes(kv: Views, batch: seq<Entry>, views: seq<Word>) {
    |views| == |batch| && forall k | 0 <= k < |batch| :: batch[k].seqId in kv && views[k] == LogitView(kv, batch, k)
  }

  lemma SubDue(prefilling: seq<Job>, active: seq<Job>, batch: seq<Entry>, subs: seq<Submission>, plans: seq<Plan>,
               c: Cache, env: Env, views: seq<Word>, k: nat)
    requires Planned(prefilling, active, batch, subs, plans) && JobsOk(prefilling + active, c, map[], env)
    requires Fits(c.kv, plans) && Decodes(c.kv, batch, views) && k < |subs|
    ensures subs[k].ctxIndex < |prefilling| && Due(prefilling[subs[k].ctxIndex], subs[k], DebtsOf(plans), batch, views)
  {
    hide Flatten, DebtsOf, Stored;
    var m := |active| + k;
    assert SubPlanned(prefilling, subs[k], plans, m);
    var x := prefilling[subs[k].ctxIndex];
    assert x in prefilling + active;
    assert JobOk(x, c, map[], env);
    DebtOf(plans, m);
    LogitsOf(c.kv, plans, m);
    if x.deltaStart + subs[k].tokens == |x.delta| {
      assert x.tokens == x.tokens[..x.cachedPos + x.deltaStart] + [] + x.delta[x.deltaStart..];
    }
  }

  lemma {:induction false} UnitRuns(plans: seq<Plan>, i: nat)
    requires i <= |plans| && forall k | 0 <= k < i :: |plans[k].w| == 1
    ensures |Flatten(plans[..i])| == i
  {
    if i > 0 {
      UnitRuns(plans, i - 1);
      assert plans[..i] == plans[..i - 1] + [plans[i - 1]];
      FlattenMore(plans[..i - 1], plans[i - 1]);
    }
  }

  lemma ActiveDue(prefilling: seq<Job>, active: seq<Job>, batch: seq<Entry>, subs: seq<Submission>, plans: seq<Plan>,
                  c: Cache, env: Env, views: seq<Word>, i: nat)
    requires Planned(prefilling, active, batch, subs, plans) && JobsOk(prefilling + active, c, map[], env)
    requires Fits(c.kv, plans) && Decodes(c.kv, batch, views) && i < |active|
    ensures DueActive(active[i], i, DebtsOf(plans), batch, views)
  {
    hide Flatten, DebtsOf, Stored;
    var x := active[i];
    assert x in prefilling + active;
    assert JobOk(x, c, map[], env);
    DebtOf(plans, i);
    UnitRuns(plans, i + 1);
    LogitsOf(c.kv, plans, i);
  }

  lemma {:induction false} DebtorIsPlanned(plans: seq<Plan>, s: SeqId)
    requires s in DebtsOf(plans)
    ensures exists m :: 0 <= m < |plans| && plans[m].seqId == s
    decreases |plans|
  {
    if s == plans[|plans| - 1].seqId {
    } else {
      DebtorIsPlanned(plans[..|plans| - 1], s);
      var m :| 0 <= m < |plans| - 1 && plans[..|plans| - 1][m].seqId == s;
      assert plans[m].seqId == s;
    }
  }

  /** What is left to record: the submissions from the `k`th on and the generations from the `i`th on. */
  ghost predicate AllOwed(prefilling: seq<Job>, active: seq<Job>, subs: seq<Submission>, k: nat, i: nat, owed: Debts,
                          batch: seq<Entry>, views: seq<Word>) {
    && (forall l | k <= l < |subs| ::
          subs[l].ctxIndex < |prefilling| && Due(prefilling[subs[l].ctxIndex], subs[l], owed, batch, views))
    && (forall l | i <= l < |active| :: DueActive(active[l], l, owed, batch, views))
    && (forall s | s in owed :: Debtor(s, prefilling, active, subs, k, i))
    && (forall l, n | 0 <= l < n < |subs| :: subs[l].ctxIndex < subs[n].ctxIndex)
  }

  lemma AllDue(prefilling: seq<Job>, active: seq<Job>, batch: seq<Entry>, subs: seq<Submission>, plans: seq<Plan>,
               c: Cache, env: Env, views: seq<Word>)
    requires Planned(prefilling, active, batch, subs, plans) && JobsOk(prefilling + active, c, map[], env)
    requires Fits(c.kv, plans) && Decodes(c.kv, batch, views)
    ensures AllOwed(prefilling, active, subs, 0, 0, DebtsOf(plans), batch, views)
  {
    hide JobsOk, Fits, Decodes, Due, DueActive, Debtor, Planned, DebtsOf;
    forall k | 0 <= k < |subs|
      ensures subs[k].ctxIndex < |prefilling|
      ensures Due(prefilling[subs[k].ctxIndex], subs[k], DebtsOf(plans), batch, views)
    {
      SubDue(prefilling, active, batch, subs, plans, c, env, views, k);
    }
    forall i | 0 <= i < |active| ensures DueActive(active[i], i, DebtsOf(plans), batch, views) {
      ActiveDue(prefilling, active, batch, subs, plans, c, env, views, i);
    }
    forall s | s in DebtsOf(plans) ensures Debtor(s, prefilling, active, subs, 0, 0) {
      RunDebtor(prefilling, active, batch, subs, plans, s);
    }
    SubsIncrease(prefilling, active, batch, subs, plans);
  }

  lemma SubsIncrease(prefilling: seq<Job>, active: seq<Job>, batch: seq<Entry>, subs: seq<Submission>, plans: seq<Plan>)
    requires Planned(prefilling, active, batch, subs, plans)
    ensures forall k, l | 0 <= k < l < |subs| :: subs[k].ctxIndex < subs[l].ctxIndex
  {
  }

  lemma RunDebtor(prefilling: seq<Job>, active: seq<Job>, batch: seq<Entry>, subs: seq<Submission>, plans: seq<Plan>,
                  s: SeqId)
    requires Planned(prefilling, active, batch, subs, plans) && s in DebtsOf(plans)
    ensures Debtor(s, prefilling, active, subs, 0, 0)
  {
    hide Flatten, DebtsOf;
    DebtorIsPlanned(plans, s);
    var m :| 0 <= m < |plans| && plans[m].seqId == s;
    if m < |active| {
      assert active[m].seqId == s;
    } else {
      var l := m - |active|;
      assert SubPlanned(prefilling, subs[l], plans, |active| + l);
      assert prefilling[subs[l].ctxIndex].seqId == s;
    }
  }

  /** The `k`th submission has been recorded. */
  lemma SubSettled(prefilling: seq<Job>, active: seq<Job>, subs: seq<Submission>, k: nat, owed: Debts,
                   batch: seq<Entry>, views: seq<Word>, y: Job, c: Cache, env: Env)
    requires AllOwed(prefilling, active, subs, k, 0, owed, batch, views) && k < |subs|
    requires subs[k].ctxIndex < |prefilling|
    requires JobsOk(prefilling + active, c, owed, env) && y.seqId == prefilling[subs[k].ctxIndex].seqId
    ensures AllOwed(prefilling[subs[k].ctxIndex := y], active, subs, k + 1, 0, owed - {y.seqId}, batch, views)
  {
    var ci := subs[k].ctxIndex;
    var prefilling', owed' := prefilling[ci := y], owed - {y.seqId};
    var jobs := prefilling + active;
    forall l | 0 <= l < |jobs| && l != ci ensures jobs[l].seqId != y.seqId {
      DistinctIds(jobs, c, owed, env, l, ci);
    }
    hide JobsOk, HasLogits;
    forall l | k + 1 <= l < |subs|
      ensures subs[l].ctxIndex < |prefilling'| && Due(prefilling'[subs[l].ctxIndex], subs[l], owed', batch, views)
    {
      assert Due(prefilling[subs[l].ctxIndex], subs[l], owed, batch, views);
      assert jobs[subs[l].ctxIndex] == prefilling[subs[l].ctxIndex];
    }
    forall l | 0 <= l < |active| ensures DueActive(active[l], l, owed', batch, views) {
      assert DueActive(active[l], l, owed, batch, views);
      assert jobs[|prefilling| + l] == active[l];
    }
    forall s | s in owed' ensures Debtor(s, prefilling', active, subs, k + 1, 0) {
      assert Debtor(s, prefilling, active, subs, k, 0);
      if l :| k <= l < |subs| && subs[l].ctxIndex < |prefilling| && prefilling[subs[l].ctxIndex].seqId == s {
        assert l != k;
        assert prefilling'[subs[l].ctxIndex].seqId == s;
      }
    }
  }

  /** The `i`th generation has been recorded, all submissions before it. */
  lemma ActiveSettled(prefilling: seq<Job>, active: seq<Job>, subs: seq<Submission>, i: nat, owed: Debts,
                      batch: seq<Entry>, views: seq<Word>, y: Job, c: Cache, env: Env)
    requires AllOwed(prefilling, active, subs, |subs|, i, owed, batch, views) && i < |active|
    requires JobsOk(prefilling + active, c, owed, env) && y.seqId == active[i].seqId
    ensures AllOwed(prefilling, active[i := y], subs, |subs|, i + 1, owed - {y.seqId}, batch, views)
  {
    var active', owed' := active[i := y], owed - {y.seqId};
    var jobs := prefilling + active;
    forall l | 0 <= l < |active| && l != i ensures active[l].seqId != y.seqId {
      DistinctIds(jobs, c, owed, env, |prefilling| + l, |prefilling| + i);
    }
    hide JobsOk, HasLogits;
    forall l | i + 1 <= l < |active'| ensures DueActive(active'[l], l, owed', batch, views) {
      assert DueActive(active[l], l, owed, batch, views);
    }
    forall s | s in owed' ensures Debtor(s, prefilling, active', subs, |subs|, i + 1) {
      assert Debtor(s, prefilling, active, subs, |subs|, i);
      var l :| i <= l < |active| && active[l].seqId == s;
      assert active'[l].seqId == s;
    }
  }

  lemma NothingOwed(prefilling: seq<Job>, active: seq<Job>, subs: seq<Submission>, owed: Debts, batch: seq<Entry>,
                    views: seq<Word>)
    requires AllOwed(prefilling, active, subs, |subs|, |active|, owed, batch, views)
    ensures owed == map[]
  {
    assert forall s :: s !in owed;
    assert owed.Keys == {};
  }

  /** The cache already holds what a submission records; a prompt it completes is all there. */
  lemma SubRecorded(x: Job, sub: Submission, owed: Debts, batch: seq<Entry>, views: seq<Word>, c: Cache, env: Env)
    requires JobOk(x, c, owed, env) && Due(x, sub, owed, batch, views)
    ensures var y := x.(deltaStart := x.deltaStart + sub.tokens);
            && (y.deltaStart < |y.delta| ==> JobOk(y, c, owed - {x.seqId}, env))
            && (y.deltaStart == |y.delta| ==>
                  JobOk(y, c.(ready := c.ready + {x.seqId}), owed - {x.seqId}, env) && c.kv[x.seqId] == x.tokens)
            && JobWork(env, y) < JobWork(env, x)
  {
    var y := x.(deltaStart := x.deltaStart + sub.tokens);
    assert x.delta[x.deltaStart..y.deltaStart] == x.tokens[x.cachedPos + x.deltaStart..x.cachedPos + y.deltaStart];
    assert Held(y) == Held(x) + x.delta[x.deltaStart..y.deltaStart];
    assert Held(y) + [] == Held(y);
  }
}
