/** The requests a worker is busy with, how they relate to the cache and to their clients. */
module Jobs {
  import opened Tokens
  import opened RadixShape
  import opened Radix
  import opened KvState
  import opened Kv
  import opened Serving

  /** A request whose prompt is being decoded, or one that is generating. */
  datatype Job =
    | Prefilling(req: Request, seqId: SeqId, leafNode: Ptr, tokens: Word, cachedPos: nat, delta: Word, deltaStart: nat)
    | Generating(req: Request, seqId: SeqId, leafNode: Ptr, pos: nat, nextToken: Token, remaining: int,
                 cachedTokens: Word, done: bool, notify: bool)

  type Debts = map<SeqId, Word>

  /** Tokens already in the cache of `s` that its job has not recorded yet. */
  function Owed(owed: Debts, s: SeqId): Word { if s in owed then owed[s] else [] }

  /** What a job's record says its sequence holds. */
  function Held(j: Job): Word {
    match j
    case Prefilling(_, _, _, tokens, cachedPos, _, deltaStart) =>
      if cachedPos + deltaStart <= |tokens| then tokens[..cachedPos + deltaStart] else tokens
    case Generating(_, _, _, _, _, _, cachedTokens, _, _) => cachedTokens
  }

  // ---------------------------------------------------------------- jobs and the cache

  /** A job's record agrees with the cache: its sequence holds its own tokens in order, it may be copied
      from exactly when its prompt is complete, and everything it may still decode fits the context. */
  ghost predicate JobOk(j: Job, c: Cache, owed: Debts, env: Env) {
    && j.seqId in c.leaf && c.leaf[j.seqId] == j.leafNode
    && j.seqId in c.kv && c.kv[j.seqId] == Held(j) + Owed(owed, j.seqId)
    && (j.Prefilling? ==>
          && j.tokens == j.req.tokens && j.cachedPos < |j.tokens| && j.delta == j.tokens[j.cachedPos..]
          && j.deltaStart <= |j.delta| && j.seqId in c.prompt && c.prompt[j.seqId] == j.tokens
          && (j.seqId in c.ready <==> j.deltaStart == |j.delta|)
          && |j.tokens| + 4 < env.nCtx && j.req.maxTokens <= env.nCtx - |j.tokens| - 4)
    && (j.Generating? ==>
          && j.seqId in c.ready && (j.notify ==> j.done)
          && (!j.done ==> j.pos == |j.cachedTokens| && j.remaining >= 1 && j.pos + j.remaining < env.nCtx))
  }

  /** How many jobs use sequence `s`. */
  function Uses(jobs: seq<Job>, s: SeqId): nat {
    if jobs == [] then 0 else (if jobs[0].seqId == s then 1 else 0) + Uses(jobs[1..], s)
  }

  lemma {:induction false} UsesConcat(a: seq<Job>, b: seq<Job>, s: SeqId)
    ensures Uses(a + b, s) == Uses(a, s) + Uses(b, s)
  {
    if a == [] {
      assert a + b == b;
    } else {
      UsesConcat(a[1..], b, s);
      assert (a + b)[1..] == a[1..] + b;
    }
  }

  lemma {:induction false} UserCounts(jobs: seq<Job>, j: Job)
    requires j in jobs
    ensures Uses(jobs, j.seqId) >= 1
  {
    if j != jobs[0] { UserCounts(jobs[1..], j); }
  }

  /** The ids of live requests are those of the jobs, each exactly once, and every record agrees. */
  ghost predicate JobsOk(jobs: seq<Job>, c: Cache, owed: Debts, env: Env) {
    && (forall s :: Uses(jobs, s) == if s in c.leaf then 1 else 0)
    && forall j | j in jobs :: JobOk(j, c, owed, env)
  }

  lemma Around(a: seq<Job>, x: Job, b: seq<Job>)
    ensures forall s :: Uses(a + [x] + b, s) == Uses(a + b, s) + if x.seqId == s then 1 else 0
    ensures forall j | j in a + [x] + b :: j == x || j in a + b
    ensures forall j | j in a + b :: j in a + [x] + b
    ensures x in a + [x] + b
  {
    forall s ensures Uses(a + [x] + b, s) == Uses(a + b, s) + if x.seqId == s then 1 else 0 {
      UsesConcat(a + [x], b, s);
      UsesConcat(a, [x], s);
      UsesConcat(a, b, s);
      assert Uses([x], s) == if x.seqId == s then 1 else 0;
    }
  }

  /** A job taken out of, or replaced in, the first or the second of two lists. */
  lemma SpliceFirst(p: seq<Job>, q: seq<Job>, i: nat, y: Job)
    requires i < |p|
    ensures p + q == p[..i] + [p[i]] + (p[i + 1..] + q)
    ensures p[i := y] + q == p[..i] + [y] + (p[i + 1..] + q)
    ensures p[..i] + p[i + 1..] + q == p[..i] + (p[i + 1..] + q)
  {
  }

  lemma SpliceSecond(p: seq<Job>, q: seq<Job>, i: nat, y: Job)
    requires i < |q|
    ensures p + q == p + q[..i] + [q[i]] + q[i + 1..]
    ensures p + q[i := y] == p + q[..i] + [y] + q[i + 1..]
    ensures p + (q[..i] + q[i + 1..]) == p + q[..i] + q[i + 1..]
  {
  }

  /** The cache is the same for the sequences in `keys`. */
  ghost predicate Agree(c: Cache, c': Cache, keys: set<SeqId>) {
    forall s | s in keys ::
      && (s in c.leaf ==> s in c'.leaf && c'.leaf[s] == c.leaf[s])
      && (s in c.kv ==> s in c'.kv && c'.kv[s] == c.kv[s])
      && (s in c.prompt ==> s in c'.prompt && c'.prompt[s] == c.prompt[s])
      && (s in c.ready <==> s in c'.ready)
  }

  lemma Apart(a: seq<Job>, x: Job, b: seq<Job>, c: Cache, owed: Debts, env: Env)
    requires JobsOk(a + [x] + b, c, owed, env)
    ensures JobOk(x, c, owed, env)
    ensures forall j | j in a + b :: j.seqId != x.seqId && j.seqId in c.leaf
  {
    Around(a, x, b);
    forall j | j in a + b ensures j.seqId != x.seqId && j.seqId in c.leaf {
      UserCounts(a + b, j);
      assert JobOk(j, c, owed, env);
    }
  }

  lemma JobsCarry(jobs: seq<Job>, c: Cache, c': Cache, owed: Debts, env: Env)
    requires JobsOk(jobs, c, owed, env) && c'.leaf == c.leaf && Agree(c, c', c.leaf.Keys)
    ensures JobsOk(jobs, c', owed, env)
  {
    forall j | j in jobs ensures JobOk(j, c', owed, env) {
      assert JobOk(j, c, owed, env);
    }
  }

  lemma JobLeaves(a: seq<Job>, x: Job, b: seq<Job>, c: Cache, c': Cache, owed: Debts, env: Env)
    requires JobsOk(a + [x] + b, c, owed, env)
    requires c'.leaf == c.leaf - {x.seqId} && Agree(c, c', c'.leaf.Keys)
    ensures JobsOk(a + b, c', owed, env)
  {
    Around(a, x, b);
    Apart(a, x, b, c, owed, env);
    forall j | j in a + b ensures JobOk(j, c', owed, env) {
      assert JobOk(j, c, owed, env);
    }
  }

  lemma JobJoins(a: seq<Job>, x: Job, b: seq<Job>, c: Cache, c': Cache, owed: Debts, env: Env)
    requires JobsOk(a + b, c, owed, env) && x.seqId !in c.leaf && JobOk(x, c', owed, env)
    requires c'.leaf == c.leaf[x.seqId := x.leafNode] && Agree(c, c', c.leaf.Keys)
    ensures JobsOk(a + [x] + b, c', owed, env)
  {
    Around(a, x, b);
    forall j | j in a + b ensures JobOk(j, c', owed, env) {
      assert JobOk(j, c, owed, env);
    }
  }

  /** One job's record and its part of the cache change together. */
  lemma JobChanges(a: seq<Job>, x: Job, b: seq<Job>, y: Job, c: Cache, c': Cache, owed: Debts, owed': Debts, env: Env)
    requires JobsOk(a + [x] + b, c, owed, env) && y.seqId == x.seqId && JobOk(y, c', owed', env)
    requires c'.leaf == c.leaf && Agree(c, c', c.leaf.Keys - {x.seqId})
    requires owed' - {x.seqId} == owed - {x.seqId}
    ensures JobsOk(a + [y] + b, c', owed', env)
  {
    Around(a, x, b);
    Around(a, y, b);
    Apart(a, x, b, c, owed, env);
    forall j | j in a + b ensures JobOk(j, c', owed', env) {
      assert JobOk(j, c, owed, env);
      assert j.seqId in owed ==> j.seqId in owed - {x.seqId};
      assert j.seqId in owed' ==> j.seqId in owed' - {x.seqId};
    }
  }

  // ---------------------------------------------------------------- jobs and their clients

  /** The callbacks made so far, the requests as they were asked, and those still in the worker. */
  datatype Desk = Desk(log: map<nat, Log>, asked: map<nat, Request>, inside: set<nat>)

  predicate SameAsk(r: Request, q: Request, env: Env) {
    r.id == q.id && r.tokens == q.tokens && Limit(env, r) == Limit(env, q)
  }

  predicate Unended(log: Log) { StageOf(log).Open? || StageOf(log).Dropped? }

  /** A job's record agrees with what its client has been told. */
  ghost predicate JobTrue(j: Job, d: Desk, env: Env) {
    var id := j.req.id;
    && id in d.log && id in d.asked && SameAsk(j.req, d.asked[id], env)
    && var said := Said(d.log[id]);
    && (j.Prefilling? ==> Unended(d.log[id]) && said == [])
    && (j.Generating? ==>
          if !j.done then
            && Unended(d.log[id]) && said != [] && j.req.tokens + said == j.cachedTokens + [j.nextToken]
            && 1 <= j.remaining == Limit(env, j.req) - |said|
          else if j.notify then
            Unended(d.log[id]) && j.req.tokens + said == j.cachedTokens && |said| < Limit(env, j.req) &&
            env.isEog(env.sample(id, j.cachedTokens))
          else Over(d.log[id]) && (StageOf(d.log[id]).Ended? ==> StageOf(d.log[id]).late))
  }

  /** How many waiting requests, and how many jobs, are the request `id`. */
  function Waiters(rs: seq<Request>, id: nat): nat {
    if rs == [] then 0 else (if rs[0].id == id then 1 else 0) + Waiters(rs[1..], id)
  }

  function Serves(jobs: seq<Job>, id: nat): nat {
    if jobs == [] then 0 else (if jobs[0].req.id == id then 1 else 0) + Serves(jobs[1..], id)
  }

  lemma {:induction false} WaitersConcat(a: seq<Request>, b: seq<Request>, id: nat)
    ensures Waiters(a + b, id) == Waiters(a, id) + Waiters(b, id)
  {
    if a == [] {
      assert a + b == b;
    } else {
      WaitersConcat(a[1..], b, id);
      assert (a + b)[1..] == a[1..] + b;
    }
  }

  lemma {:induction false} ServesConcat(a: seq<Job>, b: seq<Job>, id: nat)
    ensures Serves(a + b, id) == Serves(a, id) + Serves(b, id)
  {
    if a == [] {
      assert a + b == b;
    } else {
      ServesConcat(a[1..], b, id);
      assert (a + b)[1..] == a[1..] + b;
    }
  }

  lemma {:induction false} WaiterCounts(rs: seq<Request>, r: Request)
    requires r in rs
    ensures Waiters(rs, r.id) >= 1
  {
    if r != rs[0] { WaiterCounts(rs[1..], r); }
  }

  lemma {:induction false} JobCounts(jobs: seq<Job>, j: Job)
    requires j in jobs
    ensures Serves(jobs, j.req.id) >= 1
  {
    if j != jobs[0] { JobCounts(jobs[1..], j); }
  }

  ghost predicate Waits(r: Request, d: Desk, env: Env) {
    r.id in d.log && d.log[r.id] == [] && r.id in d.asked && SameAsk(r, d.asked[r.id], env)
  }

  ghost predicate Fair(id: nat, d: Desk, env: Env) {
    && id in d.log && id in d.asked && d.asked[id].id == id && TrueTo(d.log[id], d.asked[id], env)
    && (id !in d.inside ==> Over(d.log[id]))
  }

  /** Every request in the worker waits or is a job, in one place only; waiting ones have heard nothing;
      every client ever served has been told the truth; those that have left were told the end of it. */
  ghost predicate ClientsOk(waiting: seq<Request>, jobs: seq<Job>, d: Desk, env: Env) {
    && (forall id :: Waiters(waiting, id) + Serves(jobs, id) == if id in d.inside then 1 else 0)
    && (forall r | r in waiting :: Waits(r, d, env))
    && (forall j | j in jobs :: JobTrue(j, d, env))
    && (forall id | id in d.log :: Fair(id, d, env))
  }

  lemma AroundJob(a: seq<Job>, x: Job, b: seq<Job>)
    ensures forall id :: Serves(a + [x] + b, id) == Serves(a + b, id) + if x.req.id == id then 1 else 0
    ensures forall j | j in a + [x] + b :: j == x || j in a + b
    ensures forall j | j in a + b :: j in a + [x] + b
    ensures x in a + [x] + b
  {
    forall id ensures Serves(a + [x] + b, id) == Serves(a + b, id) + if x.req.id == id then 1 else 0 {
      ServesConcat(a + [x], b, id);
      ServesConcat(a, [x], id);
      ServesConcat(a, b, id);
      assert Serves([x], id) == if x.req.id == id then 1 else 0;
    }
  }

  /** Waiting requests and other jobs are not the request of `x`. */
  lemma ApartClients(waiting: seq<Request>, a: seq<Job>, x: Job, b: seq<Job>, d: Desk, env: Env)
    requires ClientsOk(waiting, a + [x] + b, d, env)
    ensures JobTrue(x, d, env) && Fair(x.req.id, d, env) && x.req.id in d.inside
    ensures forall r | r in waiting :: r.id != x.req.id
    ensures forall j | j in a + b :: j.req.id != x.req.id
  {
    AroundJob(a, x, b);
    assert JobTrue(x, d, env);
    assert x.req.id in d.log;
    forall r | r in waiting ensures r.id != x.req.id { WaiterCounts(waiting, r); }
    forall j | j in a + b ensures j.req.id != x.req.id { JobCounts(a + b, j); }
  }

  /** Something is said to the client of one job, whose record changes with it. */
  lemma ClientHears(waiting: seq<Request>, a: seq<Job>, x: Job, b: seq<Job>, y: Job, d: Desk, d': Desk, env: Env,
                    log: Log)
    requires ClientsOk(waiting, a + [x] + b, d, env) && y.req == x.req
    requires d' == d.(log := d.log[x.req.id := log]) && JobTrue(y, d', env)
    requires x.req.id in d.asked ==> TrueTo(log, d.asked[x.req.id], env)
    ensures ClientsOk(waiting, a + [y] + b, d', env)
  {
    hide TrueTo;
    ApartClients(waiting, a, x, b, d, env);
    AroundJob(a, x, b);
    AroundJob(a, y, b);
    forall r | r in waiting ensures Waits(r, d', env) { assert Waits(r, d, env); }
    forall j | j in a + b ensures JobTrue(j, d', env) { assert JobTrue(j, d, env); }
    forall id | id in d'.log ensures Fair(id, d', env) { assert Fair(id, d, env); }
  }

  /** A job whose client has heard the end, or hears it now, leaves. */
  lemma ClientLeaves(waiting: seq<Request>, a: seq<Job>, x: Job, b: seq<Job>, d: Desk, d': Desk, env: Env, log: Log)
    requires ClientsOk(waiting, a + [x] + b, d, env) && Over(log)
    requires x.req.id in d.asked ==> TrueTo(log, d.asked[x.req.id], env)
    requires d' == d.(log := d.log[x.req.id := log], inside := d.inside - {x.req.id})
    ensures ClientsOk(waiting, a + b, d', env)
  {
    hide TrueTo;
    ApartClients(waiting, a, x, b, d, env);
    AroundJob(a, x, b);
    forall r | r in waiting ensures Waits(r, d', env) { assert Waits(r, d, env); }
    forall j | j in a + b ensures JobTrue(j, d', env) { assert JobTrue(j, d, env); }
    forall id | id in d'.log ensures Fair(id, d', env) { assert Fair(id, d, env); }
  }

  /** Polling for cancellation changes no job's standing. */
  lemma ClientPolled(waiting: seq<Request>, a: seq<Job>, x: Job, b: seq<Job>, d: Desk, d': Desk, env: Env, seen: bool)
    requires ClientsOk(waiting, a + [x] + b, d, env)
    requires x.req.id in d.log ==>
              (Cancelled(d.log[x.req.id]) ==> seen) && d' == d.(log := d.log[x.req.id := Polled(d.log[x.req.id], seen)])
    ensures x.req.id in d.log && x.req.id in d.asked && ClientsOk(waiting, a + [x] + b, d', env)
    ensures TrueTo(d'.log[x.req.id], d.asked[x.req.id], env)
    ensures seen ==> Over(d'.log[x.req.id]) && Cancelled(d'.log[x.req.id])
    ensures !seen ==> d' == d && !Cancelled(d.log[x.req.id])
    ensures Over(d.log[x.req.id]) ==> Over(d'.log[x.req.id])
    ensures Said(d'.log[x.req.id]) == Said(d.log[x.req.id]) && JobTrue(x, d', env)
  {
    hide ClientsOk, TrueTo, Polled;
    ApartClients(waiting, a, x, b, d, env);
    var id := x.req.id;
    PollTrue(d.log[id], seen, d.asked[id], env);
    ClientHears(waiting, a, x, b, x, d, d', env, Polled(d.log[id], seen));
  }

  lemma FirstWaits(r: Request, rest: seq<Request>, jobs: seq<Job>, d: Desk, env: Env)
    requires ClientsOk([r] + rest, jobs, d, env)
    ensures Waits(r, d, env) && Fair(r.id, d, env) && r.id in d.inside
    ensures forall id :: Waiters([r] + rest, id) == Waiters(rest, id) + if r.id == id then 1 else 0
    ensures forall q | q in rest :: q.id != r.id && q in [r] + rest
    ensures forall j | j in jobs :: j.req.id != r.id
  {
    assert ([r] + rest)[1..] == rest && r in [r] + rest;
    forall q | q in rest ensures q.id != r.id && q in [r] + rest { WaiterCounts(rest, q); }
    forall j | j in jobs ensures j.req.id != r.id { JobCounts(jobs, j); }
  }

  /** A waiting request hears the end at once: cancelled, or refused with an error. */
  lemma WaiterLeaves(r: Request, rest: seq<Request>, jobs: seq<Job>, d: Desk, d': Desk, env: Env, log: Log)
    requires ClientsOk([r] + rest, jobs, d, env)
    requires r.id in d.asked ==> TrueTo(log, d.asked[r.id], env)
    requires Over(log) && d' == d.(log := d.log[r.id := log], inside := d.inside - {r.id})
    ensures ClientsOk(rest, jobs, d', env)
  {
    hide TrueTo;
    FirstWaits(r, rest, jobs, d, env);
    forall q | q in rest ensures Waits(q, d', env) { assert Waits(q, d, env); }
    forall j | j in jobs ensures JobTrue(j, d', env) { assert JobTrue(j, d, env); }
    forall id | id in d'.log ensures Fair(id, d', env) { assert Fair(id, d, env); }
  }

  /** A waiting request, its limit unchanged, becomes a job. */
  lemma WaiterStarts(r: Request, rest: seq<Request>, a: seq<Job>, x: Job, b: seq<Job>, d: Desk, env: Env)
    requires ClientsOk([r] + rest, a + b, d, env) && x.Prefilling? && SameAsk(x.req, r, env)
    ensures ClientsOk(rest, a + [x] + b, d, env)
  {
    hide TrueTo;
    FirstWaits(r, rest, a + b, d, env);
    AroundJob(a, x, b);
    assert JobTrue(x, d, env);
  }

  /** Waiting requests may be put in another order and have their limits clamped. */
  lemma WaitersMove(waiting: seq<Request>, waiting': seq<Request>, jobs: seq<Job>, d: Desk, env: Env)
    requires ClientsOk(waiting, jobs, d, env) && (forall id :: Waiters(waiting', id) == Waiters(waiting, id))
    requires forall r | r in waiting' :: exists q :: q in waiting && SameAsk(r, q, env)
    ensures ClientsOk(waiting', jobs, d, env)
  {
    forall r | r in waiting' ensures Waits(r, d, env) {
      var q :| q in waiting && SameAsk(r, q, env);
      assert Waits(q, d, env);
    }
  }

  // ---------------------------------------------------------------- how much is left to do

  function JobWork(env: Env, j: Job): (n: nat)
    ensures n >= 1
  {
    match j
    case Prefilling(req, _, _, _, _, delta, deltaStart) =>
      (if deltaStart <= |delta| then |delta| - deltaStart else 0) + Limit(env, req) + 1
    case Generating(_, _, _, _, _, remaining, _, done, _) => if done || remaining < 0 then 1 else remaining + 1
  }

  /** Remaining prompt and generation tokens of the jobs. */
  function Work(env: Env, jobs: seq<Job>): nat {
    if jobs == [] then 0 else JobWork(env, jobs[0]) + Work(env, jobs[1..])
  }

  lemma {:induction false} WorkConcat(env: Env, a: seq<Job>, b: seq<Job>)
    ensures Work(env, a + b) == Work(env, a) + Work(env, b)
  {
    if a == [] {
      assert a + b == b;
    } else {
      WorkConcat(env, a[1..], b);
      assert (a + b)[1..] == a[1..] + b;
    }
  }

  lemma WorkAround(env: Env, a: seq<Job>, x: Job, b: seq<Job>)
    ensures Work(env, a + [x] + b) == Work(env, a + b) + JobWork(env, x)
  {
    WorkConcat(env, a + [x], b);
    WorkConcat(env, a, [x]);
    WorkConcat(env, a, b);
    assert Work(env, [x]) == JobWork(env, x);
  }

  function Backlog(env: Env, rs: seq<Request>): nat {
    if rs == [] then 0 else |rs[0].tokens| + Limit(env, rs[0]) + 2 + Backlog(env, rs[1..])
  }

  lemma {:induction false} BacklogConcat(env: Env, a: seq<Request>, b: seq<Request>)
    ensures Backlog(env, a + b) == Backlog(env, a) + Backlog(env, b)
  {
    if a == [] {
      assert a + b == b;
    } else {
      BacklogConcat(env, a[1..], b);
      assert (a + b)[1..] == a[1..] + b;
    }
  }

  // ---------------------------------------------------------------- the order of jobs does not matter

  lemma Rotate(waiting: seq<Request>, a: seq<Job>, y: Job, b: seq<Job>, c: Cache, owed: Debts, d: Desk, env: Env)
    requires JobsOk(a + [y] + b, c, owed, env) && ClientsOk(waiting, a + [y] + b, d, env)
    ensures JobsOk(a + b + [y], c, owed, env) && ClientsOk(waiting, a + b + [y], d, env)
    ensures Work(env, a + b + [y]) == Work(env, a + [y] + b)
  {
    hide JobOk, JobTrue;
    Around(a, y, b);
    Around(a + b, y, []);
    AroundJob(a, y, b);
    AroundJob(a + b, y, []);
    WorkAround(env, a, y, b);
    WorkAround(env, a + b, y, []);
    assert a + b + [y] + [] == a + b + [y] && a + b + [] == a + b;
  }
}
