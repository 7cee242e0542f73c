/** InferenceWorker of src/worker.cpp: admission, chunked prefill, fused decode steps, cancellation,
    failure and retirement over one mapper and its tree. */
module Worker {
  import opened Tokens
  import opened RadixShape
  import opened Radix
  import opened KvState
  import opened Kv
  import opened Serving
  import opened Jobs
  import opened Batches

  /** What can happen to a worker from outside: a request arrives, or its loop takes another turn. */
  datatype Action = Arrive(r: Request) | Turn(chance: Chance)

  /** What can become of an admitted request. */
  datatype Outcome = Started | Deferred | Exhausted | Refused | TurnedOff

  class InferenceWorker {
    const mapper: KVMapper
    const env: Env
    const nBatch: int
    const maxGenerating: int

    var queue: seq<Request>
    var prefilling: seq<Job>
    var active: seq<Job>
    var log: map<nat, Log>
    ghost var asked: map<nat, Request>
    ghost var inside: set<nat>

    /** How many entries the batch of a step has room for. */
    function Room(): nat { if nBatch < 0 then 0 else nBatch }

    /** Jobs and clients are as between steps, the jobs as far as a cache `c` is concerned. */
    ghost predicate SettledFor(waiting: seq<Request>, c: Cache)
      reads this
    {
      && JobsOk(prefilling + active, c, map[], env) && ClientsOk(waiting, prefilling + active, TheDesk(), env)
      && (forall j | j in prefilling :: j.Prefilling? && j.deltaStart < |j.delta|)
      && (forall j | j in active :: j.Generating? && !j.done)
      && |active| <= Room()
    }

    lemma Settling(waiting: seq<Request>)
      ensures Admitting(waiting) <==> mapper.Quiet() && SettledFor(waiting, mapper.Snapshot())
    {
      hide JobsOk, ClientsOk, KVMapper.ValidWith, AllReady;
    }

    /** Between the steps of admission: `waiting` are all requests not yet jobs. */
    ghost predicate Admitting(waiting: seq<Request>)
      reads this, mapper, mapper.tree
    {
      && Ok(waiting, map[])
      && (forall j | j in prefilling :: j.deltaStart < |j.delta|) && (forall j | j in active :: !j.done)
      && |active| <= Room()
    }

    constructor (mapper: KVMapper, env: Env, nBatch: int)
      requires mapper.Quiet() && mapper.leaf == map[]
      ensures this.mapper == mapper && this.env == env && this.nBatch == nBatch
      ensures maxGenerating == mapper.maxSequences - 1
      ensures Settled() && queue == [] && prefilling == [] && active == [] && log == map[] && asked == map[]
      ensures inside == {}
    {
      this.mapper, this.env, this.nBatch, maxGenerating := mapper, env, nBatch, mapper.maxSequences - 1;
      queue, prefilling, active, log, asked, inside := [], [], [], map[], map[], {};
      new;
      hide KVMapper.ValidWith, AllReady;
    }

    ghost function TheDesk(): Desk
      reads this
    {
      Desk(log, asked, inside)
    }

    /** The invariant for given lists of waiting requests and jobs and of unrecorded tokens. */
    ghost predicate OkWith(waiting: seq<Request>, jobs: seq<Job>, owed: Debts)
      reads this, mapper, mapper.tree
    {
      mapper.Quiet() && JobsOk(jobs, mapper.Snapshot(), owed, env) && ClientsOk(waiting, jobs, TheDesk(), env)
    }

    ghost predicate Ok(waiting: seq<Request>, owed: Debts)
      reads this, mapper, mapper.tree
    {
      && OkWith(waiting, prefilling + active, owed)
      && (forall j | j in prefilling :: j.Prefilling?) && (forall j | j in active :: j.Generating?)
    }

    /** Between steps nothing is owed, no prompt is complete, no generation is done, and the batch has room for an
        entry of every generation. */
    ghost predicate Settled()
      reads this, mapper, mapper.tree
    {
      Admitting(queue)
    }

    /** `flag` is what the client's flag reads now, unless it has been seen set before: once set it stays set.  The
        first poll that sees it calls on_cancel. */
    method IsCancelled(id: nat, flag: bool) returns (seen: bool)
      requires id in log
      modifies this`log
      ensures seen == (flag || Cancelled(old(log)[id]))
      ensures log == old(log)[id := Polled(old(log)[id], seen)]
    {
      if Cancelled(log[id]) { return true; }
      seen := flag;
      if seen { log := log[id := log[id] + [Noticed]]; }
    }

    method PollJob(ghost waiting: seq<Request>, ghost a: seq<Job>, x: Job, ghost b: seq<Job>, flag: bool)
      returns (seen: bool)
      requires ClientsOk(waiting, a + [x] + b, TheDesk(), env)
      modifies this`log
      ensures ClientsOk(waiting, a + [x] + b, TheDesk(), env) && x.req.id in old(log) && x.req.id in asked
      ensures x.req.id in log
      ensures TrueTo(log[x.req.id], asked[x.req.id], env) && JobTrue(x, TheDesk(), env)
      ensures seen ==> Over(log[x.req.id]) && Cancelled(log[x.req.id])
      ensures !seen ==> log == old(log) && !Cancelled(log[x.req.id])
      ensures Over(old(log)[x.req.id]) ==> Over(log[x.req.id])
      ensures Longer(old(log), log)
      ensures seen == (flag || Cancelled(old(log)[x.req.id]))
      ensures log == old(log)[x.req.id := Polled(old(log)[x.req.id], seen)]
    {
      hide Longer, ClientsOk, TrueTo, Polled, JobTrue, StageOf;
      assert x.req.id in log by { ApartClients(waiting, a, x, b, TheDesk(), env); }
      ghost var d := TheDesk();
      seen := IsCancelled(x.req.id, flag);
      LongerPoll(d.log, x.req.id, seen);
      ClientPolled(waiting, a, x, b, d, TheDesk(), env, seen);
    }

    /** Release the sequence of a leaving job from `seqNode` and then its reference. */
    method Conclude(ghost a: seq<Job>, x: Job, ghost b: seq<Job>, seqNode: Ptr, ghost owed: Debts)
      requires JobsOk(a + [x] + b, mapper.Snapshot(), owed, env) && mapper.Valid(x.seqId) && 0 !in mapper.leaf
      requires x.seqId in mapper.home && mapper.home[x.seqId] == seqNode
      modifies mapper, mapper.tree
      ensures mapper.Quiet() && JobsOk(a + b, mapper.Snapshot(), owed, env)
      ensures NoNodes(old(mapper.tree.path), mapper.tree.path)
      ensures mapper.prefixCacheEnabled && x.seqId in AllReady(old(mapper.tree.own)) ==>
                seqNode in old(mapper.tree.path) &&
                StaysCached(mapper.tree.path, mapper.tree.own, seqNode, old(mapper.tree.path)[seqNode])
    {
      hide JobsOk, KVMapper.ValidWith, AllReady;
      ghost var c := mapper.Snapshot();
      Apart(a, x, b, c, owed, env);
      mapper.Finish(x.seqId, seqNode, x.leafNode);
      FinishAgrees(c, mapper.Snapshot(), x.seqId);
      JobLeaves(a, x, b, c, mapper.Snapshot(), owed, env);
    }

    /** A finished generation leaves: at the end of the text its sequence is extended over everything
        decoded and the client told; then the sequence and the reference are released.  Unless the client
        has cancelled, everything decoded stays in the tree, owned by a sequence. */
    method RetireJob(ghost waiting: seq<Request>, ghost owed: Debts, ghost a: seq<Job>, x: Job, ghost b: seq<Job>,
                     first: bool, second: bool)
      requires OkWith(waiting, a + [x] + b, owed) && x.Generating? && x.done && x.seqId !in owed
      modifies this`log, this`inside, mapper, mapper.tree
      ensures OkWith(waiting, a + b, owed)
      ensures Longer(old(log), log)
      ensures x.req.id in old(log) &&
              log == if x.notify then old(log)[x.req.id := Heard(old(log)[x.req.id], EndOfText, first || second)]
                     else old(log)
      ensures if x.notify && !first && !Cancelled(old(log)[x.req.id]) && mapper.prefixCacheEnabled then
                exists p :: StaysCached(mapper.tree.path, mapper.tree.own, p, x.cachedTokens)
              else NoNodes(old(mapper.tree.path), mapper.tree.path)
    {
      hide Longer, JobsOk, ClientsOk, KVMapper.ValidWith, AllReady, TrueTo, StageOf, Said, JobTrue, JobOk, NoNodes;
      ghost var log0 := log;
      LongerSame(log0);
      var seqNode := x.leafNode;
      DoneHeard(waiting, a, x, b, TheDesk(), env);
      if x.notify {
        var seen := PollJob(waiting, a, x, b, first);
        seqNode := Extend(a, x, b, owed, !seen);
        ghost var log1 := log;
        seen := PollJob(waiting, a, x, b, second);
        LongerTrans(log0, log1, log);
        ghost var d := TheDesk();
        if !seen {
          EndsText(x, d, env);
          LongerSay(log, x.req.id, EndOfText);
          LongerTrans(log0, log, log[x.req.id := log[x.req.id] + [EndOfText]]);
          log := log[x.req.id := log[x.req.id] + [EndOfText]];
        }
        inside := inside - {x.req.id};
        ClientLeaves(waiting, a, x, b, d, TheDesk(), env, log[x.req.id]);
        Conclude(a, x, b, seqNode, owed);
      } else {
        Abandon(waiting, owed, a, x, b);
      }
    }

    /** Let the tree know everything the sequence holds, if the client is still there. */
    method Extend(ghost a: seq<Job>, x: Job, ghost b: seq<Job>, ghost owed: Debts, there: bool) returns (seqNode: Ptr)
      requires mapper.Quiet() && JobsOk(a + [x] + b, mapper.Snapshot(), owed, env) && x.Generating? && x.seqId !in owed
      modifies mapper`cellCounts, mapper`home, mapper.tree
      ensures mapper.Valid(x.seqId) && 0 !in mapper.leaf && mapper.Snapshot() == old(mapper.Snapshot())
      ensures x.seqId in mapper.home && mapper.home[x.seqId] == seqNode && x.seqId in AllReady(mapper.tree.own)
      ensures there && mapper.prefixCacheEnabled ==>
                seqNode in mapper.tree.path && mapper.tree.path[seqNode] == x.cachedTokens
      ensures !there || !mapper.prefixCacheEnabled ==> mapper.tree.path == old(mapper.tree.path)
    {
      hide JobsOk, KVMapper.ValidWith, AllReady, JobOk;
      Extendable(a, x, b, mapper.Snapshot(), owed, env);
      mapper.Excused(x.seqId);
      seqNode := x.leafNode;
      if there {
        seqNode := mapper.ExtendSequence(x.seqId, x.leafNode, x.cachedTokens);
      }
    }

    method Retire(ghost waiting: seq<Request>, ghost owed: Debts, i: nat, first: bool, second: bool)
      requires Ok(waiting, owed) && i < |active| && active[i].done && active[i].seqId !in owed
      modifies this`active, this`log, this`inside, mapper, mapper.tree
      ensures Ok(waiting, owed) && active == old(active[..i] + active[i + 1..])
      ensures Work(env, prefilling + active) < Work(env, prefilling + old(active))
      ensures Longer(old(log), log)
      ensures var x := old(active)[i];
              x.req.id in old(log) &&
              log == if x.notify then old(log)[x.req.id := Heard(old(log)[x.req.id], EndOfText, first || second)]
                     else old(log)
    {
      hide Longer, JobsOk, ClientsOk, KVMapper.ValidWith, AllReady, Work, JobWork;
      ghost var a, b := prefilling + active[..i], active[i + 1..];
      SpliceSecond(prefilling, active, i, active[i]);
      WorkAround(env, a, active[i], b);
      RetireJob(waiting, owed, a, active[i], b, first, second);
      active := active[..i] + active[i + 1..];
    }

    /** A job is given up: unless cancelled its client hears an error, and everything is released. */
    method Fail(ghost waiting: seq<Request>, ghost owed: Debts, ghost a: seq<Job>, x: Job, ghost b: seq<Job>,
                status: int, flag: bool)
      requires OkWith(waiting, a + [x] + b, owed) && (x.Generating? ==> !x.done)
      modifies this`log, this`inside, mapper, mapper.tree
      ensures OkWith(waiting, a + b, owed)
      ensures x.req.id in old(log) && log == old(log)[x.req.id := Heard(old(log)[x.req.id], Failed(status), flag)]
      ensures Longer(old(log), log)
    {
      hide Longer, JobsOk, ClientsOk, KVMapper.ValidWith, AllReady, TrueTo, StageOf, Said;
      var seen := PollJob(waiting, a, x, b, flag);
      ghost var d := TheDesk();
      if !seen {
        Fails(x, d, env, status);
        LongerSay(log, x.req.id, Failed(status));
        LongerTrans(old(log), log, log[x.req.id := log[x.req.id] + [Failed(status)]]);
        log := log[x.req.id := log[x.req.id] + [Failed(status)]];
      }
      inside := inside - {x.req.id};
      ClientLeaves(waiting, a, x, b, d, TheDesk(), env, log[x.req.id]);
      Release(owed, a, x, b);
    }

    /** Release what a job holds, as it stands. */
    method Release(ghost owed: Debts, ghost a: seq<Job>, x: Job, ghost b: seq<Job>)
      requires mapper.Quiet() && JobsOk(a + [x] + b, mapper.Snapshot(), owed, env)
      modifies mapper, mapper.tree
      ensures mapper.Quiet() && JobsOk(a + b, mapper.Snapshot(), owed, env)
      ensures NoNodes(old(mapper.tree.path), mapper.tree.path)
    {
      hide JobsOk, KVMapper.ValidWith, AllReady;
      Apart(a, x, b, mapper.Snapshot(), owed, env);
      mapper.Excused(x.seqId);
      Conclude(a, x, b, x.leafNode, owed);
    }

    /** A job whose cancellation has been seen leaves without another word. */
    method Abandon(ghost waiting: seq<Request>, ghost owed: Debts, ghost a: seq<Job>, x: Job, ghost b: seq<Job>)
      requires OkWith(waiting, a + [x] + b, owed) && x.req.id in log && Over(log[x.req.id])
      modifies this`inside, mapper, mapper.tree
      ensures OkWith(waiting, a + b, owed) && NoNodes(old(mapper.tree.path), mapper.tree.path)
    {
      hide JobsOk, ClientsOk, KVMapper.ValidWith, AllReady, TrueTo, StageOf;
      ApartClients(waiting, a, x, b, TheDesk(), env);
      ghost var d := TheDesk();
      inside := inside - {x.req.id};
      ClientLeaves(waiting, a, x, b, d, TheDesk(), env, log[x.req.id]);
      Release(owed, a, x, b);
    }

    /** A prefill that is over for its client leaves the list. */
    method DropPrefill(ghost owed: Debts, i: nat)
      requires Ok(queue, owed) && i < |prefilling| && prefilling[i].req.id in log && Over(log[prefilling[i].req.id])
      modifies this`prefilling, this`inside, mapper, mapper.tree
      ensures Ok(queue, owed) && prefilling == old(prefilling[..i] + prefilling[i + 1..])
      ensures Work(env, prefilling + active) < Work(env, old(prefilling) + active)
    {
      hide JobsOk, ClientsOk, KVMapper.ValidWith, AllReady, TrueTo, StageOf, Work, JobWork;
      var x := prefilling[i];
      ghost var a, b := prefilling[..i], prefilling[i + 1..] + active;
      SpliceFirst(prefilling, active, i, x);
      WorkAround(env, a, x, b);
      Abandon(queue, owed, a, x, b);
      prefilling := prefilling[..i] + prefilling[i + 1..];
    }

    // ---------------------------------------------------------------- cancellation at the start of a step

    /** Mark every generation whose client has cancelled. */
    method PollActive(flags: Flags)
      requires Settled()
      modifies this`active, this`log
      ensures Ok(queue, map[]) && |active| == |old(active)|
      ensures Work(env, prefilling + active) <= Work(env, prefilling + old(active))
      ensures Longer(old(log), log) && OthersSame(old(active), old(log), log)
      ensures ToldUpTo(old(active), |active|, old(log), log, Polling(flags))
      ensures forall k | 0 <= k < |active| :: active[k] == Marked(old(active)[k], old(log), flags)
      ensures old(active) == [] ==> log == old(log)
    {
      hide Longer, JobsOk, ClientsOk, KVMapper.ValidWith, AllReady, TrueTo, StageOf, Said, JobTrue, JobOk, Work,
           JobWork, ToldUpTo, Polling, OthersSame, Marked, Polled;
      LongerSame(log);
      NobodyTold(active, log);
      ToldNobody(queue, prefilling, active, TheDesk(), env, Polling(flags));
      var i := 0;
      while i < |active|
        invariant i <= |active| == |old(active)| && Ok(queue, map[])
        invariant forall k | i <= k < |active| :: active[k] == old(active)[k]
        invariant forall k | 0 <= k < i :: active[k] == Marked(old(active)[k], old(log), flags)
        invariant i == 0 ==> log == old(log)
        invariant Longer(old(log), log) && OthersSame(old(active), old(log), log)
        invariant ToldUpTo(old(active), i, old(log), log, Polling(flags))
        invariant Work(env, prefilling + active) <= Work(env, prefilling + old(active))
      {
        ghost var log0 := log;
        assert active[i] == old(active)[i] && active[i] in old(active);
        ToldPolled(old(active), i, old(log), log0, flags);
        MarkOne(i, flags(active[i].req.id));
        LongerTrans(old(log), log0, log);
        OneOfThem(old(active), old(log), log0, log, old(active)[i]);
        i := i + 1;
      }
    }

    /** Poll one generation's flag and mark it if that is set. */
    method MarkOne(i: nat, flag: bool)
      requires Ok(queue, map[]) && i < |active| && !active[i].done
      modifies this`active, this`log
      ensures Ok(queue, map[]) && |active| == |old(active)| && active == old(active)[i := active[i]]
      ensures Work(env, prefilling + active) <= Work(env, prefilling + old(active))
      ensures Longer(old(log), log)
      ensures var x := old(active)[i];
              && x.req.id in old(log)
              && var seen := flag || Cancelled(old(log)[x.req.id]);
              && log == old(log)[x.req.id := Polled(old(log)[x.req.id], seen)]
              && active[i] == if seen then x.(done := true) else x
    {
      hide Longer, JobsOk, ClientsOk, KVMapper.ValidWith, AllReady, TrueTo, StageOf, Said, JobTrue, JobOk, Work,
           JobWork, Polled;
      var x := active[i];
      ghost var a, b := prefilling + active[..i], active[i + 1..];
      var y := x.(done := true);
      SpliceSecond(prefilling, active, i, y);
      var seen := PollJob(queue, a, x, b, flag);
      if seen {
        MarkDone(queue, a, x, b, mapper.Snapshot(), map[], TheDesk(), env);
        active := active[i := y];
      }
    }

    /** Remove a generation that is done; `again` says whether its flag is polled once more. */
    method RetireOne(i: nat, again: bool, p: Polls)
      requires Ok(queue, map[]) && i < |active| && active[i].done
      modifies this`active, this`log, this`inside, mapper, mapper.tree
      ensures Ok(queue, map[]) && active == old(active[..i] + active[i + 1..])
      ensures Work(env, prefilling + active) < Work(env, prefilling + old(active))
      ensures Longer(old(log), log)
      ensures var x := old(active)[i];
              x.req.id in old(log) && log == old(log)[x.req.id := RetireLog(old(log)[x.req.id], x.notify, again, p)]
    {
      hide Longer, JobsOk, ClientsOk, KVMapper.ValidWith, AllReady, TrueTo, StageOf, Said, JobTrue, JobOk, Work,
           JobWork, Polled, Heard;
      ghost var a, b := prefilling + active[..i], active[i + 1..];
      SpliceSecond(prefilling, active, i, active[i]);
      LongerSame(log);
      if again {
        var _ := PollJob(queue, a, active[i], b, p.retiring);
      }
      ghost var log1 := log;
      Retire(queue, map[], i, p.extending, p.ending);
      LongerTrans(old(log), log1, log);
    }

    /** One more of the generations there were, the `m`th, is looked at. */
    method RetireNext(ghost jobs: seq<Job>, ghost m: nat, i: nat, again: bool, polls: nat -> Polls,
                      ghost log0: map<nat, Log>)
      returns (next: nat)
      requires Ok(queue, map[]) && m < |jobs| && active == Running(jobs[..m]) + jobs[m..] && i == |Running(jobs[..m])|
      requires ToldUpTo(jobs, m, log0, log, Retiring(again, polls))
      modifies this`active, this`log, this`inside, mapper, mapper.tree
      ensures Ok(queue, map[]) && active == Running(jobs[..m + 1]) + jobs[m + 1..] && next == |Running(jobs[..m + 1])|
      ensures ToldUpTo(jobs, m + 1, log0, log, Retiring(again, polls)) && Longer(old(log), log)
      ensures jobs[m].req.id in old(log) && log == old(log)[jobs[m].req.id := log[jobs[m].req.id]]
      ensures Work(env, prefilling + active) + |old(active)| - |active| <= Work(env, prefilling + old(active))
    {
      hide Longer, JobsOk, ClientsOk, KVMapper.ValidWith, AllReady, Work, ToldUpTo, Retiring, RetireLog, Running;
      TakeOut(Running(jobs[..m]), jobs, m);
      assert active[i] == jobs[m] && active[i] in active;
      OneRuns(jobs, m);
      LongerSame(log);
      ToldOne(jobs, m, log0, log, Retiring(again, polls));
      if active[i].done {
        ToldRetired(jobs, m, log0, log, again, polls);
        RetireOne(i, again, polls(active[i].req.id));
        next := i;
      } else {
        ToldRunning(jobs, m, log0, log, again, polls);
        next := i + 1;
      }
    }

    /** Remove the generations that are done; `again` says whether their flag is polled once more. */
    method RetireDone(again: bool, polls: nat -> Polls)
      requires Ok(queue, map[])
      modifies this`active, this`log, this`inside, mapper, mapper.tree
      ensures Ok(queue, map[]) && active == Running(old(active))
      ensures Work(env, prefilling + active) + |old(active)| - |active| <= Work(env, prefilling + old(active))
      ensures Longer(old(log), log)
      ensures old(active) == [] ==> log == old(log) && unchanged(mapper) && unchanged(mapper.tree)
      ensures ToldUpTo(old(active), |old(active)|, old(log), log, Retiring(again, polls))
      ensures OthersSame(old(active), old(log), log)
    {
      hide Longer, JobsOk, ClientsOk, KVMapper.ValidWith, AllReady, Work, ToldUpTo, Retiring, RetireLog, Running,
           OthersSame;
      NobodyTold(active, log);
      ghost var jobs := active;
      LongerSame(log);
      ToldNobody(queue, prefilling, active, TheDesk(), env, Retiring(again, polls));
      NobodyRuns();
      ghost var m := 0;
      var i := 0;
      assert jobs[..0] == [] && [] + jobs == jobs;
      while i < |active|
        invariant 0 <= m <= |jobs| && Ok(queue, map[])
        invariant active == Running(jobs[..m]) + jobs[m..] && i == |Running(jobs[..m])|
        invariant ToldUpTo(jobs, m, old(log), log, Retiring(again, polls)) && OthersSame(jobs, old(log), log)
        invariant jobs == [] ==> log == old(log) && unchanged(mapper) && unchanged(mapper.tree)
        invariant Longer(old(log), log)
        invariant Work(env, prefilling + active) + |jobs| - |active| <= Work(env, prefilling + jobs)
        decreases |jobs| - m
      {
        ghost var log0 := log;
        i := RetireNext(jobs, m, i, again, polls, old(log));
        LongerTrans(old(log), log0, log);
        OneOfThem(jobs, old(log), log0, log, jobs[m]);
        m := m + 1;
      }
      assert jobs[..m] == jobs && jobs[m..] == [] && active + [] == active;
    }

    /** Release the prefills whose clients have cancelled. */
    method AbandonPrefills(flags: Flags)
      requires Ok(queue, map[])
      modifies this`prefilling, this`log, this`inside, mapper, mapper.tree
      ensures Ok(queue, map[]) && prefilling == Unseen(old(prefilling), old(log), flags)
      ensures Work(env, prefilling + active) + |old(prefilling)| - |prefilling| <= Work(env, old(prefilling) + active)
      ensures Longer(old(log), log) && OthersSame(old(prefilling), old(log), log)
      ensures ToldUpTo(old(prefilling), |old(prefilling)|, old(log), log, Polling(flags))
      ensures old(prefilling) == [] ==> log == old(log) && unchanged(mapper) && unchanged(mapper.tree)
    {
      hide Longer, JobsOk, ClientsOk, KVMapper.ValidWith, AllReady, Work, ToldUpTo, Polling, OthersSame, Unseen, Seen;
      ghost var jobs := prefilling;
      LongerSame(log);
      NobodyTold(prefilling, log);
      ToldNoPrefill(queue, prefilling, active, TheDesk(), env, Polling(flags));
      NobodyUnseen(log, flags);
      ghost var m := 0;
      var i := 0;
      assert jobs[..0] == [] && [] + jobs == jobs;
      while i < |prefilling|
        invariant 0 <= m <= |jobs| && Ok(queue, map[])
        invariant prefilling == Unseen(jobs[..m], old(log), flags) + jobs[m..]
        invariant i == |Unseen(jobs[..m], old(log), flags)|
        invariant ToldUpTo(jobs, m, old(log), log, Polling(flags))
        invariant jobs == [] ==> log == old(log) && unchanged(mapper) && unchanged(mapper.tree)
        invariant Longer(old(log), log) && OthersSame(jobs, old(log), log)
        invariant Work(env, prefilling + active) + |jobs| - |prefilling| <= Work(env, jobs + active)
        decreases |jobs| - m
      {
        ghost var log0 := log;
        i := AbandonNext(jobs, m, i, flags, old(log));
        LongerTrans(old(log), log0, log);
        OneOfThem(jobs, old(log), log0, log, jobs[m]);
        m := m + 1;
      }
      assert jobs[..m] == jobs && jobs[m..] == [] && prefilling + [] == prefilling;
    }

    /** One more of the prefills there were, the `m`th, is looked at. */
    method AbandonNext(ghost jobs: seq<Job>, ghost m: nat, i: nat, flags: Flags, ghost log0: map<nat, Log>)
      returns (next: nat)
      requires Ok(queue, map[]) && m < |jobs| && prefilling == Unseen(jobs[..m], log0, flags) + jobs[m..]
      requires i == |Unseen(jobs[..m], log0, flags)| && ToldUpTo(jobs, m, log0, log, Polling(flags))
      modifies this`prefilling, this`log, this`inside, mapper, mapper.tree
      ensures Ok(queue, map[]) && prefilling == Unseen(jobs[..m + 1], log0, flags) + jobs[m + 1..]
      ensures next == |Unseen(jobs[..m + 1], log0, flags)| && ToldUpTo(jobs, m + 1, log0, log, Polling(flags))
      ensures Longer(old(log), log)
      ensures jobs[m].req.id in old(log) && log == old(log)[jobs[m].req.id := log[jobs[m].req.id]]
      ensures Work(env, prefilling + active) + |old(prefilling)| - |prefilling| <= Work(env, old(prefilling) + active)
    {
      hide Longer, JobsOk, ClientsOk, KVMapper.ValidWith, AllReady, Work, ToldUpTo, Polling, Unseen, Polled;
      TakeOut(Unseen(jobs[..m], log0, flags), jobs, m);
      var x := prefilling[i];
      assert x == jobs[m];
      OneUnseen(jobs, m, log0, flags);
      ToldPolled(jobs, m, log0, log, flags);
      ghost var a, b := prefilling[..i], prefilling[i + 1..] + active;
      SpliceFirst(prefilling, active, i, x);
      var seen := PollJob(queue, a, x, b, flags(x.req.id));
      if seen {
        DropPrefill(map[], i);
        next := i;
      } else {
        next := i + 1;
      }
    }

    // ---------------------------------------------------------------- the batch of a step

    method ActiveEntries() returns (batch: seq<Entry>, ghost plans: seq<Plan>)
      requires forall j | j in active :: j.Generating?
      ensures Planned(prefilling, active, batch, [], plans) && |batch| == |active|
    {
      hide Flatten, Planned;
      batch, plans := [], [];
      NothingPlanned(prefilling);
      var i := 0;
      while i < |active|
        invariant 0 <= i <= |active| && |batch| == i
        invariant Planned(prefilling, active[..i], batch, [], plans)
      {
        var x := active[i];
        PlanActive(prefilling, active, i, batch, plans);
        batch := batch + [Entry(x.nextToken, x.pos, x.seqId, true)];
        plans := plans + [Plan(x.seqId, x.pos, [x.nextToken], true)];
        i := i + 1;
      }
      assert active[..i] == active;
    }

    method PromptRun(x: Job, start: nat, take: nat, completes: bool) returns (run: seq<Entry>)
      requires x.Prefilling? && start + take <= |x.delta|
      ensures run == Entries(Plan(x.seqId, x.cachedPos + start, x.delta[start..start + take], completes))
    {
      run := [];
      ghost var p := Plan(x.seqId, x.cachedPos + start, x.delta[start..start + take], completes);
      var offset := 0;
      while offset < take
        invariant 0 <= offset <= take && run == Entries(p)[..offset]
      {
        var e := Entry(x.delta[start + offset], x.cachedPos + start + offset, x.seqId, completes && offset == take - 1);
        assert e == Entries(p)[offset];
        run := run + [e];
        offset := offset + 1;
      }
    }

    /** One entry per generation, then as many prompt tokens as fit, in the order of the prefills. */
    method BuildBatch() returns (batch: seq<Entry>, subs: seq<Submission>, ghost plans: seq<Plan>)
      requires forall j | j in active :: j.Generating?
      requires forall j | j in prefilling :: j.Prefilling? && j.deltaStart <= |j.delta|
      requires |active| <= Room()
      ensures Planned(prefilling, active, batch, subs, plans)
      ensures |active| + |subs| <= |batch| <= Room()
      ensures active != [] || (nBatch >= 1 && exists j :: j in prefilling && j.deltaStart < |j.delta|) ==> batch != []
      ensures |batch| >= nBatch || forall i | 0 <= i < |prefilling| :: AllSubmitted(prefilling, subs, i)
      ensures forall k, i | 0 <= k < |subs| && 0 <= i < subs[k].ctxIndex :: AllSubmitted(prefilling, subs, i)
    {
      hide Flatten, Planned;
      subs := [];
      batch, plans := ActiveEntries();
      var decoding := |active|;
      var capacity := nBatch - decoding;
      var promptTokens := 0;
      var i := 0;
      while i < |prefilling| && promptTokens < capacity
        invariant 0 <= i <= |prefilling| && 0 <= promptTokens && (promptTokens <= capacity || promptTokens == 0)
        invariant |batch| == decoding + promptTokens && |subs| <= promptTokens
        invariant Planned(prefilling, active, batch, subs, plans)
        invariant forall k | 0 <= k < |subs| :: subs[k].ctxIndex < i
        invariant promptTokens < capacity ==> forall k | 0 <= k < i :: AllSubmitted(prefilling, subs, k)
        invariant forall k, m | 0 <= k < |subs| && 0 <= m < subs[k].ctxIndex :: AllSubmitted(prefilling, subs, m)
        invariant promptTokens == 0 ==> forall k | 0 <= k < i :: prefilling[k].deltaStart == |prefilling[k].delta|
      {
        var x := prefilling[i];
        var remaining := |x.delta| - x.deltaStart;
        if remaining <= 0 {
          i := i + 1;
          continue;
        }
        var take := if remaining <= capacity - promptTokens then remaining else capacity - promptTokens;
        var completes := take == remaining;
        var start := x.deltaStart;
        var run := PromptRun(x, start, take, completes);
        PlanPrefill(prefilling, active, batch, subs, plans, i, take);
        plans := plans + [Plan(x.seqId, x.cachedPos + start, x.delta[start..start + take], completes)];
        batch := batch + run;
        ghost var subs0 := subs;
        subs := subs + [Submission(i, take, if completes then |batch| - 1 else -1)];
        forall k | 0 <= k < i && AllSubmitted(prefilling, subs0, k) ensures AllSubmitted(prefilling, subs, k) {
          StillSubmitted(prefilling, subs0, subs[|subs0|], k);
        }
        assert completes ==> AllSubmitted(prefilling, subs, i) by { assert subs[|subs0|].ctxIndex == i; }
        promptTokens := promptTokens + take;
        i := i + 1;
      }
    }

    /** llama_decode: either every entry's token goes into the cache and logits are available, or the
        cache stays as it is; `status` is what the library answers.  `views[k]` is what the logits of entry `k`
        were computed from. */
    method LlamaDecode(batch: seq<Entry>, status: int) returns (views: seq<Word>)
      requires mapper.Quiet() && InOrder(mapper.kv, batch) && 0 < |batch| <= nBatch
      requires forall e | e in batch :: e.seqId in mapper.leaf && e.seqId in mapper.kv && 0 <= e.pos < env.nCtx
      modifies mapper`kv
      ensures mapper.Quiet()
      ensures status == 0 ==> mapper.kv == Stored(old(mapper.kv), batch) && |views| == |batch|
      ensures status == 0 ==> forall k | 0 <= k < |batch| ::
                                batch[k].seqId in old(mapper.kv) && views[k] == LogitView(old(mapper.kv), batch, k)
      ensures status != 0 ==> mapper.kv == old(mapper.kv)
    {
      hide KVMapper.ValidWith, AllReady, InOrder, Stored;
      views := [];
      if status != 0 { return; }
      StoredNothing(mapper.kv);
      var k := 0;
      while k < |batch|
        invariant 0 <= k <= |batch| && |views| == k && mapper.Quiet()
        invariant mapper.kv == Stored(old(mapper.kv), batch[..k])
        invariant forall m | 0 <= m < k ::
                  batch[m].seqId in old(mapper.kv) && views[m] == LogitView(old(mapper.kv), batch, m)
      {
        var e := batch[k];
        assert e in batch && batch[..k + 1] == batch[..k] + [e];
        StoreOne(old(mapper.kv), batch[..k], e);
        mapper.Decoded(e.seqId, [e.token]);
        views := views + [mapper.kv[e.seqId]];
        k := k + 1;
      }
      assert batch[..k] == batch;
    }

    // ---------------------------------------------------------------- recording a successful step

    /** One submitted part of a prompt is recorded; a prompt it completes becomes a copy source. */
    method RecordSubmission(sub: Submission, ghost owed: Debts, ghost batch: seq<Entry>, ghost views: seq<Word>)
      requires Ok(queue, owed) && sub.ctxIndex < |prefilling| && Due(prefilling[sub.ctxIndex], sub, owed, batch, views)
      modifies this`prefilling, mapper`cellCounts, mapper.tree`own
      ensures var x := old(prefilling)[sub.ctxIndex];
              && prefilling == old(prefilling)[sub.ctxIndex := x.(deltaStart := x.deltaStart + sub.tokens)]
              && Ok(queue, owed - {x.seqId})
      ensures Work(env, prefilling + active) < Work(env, old(prefilling) + active)
    {
      hide JobsOk, ClientsOk, KVMapper.ValidWith, AllReady, Work, JobWork, JobOk, Agree;
      var i := sub.ctxIndex;
      var x := prefilling[i];
      var y := x.(deltaStart := x.deltaStart + sub.tokens);
      ghost var a, b, c := prefilling[..i], prefilling[i + 1..] + active, mapper.Snapshot();
      SpliceFirst(prefilling, active, i, y);
      Apart(a, x, b, c, owed, env);
      SubRecorded(x, sub, owed, batch, views, c, env);
      PromptKnown(x, c, owed, env);
      if y.deltaStart == |y.delta| {
        mapper.MarkSequenceReady(x.seqId, x.leafNode);
      }
      ReadyAgrees(c, x.seqId);
      JobChanges(a, x, b, y, c, mapper.Snapshot(), owed, owed - {x.seqId}, env);
      PromptGrows(queue, a, x, b, y, TheDesk(), env);
      prefilling := prefilling[i := y];
    }

    /** Record all submitted parts; `logitAt` says where the logits of each completed prompt are. */
    method RecordPrefills(subs: seq<Submission>, ghost owed0: Debts, ghost batch: seq<Entry>, ghost views: seq<Word>)
      returns (logitAt: seq<int>, ghost owed: Debts)
      requires Ok(queue, owed0) && AllOwed(prefilling, active, subs, 0, 0, owed0, batch, views)
      requires forall j | j in prefilling :: j.Prefilling? && j.deltaStart < |j.delta|
      modifies this`prefilling, mapper`cellCounts, mapper.tree`own
      ensures Ok(queue, owed) && AllOwed(prefilling, active, subs, |subs|, 0, owed, batch, views)
      ensures LogitsRight(prefilling, logitAt, batch, views) && prefilling == Advanced(old(prefilling), subs)
      ensures Completed(logitAt) <= |subs|
      ensures Work(env, prefilling + active) + |subs| <= Work(env, old(prefilling) + active)
    {
      hide JobsOk, ClientsOk, KVMapper.ValidWith, AllReady, Work, HasLogits, AllOwed, Completed, Advanced;
      owed := owed0;
      NoneAdvanced(prefilling);
      assert subs[..0] == [];
      logitAt := seq(|prefilling|, _ => -1);
      NoneCompleted(|prefilling|);
      var k := 0;
      while k < |subs|
        invariant 0 <= k <= |subs| && |prefilling| == |old(prefilling)| && Ok(queue, owed)
        invariant AllOwed(prefilling, active, subs, k, 0, owed, batch, views)
        invariant LogitsRight(prefilling, logitAt, batch, views) && prefilling == Advanced(old(prefilling), subs[..k])
        invariant Completed(logitAt) <= k
        invariant Work(env, prefilling + active) + k <= Work(env, old(prefilling) + active)
      {
        var sub := subs[k];
        NextDue(prefilling, active, subs, k, owed, batch, views);
        ghost var x := prefilling[sub.ctxIndex];
        SubSettled(prefilling, active, subs, k, owed, batch, views, x.(deltaStart := x.deltaStart + sub.tokens),
                   mapper.Snapshot(), env);
        RecordSubmission(sub, owed, batch, views);
        var done := prefilling[sub.ctxIndex];
        if done.deltaStart == |done.delta| {
          OneCompleted(logitAt, sub.ctxIndex, sub.logitIndex);
          logitAt := logitAt[sub.ctxIndex := sub.logitIndex];
        }
        owed := owed - {x.seqId};
        OneAdvanced(old(prefilling), subs, k);
        k := k + 1;
      }
      assert subs[..k] == subs;
    }

    method Sample(id: nat, batch: seq<Entry>, views: seq<Word>, k: nat) returns (token: Token)
      requires k < |batch| == |views| && batch[k].logits
      ensures token == env.sample(id, views[k])
    {
      token := env.sample(id, views[k]);
    }

    /** A generation's token is in the cache: record it, sample the next one and tell the client. */
    method RecordActive(i: nat, ghost owed: Debts, batch: seq<Entry>, views: seq<Word>, p: Polls)
      requires Ok(queue, owed) && i < |active| && !active[i].done && DueActive(active[i], i, owed, batch, views)
      modifies this`active, this`log, mapper`cellCounts
      ensures Ok(queue, owed - {old(active)[i].seqId}) && |active| == |old(active)|
      ensures active == old(active)[i := active[i]] && active[i].seqId == old(active)[i].seqId
      ensures Work(env, prefilling + active) < Work(env, prefilling + old(active))
      ensures Longer(old(log), log)
      ensures var x, y := old(active)[i], active[i];
              && x.req.id in old(log) && x.Generating?
              && Continues(x, y, Drawn(env, x)) && Goes(env, x, y, log)
              && log == old(log)[x.req.id := RecordLog(env, x, old(log)[x.req.id], p)]
      ensures var x := old(active)[i];
              mapper.cellCounts ==
                if x.seqId in old(mapper.cellCounts) then old(mapper.cellCounts)[x.seqId := x.pos + 1]
                else old(mapper.cellCounts)
    {
      hide Longer, JobsOk, ClientsOk, KVMapper.ValidWith, AllReady, Work, JobWork, TrueTo, StageOf, Said, JobTrue,
           JobOk;
      var x := active[i];
      ghost var a, b, c := prefilling + active[..i], active[i + 1..], mapper.Snapshot();
      SpliceSecond(prefilling, active, i, x);
      Apart(a, x, b, c, owed, env);
      LiveJob(x, c, owed, env);
      mapper.SetSequenceCellCount(x.seqId, x.pos + 1);
      var token := Sample(x.req.id, batch, views, i);
      var y := GoOn(a, x, b, token, p.first, p.again);
      ActiveRecorded(x, y, token, owed, i, batch, views, c, env);
      JobChanges(a, x, b, y, c, mapper.Snapshot(), owed, owed - {x.seqId}, env);
      WorkAround(env, a, x, b);
      WorkAround(env, a, y, b);
      SpliceSecond(prefilling, active, i, y);
      active := active[i := y];
    }

    /** What becomes of a generation for which `token` was sampled. */
    method GoOn(ghost a: seq<Job>, x: Job, ghost b: seq<Job>, token: Token, flag: bool, again: bool) returns (y: Job)
      requires ClientsOk(queue, a + [x] + b, TheDesk(), env) && x.Generating? && !x.done && !x.notify
      requires token == env.sample(x.req.id, x.cachedTokens + [x.nextToken])
      modifies this`log
      ensures ClientsOk(queue, a + [y] + b, TheDesk(), env) && Continues(x, y, token)
      ensures Longer(old(log), log)
      ensures x.req.id in old(log) &&
              log == old(log)[x.req.id := HeardOf(old(log)[x.req.id], token, env.isEog(token), x.remaining == 1, flag,
                                                  again)]
      ensures y.done <==> env.isEog(token) || x.remaining == 1 || Cancelled(log[x.req.id])
      ensures y.notify <==> env.isEog(token)
    {
      hide Longer, ClientsOk, TrueTo, StageOf, Said, JobTrue;
      ghost var d := TheDesk();
      ApartClients(queue, a, x, b, d, env);
      var cached := x.cachedTokens + [x.nextToken];
      LongerSame(log);
      if env.isEog(token) {
        y := x.(cachedTokens := cached, done := true, notify := true);
        TextEnds(queue, a, x, b, d, env);
        return;
      }
      var remaining := x.remaining - 1;
      var last := remaining == 0;
      y := x.(cachedTokens := cached, remaining := remaining, done := true, notify := false);
      var seen := PollJob(queue, a, x, b, flag);
      if seen {
        // the flag stays set, so the poll that follows in the source sees it too
        StopsHere(queue, a, x, b, y, TheDesk(), env);
        return;
      }
      if last {
        LastPiece(queue, a, x, b, y, d, env, token);
        LongerSay(log, x.req.id, Last(token));
        log := log[x.req.id := log[x.req.id] + [Last(token)]];
        return;
      }
      var z := x.(cachedTokens := cached, remaining := remaining, nextToken := token, pos := x.pos + 1);
      OnePiece(queue, a, x, b, z, d, env, token);
      LongerSay(log, x.req.id, Piece(token));
      log := log[x.req.id := log[x.req.id] + [Piece(token)]];
      ghost var log1 := log;
      seen := PollJob(queue, a, z, b, again);
      LongerTrans(old(log), log1, log);
      if seen {
        StopsHere(queue, a, z, b, y, TheDesk(), env);
      } else {
        y := z;
      }
    }

    method RecordActives(subs: seq<Submission>, ghost owed0: Debts, batch: seq<Entry>, views: seq<Word>,
                         polls: nat -> Polls)
      requires Ok(queue, owed0) && AllOwed(prefilling, active, subs, |subs|, 0, owed0, batch, views)
      requires forall j | j in active :: !j.done
      modifies this`active, this`log, mapper`cellCounts
      ensures Ok(queue, map[])
      ensures Work(env, prefilling + active) + |active| <= Work(env, prefilling + old(active))
      ensures |active| == |old(active)|
      ensures Longer(old(log), log)
      ensures ToldUpTo(old(active), |active|, old(log), log, Recording(env, polls))
      ensures forall k | 0 <= k < |active| :: Goes(env, old(active)[k], active[k], log)
      ensures OthersSame(old(active), old(log), log)
    {
      hide Longer, JobsOk, ClientsOk, KVMapper.ValidWith, AllReady, Work, HasLogits, AllOwed, ToldUpTo, Recording,
           RecordLog, Goes, OthersSame;
      LongerSame(log);
      NobodyTold(active, log);
      ToldNobody(queue, prefilling, active, TheDesk(), env, Recording(env, polls));
      ghost var owed := owed0;
      var i := 0;
      while i < |active|
        invariant 0 <= i <= |active| == |old(active)| && Ok(queue, owed)
        invariant AllOwed(prefilling, active, subs, |subs|, i, owed, batch, views)
        invariant forall k | i <= k < |active| :: active[k] == old(active)[k]
        invariant Longer(old(log), log)
        invariant Work(env, prefilling + active) + i <= Work(env, prefilling + old(active))
        invariant ToldUpTo(old(active), i, old(log), log, Recording(env, polls))
        invariant OthersSame(old(active), old(log), log)
        invariant forall k | 0 <= k < i :: Goes(env, old(active)[k], active[k], log)
      {
        ghost var active0, c := active, mapper.Snapshot();
        NextActive(prefilling, active, subs, i, owed, batch, views);
        assert active[i] in old(active);
        ghost var log0 := log;
        RecordActive(i, owed, batch, views, polls(active[i].req.id));
        LongerTrans(old(log), log0, log);
        OneOfThem(old(active), old(log), log0, log, old(active)[i]);
        ToldRecorded(old(active), i, old(log), log0, env, polls);
        StillGoes(env, old(active), active, i, log0, log, Recording(env, polls), old(log));
        ActiveSettled(prefilling, active0, subs, i, owed, batch, views, active[i], c, env);
        owed := owed - {active0[i].seqId};
        i := i + 1;
      }
      NothingOwed(prefilling, active, subs, owed, batch, views);
    }

    /** The client of a completed prompt hears its only callback and the job leaves. */
    method EndPrefill(i: nat, e: Event)
      requires Ok(queue, map[]) && i < |prefilling|
      requires prefilling[i].req.id in log && prefilling[i].req.id in asked
      requires TrueTo(log[prefilling[i].req.id] + [e], asked[prefilling[i].req.id], env)
      requires Over(log[prefilling[i].req.id] + [e])
      requires !Cancelled(log[prefilling[i].req.id])
      modifies this`prefilling, this`log, this`inside, mapper, mapper.tree
      ensures Ok(queue, map[]) && prefilling == old(prefilling[..i] + prefilling[i + 1..])
      ensures Work(env, prefilling + active) < Work(env, old(prefilling) + active)
      ensures Longer(old(log), log)
      ensures var id := old(prefilling)[i].req.id; log == old(log)[id := old(log)[id] + [e]]
    {
      hide Longer, JobsOk, ClientsOk, KVMapper.ValidWith, AllReady, TrueTo, StageOf, Work, JobWork;
      var x := prefilling[i];
      ghost var a, b, d := prefilling[..i], prefilling[i + 1..] + active, TheDesk();
      SpliceFirst(prefilling, active, i, x);
      WorkAround(env, a, x, b);
      LongerSay(log, x.req.id, e);
      log := log[x.req.id := log[x.req.id] + [e]];
      inside := inside - {x.req.id};
      ClientLeaves(queue, a, x, b, d, TheDesk(), env, log[x.req.id]);
      Release(map[], a, x, b);
      prefilling := prefilling[..i] + prefilling[i + 1..];
    }

    /** The first token of a completed prompt: the job ends at once or starts generating. */
    method CompletePrefill(i: nat, logitIndex: nat, batch: seq<Entry>, views: seq<Word>, flag: bool)
      requires Ok(queue, map[]) && i < |prefilling| && prefilling[i].deltaStart == |prefilling[i].delta|
      requires HasLogits(batch, views, logitIndex, prefilling[i].seqId, prefilling[i].tokens)
      requires forall j | j in active :: !j.done
      modifies this`prefilling, this`active, this`log, this`inside, mapper, mapper.tree
      ensures Ok(queue, map[]) && prefilling == old(prefilling[..i] + prefilling[i + 1..])
      ensures forall j | j in active :: !j.done
      ensures Work(env, prefilling + active) < Work(env, old(prefilling) + old(active))
      ensures Longer(old(log), log)
      ensures var x := old(prefilling)[i];
              && x.Prefilling? && x.req.id in old(log)
              && var l, token := old(log)[x.req.id], env.sample(x.req.id, x.tokens);
              var e := if env.isEog(token) then EndOfText
                       else if x.req.maxTokens <= 1 then Last(token) else Piece(token);
              && log == old(log)[x.req.id := Heard(l, e, flag)]
              && active == if flag || Cancelled(l) || !e.Piece? then old(active) else old(active) + [Begun(x, token)]
      ensures |active| > |old(active)| ==>
                && |active| == |old(active)| + 1 && old(active) == active[..|old(active)|]
                && var x, y := old(prefilling)[i], active[|old(active)|];
                && y.Generating? && y.req == x.req && y.seqId == x.seqId && y.leafNode == x.leafNode
                && y.remaining == x.req.maxTokens - 1 && y.pos == |x.tokens| && y.cachedTokens == x.tokens
                && y.nextToken == env.sample(x.req.id, x.tokens) && !y.done && !y.notify
    {
      hide Longer, JobsOk, ClientsOk, KVMapper.ValidWith, AllReady, TrueTo, StageOf, Said, Work, JobWork, JobTrue,
           JobOk, Limit;
      var x := prefilling[i];
      ghost var a, b := prefilling[..i], prefilling[i + 1..] + active;
      SpliceFirst(prefilling, active, i, x);
      Apart(a, x, b, mapper.Snapshot(), map[], env);
      var seen := PollJob(queue, a, x, b, flag);
      if seen {
        DropPrefill(map[], i);
        return;
      }
      var token := Sample(x.req.id, batch, views, logitIndex);
      FirstToken(queue, a, x, b, mapper.Snapshot(), TheDesk(), env, token);
      if env.isEog(token) {
        ghost var log1 := log;
        EndPrefill(i, EndOfText);
        LongerTrans(old(log), log1, log);
        return;
      }
      if x.req.maxTokens <= 1 {
        ghost var log1 := log;
        EndPrefill(i, Last(token));
        LongerTrans(old(log), log1, log);
        return;
      }
      var y := Begun(x, token);
      LongerSay(log, x.req.id, Piece(token));
      LongerTrans(old(log), log, log[x.req.id := log[x.req.id] + [Piece(token)]]);
      log := log[x.req.id := log[x.req.id] + [Piece(token)]];
      Rotate(queue, a, y, b, mapper.Snapshot(), map[], TheDesk(), env);
      prefilling, active := prefilling[..i] + prefilling[i + 1..], active + [y];
      assert prefilling + active == a + b + [y];
    }

    /** Every completed prompt is answered with its first token, and those that go on are generations from now on. */
    method Promote(logitAt0: seq<int>, batch: seq<Entry>, views: seq<Word>, flags: Flags)
      requires Ok(queue, map[]) && LogitsRight(prefilling, logitAt0, batch, views) && forall j | j in active :: !j.done
      requires |active| + Completed(logitAt0) <= Room()
      modifies this`prefilling, this`active, this`log, this`inside, mapper, mapper.tree
      ensures Settled() && Work(env, prefilling + active) <= Work(env, old(prefilling) + old(active))
      ensures Longer(old(log), log)
      ensures prefilling == Unanswered(old(prefilling))
      ensures active == old(active) + Starting(env, old(prefilling), old(log), flags)
      ensures ToldUpTo(old(prefilling), |old(prefilling)|, old(log), log, Answering(env, flags))
      ensures OthersSame(old(prefilling), old(log), log)
    {
      hide Longer, JobsOk, ClientsOk, KVMapper.ValidWith, AllReady, Work, HasLogits, Completed, ToldUpTo, Answering,
           OthersSame, Unanswered, Starting, LogitsRight;
      ghost var jobs := prefilling;
      LongerSame(log);
      NobodyTold(prefilling, log);
      ToldNoPrefill(queue, prefilling, active, TheDesk(), env, Answering(env, flags));
      NobodyStarts(env, log, flags);
      var logitAt := logitAt0;
      ghost var m := 0;
      var i := 0;
      assert jobs[..0] == [] && [] + jobs == jobs && active + [] == active;
      while i < |prefilling|
        invariant 0 <= m <= |jobs| && Ok(queue, map[])
        invariant prefilling == Unanswered(jobs[..m]) + jobs[m..] && i == |Unanswered(jobs[..m])|
        invariant active == old(active) + Starting(env, jobs[..m], old(log), flags)
        invariant LogitsRight(prefilling, logitAt, batch, views)
        invariant forall j | j in active :: !j.done
        invariant |active| + Completed(logitAt) <= Room()
        invariant Longer(old(log), log) && OthersSame(jobs, old(log), log)
        invariant ToldUpTo(jobs, m, old(log), log, Answering(env, flags))
        invariant Work(env, prefilling + active) <= Work(env, jobs + old(active))
        decreases |jobs| - m
      {
        ghost var log0 := log;
        i, logitAt := PromoteNext(jobs, m, i, logitAt, batch, views, flags, old(log), old(active));
        LongerTrans(old(log), log0, log);
        OneOfThem(jobs, old(log), log0, log, jobs[m]);
        m := m + 1;
      }
      assert jobs[..m] == jobs && jobs[m..] == [] && prefilling + [] == prefilling;
      UnansweredIs(jobs);
      StillPrefills(prefilling, logitAt, batch, views);
    }

    /** One more of the prefills there were, the `m`th, is looked at. */
    method PromoteNext(ghost jobs: seq<Job>, ghost m: nat, i: nat, logitAt0: seq<int>, batch: seq<Entry>,
                       views: seq<Word>, flags: Flags, ghost log0: map<nat, Log>, ghost active0: seq<Job>)
      returns (next: nat, logitAt: seq<int>)
      requires Ok(queue, map[]) && m < |jobs| && prefilling == Unanswered(jobs[..m]) + jobs[m..]
      requires i == |Unanswered(jobs[..m])| && active == active0 + Starting(env, jobs[..m], log0, flags)
      requires LogitsRight(prefilling, logitAt0, batch, views) && forall j | j in active :: !j.done
      requires |active| + Completed(logitAt0) <= Room() && ToldUpTo(jobs, m, log0, log, Answering(env, flags))
      modifies this`prefilling, this`active, this`log, this`inside, mapper, mapper.tree
      ensures Ok(queue, map[]) && prefilling == Unanswered(jobs[..m + 1]) + jobs[m + 1..]
      ensures next == |Unanswered(jobs[..m + 1])| && active == active0 + Starting(env, jobs[..m + 1], log0, flags)
      ensures LogitsRight(prefilling, logitAt, batch, views) && forall j | j in active :: !j.done
      ensures |active| + Completed(logitAt) <= Room() && ToldUpTo(jobs, m + 1, log0, log, Answering(env, flags))
      ensures Longer(old(log), log)
      ensures jobs[m].req.id in old(log) && log == old(log)[jobs[m].req.id := log[jobs[m].req.id]]
      ensures Work(env, prefilling + active) <= Work(env, old(prefilling) + old(active))
    {
      hide Longer, JobsOk, ClientsOk, KVMapper.ValidWith, AllReady, Work, HasLogits, Completed, ToldUpTo, Answering,
           Unanswered, Starting, Heard, Begun, Cancelled;
      TakeOut(Unanswered(jobs[..m]), jobs, m);
      assert prefilling[i] == jobs[m];
      OneAnswers(env, jobs, m, log0, log, flags);
      LongerSame(log);
      next, logitAt := i + 1, logitAt0;
      if logitAt[i] >= 0 {
        CompletePrefill(i, logitAt[i], batch, views, flags(prefilling[i].req.id));
        OneAnswered(logitAt, i);
        next, logitAt := i, logitAt[..i] + logitAt[i + 1..];
        assert active0 + Starting(env, jobs[..m], log0, flags) + [] == active0 + Starting(env, jobs[..m], log0, flags);
      }
    }

    // ---------------------------------------------------------------- failure

    method FailActive(i: nat, status: int, flag: bool)
      requires Ok(queue, map[]) && i < |active| && !active[i].done
      modifies this`active, this`log, this`inside, mapper, mapper.tree
      ensures Ok(queue, map[]) && active == old(active[..i] + active[i + 1..])
      ensures Work(env, prefilling + active) < Work(env, prefilling + old(active))
      ensures Longer(old(log), log)
      ensures var id := old(active)[i].req.id;
              id in old(log) && log == old(log)[id := Heard(old(log)[id], Failed(status), flag)]
    {
      hide Longer, JobsOk, ClientsOk, KVMapper.ValidWith, AllReady, Work, JobWork;
      ghost var a, b := prefilling + active[..i], active[i + 1..];
      SpliceSecond(prefilling, active, i, active[i]);
      WorkAround(env, a, active[i], b);
      Fail(queue, map[], a, active[i], b, status, flag);
      active := active[..i] + active[i + 1..];
    }

    method FailPrefill(i: nat, status: int, flag: bool)
      requires Ok(queue, map[]) && i < |prefilling|
      modifies this`prefilling, this`log, this`inside, mapper, mapper.tree
      ensures Ok(queue, map[]) && prefilling == old(prefilling[..i] + prefilling[i + 1..])
      ensures Work(env, prefilling + active) < Work(env, old(prefilling) + active)
      ensures Longer(old(log), log)
      ensures var id := old(prefilling)[i].req.id;
              id in old(log) && log == old(log)[id := Heard(old(log)[id], Failed(status), flag)]
    {
      hide Longer, JobsOk, ClientsOk, KVMapper.ValidWith, AllReady, Work, JobWork;
      ghost var a, b := prefilling[..i], prefilling[i + 1..] + active;
      SpliceFirst(prefilling, active, i, prefilling[i]);
      WorkAround(env, a, prefilling[i], b);
      assert prefilling[i] in prefilling;
      Fail(queue, map[], a, prefilling[i], b, status, flag);
      prefilling := prefilling[..i] + prefilling[i + 1..];
    }

    /** The cache is full: only the newest job is given up. */
    method FailNewest(flag: bool)
      requires Settled() && prefilling + active != []
      modifies this`prefilling, this`active, this`log, this`inside, mapper, mapper.tree
      ensures Settled() && Work(env, prefilling + active) < Work(env, old(prefilling) + old(active))
      ensures old(active) != [] ==> prefilling == old(prefilling) && active == old(active[..|active| - 1])
      ensures old(active) == [] ==> active == [] && prefilling == old(prefilling[..|prefilling| - 1])
      ensures Longer(old(log), log)
      ensures var x := if old(active) != [] then old(active)[|old(active)| - 1]
                       else old(prefilling)[|old(prefilling)| - 1];
              var id := x.req.id;
              id in old(log) && log == old(log)[id := Heard(old(log)[id], Failed(503), flag)]
    {
      hide Longer, JobsOk, ClientsOk, KVMapper.ValidWith, AllReady, Work;
      if active != [] {
        FailActive(|active| - 1, 503, flag);
      } else if prefilling != [] {
        FailPrefill(|prefilling| - 1, 503, flag);
      }
    }

    /** A decode failed for another reason: everybody hears of it and leaves. */
    method FailAll(flags: Flags)
      requires Settled() && prefilling + active != []
      modifies this`prefilling, this`active, this`log, this`inside, mapper, mapper.tree
      ensures Settled() && prefilling + active == []
      ensures Work(env, prefilling + active) < Work(env, old(prefilling) + old(active))
      ensures Longer(old(log), log)
      ensures forall j | j in old(prefilling) || j in old(active) ::
                && j.req.id in old(log) && j.req.id in log
                && log[j.req.id] == Heard(old(log)[j.req.id], Failed(500), flags(j.req.id))
    {
      hide Longer, JobsOk, ClientsOk, KVMapper.ValidWith, AllReady, Work, ToldUpTo, Failing, Heard;
      ghost var log0, jobs := log, active + prefilling;
      DistinctClients(queue, prefilling, active, TheDesk(), env);
      ToldStart(jobs, log, Failing(500, flags));
      FailActives(jobs, log0, flags);
      ghost var log1 := log;
      FailPrefills(jobs, |jobs| - |prefilling|, log0, flags);
      LongerTrans(old(log), log1, log);
      AllFailed(jobs, log0, log, 500, flags);
    }

    method FailActives(ghost jobs: seq<Job>, ghost log0: map<nat, Log>, flags: Flags)
      requires Settled() && jobs == active + prefilling && ToldUpTo(jobs, 0, log0, log, Failing(500, flags))
      modifies this`active, this`log, this`inside, mapper, mapper.tree
      ensures Settled() && active == [] && ToldUpTo(jobs, |old(active)|, log0, log, Failing(500, flags))
      ensures Longer(old(log), log)
      ensures if old(active) == [] then Work(env, prefilling + active) == Work(env, prefilling + old(active))
              else Work(env, prefilling + active) < Work(env, prefilling + old(active))
    {
      hide Longer, JobsOk, ClientsOk, KVMapper.ValidWith, AllReady, Work, ToldUpTo, Failing, Heard;
      LongerSame(log);
      ghost var k := 0;
      while active != []
        invariant Settled() && k + |active| == |old(active)| && active == old(active)[k..]
        invariant ToldUpTo(jobs, k, log0, log, Failing(500, flags)) && Longer(old(log), log)
        invariant if k == 0 then active == old(active)
                  else Work(env, prefilling + active) < Work(env, prefilling + old(active))
        decreases |active|
      {
        ghost var log1 := log;
        assert active[0] == jobs[k];
        ToldFailed(jobs, k, log0, log, 500, flags);
        FailActive(0, 500, flags(active[0].req.id));
        LongerTrans(old(log), log1, log);
        k := k + 1;
      }
    }

    method FailPrefills(ghost jobs: seq<Job>, ghost n: nat, ghost log0: map<nat, Log>, flags: Flags)
      requires Settled() && active == [] && n <= |jobs| && jobs[n..] == prefilling
      requires ToldUpTo(jobs, n, log0, log, Failing(500, flags))
      modifies this`prefilling, this`log, this`inside, mapper, mapper.tree
      ensures Settled() && prefilling == [] && ToldUpTo(jobs, |jobs|, log0, log, Failing(500, flags))
      ensures Longer(old(log), log)
      ensures if old(prefilling) == [] then Work(env, prefilling + active) == Work(env, old(prefilling) + active)
              else Work(env, prefilling + active) < Work(env, old(prefilling) + active)
    {
      hide Longer, JobsOk, ClientsOk, KVMapper.ValidWith, AllReady, Work, ToldUpTo, Failing, Heard;
      LongerSame(log);
      ghost var k := 0;
      while prefilling != []
        invariant Settled() && k + |prefilling| == |old(prefilling)| && prefilling == old(prefilling)[k..]
        invariant ToldUpTo(jobs, n + k, log0, log, Failing(500, flags)) && Longer(old(log), log)
        invariant if k == 0 then prefilling == old(prefilling)
                  else Work(env, prefilling + active) < Work(env, old(prefilling) + active)
        decreases |prefilling|
      {
        ghost var log1 := log;
        assert prefilling[0] == jobs[n + k];
        ToldFailed(jobs, n + k, log0, log, 500, flags);
        FailPrefill(0, 500, flags(prefilling[0].req.id));
        LongerTrans(old(log), log1, log);
        k := k + 1;
      }
    }

    // ---------------------------------------------------------------- one step

    /** Decode the batch, once more after evicting an idle sequence when the cache was full; `first` and `second` are
        the library's answers. */
    method DecodeStep(batch: seq<Entry>, ghost subs: seq<Submission>, ghost plans: seq<Plan>, first: int, second: int)
      returns (status: int, views: seq<Word>)
      requires Settled() && Planned(prefilling, active, batch, subs, plans) && 0 < |batch| <= nBatch
      modifies mapper, mapper.tree
      ensures status == if first == 1 && (exists p :: IdleOwner(old(mapper.tree.own), p)) then second else first
      ensures status != 0 ==> Settled()
      ensures status == 0 ==>
                Ok(queue, DebtsOf(plans)) && AllOwed(prefilling, active, subs, 0, 0, DebtsOf(plans), batch, views)
    {
      hide JobsOk, ClientsOk, KVMapper.ValidWith, AllReady, Planned, AllOwed, InOrder, Stored, Fits, DebtsOf, Gone,
           IdleOwner, Agree;
      var jobs := prefilling + active;
      ghost var c := mapper.Snapshot();
      PlansFit(prefilling, active, batch, subs, plans, c, env);
      status := first;
      views := LlamaDecode(batch, status);
      if status == 1 {
        ghost var home, cells := mapper.home, mapper.cellCounts;
        var evicted, gone := mapper.EvictIdleSequence();
        EvictionAgrees(c, mapper.Snapshot(), gone, home, cells, mapper.home, mapper.cellCounts);
        JobsCarry(jobs, c, mapper.Snapshot(), map[], env);
        c := mapper.Snapshot();
        if evicted {
          PlansFit(prefilling, active, batch, subs, plans, c, env);
          status := second;
          views := LlamaDecode(batch, status);
        }
      }
      if status == 0 {
        PlannedIs(prefilling, active, batch, subs, plans);
        DecodedJobs(jobs, c, mapper.Snapshot(), plans, batch, env);
        AllDue(prefilling, active, batch, subs, plans, c, env, views);
      }
    }

    /** Cancelled jobs leave, and only they. */
    method Sweep(flags: Flags)
      requires Settled()
      modifies this`prefilling, this`active, this`log, this`inside, mapper, mapper.tree
      ensures Settled() && Work(env, prefilling + active) <= Work(env, old(prefilling) + old(active))
      ensures prefilling + active == [] && old(prefilling) + old(active) != [] ==>
                Work(env, prefilling + active) < Work(env, old(prefilling) + old(active))
      ensures Longer(old(log), log)
      ensures active == Unseen(old(active), old(log), flags) && prefilling == Unseen(old(prefilling), old(log), flags)
      ensures SweptAs(old(active), old(log), log, flags) && SweptAs(old(prefilling), old(log), log, flags)
      ensures old(prefilling) == [] && old(active) == [] ==>
                prefilling == [] && active == [] && log == old(log) && unchanged(mapper) && unchanged(mapper.tree)
    {
      hide Longer, JobsOk, ClientsOk, KVMapper.ValidWith, AllReady, Work, ToldUpTo, Polling, OthersSame, Unseen, Marked,
           SweptAs, Retiring, Running;
      ghost var active0, prefilling0, log0 := active, prefilling, log;
      Unnotified();
      DistinctClients(queue, prefilling, active, TheDesk(), env);
      PollActive(flags);
      ghost var log1, active1 := log, active;
      var polls: nat -> Polls := *;
      RetireDone(false, polls);
      RunningIs(active1);
      ghost var log2 := log;
      LongerTrans(old(log), log1, log2);
      AbandonPrefills(flags);
      UnseenIs(prefilling0, log2, flags);
      NobodyUnseen(log2, flags);
      NobodyUnseen(log0, flags);
      LongerTrans(old(log), log2, log);
      SweptOut(active0, prefilling0, active1, log0, log1, log2, log, flags, polls);
    }

    /** A running generation has no end of text to tell. */
    lemma Unnotified()
      requires Settled()
      ensures forall j | j in active :: j.Generating? && !j.done && !j.notify
    {
      hide ClientsOk, KVMapper.ValidWith, AllReady;
      forall j | j in active ensures JobOk(j, mapper.Snapshot(), map[], env) { assert j in prefilling + active; }
    }

    /** Record, answer and retire after a successful decode. */
    method RecordStep(subs: seq<Submission>, ghost owed: Debts, batch: seq<Entry>, views: seq<Word>,
                      polls: nat -> Polls, flags: Flags)
      requires Ok(queue, owed) && AllOwed(prefilling, active, subs, 0, 0, owed, batch, views)
      requires (forall j | j in prefilling :: j.deltaStart < |j.delta|) && (forall j | j in active :: !j.done)
      requires 1 <= |subs| + |active| <= Room()
      modifies this`prefilling, this`active, this`log, this`inside, mapper, mapper.tree
      ensures Settled() && Work(env, prefilling + active) < Work(env, old(prefilling) + old(active))
      ensures Longer(old(log), log)
      ensures forall x | x in old(active) :: StepHeard(env, x, old(log), log, polls)
      ensures prefilling == Unanswered(Advanced(old(prefilling), subs))
      ensures PromptsHeard(env, Advanced(old(prefilling), subs), old(log), log, flags)
    {
      hide Longer, JobsOk, ClientsOk, KVMapper.ValidWith, AllReady, Work, AllOwed, LogitsRight, Completed, Advanced,
           ToldUpTo, Recording, Retiring, Goes, StepHeard, OthersSame, Unanswered, Starting, Answering, PromptsHeard;
      ghost var log0, jobs, prompts := log, active, prefilling;
      DistinctClients(queue, prefilling, active, TheDesk(), env);
      StillOpen(queue, prefilling, active, TheDesk(), env);
      var logitAt, owed1 := RecordPrefills(subs, owed, batch, views);
      SameClients(prompts, subs);
      ghost var prompts1 := prefilling;
      RecordActives(subs, owed1, batch, views, polls);
      ghost var log1, active1 := log, active;
      RetireDone(true, polls);
      RunningIs(active1);
      ghost var log2 := log;
      LongerTrans(old(log), log1, log2);
      Promote(logitAt, batch, views, flags);
      LongerTrans(old(log), log2, log);
      StepsTold(env, jobs, active1, prompts, log0, log1, log2, log, polls, prompts1);
      PromptsTold(env, jobs, active1, prompts, prompts1, log0, log1, log2, log, flags);
    }

    /** Decode a batch and deal with the outcome: record, answer and retire, fail the newest job, or fail all. */
    method Advance(batch: seq<Entry>, subs: seq<Submission>, ghost plans: seq<Plan>, o: Chance) returns (status: int)
      requires Settled() && Planned(prefilling, active, batch, subs, plans) && 0 < |batch| <= nBatch
      requires |active| + |subs| <= |batch|
      modifies this`prefilling, this`active, this`log, this`inside, mapper, mapper.tree
      ensures Settled() && Longer(old(log), log)
      ensures Work(env, prefilling + active) < Work(env, old(prefilling) + old(active))
      ensures status == if o.first == 1 && (exists p :: IdleOwner(old(mapper.tree.own), p)) then o.second else o.first
      ensures Stepped(env, status, old(prefilling), old(active), old(log), prefilling, active, log, o)
      ensures status == 0 ==> prefilling == Unanswered(Advanced(old(prefilling), subs))
    {
      hide Longer, JobsOk, ClientsOk, KVMapper.ValidWith, AllReady, Work, Planned, AllOwed, DebtsOf, StepHeard,
           PromptsHeard, Advanced, Unanswered, Heard;
      SomethingPlanned(prefilling, active, batch, subs, plans);
      var views: seq<Word>;
      status, views := DecodeStep(batch, subs, plans, o.first, o.second);
      if status == 1 {
        FailNewest(o.failing((if active != [] then active[|active| - 1] else prefilling[|prefilling| - 1]).req.id));
      } else if status != 0 {
        FailAll(o.failing);
      } else {
        ghost var prefilling0, active0, log0 := prefilling, active, log;
        RecordStep(subs, DebtsOf(plans), batch, views, o.polls, o.prompts);
        StepDone(env, prefilling0, active0, log0, prefilling, active, log, o, subs);
      }
    }

    /** A fused step: cancelled jobs leave, the rest is decoded together as far as the batch reaches, and whatever was
        decoded is recorded, answered and retired.  With room for one entry, a step with any job in it leaves strictly
        less to do.  `swept` and the lists are as they were between the two halves. */
    method FusedStep(o: Chance)
      returns (decoded: bool, status: int, ghost swept: map<nat, Log>, ghost prompts: seq<Job>, ghost jobs: seq<Job>)
      requires Settled()
      modifies this`prefilling, this`active, this`log, this`inside, mapper, mapper.tree
      ensures Settled() && Work(env, prefilling + active) <= Work(env, old(prefilling) + old(active))
      ensures (nBatch >= 1 || prefilling + active == []) && old(prefilling) + old(active) != [] ==>
                Work(env, prefilling + active) < Work(env, old(prefilling) + old(active))
      ensures Longer(old(log), log)
      ensures Fused(env, nBatch, old(prefilling), old(active), old(log), prefilling, active, log, o,
                    Between(decoded, status, swept, prompts, jobs))
      ensures old(prefilling) == [] && old(active) == [] ==>
                prefilling == [] && active == [] && log == old(log) && unchanged(mapper) && unchanged(mapper.tree)
    {
      hide Longer, JobsOk, ClientsOk, KVMapper.ValidWith, AllReady, Work, Planned, Stepped, SweptAs, Unseen, Unanswered,
           Advanced;
      Sweep(o.sweep);
      swept, prompts, jobs, status := log, prefilling, active, 0;
      var decoding := |active|;
      var capacity := nBatch - decoding;
      decoded := !(decoding == 0 && (prefilling == [] || capacity <= 0));
      if !decoded { return; }
      assert prefilling != [] ==> prefilling[0] in prefilling;
      var batch, subs, plans := BuildBatch();
      status := Advance(batch, subs, plans, o);
      LongerTrans(old(log), swept, log);
    }

    // ---------------------------------------------------------------- admission

    /** Look at one admitted request: it may be cancelled, too long, worth deferring behind a running
        prefill, without an id, or prepared. */
    method PrepareOne(r: Request, ghost rest: seq<Request>, flag: bool)
      returns (outcome: Outcome, q: Request, found: PrefixAvailability)
      requires Admitting([r] + rest)
      modifies this`prefilling, this`log, this`inside, mapper, mapper.tree
      ensures SameAsk(q, r, env) && r.id in old(log) && old(log)[r.id] == []
      ensures forall id | id in old(log) && id != r.id :: id in log && log[id] == old(log)[id]
      ensures outcome.Deferred? || outcome.Exhausted? ==> prefilling == old(prefilling) && Admitting([q] + rest)
      ensures outcome.Deferred? || outcome.Exhausted? || outcome.Started? ==>
                && Sees(old(mapper.tree.links), old(mapper.tree.path), old(mapper.tree.own), r.tokens, found)
                && (outcome.Deferred? <==> found.pendingTokens > found.readyTokens)
      ensures outcome.Deferred? ==> exists j :: j in prefilling && j.deltaStart < |j.delta|
      ensures outcome.Started? || outcome.Exhausted? ==>
                forall j | j in old(prefilling) ::
                  CoversAtMost(old(mapper.tree.links), old(mapper.tree.path), old(mapper.tree.own), r.tokens,
                               j.leafNode, found.readyTokens)
      ensures outcome.Exhausted? && mapper.maxSequences >= 3 ==> |prefilling| + |active| > 0
      ensures outcome.TurnedOff? || outcome.Refused? ==> prefilling == old(prefilling) && Admitting(rest) && r.id in log
      ensures (outcome.TurnedOff? <==> flag) && (flag ==> Cancelled(log[r.id]))
      ensures outcome.Refused? ==>
                StageOf(log[r.id]).Ended? &&
                if |r.tokens| + 4 >= env.nCtx then log[r.id] == [Failed(400)]
                else r.tokens == [] && log[r.id] == [Failed(500)]
      ensures |r.tokens| + 4 >= env.nCtx ==> outcome.Refused? || outcome.TurnedOff?
      ensures outcome.Started? ==>
                && Admitting(rest) && |prefilling| == |old(prefilling)| + 1
                && old(prefilling) == prefilling[..|old(prefilling)|]
                && prefilling[|old(prefilling)|].req == q
                && Work(env, prefilling + active) < Work(env, old(prefilling) + active) + |r.tokens| + Limit(env, r) + 2
      ensures Longer(old(log), log)
      ensures outcome.Deferred? || outcome.Exhausted? || outcome.Started? ==> log == old(log)
      ensures old(mapper.Roomy()) ==>
                && !outcome.Exhausted?
                && (outcome.Started? ==>
                      AsSeen(mapper.prefixCacheEnabled, found, |r.tokens|, prefilling[|old(prefilling)|].cachedPos))
      ensures old(mapper.Starves(r.tokens)) ==>
                outcome.TurnedOff? || (outcome.Refused? && |r.tokens| + 4 >= env.nCtx) ||
                (outcome.Exhausted? && mapper.Starves(r.tokens))
      ensures outcome.Exhausted? && mapper.maxSequences == 2 && old(prefilling) == [] && active == [] ==>
                old(mapper.Starves(r.tokens))
    {
      hide KVMapper.Starves, KVMapper.Roomy, Admitting, SettledFor, Longer, JobsOk, ClientsOk, KVMapper.ValidWith,
           AllReady, Work, StageOf, Sees, AsSeen, Cancelled, CoversAtMost;
      Settling([r] + rest);
      q, found := r, PrefixAvailability(0, 0, 0);
      if mapper.Starves(r.tokens) { mapper.StarvesAlone(r.tokens); }
      var seen := PollFirst(r, rest, flag);
      if seen {
        return TurnedOff, q, found;
      }
      var available := env.nCtx - |r.tokens| - 4;
      if available <= 0 {
        TurnAway(r, rest);
        return Refused, q, found;
      }
      if r.maxTokens > available {
        q := r.(maxTokens := available);
      }
      Clamping(r, q, rest);
      found := mapper.InspectPrefix(r.tokens);
      if found.pendingTokens - found.readyTokens > 0 {
        LongerSame(log);
        ghost var s := mapper.PendingOwner(r.tokens, found);
        BehindPrefill([q] + rest, s);
        return Deferred, q, found;
      }
      NoPrefillAhead([q] + rest, r.tokens, found);
      outcome := Start(q, rest);
    }

    lemma Clamping(r: Request, q: Request, rest: seq<Request>)
      requires Admitting([r] + rest) && env.nCtx - |r.tokens| - 4 > 0
      requires q == if r.maxTokens > env.nCtx - |r.tokens| - 4 then r.(maxTokens := env.nCtx - |r.tokens| - 4) else r
      ensures Admitting([q] + rest) && SameAsk(q, r, env)
    {
      hide JobsOk, ClientsOk, KVMapper.ValidWith, AllReady, SameAsk;
      Clamped(r, q, rest, prefilling + active, TheDesk(), env);
    }

    /** Where nothing pending goes beyond what is ready, no prefill does. */
    lemma NoPrefillAhead(waiting: seq<Request>, w: Word, found: PrefixAvailability)
      requires Admitting(waiting) && Sees(mapper.tree.links, mapper.tree.path, mapper.tree.own, w, found)
      requires found.pendingTokens <= found.readyTokens
      ensures forall j | j in prefilling ::
                CoversAtMost(mapper.tree.links, mapper.tree.path, mapper.tree.own, w, j.leafNode, found.readyTokens)
    {
      hide ClientsOk, KVMapper.ValidWith, AllReady, Sees;
      forall j | j in prefilling
        ensures CoversAtMost(mapper.tree.links, mapper.tree.path, mapper.tree.own, w, j.leafNode, found.readyTokens)
      {
        assert j in prefilling + active;
        assert JobOk(j, mapper.Snapshot(), map[], env);
        mapper.PendingSeen(w, found, j.seqId);
      }
    }

    lemma BehindPrefill(waiting: seq<Request>, s: SeqId)
      requires Admitting(waiting) && s in mapper.leaf && s !in mapper.Snapshot().ready
      ensures exists j :: j in prefilling && j.deltaStart < |j.delta|
    {
      hide JobsOk, ClientsOk, KVMapper.ValidWith, AllReady;
      UnreadyIsPrefill(prefilling, active, mapper.Snapshot(), env, s);
    }

    /** The first waiting request leaves if its client is seen to have cancelled. */
    method PollFirst(r: Request, ghost rest: seq<Request>, flag: bool) returns (seen: bool)
      requires Admitting([r] + rest)
      modifies this`log, this`inside
      ensures r.id in old(log) && old(log)[r.id] == [] && seen == flag
      ensures if seen then Admitting(rest) && log == old(log)[r.id := [Noticed]] && Cancelled([Noticed])
              else Admitting([r] + rest) && log == old(log)
      ensures Longer(old(log), log)
    {
      hide Longer, JobsOk, ClientsOk, KVMapper.ValidWith, AllReady, StageOf, Cancelled;
      ghost var jobs, d := prefilling + active, TheDesk();
      FirstWaits(r, rest, jobs, d, env);
      seen := IsCancelled(r.id, flag);
      LongerPoll(d.log, r.id, seen);
      if seen {
        Turned(r, rest, jobs, d, env, Noticed);
        inside := inside - {r.id};
      } else {
        assert log == d.log;
      }
    }

    /** The first waiting request does not fit the context. */
    method TurnAway(r: Request, ghost rest: seq<Request>)
      requires Admitting([r] + rest)
      modifies this`log, this`inside
      ensures Admitting(rest) && log == old(log)[r.id := [Failed(400)]] && StageOf([Failed(400)]).Ended?
      ensures Longer(old(log), log)
    {
      hide Longer, JobsOk, ClientsOk, KVMapper.ValidWith, AllReady, StageOf;
      ghost var d := TheDesk();
      Turned(r, rest, prefilling + active, d, env, Failed(400));
      log := log[r.id := [Failed(400)]];
      inside := inside - {r.id};
      LongerFirst(d.log, log, r.id);
    }

    /** An empty prompt has nothing to decode: its sequence is released and the client hears an error. */
    method TurnBack(prep: PrepareResult, q: Request, ghost rest: seq<Request>, ghost c: Cache)
      requires mapper.Quiet() && SettledFor([q] + rest, c)
      requires prep.Prepared? && prep.seqId !in c.leaf && mapper.leaf == c.leaf[prep.seqId := prep.leafNode]
      requires Agree(c, mapper.Snapshot(), c.leaf.Keys)
      modifies this`log, this`inside, mapper, mapper.tree
      ensures Admitting(rest) && q.id in log && StageOf(log[q.id]).Ended? && log[q.id] == [Failed(500)]
      ensures forall id | id in old(log) && id != q.id :: id in log && log[id] == old(log)[id]
      ensures Longer(old(log), log)
    {
      hide Longer, JobsOk, ClientsOk, KVMapper.ValidWith, AllReady, StageOf, Agree, SameStamps;
      ghost var jobs, d, c1 := prefilling + active, TheDesk(), mapper.Snapshot();
      mapper.Excused(prep.seqId);
      mapper.Finish(prep.seqId, prep.leafNode, prep.leafNode);
      GivenBack(c, c1, mapper.Snapshot(), prep.seqId, prep.leafNode);
      JobsCarry(jobs, c, mapper.Snapshot(), map[], env);
      Turned(q, rest, jobs, d, env, Failed(500));
      log := log[q.id := [Failed(500)]];
      inside := inside - {q.id};
      LongerFirst(d.log, log, q.id);
    }

    /** Prepare a request that has passed the checks. */
    method Start(q: Request, ghost rest: seq<Request>) returns (outcome: Outcome)
      requires Admitting([q] + rest) && |q.tokens| + 4 < env.nCtx && q.maxTokens <= env.nCtx - |q.tokens| - 4
      modifies this`prefilling, this`log, this`inside, mapper, mapper.tree
      ensures outcome.Exhausted? || outcome.Refused? || outcome.Started?
      ensures forall id | id in old(log) && id != q.id :: id in log && log[id] == old(log)[id]
      ensures outcome.Exhausted? ==> prefilling == old(prefilling) && Admitting([q] + rest)
      ensures outcome.Exhausted? && mapper.maxSequences >= 3 ==> |prefilling| + |active| > 0
      ensures outcome.Refused? ==>
                prefilling == old(prefilling) && Admitting(rest) && q.id in log && StageOf(log[q.id]).Ended?
      ensures outcome.Refused? ==> q.tokens == [] && log[q.id] == [Failed(500)]
      ensures outcome.Started? ==>
                && Admitting(rest) && |prefilling| == |old(prefilling)| + 1
                && old(prefilling) == prefilling[..|old(prefilling)|]
                && prefilling[|old(prefilling)|].req == q
                && Work(env, prefilling + active) < Work(env, old(prefilling) + active) + |q.tokens| + Limit(env, q) + 2
      ensures Longer(old(log), log)
      ensures old(mapper.Starves(q.tokens)) ==> outcome.Exhausted? && mapper.Starves(q.tokens)
      ensures old(mapper.Roomy()) ==>
                && !outcome.Exhausted?
                && (outcome.Started? ==>
                      Foretold(old(mapper.tree.links), old(mapper.tree.path), old(mapper.tree.own), q.tokens,
                               mapper.prefixCacheEnabled, prefilling[|old(prefilling)|].cachedPos))
      ensures outcome.Exhausted? && mapper.maxSequences == 2 && old(prefilling) == [] && active == [] ==>
                old(mapper.Starves(q.tokens))
      ensures !outcome.Refused? ==> log == old(log)
    {
      hide Admitting, SettledFor, Longer, KVMapper.ValidWith, AllReady, Work, StageOf, Limit, Agree, FreshlyPrepared,
           KVMapper.Starves, KVMapper.Roomy, Foretold;
      Settling([q] + rest);
      LongerSame(log);
      ghost var c := mapper.Snapshot();
      ghost var starving := mapper.Starves(q.tokens);
      if prefilling == [] && active == [] { NobodyLive([q] + rest); }
      if starving { mapper.StarvesAlone(q.tokens); }
      var prep, gone := Prepare(q.tokens);
      if prep.CapacityExhausted? {
        StillWaiting(q, rest, c);
        return Exhausted;
      }
      if prep.delta == [] {
        PreparedAgrees(c, mapper.Snapshot(), gone, prep, q.tokens);
        TurnBack(prep, q, rest, c);
        return Refused;
      }
      Join(prep, q, rest, c, gone);
      return Started;
    }

    lemma NobodyLive(waiting: seq<Request>)
      requires Admitting(waiting) && prefilling == [] && active == []
      ensures mapper.leaf == map[]
    {
      hide JobsOk, ClientsOk, KVMapper.ValidWith, AllReady;
      assert prefilling + active == [];
      SomeoneIsLive([], mapper.Snapshot(), map[], env);
    }

    /** Nothing has changed for the jobs, and if anybody is live there is one. */
    lemma StillWaiting(q: Request, rest: seq<Request>, c: Cache)
      requires mapper.Quiet() && SettledFor([q] + rest, c)
      requires mapper.leaf == c.leaf && Agree(c, mapper.Snapshot(), c.leaf.Keys)
      ensures Admitting([q] + rest) && (mapper.leaf != map[] ==> |prefilling| + |active| > 0)
    {
      hide JobsOk, ClientsOk, KVMapper.ValidWith, AllReady, Agree;
      JobsCarry(prefilling + active, c, mapper.Snapshot(), map[], env);
      SomeoneIsLive(prefilling + active, mapper.Snapshot(), map[], env);
    }

    /** The mapper's preparation, as far as jobs are concerned. */
    method Prepare(tokens: Word) returns (prep: PrepareResult, ghost gone: set<SeqId>)
      requires mapper.Quiet()
      modifies mapper, mapper.tree
      ensures mapper.Quiet()
      ensures prep.Prepared? ==>
                && FreshlyPrepared(old(mapper.Snapshot()), mapper.Snapshot(), gone, prep, tokens)
                && prep.delta == tokens[prep.cachedPos..] && (tokens != [] ==> prep.delta != [])
      ensures prep.CapacityExhausted? ==>
                && mapper.leaf == old(mapper.leaf) && Agree(old(mapper.Snapshot()), mapper.Snapshot(), mapper.leaf.Keys)
                && (mapper.maxSequences >= 3 ==> mapper.leaf != map[])
      ensures mapper.maxSequences == 2 && old(mapper.leaf) == map[] ==>
                (prep.CapacityExhausted? <==> old(mapper.Starves(tokens)))
      ensures old(mapper.Roomy()) ==>
                && prep.Prepared?
                && Foretold(old(mapper.tree.links), old(mapper.tree.path), old(mapper.tree.own), tokens,
                            mapper.prefixCacheEnabled, prep.cachedPos)
      ensures mapper.maxSequences == 2 && old(mapper.leaf) == map[] && prep.CapacityExhausted? ==>
                mapper.Starves(tokens)
    {
      hide KVMapper.ValidWith, AllReady, Cleared, Gone, Total, LongestSpelled, Reported, CachedPos, Agree, Spells,
           KVMapper.Starves, Foretold;
      ghost var c, home, cells := mapper.Snapshot(), mapper.home, mapper.cellCounts;
      ghost var hit: Hit;
      ghost var clear: Clearing;
      prep, gone, hit, clear := mapper.PrepareSequence(tokens);
      if prep.CapacityExhausted? {
        ExhaustedAgrees(c, mapper.Snapshot(), gone, home, cells, mapper.home, mapper.cellCounts);
      }
    }

    /** A prepared request becomes the last of the prefills. */
    method Join(prep: PrepareResult, q: Request, ghost rest: seq<Request>, ghost c: Cache, ghost gone: set<SeqId>)
      requires mapper.Quiet() && FreshlyPrepared(c, mapper.Snapshot(), gone, prep, q.tokens)
      requires prep.delta == q.tokens[prep.cachedPos..] && prep.delta != []
      requires SettledFor([q] + rest, c)
      requires |q.tokens| + 4 < env.nCtx && q.maxTokens <= env.nCtx - |q.tokens| - 4
      modifies this`prefilling
      ensures Admitting(rest) && |prefilling| == |old(prefilling)| + 1
      ensures old(prefilling) == prefilling[..|old(prefilling)|]
      ensures prefilling[|old(prefilling)|] ==
                Prefilling(q, prep.seqId, prep.leafNode, q.tokens, prep.cachedPos, prep.delta, 0)
      ensures Work(env, prefilling + active) < Work(env, old(prefilling) + active) + |q.tokens| + Limit(env, q) + 2
    {
      hide JobsOk, ClientsOk, KVMapper.ValidWith, AllReady, Work, JobWork, JobOk, Limit, Agree, Cleared;
      var x := Prefilling(q, prep.seqId, prep.leafNode, q.tokens, prep.cachedPos, prep.delta, 0);
      PreparedAgrees(c, mapper.Snapshot(), gone, prep, q.tokens);
      JustPrepared(x, c, mapper.Snapshot(), gone, env, prep);
      JobJoins(prefilling, x, active, c, mapper.Snapshot(), map[], env);
      WaiterStarts(q, rest, prefilling, x, active, TheDesk(), env);
      WorkAround(env, prefilling, x, active);
      prefilling := prefilling + [x];
    }

    /** After the ids have run out, every remaining request that is not cancelled goes back as it is. */
    method QueueRest(reqs: seq<Request>, k0: nat, queued0: seq<Request>, ghost deferred: seq<Request>,
                     ghost s0: Sorting, flags: Flags)
      returns (queued: seq<Request>, ghost s: Sorting)
      requires k0 <= |reqs| && Admitting(reqs[k0..] + queued0 + (deferred + queue)) && Sorted(reqs[..k0], s0)
      requires Told(s0, log)
      requires s0.queued == queued0 && s0.deferred == deferred && Sifted(s0, flags)
      modifies this`log, this`inside
      ensures Admitting(queued + deferred + queue) && queued0 <= queued
      ensures Sorted(reqs, s) && Told(s, log) && s.queued == queued && s.prepared == s0.prepared
      ensures s.deferred == deferred && Sifted(s, flags) && QueueSame(reqs, old(log), log)
      ensures Backlog(env, queued) + |s.cancelled| + |s.refused| <=
              Backlog(env, queued0) + Backlog(env, reqs[k0..]) + |s0.cancelled| + |s0.refused|
      ensures Longer(old(log), log)
      ensures k0 == |reqs| ==> queued == queued0 && s == s0 && log == old(log)
    {
      hide Longer, JobsOk, ClientsOk, KVMapper.ValidWith, AllReady, Backlog, Sorted, Told, StageOf, Sifted, QueueSame;
      LongerSame(log);
      NoneHeard(reqs, log);
      queued, s := queued0, s0;
      var k := k0;
      while k < |reqs|
        invariant k0 <= k <= |reqs| && Admitting(reqs[k..] + queued + (deferred + queue)) && queued0 <= queued
        invariant Sorted(reqs[..k], s) && Told(s, log) && s.queued == queued && s.prepared == s0.prepared
        invariant s.deferred == deferred && Sifted(s, flags) && QueueSame(reqs, old(log), log)
        invariant k0 == |reqs| ==> queued == queued0 && s == s0 && log == old(log)
        invariant Longer(old(log), log)
        invariant Backlog(env, queued) + Backlog(env, reqs[k..]) + |s.cancelled| + |s.refused| <=
                  Backlog(env, queued0) + Backlog(env, reqs[k0..]) + |s0.cancelled| + |s0.refused|
      {
        var r := reqs[k];
        ghost var rest := reqs[k + 1..] + queued + (deferred + queue);
        assert reqs[k..] == [r] + reqs[k + 1..] && reqs[k..] + queued + (deferred + queue) == [r] + rest;
        assert reqs[..k + 1] == reqs[..k] + [r];
        BacklogConcat(env, [r], reqs[k + 1..]);
        BacklogConcat(env, queued, [r]);
        BacklogOne(env, r);
        ghost var log0 := log;
        var seen := PollWaiter(r, rest, s, flags(r.id));
        LongerTrans(old(log), log0, log);
        StillSame(reqs, [r], old(log), log0, log);
        SortedMore(reqs[..k], r, s, if seen then TurnedOff else Exhausted, r, []);
        if !seen {
          MoveBehind(r, reqs[k + 1..], queued, deferred + queue, prefilling + active, TheDesk(), env);
          queued := queued + [r];
        }
        SiftedMore(s, flags, if seen then TurnedOff else Exhausted, r, []);
        s := Put(s, if seen then TurnedOff else Exhausted, r, []);
        k := k + 1;
      }
      assert reqs[k..] == [] && reqs[..k] == reqs;
      assert [] + queued + (deferred + queue) == queued + deferred + queue;
      BacklogNothing(env);
    }

    method PollWaiter(r: Request, ghost rest: seq<Request>, ghost s: Sorting, flag: bool) returns (seen: bool)
      requires Admitting([r] + rest) && Told(s, log)
      modifies this`log, this`inside
      ensures seen ==> Admitting(rest)
      ensures !seen ==> Admitting([r] + rest)
      ensures Told(Put(s, if seen then TurnedOff else Exhausted, r, []), log)
      ensures Longer(old(log), log) && seen == flag && QueueSame([r], old(log), log)
    {
      hide Longer, Admitting, Told, Cancelled;
      ghost var log0 := log;
      seen := PollFirst(r, rest, flag);
      ToldMore(s, log0, log, if seen then TurnedOff else Exhausted, r, []);
    }

    /** Admit the `i`th request and note where it went. */
    method Handle(reqs: seq<Request>, i: nat, ghost deferred: seq<Request>, ghost s: Sorting, flags: Flags)
      returns (outcome: Outcome, q: Request, ghost s1: Sorting)
      requires i < |reqs| && Admitting(reqs[i..] + deferred + queue) && Sorted(reqs[..i], s) && Told(s, log)
      requires Sifted(s, flags)
      modifies this`prefilling, this`log, this`inside, mapper, mapper.tree
      ensures Sorted(reqs[..i + 1], s1) && Told(s1, log)
      ensures |old(prefilling)| <= |prefilling| && old(prefilling) == prefilling[..|old(prefilling)|]
      ensures |prefilling| == |old(prefilling)| + if outcome.Started? then 1 else 0
      ensures s1 == Put(s, outcome, q, prefilling[|old(prefilling)|..])
      ensures outcome.Exhausted? ==> Admitting(reqs[i + 1..] + [q] + (deferred + queue))
      ensures outcome.Exhausted? && mapper.maxSequences >= 3 ==> |prefilling| + |active| > 0
      ensures outcome.Deferred? ==> |prefilling| > 0 && Admitting(reqs[i + 1..] + (deferred + [q]) + queue)
      ensures outcome.Started? || outcome.Refused? || outcome.TurnedOff? ==> Admitting(reqs[i + 1..] + deferred + queue)
      ensures Work(env, prefilling + active) +
              (if outcome.Exhausted? || outcome.Deferred? then Backlog(env, [q]) else 1)
              <= Work(env, old(prefilling) + active) + Backlog(env, [reqs[i]])
      ensures Longer(old(log), log)
      ensures old(mapper.Starves(reqs[i].tokens)) && |reqs[i].tokens| + 4 < env.nCtx ==>
                outcome.TurnedOff? || (outcome.Exhausted? && mapper.Starves(reqs[i].tokens) && log == old(log))
      ensures outcome.Exhausted? && mapper.maxSequences == 2 && old(prefilling) == [] && active == [] ==>
                old(mapper.Starves(reqs[i].tokens)) && |reqs[i].tokens| + 4 < env.nCtx
      ensures SameAsk(q, reqs[i], env) && Sifted(s1, flags) && (outcome.TurnedOff? <==> flags(reqs[i].id))
      ensures outcome.TurnedOff? ==> reqs[i].id in log && Cancelled(log[reqs[i].id])
      ensures QueueSame([reqs[i]], old(log), log)
    {
      hide KVMapper.Starves, Longer, JobsOk, ClientsOk, KVMapper.ValidWith, AllReady, Backlog, Sorted, Told, StageOf,
           Work, Limit, SameAsk, Cancelled, Sees, Put, Sifted, AsSeen, CoversAtMost;
      var r := reqs[i];
      ghost var rest := reqs[i + 1..] + deferred + queue;
      assert reqs[i..] + deferred + queue == [r] + rest && reqs[..i + 1] == reqs[..i] + [r];
      ghost var log0 := log;
      var found: PrefixAvailability;
      outcome, q, found := PrepareOne(r, rest, flags(r.id));
      SameBacklog(env, q, r);
      BacklogOne(env, r);
      BacklogOne(env, q);
      ghost var x := prefilling[|old(prefilling)|..];
      SortedMore(reqs[..i], r, s, outcome, q, x);
      ToldMore(s, log0, log, outcome, q, x);
      SiftedMore(s, flags, outcome, q, x);
      s1 := Put(s, outcome, q, x);
      if outcome.Exhausted? {
        assert [q] + (reqs[i + 1..] + [] + (deferred + queue)) == [q] + rest;
        MoveBehind(q, reqs[i + 1..], [], deferred + queue, prefilling + active, TheDesk(), env);
        assert [] + [q] == [q];
      }
      if outcome.Deferred? {
        MoveBehind(q, reqs[i + 1..], deferred, queue, prefilling + active, TheDesk(), env);
      }
    }

    /** A sole starving request was found cancelled, or is put back with nothing changed for it. */
    ghost predicate SoleOutcome(r: Request, queued: seq<Request>, log0: map<nat, Log>)
      reads this, mapper, mapper.tree
    {
      || (queued == [] && r.id in log && Cancelled(log[r.id]))
      || (|queued| == 1 && SameAsk(queued[0], r, env) && log == log0 && mapper.Starves(r.tokens))
    }

    /** Each request is prepared, deferred behind a running prefill, put back for lack of ids, refused, or
        found cancelled; exactly one of these. */
    method PrepareAll(reqs: seq<Request>, flags: Flags)
      returns (deferred: seq<Request>, queued: seq<Request>, ghost s: Sorting)
      requires Admitting(reqs + queue)
      modifies this`prefilling, this`log, this`inside, mapper, mapper.tree
      ensures Admitting(queued + deferred + queue) && old(prefilling) <= prefilling
      ensures Sorted(reqs, s) && Told(s, log) && s.prepared == prefilling[|old(prefilling)|..] && s.deferred == deferred
      ensures s.queued == queued
      ensures |deferred| > 0 ==> |prefilling| > 0
      ensures |queued| > 0 && mapper.maxSequences >= 3 ==> |prefilling| + |active| > 0
      ensures Work(env, prefilling + active) + Backlog(env, queued) + Backlog(env, deferred) + |s.prepared| +
              |s.refused| + |s.cancelled|
              <= Work(env, old(prefilling) + active) + Backlog(env, reqs)
      ensures Longer(old(log), log) && Sifted(s, flags) && QueueSame(reqs, old(log), log)
      ensures |reqs| == 1 && old(mapper.Starves(reqs[0].tokens)) && |reqs[0].tokens| + 4 < env.nCtx ==>
                deferred == [] && prefilling == old(prefilling) && SoleOutcome(reqs[0], queued, old(log))
      ensures |reqs| == 1 && queued != [] && mapper.maxSequences == 2 && old(prefilling) == [] && active == [] ==>
                old(mapper.Starves(reqs[0].tokens)) && |reqs[0].tokens| + 4 < env.nCtx
    {
      hide KVMapper.Starves, Cancelled, SameAsk, Longer, Admitting, Backlog, Sorted, Told, Work, Sifted, QueueSame;
      LongerSame(log);
      deferred, queued, s := [], [], Sorting([], [], [], [], []);
      NothingSorted(log);
      NothingSifted(flags);
      NoneHeard(reqs, log);
      BacklogNothing(env);
      var i := 0;
      assert reqs[i..] + deferred + queue == reqs + queue && reqs[i..] == reqs && reqs[..i] == [];
      while i < |reqs|
        invariant 0 <= i <= |reqs| && Admitting(reqs[i..] + deferred + queue)
        invariant |old(prefilling)| <= |prefilling| && old(prefilling) == prefilling[..|old(prefilling)|]
        invariant Longer(old(log), log) && QueueSame(reqs, old(log), log)
        invariant i == 0 ==>
                  && deferred == [] && log == old(log) && prefilling == old(prefilling) && unchanged(mapper)
                  && unchanged(mapper.tree)
        invariant i == 1 && old(mapper.Starves(reqs[0].tokens)) && |reqs[0].tokens| + 4 < env.nCtx ==>
                    deferred == [] && prefilling == old(prefilling) && reqs[0].id in log && Cancelled(log[reqs[0].id])
        invariant Sorted(reqs[..i], s) && Told(s, log) && Sifted(s, flags)
        invariant s.prepared == prefilling[|old(prefilling)|..] && s.deferred == deferred && s.queued == queued == []
        invariant |deferred| > 0 ==> |prefilling| > 0
        invariant Work(env, prefilling + active) + Backlog(env, reqs[i..]) + Backlog(env, deferred)
                  + |s.prepared| + |s.refused| + |s.cancelled| <=
                    Work(env, old(prefilling) + active) + Backlog(env, reqs)
      {
        assert reqs[i..] == [reqs[i]] + reqs[i + 1..];
        BacklogConcat(env, [reqs[i]], reqs[i + 1..]);
        ghost var log0 := log;
        var outcome, q, s1 := Handle(reqs, i, deferred, s, flags);
        LongerTrans(old(log), log0, log);
        StillSame(reqs, [reqs[i]], old(log), log0, log);
        BacklogConcat(env, deferred, [q]);
        if outcome.Exhausted? {
          ghost var log1 := log;
          queued, s := QueueRest(reqs, i + 1, [q], deferred, s1, flags);
          LongerTrans(old(log), log1, log);
          StillSame(reqs, reqs, old(log), log1, log);
          return;
        }
        if outcome.Deferred? {
          deferred := deferred + [q];
        }
        s := s1;
        i := i + 1;
      }
      assert reqs[i..] == [] && reqs[..i] == reqs && [] + deferred + queue == [] + deferred + queue;
    }

    // ---------------------------------------------------------------- the loop

    /** A new request arrives. */
    method Enqueue(r: Request)
      requires Settled() && r.id !in log
      modifies this`queue, this`log, this`asked, this`inside
      ensures Settled() && queue == old(queue) + [r] && log == old(log)[r.id := []] && asked == old(asked)[r.id := r]
      ensures Longer(old(log), log)
    {
      hide Longer, JobsOk, ClientsOk, KVMapper.ValidWith, AllReady;
      Arrives(r, queue, prefilling + active, TheDesk(), env);
      LongerNew(log, r.id);
      queue := queue + [r];
      log := log[r.id := []];
      asked := asked[r.id := r];
      inside := inside + {r.id};
    }

    /** Take requests off the queue as far as the sequence ids could suffice. */
    method Admit() returns (admitted: seq<Request>)
      requires Settled()
      modifies this`queue
      ensures Admitting(admitted + queue) && Backlog(env, admitted) + Backlog(env, queue) == Backlog(env, old(queue))
      ensures admitted + queue == old(queue)
      ensures queue == [] || |active| + |prefilling| + |admitted| >= maxGenerating
      ensures admitted == [] || |active| + |prefilling| + |admitted| <= maxGenerating
    {
      hide JobsOk, ClientsOk, KVMapper.ValidWith, AllReady, Backlog;
      admitted := [];
      assert admitted + queue == queue;
      while queue != [] && |active| + |prefilling| + |admitted| < maxGenerating
        invariant admitted + queue == old(queue) && Admitting(admitted + queue)
        invariant admitted == [] || |active| + |prefilling| + |admitted| <= maxGenerating
        decreases |queue|
      {
        assert admitted + queue == admitted + [queue[0]] + queue[1..];
        admitted := admitted + [queue[0]];
        queue := queue[1..];
      }
      BacklogConcat(env, admitted, queue);
    }

    /** Put requests back at the front of the queue, in their order. */
    method DeferToFront(retry: seq<Request>)
      modifies this`queue
      ensures queue == retry + old(queue)
    {
      var i := |retry|;
      while i > 0
        invariant 0 <= i <= |retry| && queue == retry[i..] + old(queue)
      {
        i := i - 1;
        queue := [retry[i]] + queue;
      }
    }

    method PutBack(retry: seq<Request>)
      requires Admitting(retry + queue)
      modifies this`queue
      ensures Settled() && queue == retry + old(queue)
    {
      hide JobsOk, ClientsOk, KVMapper.ValidWith, AllReady;
      DeferToFront(retry);
    }

    /** One usable id, no job, and at the front of the queue a request that fits the context but starves. */
    ghost predicate Stuck()
      reads this, mapper, mapper.tree
    {
      && prefilling == [] && active == [] && queue != [] && maxGenerating == 1
      && |queue[0].tokens| + 4 < env.nCtx && mapper.Starves(queue[0].tokens)
    }

    /** There is no job, and the request at the front of the queue can not become one. */
    ghost predicate Jammed()
      reads this, mapper, mapper.tree
    {
      Stuck() || (prefilling == [] && active == [] && queue != [] && maxGenerating <= 0)
    }

    /** How much is left to do. */
    function ToDo(): nat
      reads this
    {
      Work(env, prefilling + active) + Backlog(env, queue)
    }

    /** One turn of the worker loop.  What goes back to the queue goes to its front, in the order of admission,
        requests without an id before deferred ones.  With room in the batch a turn leaves less to do unless the
        worker is jammed.  With one usable id a stuck worker stays stuck until the request at the front is cancelled,
        and with none nothing is ever admitted. */
    method RunOnce(o: Chance)
      returns (ghost admitted: seq<Request>, ghost queued: seq<Request>, ghost deferred: seq<Request>, ghost s: Sorting,
               ghost mid: map<nat, Log>, ghost b: Between)
      requires Settled()
      modifies this`queue, this`prefilling, this`active, this`log, this`inside, mapper, mapper.tree
      ensures Settled()
      ensures admitted <= old(queue) && queue == queued + deferred + old(queue)[|admitted|..]
      ensures InputOrder(Ids(queued), Ids(admitted)) && InputOrder(Ids(deferred), Ids(admitted))
      ensures |admitted| == |old(queue)| || |old(active)| + |old(prefilling)| + |admitted| >= maxGenerating
      ensures admitted == [] || |old(active)| + |old(prefilling)| + |admitted| <= maxGenerating
      ensures Sorted(admitted, s) && Sifted(s, o.waiting) && s.queued == queued && s.deferred == deferred
      ensures Longer(old(log), mid) && QueueSame(admitted, old(log), mid) && Told(s, mid)
      ensures Fused(env, nBatch, old(prefilling) + s.prepared, old(active), mid, prefilling, active, log, o, b)
      ensures ToDo() <= old(ToDo())
      ensures (&& maxGenerating == mapper.maxSequences - 1 && !old(Jammed())
               && (old(queue) != [] || old(prefilling) + old(active) != [])) ==>
                ToDo() < old(ToDo()) || (nBatch < 1 && prefilling + active != [])
      ensures Longer(old(log), log)
      ensures old(Stuck()) ==> FrontWaits(old(queue), old(log))
      ensures old(Jammed()) ==> prefilling == [] && active == []
      ensures maxGenerating <= 0 && old(prefilling) == [] && old(active) == [] ==>
                queue == old(queue) && log == old(log)
    {
      hide Longer, Admitting, Backlog, Work, KVMapper.Starves, SameAsk, Cancelled, InputOrder, Ids, Sorted, Told,
           Sifted, QueueSame, Fused;
      admitted, queued, deferred, s := Intake(o.waiting);
      mid := log;
      var decoded, status, swept, prompts, jobs := FusedStep(o);
      b := Between(decoded, status, swept, prompts, jobs);
      LongerTrans(old(log), mid, log);
    }

    /** The first half of a turn: admit requests, prepare them, and put back those that have to wait. */
    method Intake(flags: Flags)
      returns (ghost admitted: seq<Request>, ghost queued: seq<Request>, ghost deferred: seq<Request>, ghost s: Sorting)
      requires Settled()
      modifies this`queue, this`prefilling, this`log, this`inside, mapper, mapper.tree
      ensures Settled() && Longer(old(log), log)
      ensures admitted <= old(queue) && queue == queued + deferred + old(queue)[|admitted|..]
      ensures InputOrder(Ids(queued), Ids(admitted)) && InputOrder(Ids(deferred), Ids(admitted))
      ensures |admitted| == |old(queue)| || |active| + |old(prefilling)| + |admitted| >= maxGenerating
      ensures admitted == [] || |active| + |old(prefilling)| + |admitted| <= maxGenerating
      ensures Sorted(admitted, s) && Told(s, log) && Sifted(s, flags) && QueueSame(admitted, old(log), log)
      ensures s.queued == queued && s.deferred == deferred && prefilling == old(prefilling) + s.prepared
      ensures ToDo() <= old(ToDo())
      ensures maxGenerating == mapper.maxSequences - 1 && !old(Jammed()) && old(queue) != [] ==>
                prefilling + active == [] ==> ToDo() < old(ToDo())
      ensures old(prefilling) <= prefilling
      ensures old(Stuck()) ==> FrontWaits(old(queue), old(log)) && prefilling == []
      ensures maxGenerating <= 0 && old(prefilling) == [] && active == [] ==>
                queue == old(queue) && log == old(log) && prefilling == []
    {
      hide Longer, Admitting, Backlog, Work, Sorted, Told, Sifted, QueueSame, KVMapper.Starves, SameAsk, Cancelled,
           InputOrder, Ids;
      LongerSame(log);
      ghost var queue0 := queue;
      var batch := Admit();
      admitted, queued, deferred := batch, [], [];
      ghost var behind, stuck := queue, old(Stuck());
      assert batch + behind == queue0 && batch <= queue0 && behind == queue0[|batch|..];
      assert stuck ==> batch == [queue0[0]] && behind == queue0[1..] && mapper.Starves(batch[0].tokens);
      ghost var one := mapper.maxSequences == 2 && maxGenerating == 1 && !stuck && queue0 != [] &&
                       prefilling == [] && active == [];
      assert one ==> |batch| == 1 && batch[0] == queue0[0];
      OrderNobody(admitted);
      s := Sorting([], [], [], [], []);
      NothingSorted(log);
      NothingSifted(flags);
      NoneHeard(batch, log);
      assert [] + queue == queue && [] + [] + behind == behind && prefilling + [] == prefilling;
      BacklogNothing(env);
      if batch != [] {
        queued, deferred, s := Place(batch, flags, one);
        if stuck { StaysInFront(queue0, old(log), behind, queued); }
      }
    }

    /** Prepare what was admitted, and put back what has to wait. */
    method Place(batch: seq<Request>, flags: Flags, ghost one: bool)
      returns (ghost queued: seq<Request>, ghost deferred: seq<Request>, ghost s: Sorting)
      requires batch != [] && Admitting(batch + queue)
      requires one ==> && |batch| == 1 && mapper.maxSequences == 2 && prefilling == [] && active == []
                       && (mapper.Starves(batch[0].tokens) ==> |batch[0].tokens| + 4 >= env.nCtx)
      modifies this`queue, this`prefilling, this`log, this`inside, mapper, mapper.tree
      ensures Settled() && Longer(old(log), log) && queue == queued + deferred + old(queue)
      ensures InputOrder(Ids(queued), Ids(batch)) && InputOrder(Ids(deferred), Ids(batch))
      ensures Sorted(batch, s) && Told(s, log) && Sifted(s, flags) && QueueSame(batch, old(log), log)
      ensures s.queued == queued && s.deferred == deferred && prefilling == old(prefilling) + s.prepared
      ensures Work(env, prefilling + active) + Backlog(env, queue) <=
                Work(env, old(prefilling) + active) + Backlog(env, batch) + Backlog(env, old(queue))
      ensures (mapper.maxSequences >= 3 || one) && prefilling + active == [] ==>
                Work(env, prefilling + active) + Backlog(env, queue) <
                  Work(env, old(prefilling) + active) + Backlog(env, batch) + Backlog(env, old(queue))
      ensures |batch| == 1 && old(mapper.Starves(batch[0].tokens)) && |batch[0].tokens| + 4 < env.nCtx ==>
                deferred == [] && prefilling == old(prefilling) && SoleOutcome(batch[0], queued, old(log))
    {
      hide Longer, Admitting, Backlog, Work, Sorted, Told, Sifted, QueueSame, KVMapper.Starves, SameAsk, Cancelled,
           InputOrder, Ids;
      SomeBacklog(env, batch);
      var put, back, sorted := PrepareAll(batch, flags);
      s, deferred, queued := sorted, put, back;
      assert one ==> back == [];
      BacklogNothing(env);
      BacklogConcat(env, queued + deferred, queue);
      BacklogConcat(env, queued, deferred);
      SortedSome(batch, s);
      SortedOrder(batch, s);
      PutBack(back + put);
    }

    /** After a stuck worker has dealt with its front request, that request is cancelled or in front as before. */
    lemma StaysInFront(queue0: seq<Request>, log0: map<nat, Log>, behind: seq<Request>, queued: seq<Request>)
      requires queue0 != [] && behind == queue0[1..] && queue == queued + [] + behind && prefilling == []
      requires active == []
      requires maxGenerating == 1 && |queue0[0].tokens| + 4 < env.nCtx && SoleOutcome(queue0[0], queued, log0)
      ensures FrontWaits(queue0, log0)
    {
      hide KVMapper.Starves, Cancelled, Limit;
      if queued == [] {
        assert queue == behind;
      } else {
        assert queue[0] == queued[0] && queue[1..] == behind;
      }
    }

    /** The request at the front of `queue0` is cancelled, or the worker is stuck with it as before. */
    ghost predicate FrontWaits(queue0: seq<Request>, log0: map<nat, Log>)
      requires queue0 != []
      reads this, mapper, mapper.tree
    {
      || (queue == queue0[1..] && queue0[0].id in log && Cancelled(log[queue0[0].id]))
      || (Stuck() && |queue| == |queue0| && queue[1..] == queue0[1..] && SameAsk(queue[0], queue0[0], env) &&
          log == log0)
    }

    /** However many turns a stuck worker takes, the request at its front is cancelled or still there, having heard
        nothing, and nobody behind it has been served. */
    method TurnInVain(turns: nat)
      requires Settled() && Stuck()
      modifies this`queue, this`prefilling, this`active, this`log, this`inside, mapper, mapper.tree
      ensures Settled() && FrontWaits(old(queue), old(log))
    {
      hide Longer, Admitting, Work, Backlog, KVMapper.Starves, Cancelled, InputOrder;
      var n, k := |queue|, 0;
      while k < turns
        invariant Settled() && Stuck() && n == |queue| == |old(queue)| && queue[1..] == old(queue)[1..]
        invariant SameAsk(queue[0], old(queue)[0], env) && log == old(log)
      {
        var o: Chance := *;
        var admitted, queued, deferred, s, mid, b := RunOnce(o);
        if |queue| < n { return; }
        k := k + 1;
      }
    }

    // ---------------------------------------------------------------- a run in which a notice follows the end

    /** A sole request for two tokens whose prompt is one token, seen by no poll to be cancelled, starts and hears its
        first piece. */
    method FirstPiece(r: Request)
      requires Settled() && queue == [r] && prefilling == [] && active == [] && mapper.maxSequences >= 3
      requires maxGenerating >= 1
      requires nBatch >= 1 && env.nCtx >= 8 && |r.tokens| == 1 && r.maxTokens == 2
      requires !env.isEog(env.sample(r.id, r.tokens))
      modifies this`queue, this`prefilling, this`active, this`log, this`inside, mapper, mapper.tree
      ensures Settled() && queue == [] && prefilling == [] && |active| == 1
      ensures var token, x := env.sample(r.id, r.tokens), active[0];
              && x.Generating? && x.req.id == r.id && x.cachedTokens == r.tokens && x.nextToken == token
              && x.remaining == 1
              && log == old(log)[r.id := [Piece(token)]]
    {
      hide Longer, Admitting, Work, Sees, KVMapper.Starves;
      var admitted := Admit();
      assert admitted == [r] && queue == [] && [r] + [] + [] == [r] && [r] + [] == [r];
      var outcome, q, found := PrepareOne(r, [], false);
      Decodable();
      assert outcome == Started && |prefilling| == 1 && prefilling[0].req == q;
      AnswerPrompt();
      assert [] + [Piece(env.sample(r.id, r.tokens))] == [Piece(env.sample(r.id, r.tokens))];
    }

    lemma Decodable()
      requires Settled()
      ensures forall j | j in prefilling ::
                j.Prefilling? && j.req.tokens == j.tokens && |j.delta| <= |j.tokens| && j.deltaStart < |j.delta|
    {
      forall j | j in prefilling ensures JobOk(j, mapper.Snapshot(), map[], env) && JobTrue(j, TheDesk(), env) {
        assert j in prefilling + active;
      }
    }

    /** The only job is a prompt with one token to decode, which is answered with a piece. */
    method AnswerPrompt()
      requires Settled() && |prefilling| == 1 && active == [] && nBatch >= 1
      requires var x := prefilling[0];
               && x.Prefilling? && |x.delta| == x.deltaStart + 1 && x.req.maxTokens > 1
               && !env.isEog(env.sample(x.req.id, x.tokens))
               && x.req.id in log && !Cancelled(log[x.req.id])
      modifies this`prefilling, this`active, this`log, this`inside, mapper, mapper.tree
      ensures Settled() && prefilling == []
      ensures var x := old(prefilling)[0];
              var token := env.sample(x.req.id, x.tokens);
              active == [Begun(x, token)] && log == old(log)[x.req.id := old(log)[x.req.id] + [Piece(token)]]
    {
      hide Longer, JobsOk, ClientsOk, KVMapper.ValidWith, AllReady, Work, Planned, AllOwed, DebtsOf, Cancelled,
           HasLogits, Advanced;
      ghost var p := prefilling;
      assert p[0] in prefilling;
      var batch, subs, plans := BuildBatch();
      SomethingPlanned(prefilling, active, batch, subs, plans);
      PartsPlanned(prefilling, active, batch, subs, plans);
      var status, views := DecodeStep(batch, subs, plans, 0, 0);
      var logitAt, owed := RecordPrefills(subs, DebtsOf(plans), batch, views);
      NoneAdvanced(p);
      OneAdvanced(p, subs, 0);
      assert subs[..0] == [] && subs[..1] == subs;
      NothingOwed(prefilling, active, subs, owed, batch, views);
      CompletePrefill(0, logitAt[0], batch, views, false);
    }

    /** A generation that has one token to go hears it as the last piece.  If its client's flag is first seen set by the
        poll before the job is retired, the notice comes after that. */
    method LastThenNotice()
      requires Settled() && prefilling == [] && |active| == 1 && active[0].remaining == 1 && nBatch >= 1
      requires active[0].req.id in log && !Cancelled(log[active[0].req.id]) && !env.isEog(Drawn(env, active[0]))
      modifies this`prefilling, this`active, this`log, this`inside, mapper, mapper.tree
      ensures Settled() && prefilling == [] && active == []
      ensures var x := old(active)[0];
              && log == old(log)[x.req.id := old(log)[x.req.id] + [Last(Drawn(env, x)), Noticed]]
              && StageOf(log[x.req.id]) == EndedThenDropped
    {
      hide Longer, JobsOk, ClientsOk, KVMapper.ValidWith, AllReady, Work, Planned, AllOwed, DebtsOf, StageOf, Advanced,
           DueActive, RecordLog, RetireLog;
      ghost var x, log0 := active[0], log;
      assert x in active;
      StillOpen(queue, prefilling, active, TheDesk(), env);
      var batch, subs, plans := BuildBatch();
      PartsPlanned(prefilling, active, batch, subs, plans);
      NoneAdvanced([]);
      var status, views := DecodeStep(batch, subs, plans, 0, 0);
      var logitAt, owed := RecordPrefills(subs, DebtsOf(plans), batch, views);
      assert active == [x] && prefilling == [];
      NextActive(prefilling, active, subs, 0, owed, batch, views);
      ghost var c := mapper.Snapshot();
      var p := Polls(false, false, true, false, false);
      NoticeExactly(env, x, log0[x.req.id], p);
      RecordActive(0, owed, batch, views, p);
      ActiveSettled(prefilling, [x], subs, 0, owed, batch, views, active[0], c, env);
      NothingOwed(prefilling, active, subs, owed - {x.seqId}, batch, views);
      RetireOne(0, true, p);
      assert log[x.req.id] == StepLog(env, x, log0[x.req.id], p);
    }

    /** Any sequence of arrivals and turns.  In every state it can lead to the cache agrees with the tree and
        with the jobs, every client has been told only what the cold computation says, and whoever has left
        has been told the end or is cancelled. */
    method Serve(script: seq<Action>)
      requires Settled()
      modifies this`queue, this`prefilling, this`active, this`log, this`asked, this`inside, mapper, mapper.tree
      ensures Settled() && mapper.Quiet()
      ensures forall id | id in log ::
                && id in asked && TrueTo(log[id], asked[id], env) && Allowed(log[id])
                && Plainly(log[id], asked[id], env)
                && (id !in inside ==> Over(log[id]))
      ensures Longer(old(log), log)
    {
      hide Longer, JobsOk, ClientsOk, KVMapper.ValidWith, AllReady, Backlog, Work, Plainly, TrueTo, Allowed, Over;
      LongerSame(log);
      var k := 0;
      while k < |script|
        invariant 0 <= k <= |script| && Settled() && Longer(old(log), log)
      {
        ghost var log0 := log;
        LongerSame(log);
        match script[k] {
          case Arrive(r) => if r.id !in log { Enqueue(r); }
          case Turn(o) => var admitted, queued, deferred, s, mid, b := RunOnce(o);
        }
        LongerTrans(old(log), log0, log);
        k := k + 1;
      }
      ClientsServed(queue, prefilling + active, TheDesk(), env);
    }

    /** The worker stops: everything in use is released and nobody is told anything more. */
    method Shutdown()
      requires Settled()
      modifies this`prefilling, this`active, mapper, mapper.tree
      ensures prefilling == [] && active == [] && mapper.Quiet() && mapper.leaf == map[]
    {
      hide JobsOk, ClientsOk, KVMapper.ValidWith, AllReady;
      while active != []
        invariant mapper.Quiet() && JobsOk(prefilling + active, mapper.Snapshot(), map[], env)
        decreases |active|
      {
        SpliceSecond(prefilling, active, 0, active[0]);
        Release(map[], prefilling + active[..0], active[0], active[1..]);
        active := active[..0] + active[1..];
      }
      while prefilling != []
        invariant active == [] && mapper.Quiet() && JobsOk(prefilling + active, mapper.Snapshot(), map[], env)
        decreases |prefilling|
      {
        SpliceFirst(prefilling, active, 0, prefilling[0]);
        Release(map[], prefilling[..0], prefilling[0], prefilling[1..] + active);
        prefilling := prefilling[..0] + prefilling[1..];
      }
      assert prefilling + active == [];
      SomeoneIsLive([], mapper.Snapshot(), map[], env);
    }

    /** Without new arrivals everything admitted or queued is worked off in finitely many turns, every client has heard
        the end or is cancelled, all it heard is true, and no sequence stays in use; or a turn leaves as much to do as
        there was, and then the worker is jammed, or has no room for any entry in a batch.  With room for one and two
        usable ids it always drains. */
    method Drain() returns (jammed: bool)
      requires Settled() && maxGenerating == mapper.maxSequences - 1
      modifies this`queue, this`prefilling, this`active, this`log, this`inside, mapper, mapper.tree
      ensures Settled() && (jammed ==> Jammed() || (nBatch < 1 && prefilling + active != []))
      ensures mapper.maxSequences >= 3 && nBatch >= 1 ==> !jammed
      ensures !jammed ==> queue == [] && prefilling == [] && active == [] && mapper.leaf == map[]
      ensures forall id | id in log ::
                && id in asked && TrueTo(log[id], asked[id], env) && Allowed(log[id])
                && Plainly(log[id], asked[id], env)
                && (!jammed ==> Over(log[id]))
      ensures Longer(old(log), log)
    {
      hide Longer, Admitting, Jammed, Backlog, Work, TrueTo, StageOf, Allowed, Over, Plainly;
      LongerSame(log);
      jammed := false;
      while queue != [] || prefilling != [] || active != []
        invariant Settled() && Longer(old(log), log) && !jammed
        decreases ToDo()
      {
        ghost var log0 := log;
        var o: Chance := *;
        jammed := TakeTurn(o);
        LongerTrans(old(log), log0, log);
        if jammed { break; }
      }
      TrueToAll();
      if !jammed { NobodyLive(queue); }
    }

    lemma TrueToAll()
      requires Settled()
      ensures forall id | id in log ::
                id in asked && TrueTo(log[id], asked[id], env) && Allowed(log[id]) && Plainly(log[id], asked[id], env)
      ensures queue == [] && prefilling == [] && active == [] ==> forall id | id in log :: Over(log[id])
    {
      hide JobsOk, ClientsOk, KVMapper.ValidWith, AllReady, TrueTo, StageOf, Allowed, Over, Plainly;
      ClientsServed(queue, prefilling + active, TheDesk(), env);
      if queue == [] && prefilling == [] && active == [] {
        assert prefilling + active == [];
        EveryoneHeard(TheDesk(), env);
      }
    }

    /** A turn with something to do leaves less of it, except that a jammed worker stays jammed, with nobody told
        anything, unless it finds the request at its front cancelled, and that without room for any entry in a batch
        jobs can not get on. */
    method TakeTurn(o: Chance) returns (vain: bool)
      requires Settled() && maxGenerating == mapper.maxSequences - 1
      requires queue != [] || prefilling != [] || active != []
      modifies this`queue, this`prefilling, this`active, this`log, this`inside, mapper, mapper.tree
      ensures Settled() && Longer(old(log), log)
      ensures if vain then ToDo() == old(ToDo()) else ToDo() < old(ToDo())
      ensures vain ==>
                || (old(Jammed()) && Jammed() && log == old(log) && mapper.maxSequences <= 2)
                || (nBatch < 1 && prefilling + active != [])
      ensures old(Jammed()) && !vain ==> var id := old(queue)[0].id; id in log && Cancelled(log[id])
    {
      hide Longer, Admitting, Backlog, Work, KVMapper.Starves, InputOrder, Ids, SameAsk, Cancelled;
      ghost var queue0 := queue;
      assert prefilling + active == [] <==> prefilling == [] && active == [];
      var left := ToDo();
      var admitted, queued, deferred, s, mid, b := RunOnce(o);
      vain := ToDo() >= left;
      if old(Stuck()) { FrontToDo(queue0, old(log)); }
    }

    lemma FrontToDo(queue0: seq<Request>, log0: map<nat, Log>)
      requires queue0 != [] && FrontWaits(queue0, log0)
      ensures if queue == queue0[1..] then Backlog(env, queue) < Backlog(env, queue0)
              else Backlog(env, queue) == Backlog(env, queue0)
    {
      hide KVMapper.Starves, Cancelled;
    }
  }

  /** A notice after the end is reached: the request hears a piece, the last piece, and that it is cancelled. */
  method NoticeAfterTheEnd() returns (w: InferenceWorker)
    ensures w.Settled() && w.queue == [] && w.prefilling == [] && w.active == []
    ensures w.log == map[0 := [Piece(1), Last(1), Noticed]] && StageOf(w.log[0]) == EndedThenDropped
  {
    hide InferenceWorker.Settled, KVMapper.ValidWith, AllReady, Longer;
    var mapper := new KVMapper(3, true, 10);
    w := new InferenceWorker(mapper, Env(10, (id, view) => 1, token => false), 1);
    w.Enqueue(Request(0, [7], 2));
    w.FirstPiece(Request(0, [7], 2));
    assert [] + [Piece(1)] == [Piece(1)] && StageOf([Piece(1)]).Open? by { StageAppend([], Piece(1)); }
    w.LastThenNotice();
    assert [Piece(1)] + [Last(1), Noticed] == [Piece(1), Last(1), Noticed];
  }

  /** Behind a mapper with one usable id that keeps the sequence of [7], a request for [7] hears nothing in however many
      turns, unless it is cancelled. */
  method WaitsForEver(turns: nat) returns (w: InferenceWorker)
    ensures w.Settled() && w.mapper.maxSequences == 2
    ensures 0 in w.log && (Cancelled(w.log[0]) || (w.Stuck() && w.queue[0].id == 0 && w.log[0] == []))
  {
    hide InferenceWorker.Settled, KVMapper.ValidWith, AllReady, Longer, KVMapper.Starves, Cancelled, Limit;
    var mapper, node := KeepOne();
    w := new InferenceWorker(mapper, Env(10, (id, view) => 1, token => false), 1);
    w.Enqueue(Request(0, [7], 2));
    w.TurnInVain(turns);
  }

  /** The submitted parts are of different prompts, each of at most what is left of its prompt. */
  lemma PartsPlanned(prefilling: seq<Job>, active: seq<Job>, batch: seq<Entry>, subs: seq<Submission>, plans: seq<Plan>)
    requires Planned(prefilling, active, batch, subs, plans)
    ensures |subs| <= |prefilling|
    ensures forall k | 0 <= k < |subs| ::
              && subs[k].ctxIndex < |prefilling| && prefilling[subs[k].ctxIndex].Prefilling? && subs[k].tokens >= 1
              && prefilling[subs[k].ctxIndex].deltaStart + subs[k].tokens <= |prefilling[subs[k].ctxIndex].delta|
  {
    forall k | 0 <= k < |subs| ensures SubPlanned(prefilling, subs[k], plans, |active| + k) {}
    if subs != [] { FarEnough(subs, |subs| - 1); }
  }

  lemma {:induction false} FarEnough(subs: seq<Submission>, k: nat)
    requires k < |subs| && forall i, j | 0 <= i < j < |subs| :: subs[i].ctxIndex < subs[j].ctxIndex
    ensures k <= subs[k].ctxIndex
  {
    if k > 0 { FarEnough(subs, k - 1); }
  }

  /** Node `p` spells `w` and owns a sequence. */
  ghost predicate StaysCached(path: Paths, own: Owners, p: Ptr, w: Word) {
    p in path && path[p] == w && p in own && own[p].seqIds != {}
  }

  function Failing(status: int, flags: Flags): (Job, Log) -> Log {
    (x: Job, log: Log) => Heard(log, Failed(status), flags(x.req.id))
  }

  lemma ToldStart(jobs: seq<Job>, log: map<nat, Log>, tell: (Job, Log) -> Log)
    requires forall k, l | 0 <= k < l < |jobs| :: jobs[k].req.id != jobs[l].req.id
    requires forall k | 0 <= k < |jobs| :: jobs[k].req.id in log
    ensures ToldUpTo(jobs, 0, log, log, tell)
  {
  }

  lemma ToldFailed(jobs: seq<Job>, n: nat, log: map<nat, Log>, log': map<nat, Log>, status: int, flags: Flags)
    requires ToldUpTo(jobs, n, log, log', Failing(status, flags)) && n < |jobs|
    ensures var x := jobs[n];
            && x.req.id in log'
            && ToldUpTo(jobs, n + 1, log, log'[x.req.id := Heard(log'[x.req.id], Failed(status), flags(x.req.id))],
                        Failing(status, flags))
  {
    hide ToldUpTo, Heard;
    ToldOne(jobs, n, log, log', Failing(status, flags));
  }

  lemma AllFailed(jobs: seq<Job>, log: map<nat, Log>, log': map<nat, Log>, status: int, flags: Flags)
    requires ToldUpTo(jobs, |jobs|, log, log', Failing(status, flags))
    ensures forall j | j in jobs ::
              && j.req.id in log && j.req.id in log'
              && log'[j.req.id] == Heard(log[j.req.id], Failed(status), flags(j.req.id))
  {
    hide Heard;
  }
  /** No two jobs serve the same request. */
  /** What each client's flag reads when it is polled. */
  type Flags = nat -> bool

  /** What polling one client's flag gives in a step: before and after a piece, and when a finished job is retired,
      before its sequence is extended and before its client hears the end of the text. */
  datatype Polls = Polls(first: bool, again: bool, retiring: bool, extending: bool, ending: bool)

  /** The jobs that are not done. */
  function Running(jobs: seq<Job>): seq<Job> {
    if jobs == [] then []
    else
      var j := jobs[|jobs| - 1];
      Running(jobs[..|jobs| - 1]) + if j.Generating? && j.done then [] else [j]
  }

  lemma NobodyRuns()
    ensures Running([]) == []
  {
  }

  lemma OneRuns(jobs: seq<Job>, m: nat)
    requires m < |jobs|
    ensures Running(jobs[..m + 1]) == Running(jobs[..m]) + if jobs[m].Generating? && jobs[m].done then [] else [jobs[m]]
  {
    assert jobs[..m + 1][..m] == jobs[..m];
  }

  lemma TakeOut(kept: seq<Job>, jobs: seq<Job>, m: nat)
    requires m < |jobs|
    ensures var s := kept + jobs[m..];
            && s[|kept|] == jobs[m] && s[..|kept|] + s[|kept| + 1..] == kept + jobs[m + 1..]
            && s == kept + [jobs[m]] + jobs[m + 1..]
    ensures kept + [] == kept
  {
  }

  lemma {:induction false} RunningIs(jobs: seq<Job>)
    ensures forall j :: j in Running(jobs) <==> j in jobs && !(j.Generating? && j.done)
    ensures |Running(jobs)| <= |jobs|
    decreases |jobs|
  {
    if jobs != [] {
      RunningIs(jobs[..|jobs| - 1]);
      assert jobs == jobs[..|jobs| - 1] + [jobs[|jobs| - 1]];
    }
  }

  /** The clients of the first `n` jobs have been told what `tell` says, the others nothing yet. */
  ghost predicate ToldUpTo(jobs: seq<Job>, n: int, log: map<nat, Log>, log': map<nat, Log>, tell: (Job, Log) -> Log) {
    && 0 <= n <= |jobs|
    && (forall k, l | 0 <= k < l < |jobs| :: jobs[k].req.id != jobs[l].req.id)
    && (forall k | 0 <= k < |jobs| :: jobs[k].req.id in log && jobs[k].req.id in log')
    && (forall k | 0 <= k < n :: log'[jobs[k].req.id] == tell(jobs[k], log[jobs[k].req.id]))
    && (forall k | n <= k < |jobs| :: log'[jobs[k].req.id] == log[jobs[k].req.id])
  }

  lemma ToldNobody(waiting: seq<Request>, prefilling: seq<Job>, jobs: seq<Job>, d: Desk, env: Env,
                   tell: (Job, Log) -> Log)
    requires ClientsOk(waiting, prefilling + jobs, d, env)
    ensures ToldUpTo(jobs, 0, d.log, d.log, tell)
  {
    hide ClientsOk;
    DistinctClients(waiting, prefilling, jobs, d, env);
    var all := jobs + prefilling;
    assert forall k | 0 <= k < |jobs| :: all[k] == jobs[k];
  }

  lemma ToldOne(jobs: seq<Job>, n: nat, log: map<nat, Log>, log': map<nat, Log>, tell: (Job, Log) -> Log)
    requires ToldUpTo(jobs, n, log, log', tell) && n < |jobs|
    ensures jobs[n].req.id in log && jobs[n].req.id in log' && log'[jobs[n].req.id] == log[jobs[n].req.id]
    ensures ToldUpTo(jobs, n + 1, log, log'[jobs[n].req.id := tell(jobs[n], log[jobs[n].req.id])], tell)
  {
  }

  // ---------------------------------------------------------------- what a generation's client hears in a step

  /** The token sampled for a generation whose last one has been decoded. */
  function Drawn(env: Env, x: Job): Token
    requires x.Generating?
  {
    env.sample(x.req.id, x.cachedTokens + [x.nextToken])
  }

  function RecordLog(env: Env, x: Job, log: Log, p: Polls): Log
    requires x.Generating?
  {
    HeardOf(log, Drawn(env, x), env.isEog(Drawn(env, x)), x.remaining == 1, p.first, p.again)
  }

  function RetireLog(log: Log, notify: bool, again: bool, p: Polls): Log {
    var polled := if again then Polled(log, p.retiring || Cancelled(log)) else log;
    if notify then Heard(polled, EndOfText, p.extending || p.ending) else polled
  }

  function Recording(env: Env, polls: nat -> Polls): (Job, Log) -> Log {
    (x: Job, log: Log) => if x.Generating? then RecordLog(env, x, log, polls(x.req.id)) else log
  }

  function Retiring(again: bool, polls: nat -> Polls): (Job, Log) -> Log {
    (x: Job, log: Log) => if x.Generating? && x.done then RetireLog(log, x.notify, again, polls(x.req.id)) else log
  }

  lemma ToldRecorded(jobs: seq<Job>, n: nat, log: map<nat, Log>, log': map<nat, Log>, env: Env, polls: nat -> Polls)
    requires ToldUpTo(jobs, n, log, log', Recording(env, polls)) && n < |jobs| && jobs[n].Generating?
    ensures var x := jobs[n];
            && x.req.id in log'
            && ToldUpTo(jobs, n + 1, log, log'[x.req.id := RecordLog(env, x, log'[x.req.id], polls(x.req.id))],
                        Recording(env, polls))
  {
    hide ToldUpTo, RecordLog;
    ToldOne(jobs, n, log, log', Recording(env, polls));
  }

  lemma ToldRetired(jobs: seq<Job>, n: nat, log: map<nat, Log>, log': map<nat, Log>, again: bool, polls: nat -> Polls)
    requires ToldUpTo(jobs, n, log, log', Retiring(again, polls)) && n < |jobs| && jobs[n].Generating? && jobs[n].done
    ensures var x := jobs[n];
            && x.req.id in log'
            && ToldUpTo(jobs, n + 1, log, log'[x.req.id := RetireLog(log'[x.req.id], x.notify, again, polls(x.req.id))],
                        Retiring(again, polls))
  {
    hide ToldUpTo, RetireLog;
    ToldOne(jobs, n, log, log', Retiring(again, polls));
  }

  lemma ToldRunning(jobs: seq<Job>, n: nat, log: map<nat, Log>, log': map<nat, Log>, again: bool, polls: nat -> Polls)
    requires ToldUpTo(jobs, n, log, log', Retiring(again, polls)) && n < |jobs|
    requires !(jobs[n].Generating? && jobs[n].done)
    ensures ToldUpTo(jobs, n + 1, log, log', Retiring(again, polls))
  {
  }

  /** A generation is done after a step exactly if its text ends, its limit is reached, or its client has cancelled. */
  ghost predicate Goes(env: Env, x: Job, y: Job, log: map<nat, Log>) {
    && x.Generating? && y.Generating? && y.req == x.req && x.req.id in log && Continues(x, y, Drawn(env, x))
    && (y.done <==> env.isEog(Drawn(env, x)) || x.remaining == 1 || Cancelled(log[x.req.id]))
    && (y.notify <==> env.isEog(Drawn(env, x)))
  }

  lemma StillGoes(env: Env, jobs: seq<Job>, now: seq<Job>, n: nat, log: map<nat, Log>, log': map<nat, Log>,
                  tell: (Job, Log) -> Log, log0: map<nat, Log>)
    requires n < |jobs| == |now| && ToldUpTo(jobs, n, log0, log, tell)
    requires forall id | id in log && id != jobs[n].req.id :: id in log' && log'[id] == log[id]
    ensures forall k | 0 <= k < n && Goes(env, jobs[k], now[k], log) :: Goes(env, jobs[k], now[k], log')
  {
  }

  /** What the client of a generation hears in a step that decodes, from recording its token to retiring it. */
  function StepLog(env: Env, x: Job, log: Log, p: Polls): Log
    requires x.Generating?
  {
    var told, eog := RecordLog(env, x, log, p), env.isEog(Drawn(env, x));
    if eog || x.remaining == 1 || Cancelled(told) then RetireLog(told, eog, true, p) else told
  }

  /** The token is the last one the request may get, the poll before it is told sees no flag, and the retiring one
      does. */
  predicate NoticedLate(env: Env, x: Job, log: Log, p: Polls)
    requires x.Generating?
  {
    !env.isEog(Drawn(env, x)) && x.remaining == 1 && !Cancelled(log) && !p.first && p.retiring
  }

  /** Exactly then does a notice follow the end of the answer. */
  lemma NoticeExactly(env: Env, x: Job, log: Log, p: Polls)
    requires x.Generating? && (StageOf(log) == Open(true) || StageOf(log).Dropped?)
    ensures StageOf(StepLog(env, x, log, p)).EndedThenDropped? <==> NoticedLate(env, x, log, p)
    ensures NoticedLate(env, x, log, p) ==> StepLog(env, x, log, p) == log + [Last(Drawn(env, x)), Noticed]
  {
    hide StageOf;
    var told, token := RecordLog(env, x, log, p), Drawn(env, x);
    Hearing(log, token, env.isEog(token), x.remaining == 1, p.first, p.again);
    if Cancelled(told) || env.isEog(token) || x.remaining == 1 { Leaving(told, env.isEog(token), p); }
    assert log + [Last(token)] + [Noticed] == log + [Last(token), Noticed];
  }

  lemma Hearing(log: Log, token: Token, eog: bool, last: bool, flag: bool, again: bool)
    requires StageOf(log) == Open(true) || StageOf(log).Dropped?
    ensures var stage := StageOf(HeardOf(log, token, eog, last, flag, again));
            if eog then stage == StageOf(log)
            else if flag || Cancelled(log) then stage == Dropped
            else if last then stage == Ended(true)
            else stage == if again then Dropped else Open(true)
  {
    StageAppend(log, Noticed);
    StageAppend(log, Last(token));
    StageAppend(log, Piece(token));
    StageAppend(log + [Piece(token)], Noticed);
  }

  lemma Leaving(told: Log, eog: bool, p: Polls)
    requires if eog then StageOf(told) == Open(true) || StageOf(told).Dropped?
             else StageOf(told) == Ended(true) || StageOf(told).Dropped?
    ensures StageOf(RetireLog(told, eog, true, p)).EndedThenDropped? <==> StageOf(told).Ended? && p.retiring
    ensures StageOf(told).Ended? && p.retiring ==> RetireLog(told, eog, true, p) == told + [Noticed]
  {
    StageAppend(told, Noticed);
    StageAppend(told, EndOfText);
  }

  lemma StepTold(env: Env, jobs: seq<Job>, now: seq<Job>, k: nat, log0: map<nat, Log>, log1: map<nat, Log>,
                 log2: map<nat, Log>, polls: nat -> Polls)
    requires k < |jobs| == |now| && ToldUpTo(jobs, |jobs|, log0, log1, Recording(env, polls))
    requires ToldUpTo(now, |now|, log1, log2, Retiring(true, polls)) && Goes(env, jobs[k], now[k], log1)
    ensures var x := jobs[k];
            && x.req.id in log0 && x.req.id in log2
            && log2[x.req.id] == StepLog(env, x, log0[x.req.id], polls(x.req.id))
  {
    hide RecordLog, RetireLog;
  }

  /** A prompt that has been decoded to its end. */
  predicate Complete(x: Job) { x.Prefilling? && x.deltaStart == |x.delta| }

  /** What the client of a completed prompt hears, unless it has cancelled. */
  function Answer(env: Env, x: Job): Event
    requires x.Prefilling?
  {
    var token := env.sample(x.req.id, x.tokens);
    if env.isEog(token) then EndOfText else if x.req.maxTokens <= 1 then Last(token) else Piece(token)
  }

  function Answering(env: Env, flags: Flags): (Job, Log) -> Log {
    (x: Job, log: Log) => if Complete(x) then Heard(log, Answer(env, x), flags(x.req.id)) else log
  }

  /** The prompts with tokens left to decode. */
  function Unanswered(jobs: seq<Job>): seq<Job> {
    if jobs == [] then []
    else Unanswered(jobs[..|jobs| - 1]) + if Complete(jobs[|jobs| - 1]) then [] else [jobs[|jobs| - 1]]
  }

  /** The generations that start, in the order of their prompts. */
  function Starting(env: Env, jobs: seq<Job>, log: map<nat, Log>, flags: Flags): seq<Job> {
    if jobs == [] then []
    else
      var x, before := jobs[|jobs| - 1], Starting(env, jobs[..|jobs| - 1], log, flags);
      if Complete(x) && !Seen(x, log, flags) && Answer(env, x).Piece? then before + [Begun(x, Answer(env, x).token)]
      else before
  }

  lemma NobodyStarts(env: Env, log: map<nat, Log>, flags: Flags)
    ensures Unanswered([]) == [] && Starting(env, [], log, flags) == []
  {
  }

  lemma OneAnswers(env: Env, jobs: seq<Job>, m: nat, log: map<nat, Log>, log': map<nat, Log>, flags: Flags)
    requires m < |jobs| && ToldUpTo(jobs, m, log, log', Answering(env, flags))
    ensures var x := jobs[m];
            && x.req.id in log' && log'[x.req.id := log'[x.req.id]] == log'
            && Unanswered(jobs[..m + 1]) == Unanswered(jobs[..m]) + (if Complete(x) then [] else [x])
            && (Complete(x) ==>
                  ToldUpTo(jobs, m + 1, log, log'[x.req.id := Heard(log'[x.req.id], Answer(env, x), flags(x.req.id))],
                           Answering(env, flags)))
            && (!Complete(x) ==> ToldUpTo(jobs, m + 1, log, log', Answering(env, flags)))
            && (x.Prefilling? ==>
                  Starting(env, jobs[..m + 1], log, flags) == Starting(env, jobs[..m], log, flags) +
                    if Complete(x) && !flags(x.req.id) && !Cancelled(log'[x.req.id]) && Answer(env, x).Piece?
                    then [Begun(x, Answer(env, x).token)] else [])
  {
    hide ToldUpTo, Heard, Cancelled, Begun;
    assert jobs[..m + 1][..m] == jobs[..m];
    ToldOne(jobs, m, log, log', Answering(env, flags));
    assert log'[jobs[m].req.id := log'[jobs[m].req.id]] == log';
  }

  lemma {:induction false} UnansweredIs(jobs: seq<Job>)
    ensures forall j :: j in Unanswered(jobs) <==> j in jobs && !Complete(j)
    decreases |jobs|
  {
    if jobs != [] {
      UnansweredIs(jobs[..|jobs| - 1]);
      assert jobs == jobs[..|jobs| - 1] + [jobs[|jobs| - 1]];
    }
  }

  /** Whatever is left has tokens to decode. */
  lemma StillPrefills(prefilling: seq<Job>, logitAt: seq<int>, batch: seq<Entry>, views: seq<Word>)
    requires LogitsRight(prefilling, logitAt, batch, views)
    ensures forall j | j in prefilling :: j.Prefilling? && (!Complete(j) ==> j.deltaStart < |j.delta|)
  {
  }

  /** Nobody but the clients of `jobs` has heard anything. */
  ghost predicate OthersSame(jobs: seq<Job>, log: map<nat, Log>, log': map<nat, Log>) {
    forall id | id in log && (forall j | j in jobs :: j.req.id != id) :: id in log' && log'[id] == log[id]
  }

  /** The client of a generation has heard of a step what its token and its polls call for. */
  ghost predicate StepHeard(env: Env, x: Job, log: map<nat, Log>, log': map<nat, Log>, polls: nat -> Polls) {
    && x.Generating? && x.req.id in log && x.req.id in log'
    && log'[x.req.id] == StepLog(env, x, log[x.req.id], polls(x.req.id))
    && (StageOf(log'[x.req.id]).EndedThenDropped? <==> NoticedLate(env, x, log[x.req.id], polls(x.req.id)))
  }

  lemma StepsTold(env: Env, jobs: seq<Job>, now: seq<Job>, prompts: seq<Job>, log0: map<nat, Log>, log1: map<nat, Log>,
                  log2: map<nat, Log>, log3: map<nat, Log>, polls: nat -> Polls, others: seq<Job>)
    requires |jobs| == |now| && ToldUpTo(jobs, |jobs|, log0, log1, Recording(env, polls))
    requires ToldUpTo(now, |now|, log1, log2, Retiring(true, polls)) && OthersSame(others, log2, log3)
    requires forall k | 0 <= k < |jobs| :: Goes(env, jobs[k], now[k], log1)
    requires forall k, l | 0 <= k < l < |jobs + prompts| :: (jobs + prompts)[k].req.id != (jobs + prompts)[l].req.id
    requires |others| == |prompts| && forall i | 0 <= i < |prompts| :: others[i].req == prompts[i].req
    requires forall x | x in jobs ::
               x.req.id in log0 && (StageOf(log0[x.req.id]) == Open(true) || StageOf(log0[x.req.id]).Dropped?)
    ensures forall x | x in jobs :: StepHeard(env, x, log0, log3, polls)
  {
    hide ToldUpTo, Recording, Retiring, StepLog, NoticedLate, StageOf;
    forall x | x in jobs ensures StepHeard(env, x, log0, log3, polls) {
      var k :| 0 <= k < |jobs| && jobs[k] == x;
      StepTold(env, jobs, now, k, log0, log1, log2, polls);
      forall j | j in others ensures j.req.id != x.req.id {
        var l :| 0 <= l < |others| && others[l] == j;
        assert (jobs + prompts)[k] == x && (jobs + prompts)[|jobs| + l] == prompts[l];
      }
      NoticeExactly(env, x, log0[x.req.id], polls(x.req.id));
    }
  }

  /** The clients of the completed prompts, and of no other, have heard their answers. */
  ghost predicate PromptsHeard(env: Env, jobs: seq<Job>, log: map<nat, Log>, log': map<nat, Log>, flags: Flags) {
    forall x | x in jobs ::
      && x.req.id in log && x.req.id in log'
      && log'[x.req.id] == if Complete(x) then Heard(log[x.req.id], Answer(env, x), flags(x.req.id)) else log[x.req.id]
  }

  lemma PromptsTold(env: Env, jobs: seq<Job>, now: seq<Job>, prompts: seq<Job>, others: seq<Job>, log0: map<nat, Log>,
                    log1: map<nat, Log>, log2: map<nat, Log>, log3: map<nat, Log>, flags: Flags)
    requires forall k, l | 0 <= k < l < |jobs + prompts| :: (jobs + prompts)[k].req.id != (jobs + prompts)[l].req.id
    requires forall k | 0 <= k < |jobs + prompts| :: (jobs + prompts)[k].req.id in log0
    requires |others| == |prompts| && forall i | 0 <= i < |prompts| :: others[i].req == prompts[i].req
    requires |now| == |jobs| && forall k | 0 <= k < |jobs| :: Goes(env, jobs[k], now[k], log1)
    requires OthersSame(jobs, log0, log1) && OthersSame(now, log1, log2)
    requires ToldUpTo(others, |others|, log2, log3, Answering(env, flags))
    ensures PromptsHeard(env, others, log0, log3, flags)
  {
    hide Heard, Answer, Cancelled;
    forall x | x in others
      ensures x.req.id in log0 && x.req.id in log3
      ensures log3[x.req.id] == if Complete(x) then Heard(log0[x.req.id], Answer(env, x), flags(x.req.id))
                                else log0[x.req.id]
    {
      var l :| 0 <= l < |others| && others[l] == x;
      var all := jobs + prompts;
      assert all[|jobs| + l] == prompts[l];
      forall j | j in jobs ensures j.req.id != x.req.id {
        var k :| 0 <= k < |jobs| && jobs[k] == j;
        assert all[k] == j;
      }
      assert x.req.id in log1 && log1[x.req.id] == log0[x.req.id];
      forall j | j in now ensures j.req.id != x.req.id {
        var k :| 0 <= k < |now| && now[k] == j;
        assert Goes(env, jobs[k], now[k], log1) && jobs[k] in jobs;
      }
      assert x.req.id in log2 && log2[x.req.id] == log1[x.req.id];
    }
  }

  /** What can happen in a turn: what the flags of waiting requests, of jobs and of the clients of completed prompts
      read, what the library answers, and what the flags of failing jobs read. */
  datatype Chance = Chance(waiting: Flags, sweep: Flags, first: int, second: int, polls: nat -> Polls, prompts: Flags,
                           failing: Flags)

  /** What a step that has decoded `active` and parts of `prefilling` with some status has done. */
  ghost predicate Stepped(env: Env, status: int, prefilling: seq<Job>, active: seq<Job>, log: map<nat, Log>,
                          prefilling': seq<Job>, active': seq<Job>, log': map<nat, Log>, o: Chance) {
    if status == 0 then
      && (forall x | x in active :: StepHeard(env, x, log, log', o.polls))
      && (forall x | x in prefilling ::
            && x.Prefilling? && x.req.id in log && x.req.id in log'
            && (log'[x.req.id] == log[x.req.id] ||
                log'[x.req.id] == Heard(log[x.req.id], Answer(env, x), o.prompts(x.req.id))))
    else if status == 1 then
      && prefilling + active != []
      && (active != [] ==> prefilling' == prefilling && active' == active[..|active| - 1])
      && (active == [] ==> active' == [] && prefilling' == prefilling[..|prefilling| - 1])
      && var id := (if active != [] then active[|active| - 1] else prefilling[|prefilling| - 1]).req.id;
      id in log && log' == log[id := Heard(log[id], Failed(503), o.failing(id))]
    else
      && prefilling' == [] && active' == []
      && forall j | j in prefilling || j in active ::
           j.req.id in log && j.req.id in log' &&
           log'[j.req.id] == Heard(log[j.req.id], Failed(500), o.failing(j.req.id))
  }

  /** The state between the two halves of a step: whether it decodes, with what status, what clients have heard, and
      which prefills and generations are left. */
  datatype Between = Between(decoded: bool, status: int, swept: map<nat, Log>, prompts: seq<Job>, jobs: seq<Job>)

  /** What a step does: the jobs whose clients have cancelled leave, and if anything is left that has room in a
      batch it is decoded and dealt with. */
  ghost predicate Fused(env: Env, nBatch: int, prefilling: seq<Job>, active: seq<Job>, log: map<nat, Log>,
                        prefilling': seq<Job>, active': seq<Job>, log': map<nat, Log>, o: Chance, b: Between) {
    && b.jobs == Unseen(active, log, o.sweep) && b.prompts == Unseen(prefilling, log, o.sweep)
    && SweptAs(active, log, b.swept, o.sweep) && SweptAs(prefilling, log, b.swept, o.sweep)
    && (b.decoded <==> b.jobs != [] || (b.prompts != [] && nBatch >= 1))
    && (b.decoded ==> b.status == o.first || (o.first == 1 && b.status == o.second))
    && (b.decoded ==> Stepped(env, b.status, b.prompts, b.jobs, b.swept, prefilling', active', log', o))
    && (!b.decoded ==> prefilling' == b.prompts && active' == b.jobs && log' == b.swept)
  }

  lemma StepDone(env: Env, prefilling: seq<Job>, active: seq<Job>, log: map<nat, Log>, prefilling': seq<Job>,
                 active': seq<Job>, log': map<nat, Log>, o: Chance, subs: seq<Submission>)
    requires forall x | x in active :: StepHeard(env, x, log, log', o.polls)
    requires PromptsHeard(env, Advanced(prefilling, subs), log, log', o.prompts)
    requires forall j | j in prefilling :: j.Prefilling?
    ensures Stepped(env, 0, prefilling, active, log, prefilling', active', log', o)
  {
    hide StepHeard, Advanced, Heard;
    SameClients(prefilling, subs);
    forall x | x in prefilling
      ensures x.req.id in log && x.req.id in log'
      ensures log'[x.req.id] == log[x.req.id] ||
              log'[x.req.id] == Heard(log[x.req.id], Answer(env, x), o.prompts(x.req.id))
    {
      var i :| 0 <= i < |prefilling| && prefilling[i] == x;
      assert Advanced(prefilling, subs)[i] in Advanced(prefilling, subs);
    }
  }

  /** Recording parts of prompts changes no client. */
  lemma {:induction false} SameClients(prefilling: seq<Job>, subs: seq<Submission>)
    ensures |Advanced(prefilling, subs)| == |prefilling|
    ensures forall i | 0 <= i < |prefilling| ::
              && Advanced(prefilling, subs)[i].req == prefilling[i].req
              && (prefilling[i].Prefilling? ==>
                    Advanced(prefilling, subs)[i].Prefilling? &&
                    Advanced(prefilling, subs)[i].tokens == prefilling[i].tokens)
    decreases |subs|
  {
    if subs != [] { SameClients(prefilling, subs[..|subs| - 1]); }
  }

  /** The client of a running generation has heard a piece and nothing final. */
  lemma StillOpen(waiting: seq<Request>, prefilling: seq<Job>, active: seq<Job>, d: Desk, env: Env)
    requires ClientsOk(waiting, prefilling + active, d, env) && forall j | j in active :: j.Generating? && !j.done
    ensures forall j | j in active ::
              j.req.id in d.log && (StageOf(d.log[j.req.id]) == Open(true) || StageOf(d.log[j.req.id]).Dropped?)
  {
    forall j | j in active
      ensures j.req.id in d.log && (StageOf(d.log[j.req.id]) == Open(true) || StageOf(d.log[j.req.id]).Dropped?)
    {
      assert j in prefilling + active;
      assert JobTrue(j, d, env);
      ProtocolIs(d.log[j.req.id]);
    }
  }

  lemma DistinctClients(waiting: seq<Request>, p: seq<Job>, q: seq<Job>, d: Desk, env: Env)
    requires ClientsOk(waiting, p + q, d, env)
    ensures forall k, l | 0 <= k < l < |q + p| :: (q + p)[k].req.id != (q + p)[l].req.id
    ensures forall k | 0 <= k < |q + p| :: (q + p)[k].req.id in d.log
  {
    var jobs := q + p;
    forall k | 0 <= k < |jobs| ensures jobs[k].req.id in d.log {
      assert jobs[k] in p + q;
      assert JobTrue(jobs[k], d, env);
    }
    forall id ensures Serves(jobs, id) <= 1 {
      ServesConcat(q, p, id);
      ServesConcat(p, q, id);
      assert Waiters(waiting, id) + Serves(p + q, id) <= 1;
    }
    hide ClientsOk, Serves;
    forall k, l | 0 <= k < l < |jobs| ensures jobs[k].req.id != jobs[l].req.id {
      var a, x, b := jobs[..k], jobs[k], jobs[k + 1..];
      assert jobs == a + [x] + b;
      AroundJob(a, x, b);
      assert b[l - k - 1] == jobs[l] && jobs[l] in a + b;
      JobCounts(a + b, jobs[l]);
    }
  }

  /** What polling a job's flag finds: it is set, or has been found set before. */
  predicate Seen(j: Job, log: map<nat, Log>, flags: Flags) {
    flags(j.req.id) || (j.req.id in log && Cancelled(log[j.req.id]))
  }

  function Marked(j: Job, log: map<nat, Log>, flags: Flags): Job {
    if j.Generating? && Seen(j, log, flags) then j.(done := true) else j
  }

  /** The jobs whose clients have not been seen to cancel, in their order. */
  function Unseen(jobs: seq<Job>, log: map<nat, Log>, flags: Flags): seq<Job> {
    if jobs == [] then []
    else
      var j := jobs[|jobs| - 1];
      Unseen(jobs[..|jobs| - 1], log, flags) + if Seen(j, log, flags) then [] else [j]
  }

  lemma NobodyUnseen(log: map<nat, Log>, flags: Flags)
    ensures Unseen([], log, flags) == []
  {
  }

  lemma OneUnseen(jobs: seq<Job>, m: nat, log: map<nat, Log>, flags: Flags)
    requires m < |jobs|
    ensures Unseen(jobs[..m + 1], log, flags) ==
              Unseen(jobs[..m], log, flags) + if Seen(jobs[m], log, flags) then [] else [jobs[m]]
  {
    assert jobs[..m + 1][..m] == jobs[..m];
  }

  lemma {:induction false} UnseenIs(jobs: seq<Job>, log: map<nat, Log>, flags: Flags)
    ensures forall j :: j in Unseen(jobs, log, flags) <==> j in jobs && !Seen(j, log, flags)
    ensures |Unseen(jobs, log, flags)| <= |jobs|
    decreases |jobs|
  {
    if jobs != [] {
      UnseenIs(jobs[..|jobs| - 1], log, flags);
      assert jobs == jobs[..|jobs| - 1] + [jobs[|jobs| - 1]];
    }
  }

  function Polling(flags: Flags): (Job, Log) -> Log {
    (x: Job, log: Log) => Polled(log, flags(x.req.id) || Cancelled(log))
  }

  lemma ToldPolled(jobs: seq<Job>, n: nat, log: map<nat, Log>, log': map<nat, Log>, flags: Flags)
    requires ToldUpTo(jobs, n, log, log', Polling(flags)) && n < |jobs|
    ensures var x := jobs[n];
            && x.req.id in log' && x.req.id in log && log'[x.req.id] == log[x.req.id]
            && ToldUpTo(jobs, n + 1, log,
                        log'[x.req.id := Polled(log'[x.req.id], flags(x.req.id) || Cancelled(log'[x.req.id]))],
                        Polling(flags))
            && (Seen(x, log, flags) <==> flags(x.req.id) || Cancelled(log'[x.req.id]))
            && Marked(x, log, flags) == if x.Generating? && Seen(x, log, flags) then x.(done := true) else x
  {
    hide ToldUpTo, Polled, Cancelled;
    ToldOne(jobs, n, log, log', Polling(flags));
  }

  lemma ToldNoPrefill(waiting: seq<Request>, jobs: seq<Job>, active: seq<Job>, d: Desk, env: Env,
                      tell: (Job, Log) -> Log)
    requires ClientsOk(waiting, jobs + active, d, env)
    ensures ToldUpTo(jobs, 0, d.log, d.log, tell)
  {
    hide ClientsOk;
    DistinctClients(waiting, jobs, active, d, env);
    var all := active + jobs;
    assert forall k | 0 <= k < |jobs| :: all[|active| + k] == jobs[k];
  }

  lemma NobodyTold(jobs: seq<Job>, log: map<nat, Log>)
    ensures OthersSame(jobs, log, log)
  {
  }

  lemma OneOfThem(jobs: seq<Job>, log: map<nat, Log>, log': map<nat, Log>, log'': map<nat, Log>, x: Job)
    requires OthersSame(jobs, log, log') && x in jobs && x.req.id in log' && x.req.id in log''
    requires log'' == log'[x.req.id := log''[x.req.id]]
    ensures OthersSame(jobs, log, log'')
  {
  }

  /** Every client of `jobs` has heard what polling its flag calls for. */
  ghost predicate SweptAs(jobs: seq<Job>, log: map<nat, Log>, log': map<nat, Log>, flags: Flags) {
    forall j | j in jobs ::
      j.req.id in log && j.req.id in log' && log'[j.req.id] == Polled(log[j.req.id], Seen(j, log, flags))
  }

  lemma {:induction false} RunningMarked(jobs: seq<Job>, now: seq<Job>, log: map<nat, Log>, flags: Flags)
    requires |now| == |jobs| && forall k | 0 <= k < |jobs| :: now[k] == Marked(jobs[k], log, flags)
    requires forall j | j in jobs :: j.Generating? && !j.done
    ensures Running(now) == Unseen(jobs, log, flags)
    decreases |jobs|
  {
    if jobs != [] {
      var init := jobs[..|jobs| - 1];
      assert jobs[|jobs| - 1] in jobs && forall j | j in init :: j in jobs;
      RunningMarked(init, now[..|now| - 1], log, flags);
    }
  }

  lemma {:induction false} SameUnseen(jobs: seq<Job>, log: map<nat, Log>, log': map<nat, Log>, flags: Flags)
    requires forall j | j in jobs :: j.req.id in log && j.req.id in log' && log'[j.req.id] == log[j.req.id]
    ensures Unseen(jobs, log', flags) == Unseen(jobs, log, flags)
    decreases |jobs|
  {
    if jobs != [] {
      assert jobs[|jobs| - 1] in jobs && forall j | j in jobs[..|jobs| - 1] :: j in jobs;
      SameUnseen(jobs[..|jobs| - 1], log, log', flags);
    }
  }

  lemma SweptOut(active: seq<Job>, prefilling: seq<Job>, marked: seq<Job>, log0: map<nat, Log>, log1: map<nat, Log>,
                 log2: map<nat, Log>, log3: map<nat, Log>, flags: Flags, polls: nat -> Polls)
    requires forall k, l | 0 <= k < l < |active + prefilling| ::
               (active + prefilling)[k].req.id != (active + prefilling)[l].req.id
    requires forall j | j in active :: j.Generating? && !j.done && !j.notify
    requires |marked| == |active| && forall k | 0 <= k < |active| :: marked[k] == Marked(active[k], log0, flags)
    requires ToldUpTo(active, |active|, log0, log1, Polling(flags)) && OthersSame(active, log0, log1)
    requires ToldUpTo(marked, |marked|, log1, log2, Retiring(false, polls)) && OthersSame(marked, log1, log2)
    requires ToldUpTo(prefilling, |prefilling|, log2, log3, Polling(flags)) && OthersSame(prefilling, log2, log3)
    requires forall k | 0 <= k < |active + prefilling| :: (active + prefilling)[k].req.id in log0
    ensures Running(marked) == Unseen(active, log0, flags)
    ensures Unseen(prefilling, log2, flags) == Unseen(prefilling, log0, flags)
    ensures SweptAs(active, log0, log3, flags) && SweptAs(prefilling, log0, log3, flags)
  {
    hide Unseen, Running, Polled, ToldUpTo, Polling, Retiring, Marked, Seen;
    TwoLists(active, prefilling);
    RunningMarked(active, marked, log0, flags);
    forall k | 0 <= k < |active| ensures marked[k].Generating? && marked[k].req == active[k].req && !marked[k].notify {
      assert active[k] in active;
      MarkedReq(active[k], log0, flags);
    }
    SamePrompts(active, prefilling, marked, log0, log1, log2);
    SameUnseen(prefilling, log0, log2, flags);
    forall k | 0 <= k < |active|
      ensures var id := active[k].req.id;
              id in log0 && id in log3 && log3[id] == Polled(log0[id], Seen(active[k], log0, flags))
    {
      SweptJob(active, marked, k, log0, log1, log2, flags, polls);
    }
    forall l | 0 <= l < |prefilling|
      ensures var id := prefilling[l].req.id;
              id in log0 && id in log3 && log3[id] == Polled(log0[id], Seen(prefilling[l], log0, flags))
    {
      assert prefilling[l] in prefilling;
      SweptPrompt(prefilling, l, log0, log2, log3, flags);
    }
  }

  lemma TwoLists(a: seq<Job>, b: seq<Job>)
    requires forall k, l | 0 <= k < l < |a + b| :: (a + b)[k].req.id != (a + b)[l].req.id
    ensures forall k, l | 0 <= k < |a| && 0 <= l < |b| :: a[k].req.id != b[l].req.id
  {
    var all := a + b;
    forall k, l | 0 <= k < |a| && 0 <= l < |b| ensures a[k].req.id != b[l].req.id {
      assert all[k] == a[k] && all[|a| + l] == b[l];
    }
  }

  lemma MarkedReq(j: Job, log: map<nat, Log>, flags: Flags)
    requires j.Generating?
    ensures var y := Marked(j, log, flags);
            y.Generating? && y.req == j.req && y.notify == j.notify
  {
  }

  lemma SamePrompts(active: seq<Job>, prefilling: seq<Job>, marked: seq<Job>, log0: map<nat, Log>, log1: map<nat, Log>,
                    log2: map<nat, Log>)
    requires forall k, l | 0 <= k < |active| && 0 <= l < |prefilling| :: active[k].req.id != prefilling[l].req.id
    requires forall k | 0 <= k < |active + prefilling| :: (active + prefilling)[k].req.id in log0
    requires |marked| == |active| && forall k | 0 <= k < |active| :: marked[k].req == active[k].req
    requires OthersSame(active, log0, log1) && OthersSame(marked, log1, log2)
    ensures forall j | j in prefilling :: j.req.id in log0 && j.req.id in log2 && log2[j.req.id] == log0[j.req.id]
  {
    forall j | j in prefilling ensures j.req.id in log0 && j.req.id in log2 && log2[j.req.id] == log0[j.req.id] {
      var l :| 0 <= l < |prefilling| && prefilling[l] == j;
      assert (active + prefilling)[|active| + l] == j;
    }
  }

  lemma SweptJob(active: seq<Job>, marked: seq<Job>, k: nat, log0: map<nat, Log>, log1: map<nat, Log>,
                 log2: map<nat, Log>, flags: Flags, polls: nat -> Polls)
    requires k < |active| == |marked| && marked[k].req == active[k].req && (marked[k].Generating? ==> !marked[k].notify)
    requires ToldUpTo(active, |active|, log0, log1, Polling(flags))
    requires ToldUpTo(marked, |marked|, log1, log2, Retiring(false, polls))
    ensures var id := active[k].req.id;
            id in log0 && id in log2 && log2[id] == Polled(log0[id], Seen(active[k], log0, flags))
  {
    hide Polled, RetireLog, Cancelled;
    NothingToTell(log1[active[k].req.id], polls(active[k].req.id));
  }

  lemma SweptPrompt(prefilling: seq<Job>, l: nat, log0: map<nat, Log>, log2: map<nat, Log>, log3: map<nat, Log>,
                    flags: Flags)
    requires l < |prefilling| && ToldUpTo(prefilling, |prefilling|, log2, log3, Polling(flags))
    requires var id := prefilling[l].req.id; id in log0 && id in log2 && log2[id] == log0[id]
    ensures var id := prefilling[l].req.id;
            id in log3 && log3[id] == Polled(log0[id], Seen(prefilling[l], log0, flags))
  {
    hide Polled, Cancelled;
  }

  lemma NothingToTell(log: Log, p: Polls)
    ensures RetireLog(log, false, false, p) == log
  {
  }

  lemma FinishAgrees(c: Cache, c': Cache, s: SeqId)
    requires c'.leaf == c.leaf - {s} && c'.prompt == c.prompt && c'.kv - {s} == c.kv - {s}
    requires c'.ready - {s} == c.ready - {s}
    ensures Agree(c, c', c'.leaf.Keys)
  {
    forall t | t in c'.leaf
      ensures (t in c.kv ==> t in c'.kv && c'.kv[t] == c.kv[t]) && (t in c.ready <==> t in c'.ready)
    {
      assert t in c.kv ==> t in c.kv - {s};
      assert t in c'.kv ==> t in c'.kv - {s};
      assert t in c.ready ==> t in c.ready - {s};
      assert t in c'.ready ==> t in c'.ready - {s};
    }
  }

  lemma Extendable(a: seq<Job>, x: Job, b: seq<Job>, c: Cache, owed: Debts, env: Env)
    requires JobsOk(a + [x] + b, c, owed, env) && x.Generating? && x.seqId !in owed
    ensures x.seqId in c.leaf && c.leaf[x.seqId] == x.leafNode && x.seqId in c.ready && x.seqId in c.kv
    ensures c.kv[x.seqId] == x.cachedTokens
  {
    Apart(a, x, b, c, owed, env);
  }

  lemma DoneHeard(waiting: seq<Request>, a: seq<Job>, x: Job, b: seq<Job>, d: Desk, env: Env)
    requires ClientsOk(waiting, a + [x] + b, d, env) && x.Generating? && x.done
    ensures x.req.id in d.log && x.req.id in d.asked && TrueTo(d.log[x.req.id], d.asked[x.req.id], env)
    ensures !x.notify ==> Over(d.log[x.req.id])
  {
    ApartClients(waiting, a, x, b, d, env);
  }

  lemma MarkDone(waiting: seq<Request>, a: seq<Job>, x: Job, b: seq<Job>, c: Cache, owed: Debts, d: Desk, env: Env)
    requires JobsOk(a + [x] + b, c, owed, env) && ClientsOk(waiting, a + [x] + b, d, env) && x.Generating? && !x.done
    requires x.req.id in d.log && Over(d.log[x.req.id])
    ensures JobsOk(a + [x.(done := true)] + b, c, owed, env) && ClientsOk(waiting, a + [x.(done := true)] + b, d, env)
    ensures Work(env, a + [x.(done := true)] + b) < Work(env, a + [x] + b)
  {
    hide JobsOk, ClientsOk;
    var y := x.(done := true);
    Apart(a, x, b, c, owed, env);
    ApartClients(waiting, a, x, b, d, env);
    JobChanges(a, x, b, y, c, c, owed, owed, env);
    assert d.log[x.req.id := d.log[x.req.id]] == d.log;
    ClientHears(waiting, a, x, b, y, d, d, env, d.log[x.req.id]);
    WorkAround(env, a, x, b);
    WorkAround(env, a, y, b);
  }

  /** Recording prompt tokens says nothing to the client. */
  lemma PromptGrows(waiting: seq<Request>, a: seq<Job>, x: Job, b: seq<Job>, y: Job, d: Desk, env: Env)
    requires ClientsOk(waiting, a + [x] + b, d, env) && x.Prefilling? && y.Prefilling? && y.req == x.req
    ensures ClientsOk(waiting, a + [y] + b, d, env)
    ensures JobWork(env, y) < JobWork(env, x) ==> Work(env, a + [y] + b) < Work(env, a + [x] + b)
  {
    hide ClientsOk;
    ApartClients(waiting, a, x, b, d, env);
    assert d.log[x.req.id := d.log[x.req.id]] == d.log;
    ClientHears(waiting, a, x, b, y, d, d, env, d.log[x.req.id]);
    WorkAround(env, a, x, b);
    WorkAround(env, a, y, b);
  }

  /** Completed prompts, and only they, have logits, computed from the whole prompt. */
  ghost predicate LogitsRight(prefilling: seq<Job>, logitAt: seq<int>, batch: seq<Entry>, views: seq<Word>) {
    && |logitAt| == |prefilling|
    && forall i | 0 <= i < |prefilling| ::
         && prefilling[i].Prefilling?
         && (logitAt[i] < 0 ==> prefilling[i].deltaStart < |prefilling[i].delta|)
         && (logitAt[i] >= 0 ==> prefilling[i].deltaStart == |prefilling[i].delta| &&
                                 HasLogits(batch, views, logitAt[i], prefilling[i].seqId, prefilling[i].tokens))
  }

  /** The prefills with the submitted parts of their prompts recorded. */
  ghost function Advanced(prefilling: seq<Job>, subs: seq<Submission>): seq<Job> {
    if subs == [] then prefilling
    else
      var sub, p := subs[|subs| - 1], Advanced(prefilling, subs[..|subs| - 1]);
      if sub.ctxIndex < |p| && p[sub.ctxIndex].Prefilling? then
        p[sub.ctxIndex := p[sub.ctxIndex].(deltaStart := p[sub.ctxIndex].deltaStart + sub.tokens)]
      else p
  }

  lemma NoneAdvanced(prefilling: seq<Job>)
    ensures Advanced(prefilling, []) == prefilling
  {
  }

  lemma OneAdvanced(prefilling: seq<Job>, subs: seq<Submission>, k: nat)
    requires k < |subs|
    ensures var p, i := Advanced(prefilling, subs[..k]), subs[k].ctxIndex;
            i < |p| && p[i].Prefilling? ==>
              Advanced(prefilling, subs[..k + 1]) == p[i := p[i].(deltaStart := p[i].deltaStart + subs[k].tokens)]
  {
    assert subs[..k + 1][..k] == subs[..k] && subs[..k + 1][k] == subs[k];
  }

  /** How many prompts have logits. */
  ghost function Completed(logitAt: seq<int>): nat {
    if logitAt == [] then 0 else Completed(logitAt[..|logitAt| - 1]) + if logitAt[|logitAt| - 1] >= 0 then 1 else 0
  }

  lemma {:induction false} CompletedConcat(a: seq<int>, b: seq<int>)
    ensures Completed(a + b) == Completed(a) + Completed(b)
    decreases |b|
  {
    if b == [] {
      assert a + b == a;
    } else {
      CompletedConcat(a, b[..|b| - 1]);
      assert (a + b)[..|a + b| - 1] == a + b[..|b| - 1];
    }
  }

  lemma {:induction false} NoneCompleted(n: nat)
    ensures Completed(seq(n, _ => -1)) == 0
  {
    if n > 0 {
      NoneCompleted(n - 1);
      assert seq(n, _ => -1)[..n - 1] == seq(n - 1, _ => -1);
    }
  }

  lemma CompletedAround(a: seq<int>, k: int, b: seq<int>)
    ensures Completed(a + [k] + b) == Completed(a + b) + if k >= 0 then 1 else 0
  {
    CompletedConcat(a + [k], b);
    CompletedConcat(a, [k]);
    CompletedConcat(a, b);
    assert [k][..0] == [];
  }

  lemma OneCompleted(logitAt: seq<int>, i: nat, k: int)
    requires i < |logitAt|
    ensures Completed(logitAt[i := k]) <= Completed(logitAt) + 1
  {
    var a, b := logitAt[..i], logitAt[i + 1..];
    assert logitAt == a + [logitAt[i]] + b && logitAt[i := k] == a + [k] + b;
    CompletedAround(a, k, b);
    CompletedAround(a, logitAt[i], b);
  }

  lemma OneAnswered(logitAt: seq<int>, i: nat)
    requires i < |logitAt| && logitAt[i] >= 0
    ensures Completed(logitAt[..i] + logitAt[i + 1..]) == Completed(logitAt) - 1
  {
    var a, b := logitAt[..i], logitAt[i + 1..];
    assert logitAt == a + [logitAt[i]] + b;
    CompletedAround(a, logitAt[i], b);
  }

  lemma NextDue(prefilling: seq<Job>, active: seq<Job>, subs: seq<Submission>, k: nat, owed: Debts, batch: seq<Entry>,
                views: seq<Word>)
    requires AllOwed(prefilling, active, subs, k, 0, owed, batch, views) && k < |subs|
    ensures subs[k].ctxIndex < |prefilling| && Due(prefilling[subs[k].ctxIndex], subs[k], owed, batch, views)
    ensures var x := prefilling[subs[k].ctxIndex];
            x.deltaStart + subs[k].tokens == |x.delta| ==> subs[k].logitIndex >= 0
  {
  }

  lemma NextActive(prefilling: seq<Job>, active: seq<Job>, subs: seq<Submission>, i: nat, owed: Debts,
                   batch: seq<Entry>, views: seq<Word>)
    requires AllOwed(prefilling, active, subs, |subs|, i, owed, batch, views) && i < |active|
    ensures DueActive(active[i], i, owed, batch, views)
  {
  }

  /** How one step changes a generation's record. */
  predicate Continues(x: Job, y: Job, token: Token)
    requires x.Generating?
  {
    && y.Generating? && y.req == x.req && y.seqId == x.seqId && y.leafNode == x.leafNode
    && y.cachedTokens == x.cachedTokens + [x.nextToken] && (y.notify ==> y.done)
    && (!y.done ==> y.nextToken == token && y.pos == x.pos + 1 && y.remaining == x.remaining - 1 && y.remaining != 0)
  }

  lemma ReadyAgrees(c: Cache, s: SeqId)
    ensures Agree(c, c, c.leaf.Keys - {s}) && Agree(c, c.(ready := c.ready + {s}), c.leaf.Keys - {s})
  {
  }

  lemma PromptKnown(x: Job, c: Cache, owed: Debts, env: Env)
    requires JobOk(x, c, owed, env) && x.Prefilling?
    ensures x.seqId in c.leaf && c.leaf[x.seqId] == x.leafNode && x.seqId in c.prompt && c.prompt[x.seqId] == x.tokens
    ensures x.tokens != []
    ensures x.seqId in c.kv && x.deltaStart <= |x.delta|
  {
  }

  lemma LiveJob(x: Job, c: Cache, owed: Debts, env: Env)
    requires JobOk(x, c, owed, env)
    ensures x.seqId in c.leaf && (x.Generating? && !x.done ==> !x.notify)
  {
  }

  lemma ActiveRecorded(x: Job, y: Job, token: Token, owed: Debts, i: nat, batch: seq<Entry>, views: seq<Word>, c: Cache,
                       env: Env)
    requires JobOk(x, c, owed, env) && x.Generating? && !x.done && DueActive(x, i, owed, batch, views)
    requires Continues(x, y, token)
    ensures JobOk(y, c, owed - {x.seqId}, env) && JobWork(env, y) < JobWork(env, x)
  {
    assert Held(y) + [] == Held(x) + [x.nextToken];
  }

  lemma TextEnds(waiting: seq<Request>, a: seq<Job>, x: Job, b: seq<Job>, d: Desk, env: Env)
    requires ClientsOk(waiting, a + [x] + b, d, env) && x.Generating? && !x.done
    requires env.isEog(env.sample(x.req.id, x.cachedTokens + [x.nextToken]))
    ensures var y := x.(cachedTokens := x.cachedTokens + [x.nextToken], done := true, notify := true);
            ClientsOk(waiting, a + [y] + b, d, env)
  {
    hide ClientsOk;
    var y := x.(cachedTokens := x.cachedTokens + [x.nextToken], done := true, notify := true);
    ApartClients(waiting, a, x, b, d, env);
    assert d.log[x.req.id := d.log[x.req.id]] == d.log;
    ClientHears(waiting, a, x, b, y, d, d, env, d.log[x.req.id]);
  }

  lemma StopsHere(waiting: seq<Request>, a: seq<Job>, x: Job, b: seq<Job>, y: Job, d: Desk, env: Env)
    requires ClientsOk(waiting, a + [x] + b, d, env) && x.req.id in d.log && Over(d.log[x.req.id])
    requires y.req == x.req && y.Generating? && y.done && !y.notify
    ensures ClientsOk(waiting, a + [y] + b, d, env)
  {
    hide ClientsOk;
    ApartClients(waiting, a, x, b, d, env);
    assert d.log[x.req.id := d.log[x.req.id]] == d.log;
    ClientHears(waiting, a, x, b, y, d, d, env, d.log[x.req.id]);
  }

  /** The tokens said so far continue with a sampled one exactly as the cold computation does. */
  lemma Speaks(x: Job, d: Desk, env: Env, token: Token, e: Event)
    requires JobTrue(x, d, env) && TrueTo(d.log[x.req.id], d.asked[x.req.id], env) && !Cancelled(d.log[x.req.id])
    requires x.Generating? && !x.done && token == env.sample(x.req.id, x.cachedTokens + [x.nextToken])
    requires !env.isEog(token)
    requires d.asked[x.req.id].id == x.req.id
    requires e == if x.remaining == 1 then Last(token) else Piece(token)
    ensures var log := d.log[x.req.id] + [e];
            && TrueTo(log, d.asked[x.req.id], env) && Said(log) == Said(d.log[x.req.id]) + [token]
            && (x.remaining == 1 ==> Over(log)) && (x.remaining != 1 ==> Unended(log))
  {
    StageAppend(d.log[x.req.id], e);
    SaidAppend(d.log[x.req.id], e);
    TrueAppend(d.log[x.req.id], e, d.asked[x.req.id], env);
  }

  lemma LastPiece(waiting: seq<Request>, a: seq<Job>, x: Job, b: seq<Job>, y: Job, d: Desk, env: Env, token: Token)
    requires ClientsOk(waiting, a + [x] + b, d, env) && x.Generating? && !x.done && x.remaining == 1
    requires x.req.id in d.log && !Cancelled(d.log[x.req.id]) && y.req == x.req && y.Generating? && y.done && !y.notify
    requires token == env.sample(x.req.id, x.cachedTokens + [x.nextToken]) && !env.isEog(token)
    ensures ClientsOk(waiting, a + [y] + b, d.(log := d.log[x.req.id := d.log[x.req.id] + [Last(token)]]), env)
  {
    hide ClientsOk;
    ApartClients(waiting, a, x, b, d, env);
    Speaks(x, d, env, token, Last(token));
    hide TrueTo, StageOf, Said;
    var log := d.log[x.req.id] + [Last(token)];
    ClientHears(waiting, a, x, b, y, d, d.(log := d.log[x.req.id := log]), env, log);
  }

  lemma OnePiece(waiting: seq<Request>, a: seq<Job>, x: Job, b: seq<Job>, z: Job, d: Desk, env: Env, token: Token)
    requires ClientsOk(waiting, a + [x] + b, d, env) && x.Generating? && !x.done && x.remaining != 1
    requires x.req.id in d.log && !Cancelled(d.log[x.req.id])
    requires z == x.(cachedTokens := x.cachedTokens + [x.nextToken], remaining := x.remaining - 1, nextToken := token,
                     pos := x.pos + 1)
    requires token == env.sample(x.req.id, x.cachedTokens + [x.nextToken]) && !env.isEog(token)
    ensures ClientsOk(waiting, a + [z] + b, d.(log := d.log[x.req.id := d.log[x.req.id] + [Piece(token)]]), env)
  {
    hide ClientsOk;
    ApartClients(waiting, a, x, b, d, env);
    Speaks(x, d, env, token, Piece(token));
    hide TrueTo, StageOf, Said;
    var log := d.log[x.req.id] + [Piece(token)];
    ClientHears(waiting, a, x, b, z, d, d.(log := d.log[x.req.id := log]), env, log);
  }

  /** The generation that a completed prompt with first token `token` becomes. */
  function Begun(x: Job, token: Token): Job
    requires x.Prefilling?
  {
    Generating(x.req, x.seqId, x.leafNode, x.cachedPos + |x.delta|, token, x.req.maxTokens - 1, x.tokens, false, false)
  }

  /** What the first token of a completed prompt leads to. */
  lemma FirstToken(waiting: seq<Request>, a: seq<Job>, x: Job, b: seq<Job>, c: Cache, d: Desk, env: Env, token: Token)
    requires JobsOk(a + [x] + b, c, map[], env) && ClientsOk(waiting, a + [x] + b, d, env)
    requires x.Prefilling? && x.deltaStart == |x.delta| && x.req.id in d.log && !Cancelled(d.log[x.req.id])
    requires token == env.sample(x.req.id, x.tokens)
    ensures x.req.id in d.asked
    ensures var log, r := d.log[x.req.id], d.asked[x.req.id];
            if env.isEog(token) then TrueTo(log + [EndOfText], r, env) && Over(log + [EndOfText])
            else if x.req.maxTokens <= 1 then TrueTo(log + [Last(token)], r, env) && Over(log + [Last(token)])
            else
              var y := Begun(x, token);
              && JobsOk(a + [y] + b, c, map[], env)
              && ClientsOk(waiting, a + [y] + b, d.(log := d.log[x.req.id := log + [Piece(token)]]), env)
              && Work(env, a + [y] + b) < Work(env, a + [x] + b)
              && y.remaining == x.req.maxTokens - 1 && y.pos == |x.tokens| && y.cachedTokens == x.tokens
  {
    hide JobsOk, ClientsOk, TrueTo, StageOf, Said;
    Apart(a, x, b, c, map[], env);
    ApartClients(waiting, a, x, b, d, env);
    var log, r := d.log[x.req.id], d.asked[x.req.id];
    assert Limit(env, x.req) == if x.req.maxTokens <= 1 then 1 else x.req.maxTokens;
    assert r.tokens + Said(log) == x.tokens;
    var e := if env.isEog(token) then EndOfText else if x.req.maxTokens <= 1 then Last(token) else Piece(token);
    StageAppend(log, e);
    SaidAppend(log, e);
    TrueAppend(log, e, r, env);
    if e.Piece? {
      var y := Begun(x, token);
      FirstPiece(waiting, a, x, b, y, c, d, env, token);
    }
  }

  lemma FirstPiece(waiting: seq<Request>, a: seq<Job>, x: Job, b: seq<Job>, y: Job, c: Cache, d: Desk, env: Env,
                   token: Token)
    requires JobsOk(a + [x] + b, c, map[], env) && ClientsOk(waiting, a + [x] + b, d, env)
    requires x.Prefilling? && x.deltaStart == |x.delta| && x.req.maxTokens > 1
    requires y == Begun(x, token)
    requires x.req.id in d.log && x.req.id in d.asked
    requires TrueTo(d.log[x.req.id] + [Piece(token)], d.asked[x.req.id], env)
    requires Unended(d.log[x.req.id] + [Piece(token)]) && Said(d.log[x.req.id] + [Piece(token)]) == [token]
    ensures JobsOk(a + [y] + b, c, map[], env)
    ensures ClientsOk(waiting, a + [y] + b, d.(log := d.log[x.req.id := d.log[x.req.id] + [Piece(token)]]), env)
    ensures Work(env, a + [y] + b) < Work(env, a + [x] + b)
  {
    hide JobsOk, ClientsOk, TrueTo, StageOf, Said;
    Apart(a, x, b, c, map[], env);
    ApartClients(waiting, a, x, b, d, env);
    JobChanges(a, x, b, y, c, c, map[], map[], env);
    var log := d.log[x.req.id] + [Piece(token)];
    ClientHears(waiting, a, x, b, y, d, d.(log := d.log[x.req.id := log]), env, log);
    WorkAround(env, a, x, b);
    WorkAround(env, a, y, b);
  }

  lemma EvictionAgrees(c: Cache, c': Cache, gone: set<SeqId>, home: Homes, cells: map<SeqId, nat>, home': Homes,
                       cells': map<SeqId, nat>)
    requires Gone(gone, home, c.kv, cells, c.ready, home', c'.kv, cells', c'.ready) && gone !! c.leaf.Keys
    requires c'.leaf == c.leaf && c'.prompt == c.prompt
    ensures Agree(c, c', c.leaf.Keys)
  {
  }

  lemma PlannedIs(prefilling: seq<Job>, active: seq<Job>, batch: seq<Entry>, subs: seq<Submission>, plans: seq<Plan>)
    requires Planned(prefilling, active, batch, subs, plans)
    ensures batch == Flatten(plans)
  {
  }

  lemma SomethingPlanned(prefilling: seq<Job>, active: seq<Job>, batch: seq<Entry>, subs: seq<Submission>,
                         plans: seq<Plan>)
    requires Planned(prefilling, active, batch, subs, plans) && batch != []
    ensures |active| + |subs| >= 1 && prefilling + active != []
  {
    assert plans != [];
    if active == [] { assert SubPlanned(prefilling, subs[0], plans, 0); }
  }

  /** A waiting request is turned away with one callback. */
  lemma Turned(r: Request, rest: seq<Request>, jobs: seq<Job>, d: Desk, env: Env, e: Event)
    requires ClientsOk([r] + rest, jobs, d, env) && (e.Noticed? || e.Failed?)
    ensures ClientsOk(rest, jobs, d.(log := d.log[r.id := [e]], inside := d.inside - {r.id}), env)
    ensures e.Failed? ==> StageOf([e]).Ended?
    ensures e.Noticed? ==> Cancelled([e])
    ensures r.id in d.log && d.log[r.id] == [] && Polled(d.log[r.id], true) == [Noticed]
    ensures Polled(d.log[r.id], false) == []
  {
    hide ClientsOk;
    FirstWaits(r, rest, jobs, d, env);
    var q := d.asked[r.id];
    NothingSaid(q, env);
    TrueAppend([], e, q, env);
    StageAppend([], e);
    StageAppend([], Noticed);
    assert [] + [e] == [e] && [] + [Noticed] == [Noticed];
    WaiterLeaves(r, rest, jobs, d, d.(log := d.log[r.id := [e]], inside := d.inside - {r.id}), env, [e]);
  }

  /** Clamping a request to the context changes nothing it can get. */
  lemma Clamped(r: Request, q: Request, rest: seq<Request>, jobs: seq<Job>, d: Desk, env: Env)
    requires ClientsOk([r] + rest, jobs, d, env) && env.nCtx - |r.tokens| - 4 > 0
    requires q == if r.maxTokens > env.nCtx - |r.tokens| - 4 then r.(maxTokens := env.nCtx - |r.tokens| - 4) else r
    ensures ClientsOk([q] + rest, jobs, d, env) && SameAsk(q, r, env)
  {
    assert ([q] + rest)[1..] == rest && ([r] + rest)[1..] == rest;
    assert forall id :: Waiters([q] + rest, id) == Waiters([r] + rest, id);
    forall s | s in [q] + rest ensures exists t :: t in [r] + rest && SameAsk(s, t, env) {
      if s == q {
        assert r in [r] + rest && SameAsk(s, r, env);
      } else {
        assert s in [r] + rest && SameAsk(s, s, env);
      }
    }
    WaitersMove([r] + rest, [q] + rest, jobs, d, env);
  }

  lemma {:induction false} SomeUser(jobs: seq<Job>, s: SeqId)
    requires Uses(jobs, s) >= 1
    ensures exists j :: j in jobs && j.seqId == s
  {
    if jobs[0].seqId != s {
      SomeUser(jobs[1..], s);
      var j :| j in jobs[1..] && j.seqId == s;
      assert j in jobs;
    } else {
      assert jobs[0] in jobs;
    }
  }

  /** A live id that is not ready is that of a prefill which still has tokens to decode. */
  lemma UnreadyIsPrefill(prefilling: seq<Job>, active: seq<Job>, c: Cache, env: Env, s: SeqId)
    requires JobsOk(prefilling + active, c, map[], env) && s in c.leaf && s !in c.ready
    requires (forall j | j in prefilling :: j.Prefilling?) && (forall j | j in active :: j.Generating?)
    ensures exists j :: j in prefilling && j.seqId == s && j.deltaStart < |j.delta|
  {
    SomeUser(prefilling + active, s);
    var j :| j in prefilling + active && j.seqId == s;
    assert JobOk(j, c, map[], env);
  }

  lemma ExhaustedAgrees(c: Cache, c': Cache, gone: set<SeqId>, home: Homes, cells: map<SeqId, nat>, home': Homes,
                        cells': map<SeqId, nat>)
    requires Gone(gone, home, c.kv, cells, c.ready, home', c'.kv, cells', c'.ready) && gone !! c.leaf.Keys
    requires 0 !in c.leaf
    requires c'.leaf == c.leaf && c'.prompt == c.prompt - {0}
    ensures Agree(c, c', c.leaf.Keys)
  {
  }

  lemma SomeoneIsLive(jobs: seq<Job>, c: Cache, owed: Debts, env: Env)
    requires JobsOk(jobs, c, owed, env)
    ensures c.leaf != map[] <==> jobs != []
  {
    if jobs != [] {
      assert jobs[0] in jobs;
    } else {
      forall s ensures s !in c.leaf {
        assert Uses(jobs, s) == 0;
      }
      assert c.leaf.Keys == {};
    }
  }

  ghost predicate FreshlyPrepared(c: Cache, c': Cache, gone: set<SeqId>, prep: PrepareResult, w: Word) {
    && prep.Prepared? && prep.seqId !in c.leaf && 0 !in c.leaf && gone !! c.leaf.Keys
    && c'.leaf == c.leaf[prep.seqId := prep.leafNode] && c'.prompt == c.prompt[prep.seqId := w] - {0}
    && prep.cachedPos <= |w| && c'.kv == Cleared(c.kv, gone)[prep.seqId := w[..prep.cachedPos]]
    && c'.ready == c.ready - gone && prep.seqId !in c'.ready && prep.seqId != 0
  }

  lemma PreparedAgrees(c: Cache, c': Cache, gone: set<SeqId>, prep: PrepareResult, w: Word)
    requires FreshlyPrepared(c, c', gone, prep, w)
    ensures Agree(c, c', c.leaf.Keys)
    ensures prep.Prepared? && prep.seqId !in c.leaf && c'.leaf == c.leaf[prep.seqId := prep.leafNode]
  {
  }

  lemma JustPrepared(x: Job, c: Cache, c': Cache, gone: set<SeqId>, env: Env, prep: PrepareResult)
    requires FreshlyPrepared(c, c', gone, prep, x.req.tokens) && prep.delta == x.req.tokens[prep.cachedPos..]
    requires prep.delta != []
    requires x == Prefilling(x.req, prep.seqId, prep.leafNode, x.req.tokens, prep.cachedPos, prep.delta, 0)
    requires |x.tokens| + 4 < env.nCtx && x.req.maxTokens <= env.nCtx - |x.tokens| - 4
    ensures JobOk(x, c', map[], env) && JobWork(env, x) < |x.tokens| + Limit(env, x.req) + 2
  {
    assert Held(x) + [] == x.tokens[..prep.cachedPos];
  }

  lemma GivenBack(c: Cache, c1: Cache, c': Cache, s: SeqId, node: Ptr)
    requires Agree(c, c1, c.leaf.Keys) && c1.leaf == c.leaf[s := node] && s !in c.leaf && c'.leaf == c1.leaf - {s}
    requires c'.prompt == c1.prompt && c'.kv - {s} == c1.kv - {s} && c'.ready - {s} == c1.ready - {s}
    ensures c'.leaf == c.leaf && Agree(c, c', c.leaf.Keys)
  {
    FinishAgrees(c1, c', s);
  }

  /** Where the requests handed to admission went. */
  datatype Sorting = Sorting(
    prepared: seq<Job>,
    deferred: seq<Request>,
    queued: seq<Request>,
    refused: seq<Request>,
    cancelled: seq<Request>)

  function Ids(rs: seq<Request>): (r: seq<nat>)
    ensures |r| == |rs|
  {
    if rs == [] then [] else Ids(rs[..|rs| - 1]) + [rs[|rs| - 1].id]
  }

  function JobIds(jobs: seq<Job>): (r: seq<nat>)
    ensures |r| == |jobs|
  {
    if jobs == [] then [] else JobIds(jobs[..|jobs| - 1]) + [jobs[|jobs| - 1].req.id]
  }

  lemma IdsMore(rs: seq<Request>, r: Request)
    ensures Ids(rs + [r]) == Ids(rs) + [r.id]
  {
    assert (rs + [r])[..|rs|] == rs;
  }

  lemma JobIdsMore(jobs: seq<Job>, x: Job)
    ensures JobIds(jobs + [x]) == JobIds(jobs) + [x.req.id]
  {
    assert (jobs + [x])[..|jobs|] == jobs;
  }

  /** `f` are the places of `sub` in `all`, from left to right. */
  ghost predicate Picks(sub: seq<nat>, all: seq<nat>, f: seq<int>) {
    && |f| == |sub| && (forall i | 0 <= i < |f| :: 0 <= f[i] < |all| && all[f[i]] == sub[i])
    && (forall i, j | 0 <= i < j < |f| :: f[i] < f[j])
  }

  /** `sub` is part of `all`, in the same order. */
  ghost predicate InputOrder(sub: seq<nat>, all: seq<nat>) { exists f :: Picks(sub, all, f) }

  lemma NobodyOrdered(all: seq<nat>)
    ensures InputOrder([], all)
  {
    assert Picks([], all, []);
  }

  lemma OrderNobody(rs: seq<Request>)
    ensures InputOrder(Ids([]), Ids(rs))
  {
    NobodyOrdered(Ids(rs));
  }

  lemma OrderMore(sub: seq<nat>, all: seq<nat>, x: nat)
    requires InputOrder(sub, all)
    ensures InputOrder(sub, all + [x]) && InputOrder(sub + [x], all + [x])
  {
    var f :| Picks(sub, all, f);
    assert Picks(sub, all + [x], f);
    assert Picks(sub + [x], all + [x], f + [|all|]);
  }

  /** What was prepared, deferred and put back is so in the order of the requests. */
  ghost predicate Ordered(reqs: seq<Request>, s: Sorting) {
    && InputOrder(JobIds(s.prepared), Ids(reqs)) && InputOrder(Ids(s.deferred), Ids(reqs))
    && InputOrder(Ids(s.queued), Ids(reqs))
    && InputOrder(Ids(s.refused), Ids(reqs)) && InputOrder(Ids(s.cancelled), Ids(reqs))
  }

  lemma OrderedMore(reqs: seq<Request>, r: Request, s: Sorting, outcome: Outcome, q: Request, x: seq<Job>)
    requires Ordered(reqs, s) && q.id == r.id && (outcome.Started? ==> |x| == 1 && x[0].req.id == r.id)
    ensures Ordered(reqs + [r], Put(s, outcome, q, x))
  {
    hide InputOrder, Ids, JobIds;
    var all := Ids(reqs);
    IdsMore(reqs, r);
    OrderMore(JobIds(s.prepared), all, r.id);
    OrderMore(Ids(s.deferred), all, r.id);
    OrderMore(Ids(s.queued), all, r.id);
    OrderMore(Ids(s.refused), all, r.id);
    OrderMore(Ids(s.cancelled), all, r.id);
    IdsMore(s.deferred, q);
    IdsMore(s.queued, q);
    IdsMore(s.refused, q);
    IdsMore(s.cancelled, q);
    if outcome.Started? {
      assert x == [x[0]];
      JobIdsMore(s.prepared, x[0]);
    }
  }

  lemma SortedOrder(reqs: seq<Request>, s: Sorting)
    requires Sorted(reqs, s)
    ensures InputOrder(Ids(s.queued), Ids(reqs)) && InputOrder(Ids(s.deferred), Ids(reqs))
    ensures InputOrder(JobIds(s.prepared), Ids(reqs))
  {
  }

  /** Every request is in exactly one of the five places, and in each of them they are in their order. */
  ghost predicate Sorted(reqs: seq<Request>, s: Sorting) {
    Ordered(reqs, s) && forall id :: Waiters(reqs, id) == Places(s, id)
  }

  /** In how many places a client is. */
  function Places(s: Sorting, id: nat): nat {
    Serves(s.prepared, id) + Waiters(s.deferred, id) + Waiters(s.queued, id) + Waiters(s.refused, id) +
    Waiters(s.cancelled, id)
  }

  /** The refused have heard an error and the cancelled nothing but the notice of it. */
  ghost predicate Told(s: Sorting, log: map<nat, Log>) {
    && (forall r | r in s.refused :: r.id in log && StageOf(log[r.id]).Ended?)
    && (forall r | r in s.cancelled :: r.id in log && Cancelled(log[r.id]))
  }

  /** Nobody but the requests of `reqs` has heard anything. */
  ghost predicate QueueSame(reqs: seq<Request>, log: map<nat, Log>, log': map<nat, Log>) {
    forall id | id in log && (forall r | r in reqs :: r.id != id) :: id in log' && log'[id] == log[id]
  }

  lemma NoneHeard(reqs: seq<Request>, log: map<nat, Log>)
    ensures QueueSame(reqs, log, log)
  {
  }

  lemma StillSame(reqs: seq<Request>, some: seq<Request>, log: map<nat, Log>, log': map<nat, Log>, log'': map<nat, Log>)
    requires QueueSame(reqs, log, log') && QueueSame(some, log', log'') && forall r | r in some :: r in reqs
    ensures QueueSame(reqs, log, log'')
  {
  }

  /** Exactly the requests whose flags read set have been found cancelled. */
  ghost predicate Sifted(s: Sorting, flags: Flags) {
    && (forall q | q in s.cancelled :: flags(q.id)) && (forall j | j in s.prepared :: !flags(j.req.id))
    && (forall q | q in s.deferred || q in s.queued || q in s.refused :: !flags(q.id))
  }

  lemma NothingSifted(flags: Flags)
    ensures Sifted(Sorting([], [], [], [], []), flags)
  {
  }

  lemma SiftedMore(s: Sorting, flags: Flags, outcome: Outcome, q: Request, x: seq<Job>)
    requires Sifted(s, flags) && (outcome.TurnedOff? <==> flags(q.id))
    requires outcome.Started? ==> |x| == 1 && x[0].req.id == q.id
    ensures Sifted(Put(s, outcome, q, x), flags)
  {
  }

  function Put(s: Sorting, outcome: Outcome, q: Request, x: seq<Job>): Sorting {
    match outcome
    case Started => s.(prepared := s.prepared + x)
    case Deferred => s.(deferred := s.deferred + [q])
    case Exhausted => s.(queued := s.queued + [q])
    case Refused => s.(refused := s.refused + [q])
    case TurnedOff => s.(cancelled := s.cancelled + [q])
  }

  lemma NothingSorted(log: map<nat, Log>)
    ensures Sorted([], Sorting([], [], [], [], [])) && Told(Sorting([], [], [], [], []), log)
  {
    NobodyOrdered([]);
  }

  lemma SortedMore(reqs: seq<Request>, r: Request, s: Sorting, outcome: Outcome, q: Request, x: seq<Job>)
    requires Sorted(reqs, s) && q.id == r.id && (outcome.Started? ==> |x| == 1 && x[0].req.id == r.id)
    ensures Sorted(reqs + [r], Put(s, outcome, q, x))
  {
    hide Ordered, Put, Places, Waiters;
    OrderedMore(reqs, r, s, outcome, q, x);
    forall id ensures Waiters(reqs + [r], id) == Places(Put(s, outcome, q, x), id) {
      WaitersConcat(reqs, [r], id);
      OnePlace(s, outcome, q, x, id);
      OneWaiter(r, id);
    }
  }

  lemma OneWaiter(r: Request, id: nat)
    ensures Waiters([r], id) == if r.id == id then 1 else 0
  {
  }

  /** A request handled is in one place more. */
  lemma OnePlace(s: Sorting, outcome: Outcome, q: Request, x: seq<Job>, id: nat)
    requires outcome.Started? ==> |x| == 1 && x[0].req.id == q.id
    ensures Places(Put(s, outcome, q, x), id) == Places(s, id) + if q.id == id then 1 else 0
  {
    assert outcome.Started? ==> Serves(x, id) == if q.id == id then 1 else 0;
    hide Waiters, Serves;
    OneWaiter(q, id);
    match outcome {
      case Started => ServesConcat(s.prepared, x, id);
      case Deferred => WaitersConcat(s.deferred, [q], id);
      case Exhausted => WaitersConcat(s.queued, [q], id);
      case Refused => WaitersConcat(s.refused, [q], id);
      case TurnedOff => WaitersConcat(s.cancelled, [q], id);
    }
  }

  /** What was told before stays told: a request still to be handled has heard nothing yet. */
  lemma ToldMore(s: Sorting, log: map<nat, Log>, log': map<nat, Log>, outcome: Outcome, q: Request, x: seq<Job>)
    requires Told(s, log) && q.id in log && log[q.id] == []
    requires forall id | id in log && id != q.id :: id in log' && log'[id] == log[id]
    requires outcome.Refused? ==> q.id in log' && StageOf(log'[q.id]).Ended?
    requires outcome.TurnedOff? ==> q.id in log' && Cancelled(log'[q.id])
    ensures Told(Put(s, outcome, q, x), log')
  {
    assert StageOf([]).Open?;
  }

  /** The first waiting request goes behind others. */
  lemma MoveBehind(q: Request, a: seq<Request>, b: seq<Request>, c: seq<Request>, jobs: seq<Job>, d: Desk, env: Env)
    requires ClientsOk([q] + (a + b + c), jobs, d, env)
    ensures ClientsOk(a + (b + [q]) + c, jobs, d, env)
  {
    hide ClientsOk;
    var from, to := [q] + (a + b + c), a + (b + [q]) + c;
    forall id ensures Waiters(to, id) == Waiters(from, id) {
      WaitersConcat([q], a + b + c, id);
      WaitersConcat(a + b, c, id);
      WaitersConcat(a, b, id);
      WaitersConcat(a + (b + [q]), c, id);
      WaitersConcat(a, b + [q], id);
      WaitersConcat(b, [q], id);
    }
    forall r | r in to ensures exists p :: p in from && SameAsk(r, p, env) {
      assert r in from && SameAsk(r, r, env);
    }
    WaitersMove(from, to, jobs, d, env);
  }

  lemma BacklogNothing(env: Env)
    ensures Backlog(env, []) == 0
  {
  }

  lemma BacklogOne(env: Env, r: Request)
    ensures Backlog(env, [r]) == |r.tokens| + Limit(env, r) + 2
  {
    assert [r][1..] == [];
  }

  lemma SameBacklog(env: Env, q: Request, r: Request)
    requires SameAsk(q, r, env)
    ensures q.id == r.id && |q.tokens| == |r.tokens| && Limit(env, q) == Limit(env, r) && Limit(env, q) >= 1
  {
  }

  lemma Arrives(r: Request, waiting: seq<Request>, jobs: seq<Job>, d: Desk, env: Env)
    requires ClientsOk(waiting, jobs, d, env) && r.id !in d.log
    ensures ClientsOk(waiting + [r], jobs, Desk(d.log[r.id := []], d.asked[r.id := r], d.inside + {r.id}), env)
  {
    hide TrueTo;
    var d' := Desk(d.log[r.id := []], d.asked[r.id := r], d.inside + {r.id});
    NothingSaid(r, env);
    assert r.id !in d.inside by {
      Insiders(waiting, jobs, d, env, r.id);
    }
    forall id ensures Waiters(waiting + [r], id) + Serves(jobs, id) == if id in d'.inside then 1 else 0 {
      WaitersConcat(waiting, [r], id);
      assert Waiters([r], id) == if r.id == id then 1 else 0;
    }
    forall q | q in waiting + [r] ensures Waits(q, d', env) {
      if q in waiting { assert Waits(q, d, env); }
    }
    forall j | j in jobs ensures JobTrue(j, d', env) { assert JobTrue(j, d, env); }
    forall id | id in d'.log ensures Fair(id, d', env) {
      if id != r.id { assert Fair(id, d, env); }
    }
  }

  lemma {:induction false} SomeWaiter(rs: seq<Request>, id: nat)
    requires Waiters(rs, id) >= 1
    ensures exists r :: r in rs && r.id == id
  {
    if rs[0].id != id {
      SomeWaiter(rs[1..], id);
      var r :| r in rs[1..] && r.id == id;
      assert r in rs;
    } else {
      assert rs[0] in rs;
    }
  }

  lemma {:induction false} SomeServed(jobs: seq<Job>, id: nat)
    requires Serves(jobs, id) >= 1
    ensures exists j :: j in jobs && j.req.id == id
  {
    if jobs[0].req.id != id {
      SomeServed(jobs[1..], id);
      var j :| j in jobs[1..] && j.req.id == id;
      assert j in jobs;
    } else {
      assert jobs[0] in jobs;
    }
  }

  /** Whoever is inside has a log. */
  lemma Insiders(waiting: seq<Request>, jobs: seq<Job>, d: Desk, env: Env, id: nat)
    requires ClientsOk(waiting, jobs, d, env)
    ensures id in d.inside ==> id in d.log
  {
    if id in d.inside {
      if Waiters(waiting, id) >= 1 {
        SomeWaiter(waiting, id);
        var r :| r in waiting && r.id == id;
        assert Waits(r, d, env);
      } else {
        assert Serves(jobs, id) >= 1;
        SomeServed(jobs, id);
        var j :| j in jobs && j.req.id == id;
        assert JobTrue(j, d, env);
      }
    }
  }

  lemma ClientsServed(waiting: seq<Request>, jobs: seq<Job>, d: Desk, env: Env)
    requires ClientsOk(waiting, jobs, d, env)
    ensures forall id | id in d.log ::
              && id in d.asked && TrueTo(d.log[id], d.asked[id], env) && Allowed(d.log[id])
              && Plainly(d.log[id], d.asked[id], env) && (id !in d.inside ==> Over(d.log[id]))
  {
    hide Plainly;
    forall id | id in d.log
      ensures id in d.asked && TrueTo(d.log[id], d.asked[id], env) && Allowed(d.log[id])
      ensures Plainly(d.log[id], d.asked[id], env) && (id !in d.inside ==> Over(d.log[id]))
    {
      assert Fair(id, d, env);
      PlainlyTold(d.log[id], d.asked[id], env);
      ProtocolIs(d.log[id]);
    }
  }

  lemma EveryoneHeard(d: Desk, env: Env)
    requires ClientsOk([], [], d, env)
    ensures forall id | id in d.log :: id in d.asked && TrueTo(d.log[id], d.asked[id], env) && Over(d.log[id])
  {
    hide TrueTo;
    forall id | id in d.log ensures id in d.asked && TrueTo(d.log[id], d.asked[id], env) && Over(d.log[id]) {
      assert Waiters([], id) + Serves([], id) == 0;
      assert Fair(id, d, env);
    }
  }

  lemma SomeBacklog(env: Env, rs: seq<Request>)
    requires rs != []
    ensures Backlog(env, rs) > 0
  {
  }

  /** If nothing was deferred, queued or prepared, everything was turned away. */
  lemma SortedSome(reqs: seq<Request>, s: Sorting)
    requires Sorted(reqs, s) && reqs != []
    ensures |s.prepared| + |s.deferred| + |s.queued| + |s.refused| + |s.cancelled| >= 1
  {
    hide Ordered;
    assert Waiters(reqs, reqs[0].id) >= 1;
  }

  lemma EndsText(x: Job, d: Desk, env: Env)
    requires JobTrue(x, d, env) && x.Generating? && x.done && x.notify && !Cancelled(d.log[x.req.id])
    requires TrueTo(d.log[x.req.id], d.asked[x.req.id], env)
    ensures TrueTo(d.log[x.req.id] + [EndOfText], d.asked[x.req.id], env)
    ensures Over(d.log[x.req.id] + [EndOfText])
  {
    StageAppend(d.log[x.req.id], EndOfText);
    TrueAppend(d.log[x.req.id], EndOfText, d.asked[x.req.id], env);
  }

  lemma Fails(x: Job, d: Desk, env: Env, status: int)
    requires JobTrue(x, d, env) && (x.Generating? ==> !x.done) && !Cancelled(d.log[x.req.id])
    requires TrueTo(d.log[x.req.id], d.asked[x.req.id], env)
    ensures TrueTo(d.log[x.req.id] + [Failed(status)], d.asked[x.req.id], env)
    ensures Over(d.log[x.req.id] + [Failed(status)])
  {
    StageAppend(d.log[x.req.id], Failed(status));
    TrueAppend(d.log[x.req.id], Failed(status), d.asked[x.req.id], env);
  }
}
