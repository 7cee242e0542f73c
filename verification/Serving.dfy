/** What the worker owes its clients: requests, the callbacks each has received, and the answer a
    computation without any cache would have given. */
module Serving {
  import opened Tokens

  datatype Request = Request(id: nat, tokens: Word, maxTokens: int)

  /** One callback: a piece of text, the last piece, the empty final piece after an end-of-text
      token, an error, or the notice that a cancellation was seen. */
  datatype Event =
    | Piece(token: Token)
    | Last(token: Token)
    | EndOfText
    | Failed(status: int)
    | Noticed

  type Log = seq<Event>

  predicate Terminal(e: Event) { e.Last? || e.EndOfText? || e.Failed? }

  // ---------------------------------------------------------------- the callback protocol

  /** How far a client's callbacks have come.  `going` says that it has heard a piece, and `late` that the end was the
      last of several pieces: only then is the job still polled once more. */
  datatype Stage = Open(going: bool) | Ended(late: bool) | Dropped | EndedThenDropped | Broken

  function Step(s: Stage, e: Event): Stage {
    match s
    case Open(going) => if e.Piece? then Open(true) else if e.Noticed? then Dropped else Ended(going && e.Last?)
    case Ended(late) => if e.Noticed? && late then EndedThenDropped else Broken
    case _ => Broken
  }

  function StageOf(log: Log): Stage {
    if log == [] then Open(false) else Step(StageOf(log[..|log| - 1]), log[|log| - 1])
  }

  lemma StageAppend(log: Log, e: Event)
    ensures StageOf(log + [e]) == Step(StageOf(log), e)
  {
    assert (log + [e])[..|log|] == log;
  }

  /** Nothing more will be said to the client. */
  predicate Over(log: Log) { StageOf(log).Ended? || StageOf(log).Dropped? || StageOf(log).EndedThenDropped? }

  /** The cancellation has been seen. */
  predicate Cancelled(log: Log) { StageOf(log).Dropped? || StageOf(log).EndedThenDropped? }

  /** The callbacks the protocol allows: pieces only; pieces and a notice; pieces and a terminal callback; or at least
      one piece, the last piece and a notice. */
  predicate Allowed(log: Log) {
    var n := |log|;
    && (forall i | 0 <= i < n - 2 :: log[i].Piece?)
    && (n >= 2 ==> log[n - 2].Piece? || (n >= 3 && log[n - 2].Last? && log[n - 1].Noticed?))
  }

  /** The protocol lets through exactly the allowed logs, and a notice comes after a terminal callback exactly if
      that is a last piece behind another piece. */
  lemma {:induction false} ProtocolIs(log: Log)
    ensures StageOf(log) != Broken <==> Allowed(log)
    ensures StageOf(log).Open? <==> forall i | 0 <= i < |log| :: log[i].Piece?
    ensures StageOf(log).Open? ==> StageOf(log).going == (log != [])
    ensures StageOf(log).Ended? <==>
              Allowed(log) && log != [] && Terminal(log[|log| - 1])
    ensures StageOf(log).Ended? ==> StageOf(log).late == (|log| >= 2 && log[|log| - 1].Last?)
    ensures StageOf(log).EndedThenDropped? <==>
              && |log| >= 3 && log[|log| - 1].Noticed? && log[|log| - 2].Last?
              && forall i | 0 <= i < |log| - 2 :: log[i].Piece?
    decreases |log|
  {
    if log != [] {
      var init := log[..|log| - 1];
      ProtocolIs(init);
      assert forall i | 0 <= i < |init| :: init[i] == log[i];
    }
  }

  /** In an unbroken log at most one callback is terminal and only a cancellation notice, at most one, follows it or
      ends the log; one follows a terminal callback only if that is a last piece behind another piece; a log that is
      over has a terminal callback or such a notice. */
  lemma {:induction false} ProtocolKept(log: Log)
    requires StageOf(log) != Broken
    ensures forall i, j | 0 <= i < j < |log| :: Terminal(log[i]) ==> log[j].Noticed? && log[i].Last? && i >= 1
    ensures forall i | 0 <= i < |log| - 1 :: !log[i].Noticed?
    ensures Over(log) ==> exists i :: 0 <= i < |log| && (Terminal(log[i]) || log[i].Noticed?)
    ensures Over(log) && !Cancelled(log) ==> |log| > 0 && Terminal(log[|log| - 1])
    ensures StageOf(log).Open? ==> forall i | 0 <= i < |log| :: log[i].Piece?
    ensures StageOf(log).Ended? ==> forall i | 0 <= i < |log| :: !log[i].Noticed?
    decreases |log|
  {
    if log != [] {
      ProtocolKept(log[..|log| - 1]);
      ProtocolIs(log[..|log| - 1]);
    }
  }

  // ---------------------------------------------------------------- what has been said

  /** The tokens delivered so far. */
  function Said(log: Log): Word {
    if log == [] then []
    else
      var e := log[|log| - 1];
      Said(log[..|log| - 1]) + if e.Piece? || e.Last? then [e.token] else []
  }

  lemma SaidAppend(log: Log, e: Event)
    ensures Said(log + [e]) == Said(log) + if e.Piece? || e.Last? then [e.token] else []
  {
    assert (log + [e])[..|log|] == log;
  }

  /** The model and the context it runs in.  `sample` draws the next token of request `id` from the
      logits of a sequence whose cells hold `view`; a seeded sampler has drawn once per token so far. */
  datatype Env = Env(nCtx: int, sample: (nat, Word) -> Token, isEog: Token -> bool)

  /** How many tokens a request may get: what it asks for, clamped to the context, and at least one. */
  function Limit(env: Env, r: Request): int {
    var room := env.nCtx - |r.tokens| - 4;
    var n := if r.maxTokens > room then room else r.maxTokens;
    if n <= 1 then 1 else n
  }

  /** The first `n` tokens generated with nothing cached. */
  function Cold(env: Env, r: Request, n: nat): (w: Word)
    ensures |w| == n
  {
    if n == 0 then [] else Cold(env, r, n - 1) + [env.sample(r.id, r.tokens + Cold(env, r, n - 1))]
  }

  /** Everything said is what the cold computation says, as far as it has come; a last piece comes
      exactly at the limit and an end of text exactly where the cold computation ends its text. */
  ghost predicate TrueTo(log: Log, r: Request, env: Env) {
    var said := Said(log);
    && StageOf(log) != Broken
    && said == Cold(env, r, |said|)
    && (forall i | 0 <= i < |said| :: !env.isEog(said[i]))
    && |said| <= Limit(env, r)
    && ((forall e | e in log :: !e.Last?) ==> |said| < Limit(env, r))
    && (forall e | e in log && e.Last? :: |said| == Limit(env, r))
    && (forall e | e in log && e.EndOfText? :: |said| < Limit(env, r) && env.isEog(env.sample(r.id, r.tokens + said)))
  }

  lemma NothingSaid(r: Request, env: Env)
    ensures TrueTo([], r, env)
  {
  }

  lemma TrueAppend(log: Log, e: Event, r: Request, env: Env)
    requires TrueTo(log, r, env) && Step(StageOf(log), e) != Broken
    requires e.Piece? || e.Last? ==>
               e.token == env.sample(r.id, r.tokens + Said(log)) && !env.isEog(e.token)
    requires e.Piece? ==> |Said(log)| + 1 < Limit(env, r)
    requires e.Last? ==> |Said(log)| + 1 == Limit(env, r)
    requires e.EndOfText? ==> |Said(log)| < Limit(env, r) && env.isEog(env.sample(r.id, r.tokens + Said(log)))
    ensures TrueTo(log + [e], r, env)
  {
    StageAppend(log, e);
    SaidAppend(log, e);
    if e.Piece? || e.Last? {
      ProtocolKept(log);
      assert forall d | d in log :: !Terminal(d);
    }
  }

  /** What a log says, in plain numbers.  Token by token it is what is sampled from the prompt and what came before;
      the last piece is the one asked for last, the first if one or fewer are asked for, and the last the context
      has room for if more are; no other piece comes so late; and an end of text comes before, where such a token is
      sampled. */
  ghost predicate Plainly(log: Log, r: Request, env: Env) {
    var room := env.nCtx - |r.tokens| - 4;
    && (forall i | 0 <= i < |log| && (log[i].Piece? || log[i].Last?) ::
          && |Said(log[..i])| == i && log[i].token == env.sample(r.id, r.tokens + Said(log[..i]))
          && !env.isEog(log[i].token)
          && (r.maxTokens <= 1 ==> log[i].Last? && i == 0)
          && (1 <= r.maxTokens <= room ==> i + 1 <= r.maxTokens && (log[i].Last? <==> i + 1 == r.maxTokens))
          && (1 <= room < r.maxTokens ==> i + 1 <= room && (log[i].Last? <==> i + 1 == room)))
    && (forall i | 0 <= i < |log| && log[i].EndOfText? ::
          && |Said(log[..i])| == i && env.isEog(env.sample(r.id, r.tokens + Said(log[..i])))
          && (r.maxTokens <= 1 ==> i == 0)
          && (1 <= r.maxTokens <= room ==> i < r.maxTokens) && (1 <= room < r.maxTokens ==> i < room))
  }

  lemma PlainlyTold(log: Log, r: Request, env: Env)
    requires TrueTo(log, r, env)
    ensures Plainly(log, r, env)
  {
    hide TrueTo, Said;
    forall i | 0 <= i < |log| && !log[i].Noticed? && !log[i].Failed?
      ensures |Said(log[..i])| == i
      ensures log[i].EndOfText? ==> i < Limit(env, r) && env.isEog(env.sample(r.id, r.tokens + Said(log[..i])))
      ensures log[i].Piece? || log[i].Last? ==>
                && log[i].token == env.sample(r.id, r.tokens + Said(log[..i])) && !env.isEog(log[i].token)
                && i + 1 <= Limit(env, r) && (log[i].Last? <==> i + 1 == Limit(env, r))
    {
      PieceAt(log, i, r, env);
    }
  }

  lemma PieceAt(log: Log, i: nat, r: Request, env: Env)
    requires TrueTo(log, r, env) && i < |log| && !log[i].Noticed? && !log[i].Failed?
    ensures |Said(log[..i])| == i
    ensures log[i].EndOfText? ==> i < Limit(env, r) && env.isEog(env.sample(r.id, r.tokens + Said(log[..i])))
    ensures log[i].Piece? || log[i].Last? ==>
              && log[i].token == env.sample(r.id, r.tokens + Said(log[..i])) && !env.isEog(log[i].token)
              && i + 1 <= Limit(env, r) && (log[i].Last? <==> i + 1 == Limit(env, r))
  {
    hide StageOf, Said;
    PiecesBefore(log, i);
    assert log[i] in log;
    SaidUpTo(log, i);
    SaidUpTo(log, i + 1);
    var said := Said(log);
    if log[i].Piece? || log[i].Last? {
      ColdPrefix(env, r, i, |said|);
      assert said[i] == log[i].token && said[..i] == Said(log[..i]);
    }
    if log[i].Last? || log[i].EndOfText? {
      LastSaid(log, i);
      assert log[i].EndOfText? ==> said == Said(log[..i]) + [] == Said(log[..i]);
    }
    if log[i].Piece? {
      EarlyPiece(log, i, r, env);
    }
  }

  /** Before a piece or the end there are pieces only, and after the end at most a notice. */
  lemma PiecesBefore(log: Log, i: nat)
    requires StageOf(log) != Broken && i < |log| && !log[i].Noticed?
    ensures |Said(log[..i])| == i
    ensures Said(log[..i + 1]) == Said(log[..i]) + if log[i].Piece? || log[i].Last? then [log[i].token] else []
    ensures Terminal(log[i]) ==> forall j | i < j < |log| :: log[j].Noticed?
  {
    ProtocolIs(log);
    ProtocolKept(log);
    AllSaid(log[..i]);
    assert log[..i + 1] == log[..i] + [log[i]];
    SaidAppend(log[..i], log[i]);
  }

  /** What has been said up to some callback is a prefix of all that has been said. */
  lemma {:induction false} SaidUpTo(log: Log, i: nat)
    requires i <= |log|
    ensures Said(log[..i]) <= Said(log)
    decreases |log|
  {
    if i < |log| {
      var init := log[..|log| - 1];
      SaidUpTo(init, i);
      assert init[..i] == log[..i];
    } else {
      assert log[..i] == log;
    }
  }

  /** After the end nothing more is said. */
  lemma {:induction false} LastSaid(log: Log, i: nat)
    requires i < |log| && forall j | i < j < |log| :: log[j].Noticed?
    ensures Said(log) == Said(log[..i + 1])
    decreases |log|
  {
    if i + 1 < |log| {
      var init := log[..|log| - 1];
      LastSaid(init, i);
      assert init[..i + 1] == log[..i + 1];
    } else {
      assert log[..i + 1] == log;
    }
  }

  /** A piece is never the last token the request may get. */
  lemma EarlyPiece(log: Log, i: nat, r: Request, env: Env)
    requires TrueTo(log, r, env) && i < |log| && log[i].Piece? && i + 1 <= |Said(log)|
    ensures i + 1 < Limit(env, r)
  {
    hide StageOf, Said;
    if e :| e in log && e.Last? {
      var k :| 0 <= k < |log| && log[k] == e;
      PiecesBefore(log, k);
      SaidUpTo(log, k + 1);
    }
  }

  /** A true log in which a notice follows the end has told everything the request may get, more than one token. */
  lemma LateNotice(log: Log, r: Request, env: Env)
    requires TrueTo(log, r, env) && StageOf(log).EndedThenDropped?
    ensures |log| - 1 == |Said(log)| == Limit(env, r) >= 2 && log[|log| - 2].Last?
    ensures Said(log) == Cold(env, r, Limit(env, r))
  {
    ProtocolIs(log);
    var last, pieces := log[..|log| - 1], log[..|log| - 2];
    assert log[|log| - 2] in log && last[..|last| - 1] == pieces;
    AllSaid(pieces);
  }

  lemma {:induction false} AllSaid(log: Log)
    requires forall i | 0 <= i < |log| :: log[i].Piece?
    ensures |Said(log)| == |log|
    decreases |log|
  {
    if log != [] { AllSaid(log[..|log| - 1]); }
  }

  /** Has the request been answered to its end? */
  predicate Answered(log: Log) { exists i :: 0 <= i < |log| && (log[i].Last? || log[i].EndOfText?) }

  lemma {:induction false} ColdPrefix(env: Env, r: Request, m: nat, n: nat)
    requires m < n
    ensures Cold(env, r, n)[..m] == Cold(env, r, m)
    ensures Cold(env, r, n)[m] == env.sample(r.id, r.tokens + Cold(env, r, m))
  {
    if m < n - 1 { ColdPrefix(env, r, m, n - 1); }
  }

  /** Two runs that answer a request to its end, whatever either found in its cache, say the same. */
  lemma SameAnswer(log: Log, log': Log, r: Request, env: Env)
    requires TrueTo(log, r, env) && TrueTo(log', r, env) && Answered(log) && Answered(log')
    ensures Said(log) == Said(log')
  {
    var i :| 0 <= i < |log| && (log[i].Last? || log[i].EndOfText?);
    var i' :| 0 <= i' < |log'| && (log'[i'].Last? || log'[i'].EndOfText?);
    assert log[i] in log && log'[i'] in log';
    if |Said(log)| < |Said(log')| {
      ColdPrefix(env, r, |Said(log)|, |Said(log')|);
    } else if |Said(log')| < |Said(log)| {
      ColdPrefix(env, r, |Said(log')|, |Said(log)|);
    }
  }

  // ---------------------------------------------------------------- polling for cancellation

  function Polled(log: Log, seen: bool): Log {
    if seen && !Cancelled(log) then log + [Noticed] else log
  }

  lemma PollTrue(log: Log, seen: bool, r: Request, env: Env)
    requires TrueTo(log, r, env) && (Cancelled(log) ==> seen) && (StageOf(log).Ended? ==> StageOf(log).late)
    ensures TrueTo(Polled(log, seen), r, env) && Said(Polled(log, seen)) == Said(log)
    ensures seen ==> Cancelled(Polled(log, seen)) && Over(Polled(log, seen))
    ensures !seen ==> Polled(log, seen) == log && !Cancelled(log)
    ensures Over(log) ==> Over(Polled(log, seen))
    ensures StageOf(log).Open? ==> StageOf(Polled(log, seen)).Open? || StageOf(Polled(log, seen)).Dropped?
    ensures StageOf(log).Dropped? ==> StageOf(Polled(log, seen)).Dropped?
    ensures !StageOf(Polled(log, seen)).Dropped? && !StageOf(Polled(log, seen)).EndedThenDropped? ==>
              Polled(log, seen) == log
  {
    StageAppend(log, Noticed);
    SaidAppend(log, Noticed);
    if seen && !Cancelled(log) { TrueAppend(log, Noticed, r, env); }
  }

  // ---------------------------------------------------------------- what a client hears next

  /** A client that has been seen to cancel hears nothing but the notice of it; any other hears `e`. */
  function Heard(log: Log, e: Event, flag: bool): Log {
    if flag || Cancelled(log) then Polled(log, true) else log + [e]
  }

  /** What a generation's client hears of a sampled token: nothing yet at the end of the text, the last piece, or a
      piece, after which the flag is polled once more. */
  function HeardOf(log: Log, token: Token, eog: bool, last: bool, flag: bool, again: bool): Log {
    if eog then log
    else if flag || Cancelled(log) then Polled(log, true)
    else if last then log + [Last(token)]
    else Polled(log + [Piece(token)], again)
  }

  // ---------------------------------------------------------------- logs only grow

  /** Every log of `a` is still there in `b`, perhaps with more callbacks; a cancelled one has no more. */
  ghost predicate Longer(a: map<nat, Log>, b: map<nat, Log>) {
    forall id {:trigger a[id]} {:trigger id in b} | id in a ::
      id in b && a[id] <= b[id] && (Cancelled(a[id]) ==> b[id] == a[id])
  }

  lemma LongerSame(a: map<nat, Log>)
    ensures Longer(a, a)
  {
  }

  lemma LongerTrans(a: map<nat, Log>, b: map<nat, Log>, c: map<nat, Log>)
    requires Longer(a, b) && Longer(b, c)
    ensures Longer(a, c)
  {
    forall id | id in a ensures id in c && a[id] <= c[id] && (Cancelled(a[id]) ==> c[id] == a[id]) {
      assert a[id] <= b[id] && b[id] <= c[id];
      assert c[id][..|b[id]|] == b[id] && b[id][..|a[id]|] == a[id];
    }
  }

  lemma LongerSay(a: map<nat, Log>, id: nat, e: Event)
    requires id in a && !Cancelled(a[id])
    ensures Longer(a, a[id := a[id] + [e]])
  {
  }

  lemma LongerPoll(a: map<nat, Log>, id: nat, seen: bool)
    requires id in a
    ensures Longer(a, a[id := Polled(a[id], seen)])
  {
  }

  lemma LongerNew(a: map<nat, Log>, id: nat)
    requires id !in a
    ensures Longer(a, a[id := []])
  {
  }

  /** Nothing has been said to `id` before. */
  lemma LongerFirst(a: map<nat, Log>, b: map<nat, Log>, id: nat)
    requires id in a && a[id] == [] && id in b && forall k | k in a && k != id :: k in b && b[k] == a[k]
    ensures Longer(a, b)
  {
    assert StageOf([]).Open?;
  }
}
