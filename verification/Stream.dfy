/** The streaming branch of src/http_server.cpp: the worker's callbacks and the content provider share
    a mutex, two flags and a sink that is valid only until the provider returns.  Every step below is
    one that another thread can observe; any interleaving of steps is a run. */
module Stream {
  import opened Serving

  datatype Thread = Worker | Provider

  datatype Mutex = Free | Held(holder: Thread)

  datatype Text = Chunk(e: Event) | ErrorEvent | KeepAlive | DoneMark

  /** An attempt to write to the sink, with what was true at that moment. */
  datatype Write = Write(text: Text, ok: bool, locked: bool, sinkValid: bool)

  /** Where the provider is; those marked with a lock hold the mutex. */
  datatype ProviderAt =
    | Entry                  // about to lock
    | Registering            // lock: install the callbacks once
    | Submitting(submit: bool)
    | Relocking
    | Testing                // lock: is the answer done?
    | Waiting                // in the condition variable
    | Awake                  // lock: woken, timed out or neither
    | TimedOut               // lock
    | SendingKeepAlive       // lock
    | Finished               // lock: done was seen
    | Unlocking(good: bool)  // lock
    | Closing                // sink.done()
    | Returned(good: bool)

  /** Where the worker is in a callback; from `Checking` to `Releasing` it holds the mutex. */
  datatype WorkerAt =
    | Elsewhere
    | Called(e: Event)
    | Checking(e: Event)
    | Probing(e: Event)
    | SendingChunk(e: Event)
    | SendingError
    | SendingDone
    | MarkingDone
    | Releasing

  datatype State = State(
    mutex: Mutex,
    cancelled: bool,
    enqueued: bool,
    done: bool,
    submitted: bool,   // the request has been handed to the worker
    stage: Stage,      // what the worker may still call, by its own protocol
    provider: ProviderAt,
    worker: WorkerAt,
    writes: seq<Write>)

  const START := State(Free, false, false, false, false, Open(false), Entry, Elsewhere, [])

  predicate IsReturned(s: State) { s.provider.Returned? }

  /** The state after thread `t` has tried to write `text`. */
  function Wrote(s: State, t: Thread, text: Text, ok: bool): State {
    s.(writes := s.writes + [Write(text, ok, s.mutex == Held(t), !IsReturned(s))])
  }

  function Locked(s: State, t: Thread): State { s.(mutex := Held(t)) }

  function Unlocked(s: State): State { s.(mutex := Free) }

  /** One step of the provider; `ok` is whatever the sink or the clock answers. */
  predicate ProviderStep(s: State, s': State, ok: bool) {
    match s.provider
    case Entry => s.mutex.Free? && s' == Locked(s, Provider).(provider := Registering)
    case Registering => s' == Unlocked(s).(enqueued := true, provider := Submitting(!s.enqueued))
    case Submitting(submit) => s' == s.(submitted := s.submitted || submit, provider := Relocking)
    case Relocking => s.mutex.Free? && s' == Locked(s, Provider).(provider := Testing)
    case Testing =>
      s' == if s.done then s.(provider := Finished) else Unlocked(s).(provider := Waiting)
    case Waiting => s.mutex.Free? && s' == Locked(s, Provider).(provider := Awake)
    case Awake =>
      s' == if s.done then s.(provider := Finished)
            else if ok then s.(provider := TimedOut)
            else Unlocked(s).(provider := Waiting)
    case TimedOut =>
      s' == if ok then s.(provider := SendingKeepAlive) else s.(cancelled := true, provider := Unlocking(false))
    case SendingKeepAlive =>
      s' == var w := Wrote(s, Provider, KeepAlive, ok);
            if ok then w.(provider := Testing) else w.(cancelled := true, provider := Unlocking(false))
    case Finished => s' == s.(provider := Unlocking(!s.cancelled))
    case Unlocking(good) => s' == Unlocked(s).(provider := if good then Closing else Returned(false))
    case Closing => s' == s.(provider := Returned(true))
    case Returned(_) => false
  }

  predicate IsLast(e: Event) { e.Last? || e.EndOfText? }

  /** One step of the worker: it makes only calls its protocol allows, and only once it has the request. */
  ghost predicate WorkerStep(s: State, s': State, ok: bool) {
    match s.worker
    case Elsewhere =>
      s.submitted &&
      ((exists e: Event :: !e.Noticed? && Serving.Step(s.stage, e) != Broken &&
                    s' == s.(stage := Serving.Step(s.stage, e), worker := Called(e))) ||
       (s.cancelled && Serving.Step(s.stage, Noticed) != Broken && s' == s.(stage := Serving.Step(s.stage, Noticed))))
    case Called(e) => s.mutex.Free? && s' == Locked(s, Worker).(worker := Checking(e))
    case Checking(e) => s' == s.(worker := if s.cancelled then Releasing else Probing(e))
    case Probing(e) =>
      s' == if ok then s.(worker := if e.Failed? then SendingError else SendingChunk(e))
            else if e.Failed? then s.(cancelled := true, worker := MarkingDone)
            else s.(cancelled := true, done := true, worker := Releasing)
    case SendingChunk(e) =>
      s' == var w := Wrote(s, Worker, Chunk(e), ok);
            if !ok then w.(cancelled := true, done := true, worker := Releasing)
            else w.(worker := if IsLast(e) then SendingDone else Releasing)
    case SendingError =>
      s' == var w := Wrote(s, Worker, ErrorEvent, ok);
            if ok then w.(worker := SendingDone) else w.(cancelled := true, worker := MarkingDone)
    case SendingDone =>
      s' == var w := Wrote(s, Worker, DoneMark, ok);
            w.(cancelled := s.cancelled || !ok, worker := MarkingDone)
    case MarkingDone => s' == s.(done := true, worker := Releasing)
    case Releasing => s' == Unlocked(s).(worker := Elsewhere)
  }

  ghost predicate Next(s: State, s': State) {
    exists ok :: ProviderStep(s, s', ok) || WorkerStep(s, s', ok)
  }

  /** A run: any interleaving of steps from the start. */
  ghost predicate Run(r: seq<State>) {
    |r| > 0 && r[0] == START && forall i | 0 <= i < |r| - 1 :: Next(r[i], r[i + 1])
  }

  // ---------------------------------------------------------------- the invariant

  predicate ProviderHolds(s: State) {
    match s.provider
    case Registering | Testing | Awake | TimedOut | SendingKeepAlive | Finished | Unlocking(_) => true
    case _ => false
  }

  predicate WorkerHolds(s: State) { !s.worker.Elsewhere? && !s.worker.Called? }

  /** The worker is past the cancellation check of its callback: the sink must be valid. */
  predicate Writing(s: State) { WorkerHolds(s) && !s.worker.Checking? && !s.worker.Releasing? }

  /** The provider is on its way out because it gave up. */
  predicate GivingUp(s: State) { s.provider == Unlocking(false) || s.provider == Returned(false) }

  predicate GoodEnd(s: State) { s.provider == Unlocking(true) || s.provider == Closing || s.provider == Returned(true) }

  predicate EventOf(s: State, last: bool) {
    match s.worker
    case Called(e) => !e.Noticed? && last == Terminal(e)
    case Checking(e) => !e.Noticed? && last == Terminal(e)
    case Probing(e) => !e.Noticed? && last == Terminal(e)
    case SendingChunk(e) => (e.Piece? || IsLast(e)) && last == IsLast(e)
    case SendingError | SendingDone | MarkingDone => last
    case _ => true
  }

  predicate IsDone(w: Write) { w.text.DoneMark? && w.ok }

  /** Has the end mark been written? */
  predicate DoneWritten(ws: seq<Write>) { exists i :: 0 <= i < |ws| && IsDone(ws[i]) }

  /** An end mark that was written is the last thing that was. */
  predicate DoneIsLast(ws: seq<Write>) { forall i | 0 <= i < |ws| - 1 :: !IsDone(ws[i]) }

  /** Every write was made under the mutex, to a valid sink. */
  predicate Guarded(ws: seq<Write>) { forall i | 0 <= i < |ws| :: ws[i].locked && ws[i].sinkValid }

  lemma OneMoreWrite(ws: seq<Write>, w: Write)
    ensures DoneWritten(ws + [w]) <==> DoneWritten(ws) || IsDone(w)
    ensures DoneIsLast(ws + [w]) <==> !DoneWritten(ws)
    ensures Guarded(ws + [w]) <==> Guarded(ws) && w.locked && w.sinkValid
  {
    var more := ws + [w];
    assert forall i | 0 <= i < |ws| :: more[i] == ws[i];
    assert more[|ws|] == w;
    assert DoneWritten(ws) ==> !DoneIsLast(more) by {
      if DoneWritten(ws) {
        var i :| 0 <= i < |ws| && IsDone(ws[i]);
        assert IsDone(more[i]);
      }
    }
  }

  /** Who holds the mutex. */
  predicate MutexOk(s: State) {
    && s.mutex == (if ProviderHolds(s) then Held(Provider) else if WorkerHolds(s) then Held(Worker) else Free)
    && !(ProviderHolds(s) && WorkerHolds(s))
  }

  /** What the worker may be doing. */
  predicate CallsOk(s: State) {
    && s.stage != Broken && EventOf(s, !s.stage.Open?)
    && (!s.submitted ==> s.worker.Elsewhere? && s.stage.Open? && !s.done)
  }

  predicate LocksOk(s: State) { MutexOk(s) && CallsOk(s) }

  /** The worker writes only before anybody has finished or given up. */
  predicate WritesOk(s: State) {
    && Guarded(s.writes) && DoneIsLast(s.writes)
    && (Writing(s) ==> !s.done && !GivingUp(s) && !GoodEnd(s) && (s.worker.MarkingDone? || !s.cancelled))
    && (s.worker.Called? || s.worker.Checking? ==> s.done ==> s.cancelled)
    && (DoneWritten(s.writes) ==> s.done || s.worker.MarkingDone?)
    && (s.worker.MarkingDone? && !s.cancelled ==> DoneWritten(s.writes))
  }

  /** What the flags mean for the provider. */
  predicate ProviderOk(s: State) {
    && (GivingUp(s) ==> s.cancelled)
    && (GoodEnd(s) ==> s.done && DoneWritten(s.writes))
    && (s.provider.Finished? ==> s.done)
    && (s.provider.TimedOut? || s.provider.SendingKeepAlive? ==> !s.done)
  }

  /** What the flags mean for the request. */
  predicate FlagsOk(s: State) {
    && (s.cancelled ==> s.done || GivingUp(s) || s.worker.MarkingDone?)
    && (s.done && !s.cancelled ==> DoneWritten(s.writes) && (s.stage.Ended? || s.stage == EndedThenDropped))
    && (s.stage.Ended? && (s.worker.Elsewhere? || s.worker.Releasing?) ==> s.done || s.cancelled)
    && (s.stage == Dropped || s.stage == EndedThenDropped ==> s.cancelled)
  }

  predicate Inv(s: State) { LocksOk(s) && WritesOk(s) && ProviderOk(s) && FlagsOk(s) }

  lemma StartsWell()
    ensures Inv(START)
  {
  }

  lemma ProviderKeepsMutex(s: State, s': State, ok: bool)
    requires Inv(s) && ProviderStep(s, s', ok)
    ensures MutexOk(s')
  {
    hide DoneWritten, DoneIsLast, Guarded;
    match s.provider
    case Entry =>
    case Registering =>
    case Submitting(_) =>
    case Relocking =>
    case Testing =>
    case Waiting =>
    case Awake =>
    case TimedOut =>
    case SendingKeepAlive => OneMoreWrite(s.writes, Write(KeepAlive, ok, s.mutex == Held(Provider), !IsReturned(s)));
    case Finished =>
    case Unlocking(_) =>
    case Closing =>
  }

  lemma ProviderKeepsCalls(s: State, s': State, ok: bool)
    requires Inv(s) && ProviderStep(s, s', ok)
    ensures CallsOk(s')
  {
    hide DoneWritten, DoneIsLast, Guarded;
    match s.provider
    case Entry =>
    case Registering =>
    case Submitting(_) =>
    case Relocking =>
    case Testing =>
    case Waiting =>
    case Awake =>
    case TimedOut =>
    case SendingKeepAlive => OneMoreWrite(s.writes, Write(KeepAlive, ok, s.mutex == Held(Provider), !IsReturned(s)));
    case Finished =>
    case Unlocking(_) =>
    case Closing =>
  }

  lemma ProviderKeepsWrites(s: State, s': State, ok: bool)
    requires Inv(s) && ProviderStep(s, s', ok)
    ensures WritesOk(s')
  {
    hide DoneWritten, DoneIsLast, Guarded;
    match s.provider
    case Entry =>
    case Registering =>
    case Submitting(_) =>
    case Relocking =>
    case Testing =>
    case Waiting =>
    case Awake =>
    case TimedOut =>
    case SendingKeepAlive => OneMoreWrite(s.writes, Write(KeepAlive, ok, s.mutex == Held(Provider), !IsReturned(s)));
    case Finished =>
    case Unlocking(_) =>
    case Closing =>
  }

  lemma ProviderKeepsLocks(s: State, s': State, ok: bool)
    requires Inv(s) && ProviderStep(s, s', ok)
    ensures LocksOk(s') && WritesOk(s')
  {
    hide Inv, ProviderStep, MutexOk, CallsOk, WritesOk;
    ProviderKeepsMutex(s, s', ok);
    ProviderKeepsCalls(s, s', ok);
    ProviderKeepsWrites(s, s', ok);
  }

  lemma ProviderKeepsOwn(s: State, s': State, ok: bool)
    requires Inv(s) && ProviderStep(s, s', ok)
    ensures ProviderOk(s')
  {
    hide DoneWritten, DoneIsLast, Guarded;
    match s.provider
    case Entry =>
    case Registering =>
    case Submitting(_) =>
    case Relocking =>
    case Testing =>
    case Waiting =>
    case Awake =>
    case TimedOut =>
    case SendingKeepAlive => OneMoreWrite(s.writes, Write(KeepAlive, ok, s.mutex == Held(Provider), !IsReturned(s)));
    case Finished =>
    case Unlocking(_) =>
    case Closing =>
  }

  lemma ProviderKeepsShared(s: State, s': State, ok: bool)
    requires Inv(s) && ProviderStep(s, s', ok)
    ensures FlagsOk(s')
  {
    hide DoneWritten, DoneIsLast, Guarded;
    match s.provider
    case Entry =>
    case Registering =>
    case Submitting(_) =>
    case Relocking =>
    case Testing =>
    case Waiting =>
    case Awake =>
    case TimedOut =>
    case SendingKeepAlive => OneMoreWrite(s.writes, Write(KeepAlive, ok, s.mutex == Held(Provider), !IsReturned(s)));
    case Finished =>
    case Unlocking(_) =>
    case Closing =>
  }

  lemma ProviderKeepsFlags(s: State, s': State, ok: bool)
    requires Inv(s) && ProviderStep(s, s', ok)
    ensures ProviderOk(s') && FlagsOk(s')
  {
    hide Inv, ProviderStep, ProviderOk, FlagsOk;
    ProviderKeepsOwn(s, s', ok);
    ProviderKeepsShared(s, s', ok);
  }

  lemma WorkerKeepsMutex(s: State, s': State, ok: bool)
    requires Inv(s) && WorkerStep(s, s', ok)
    ensures MutexOk(s')
  {
    hide DoneWritten, DoneIsLast, Guarded;
    match s.worker
    case Elsewhere =>
    case Called(_) =>
    case Checking(_) =>
    case Probing(_) =>
    case SendingChunk(e) => OneMoreWrite(s.writes, Write(Chunk(e), ok, s.mutex == Held(Worker), !IsReturned(s)));
    case SendingError => OneMoreWrite(s.writes, Write(ErrorEvent, ok, s.mutex == Held(Worker), !IsReturned(s)));
    case SendingDone => OneMoreWrite(s.writes, Write(DoneMark, ok, s.mutex == Held(Worker), !IsReturned(s)));
    case MarkingDone =>
    case Releasing =>
  }

  lemma WorkerKeepsCalls(s: State, s': State, ok: bool)
    requires Inv(s) && WorkerStep(s, s', ok)
    ensures CallsOk(s')
  {
    hide DoneWritten, DoneIsLast, Guarded;
    match s.worker
    case Elsewhere =>
    case Called(_) =>
    case Checking(_) =>
    case Probing(_) =>
    case SendingChunk(e) => OneMoreWrite(s.writes, Write(Chunk(e), ok, s.mutex == Held(Worker), !IsReturned(s)));
    case SendingError => OneMoreWrite(s.writes, Write(ErrorEvent, ok, s.mutex == Held(Worker), !IsReturned(s)));
    case SendingDone => OneMoreWrite(s.writes, Write(DoneMark, ok, s.mutex == Held(Worker), !IsReturned(s)));
    case MarkingDone =>
    case Releasing =>
  }

  lemma WorkerKeepsWrites(s: State, s': State, ok: bool)
    requires Inv(s) && WorkerStep(s, s', ok)
    ensures WritesOk(s')
  {
    hide DoneWritten, DoneIsLast, Guarded;
    match s.worker
    case Elsewhere =>
    case Called(_) =>
    case Checking(_) =>
    case Probing(_) =>
    case SendingChunk(e) => OneMoreWrite(s.writes, Write(Chunk(e), ok, s.mutex == Held(Worker), !IsReturned(s)));
    case SendingError => OneMoreWrite(s.writes, Write(ErrorEvent, ok, s.mutex == Held(Worker), !IsReturned(s)));
    case SendingDone => OneMoreWrite(s.writes, Write(DoneMark, ok, s.mutex == Held(Worker), !IsReturned(s)));
    case MarkingDone =>
    case Releasing =>
  }

  lemma WorkerKeepsLocks(s: State, s': State, ok: bool)
    requires Inv(s) && WorkerStep(s, s', ok)
    ensures LocksOk(s') && WritesOk(s')
  {
    hide Inv, WorkerStep, MutexOk, CallsOk, WritesOk;
    WorkerKeepsMutex(s, s', ok);
    WorkerKeepsCalls(s, s', ok);
    WorkerKeepsWrites(s, s', ok);
  }

  lemma WorkerKeepsFlags(s: State, s': State, ok: bool)
    requires Inv(s) && WorkerStep(s, s', ok)
    ensures ProviderOk(s') && FlagsOk(s')
  {
    hide DoneWritten, DoneIsLast, Guarded;
    match s.worker
    case Elsewhere =>
    case Called(_) =>
    case Checking(_) =>
    case Probing(_) =>
    case SendingChunk(e) => OneMoreWrite(s.writes, Write(Chunk(e), ok, s.mutex == Held(Worker), !IsReturned(s)));
    case SendingError => OneMoreWrite(s.writes, Write(ErrorEvent, ok, s.mutex == Held(Worker), !IsReturned(s)));
    case SendingDone => OneMoreWrite(s.writes, Write(DoneMark, ok, s.mutex == Held(Worker), !IsReturned(s)));
    case MarkingDone =>
    case Releasing =>
  }

  lemma {:induction false} Reachable(r: seq<State>, i: nat)
    requires Run(r) && i < |r|
    ensures Inv(r[i])
  {
    if i == 0 {
      StartsWell();
    } else {
      Reachable(r, i - 1);
      assert Next(r[i - 1], r[i - 1 + 1]);
      var ok :| ProviderStep(r[i - 1], r[i], ok) || WorkerStep(r[i - 1], r[i], ok);
      if ProviderStep(r[i - 1], r[i], ok) {
        ProviderKeepsLocks(r[i - 1], r[i], ok);
        ProviderKeepsFlags(r[i - 1], r[i], ok);
      } else {
        WorkerKeepsLocks(r[i - 1], r[i], ok);
        WorkerKeepsFlags(r[i - 1], r[i], ok);
      }
    }
  }

  // ---------------------------------------------------------------- what it means

  /** The steps of a callback that ask the sink whether it is writable or write to it. */
  predicate UsesSink(w: WorkerAt) {
    w.Probing? || w.SendingChunk? || w.SendingError? || w.SendingDone?
  }

  ghost function DoneMarks(ws: seq<Write>): nat {
    if ws == [] then 0 else DoneMarks(ws[..|ws| - 1]) + if IsDone(ws[|ws| - 1]) then 1 else 0
  }

  lemma {:induction false} CountDone(ws: seq<Write>)
    requires DoneIsLast(ws)
    ensures DoneMarks(ws) == if DoneWritten(ws) then 1 else 0
    ensures DoneWritten(ws) ==> |ws| > 0 && IsDone(ws[|ws| - 1])
  {
    if ws != [] {
      var init, w := ws[..|ws| - 1], ws[|ws| - 1];
      assert ws == init + [w];
      OneMoreWrite(init, w);
      assert DoneIsLast(init);
      CountDone(init);
    }
  }

  /** In every run every write to the sink is made by a thread holding the mutex and while the provider
      has not returned; a provider that has returned true wrote the end mark once, as the last thing;
      one that has returned false has cancelled the request.  From its cancellation check on until it lets go
      of the mutex, that is whenever it asks the sink or writes to it, a callback finds the sink valid and not
      being closed. */
  lemma StreamIsSafe(r: seq<State>, i: nat)
    requires Run(r) && i < |r|
    ensures forall k | 0 <= k < |r[i].writes| :: r[i].writes[k].locked && r[i].writes[k].sinkValid
    ensures r[i].provider == Returned(true) ==>
              DoneMarks(r[i].writes) == 1 && |r[i].writes| > 0 && IsDone(r[i].writes[|r[i].writes| - 1])
    ensures r[i].provider == Returned(false) ==> r[i].cancelled
    ensures DoneMarks(r[i].writes) <= 1
    ensures UsesSink(r[i].worker) ==> r[i].mutex == Held(Worker) && !IsReturned(r[i]) && r[i].provider != Closing
    ensures r[i].provider == Closing || IsReturned(r[i]) ==> r[i].mutex != Held(Provider) && !UsesSink(r[i].worker)
    ensures r[i].provider.TimedOut? || r[i].provider.SendingKeepAlive? ==> r[i].mutex == Held(Provider)
  {
    Reachable(r, i);
    CountDone(r[i].writes);
  }

  /** Once the worker has nothing more to say, a provider that waits will find the answer done. */
  lemma NobodyWaitsForever(r: seq<State>, i: nat)
    requires Run(r) && i < |r| && !r[i].stage.Open? && r[i].worker.Elsewhere?
    ensures r[i].provider.Waiting? || r[i].provider.Testing? || r[i].provider.Awake? ==> r[i].done
  {
    Reachable(r, i);
  }
}
