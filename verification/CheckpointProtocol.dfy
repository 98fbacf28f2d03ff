/**
 The checkpoint queue as a concurrent protocol.  Any number of callers run `schedule`, `flush`
 and `retire`; every fired timer adds a thread that runs `flush`.  One step is one section under
 the queue's `_lock`, one move of the `_flush_serial` lock, the end of one `flush_fn`, or time
 passing.  `flush_fn` runs between its swap and its end step while others keep stepping.

 Each accepted mutation is tracked in `log`.  `flush_fn` is taken at its documented word: a
 successful call commits everything mutated before the swap, including batches whose own
 `flush_fn` had failed.
 */
module CheckpointProtocol {
  import opened Basics
  import opened CheckpointQueue

  datatype ThreadId = Caller(n: nat) | TimerThread(timer: TimerId)

  datatype FlushResult = Returned(count: nat) | Raised

  /** Where a thread stands inside `flush` or `retire`; `seen` is how many mutations had been
      accepted when it passed the swap. */
  datatype Pc =
    | FlushWaiting
    | FlushHolding
    | FlushRunning(count: nat, seen: nat)
    | FlushLeaving(result: FlushResult, seen: nat)
    | RetireWaiting
    | RetireHolding
    | RetireLeaving(count: nat)

  datatype Fate = Waiting | Running | Committed | Failed | HandedOver

  datatype Mutation = Mutation(acceptedAt: int, fate: Fate)

  datatype System = System(
    queue: Queue,
    serial: Option<ThreadId>,
    threads: map<ThreadId, Pc>,
    clock: int,
    log: seq<Mutation>,
    flushed: nat,
    failed: nat,
    transferred: nat,
    lastFlushFailed: bool)

  datatype Action =
    | Tick(ms: nat)
    | Schedule
    | CallFlush(caller: nat)
    | CallRetire(caller: nat)
    | TimerFires(timer: TimerId)
    | AcquireSerial(thread: ThreadId)
    | EnterLocked(thread: ThreadId)
    | FlushFnEnds(thread: ThreadId, succeeded: bool)
    | ReleaseSerial(thread: ThreadId)

  function Start(debounceMs: int, maxDelayMs: int, clock: int): System {
    System(Queue(debounceMs, CorrectedMaxDelay(debounceMs, maxDelayMs),
                 0, None, None, None, 0, false, []),
           None, map[], clock, [], 0, 0, 0, false)
  }

  predicate AtPc(s: System, thread: ThreadId, pcs: set<Pc>) {
    thread in s.threads && s.threads[thread] in pcs
  }

  predicate Enabled(s: System, a: Action) {
    match a
    case Tick(_) => true
    case Schedule => true
    case CallFlush(n) => Caller(n) !in s.threads
    case CallRetire(n) => Caller(n) !in s.threads
    case TimerFires(k) =>
      k < |s.queue.timers| && s.queue.timers[k].Armed? && s.queue.timers[k].due <= s.clock
    case AcquireSerial(t) => s.serial.None? && AtPc(s, t, {FlushWaiting, RetireWaiting})
    case EnterLocked(t) => AtPc(s, t, {FlushHolding, RetireHolding})
    case FlushFnEnds(t, _) => t in s.threads && s.threads[t].FlushRunning?
    case ReleaseSerial(t) =>
      t in s.threads && (s.threads[t].FlushLeaving? || s.threads[t].RetireLeaving?)
  }

  /** Moves every mutation whose fate is in `from` to the fate `to`. */
  function Refate(log: seq<Mutation>, from: set<Fate>, to: Fate): (r: seq<Mutation>)
    ensures |r| == |log|
    ensures forall i :: 0 <= i < |log| ==>
      r[i] == if log[i].fate in from then log[i].(fate := to) else log[i]
  {
    seq(|log|, i requires 0 <= i < |log| =>
      if log[i].fate in from then log[i].(fate := to) else log[i])
  }

  function At(s: System, thread: ThreadId, pc: Pc): System {
    s.(threads := s.threads[thread := pc])
  }

  /** The locked section of `flush` for a thread that holds the serial lock. */
  function Swap(s: System, t: ThreadId): System {
    if s.queue.retired || s.queue.pending == 0 then
      At(s, t, FlushLeaving(Returned(0), |s.log|))
    else
      At(s.(queue := SwapEffect(s.queue), log := Refate(s.log, {Waiting}, Running)),
         t, FlushRunning(s.queue.pending, |s.log|))
  }

  /** The locked section of `retire`. */
  function RetireLocked(s: System, t: ThreadId): System {
    var count := if s.queue.retired then 0 else s.queue.pending;
    At(s.(queue := RetireEffect(s.queue),
          log := Refate(s.log, {Waiting}, HandedOver),
          transferred := s.transferred + count),
       t, RetireLeaving(count))
  }

  /** `flush_fn` returned: the batch and every earlier failed batch are committed.  It raised: the
      batch is failed and is not put back into the buffer. */
  function FlushFnEnd(s: System, t: ThreadId, succeeded: bool): System
    requires t in s.threads && s.threads[t].FlushRunning?
  {
    var FlushRunning(count, seen) := s.threads[t];
    if succeeded then
      At(s.(log := Refate(s.log, {Running, Failed}, Committed),
            flushed := s.flushed + count,
            lastFlushFailed := false),
         t, FlushLeaving(Returned(count), seen))
    else
      At(s.(log := Refate(s.log, {Running}, Failed),
            queue := s.queue.(pushFailures := s.queue.pushFailures + 1),
            failed := s.failed + count,
            lastFlushFailed := true),
         t, FlushLeaving(Raised, seen))
  }

  function Next(s: System, a: Action): System
    requires Enabled(s, a)
  {
    match a
    case Tick(ms) => s.(clock := s.clock + ms)
    case Schedule =>
      if s.queue.retired then s
      else s.(queue := ScheduleEffect(s.queue, s.clock),
              log := s.log + [Mutation(s.clock, Waiting)])
    case CallFlush(n) => At(s, Caller(n), FlushWaiting)
    case CallRetire(n) => At(s, Caller(n), RetireWaiting)
    case TimerFires(k) =>
      At(s.(queue := s.queue.(timers := s.queue.timers[k := Fired])), TimerThread(k), FlushWaiting)
    case AcquireSerial(t) =>
      At(s.(serial := Some(t)), t,
         if s.threads[t].FlushWaiting? then FlushHolding else RetireHolding)
    case EnterLocked(t) => if s.threads[t].FlushHolding? then Swap(s, t) else RetireLocked(s, t)
    case FlushFnEnds(t, succeeded) => FlushFnEnd(s, t, succeeded)
    case ReleaseSerial(t) => s.(serial := None, threads := s.threads - {t})
  }

  /** A run is a sequence of actions, each enabled where it is taken. */
  predicate Possible(s: System, run: seq<Action>)
    decreases |run|
  {
    run == [] || (Enabled(s, run[0]) && Possible(Next(s, run[0]), run[1..]))
  }

  function Exec(s: System, run: seq<Action>): System
    requires Possible(s, run)
    decreases |run|
  {
    if run == [] then s else Exec(Next(s, run[0]), run[1..])
  }

  // ---------------------------------------------------------------- the invariant

  predicate Holds(pc: Pc) {
    !pc.FlushWaiting? && !pc.RetireWaiting?
  }

  /** The serial lock is held by exactly the threads inside it. */
  ghost predicate SerialOk(s: System) {
    && (s.serial.Some? ==> s.serial.value in s.threads)
    && (forall t :: t in s.threads ==> (Holds(s.threads[t]) <==> s.serial == Some(t)))
  }

  /** A fired timer whose callback has not reached the swap. */
  predicate CallbackDue(s: System, k: TimerId) {
    && k < |s.queue.timers| && s.queue.timers[k].Fired?
    && AtPc(s, TimerThread(k), {FlushWaiting, FlushHolding})
  }

  /** Buffer, first-pending time and both stored timers agree; a retired queue has none. */
  ghost predicate FieldsOk(q: Queue) {
    && (0 < q.pending <==> q.firstPendingAt.Some?)
    && (0 < q.pending <==> q.debounceTimer.Some?)
    && (0 < q.pending <==> q.maxDelayTimer.Some?)
    && (q.retired ==> q.pending == 0)
  }

  /** The stored timers will fire or have a callback on its way; no other timer is armed. */
  ghost predicate TimersOk(s: System) {
    var q := s.queue;
    && (q.firstPendingAt.Some? && q.maxDelayTimer.Some? ==>
        var m := q.maxDelayTimer.value;
        m < |q.timers| &&
        (q.timers[m] == Armed(q.firstPendingAt.value + q.maxDelayMs) || CallbackDue(s, m)))
    && (q.debounceTimer.Some? ==>
        var d := q.debounceTimer.value;
        d < |q.timers| && q.debounceTimer != q.maxDelayTimer &&
        (q.timers[d].Armed? || CallbackDue(s, d)))
    && (forall k :: 0 <= k < |q.timers| && q.timers[k].Armed? ==>
        TimerThread(k) !in s.threads && Some(k) in {q.debounceTimer, q.maxDelayTimer})
    && (forall k: TimerId :: TimerThread(k) in s.threads ==>
        k < |q.timers| && q.timers[k].Fired?)
  }

  /** The waiting mutations are the newest `pending` ones, accepted in clock order. */
  ghost predicate BufferOk(s: System) {
    && s.queue.pending <= |s.log|
    && (forall i :: 0 <= i < |s.log| ==>
        (s.log[i].fate == Waiting <==> |s.log| - s.queue.pending <= i))
    && (forall i :: 0 <= i < |s.log| ==> s.log[i].acceptedAt <= s.clock)
    && (s.queue.firstPendingAt.Some? ==> s.queue.firstPendingAt.value <= s.clock)
    && (s.queue.firstPendingAt.Some? ==>
        forall i :: 0 <= i < |s.log| && s.log[i].fate == Waiting ==>
          s.queue.firstPendingAt.value <= s.log[i].acceptedAt)
  }

  function InFlight(s: System): nat {
    if s.serial.Some? && s.serial.value in s.threads && s.threads[s.serial.value].FlushRunning?
    then s.threads[s.serial.value].count
    else 0
  }

  /** Running mutations are exactly the batch of the one thread inside `flush_fn`. */
  ghost predicate BatchOk(s: System) {
    && (InFlight(s) == 0 ==> forall i :: 0 <= i < |s.log| ==> s.log[i].fate != Running)
    && (forall t :: t in s.threads && s.threads[t].FlushRunning? ==>
        var FlushRunning(count, seen) := s.threads[t];
        && 0 < count <= seen == |s.log| - s.queue.pending
        && !s.queue.retired
        && forall i :: 0 <= i < |s.log| ==> (s.log[i].fate == Running <==> seen - count <= i < seen))
  }

  predicate Settled(fate: Fate) {
    fate == Committed || fate == Failed
  }

  /** What a thread leaving `flush` has established for the mutations it saw. */
  ghost predicate LeaveOk(s: System, result: FlushResult, seen: nat) {
    && seen <= |s.log|
    && (result.Returned? && 0 < result.count ==>
        !s.queue.retired && forall i :: 0 <= i < seen ==> s.log[i].fate == Committed)
    && (result.Raised? ==> !s.queue.retired && s.lastFlushFailed)
    && seen == |s.log| - s.queue.pending
  }

  ghost predicate LeavesOk(s: System) {
    forall t :: t in s.threads && s.threads[t].FlushLeaving? ==>
      LeaveOk(s, s.threads[t].result, s.threads[t].seen)
  }

  ghost predicate LedgerOk(s: System) {
    && |s.log| == s.queue.pending + InFlight(s) + s.flushed + s.failed + s.transferred
    && (!s.queue.retired ==> s.transferred == 0)
    && (s.transferred == 0 <==> forall i :: 0 <= i < |s.log| ==> s.log[i].fate != HandedOver)
    && (forall t :: t in s.threads && s.threads[t].RetireLeaving? ==> s.queue.retired)
    && (s.lastFlushFailed <==> exists i :: 0 <= i < |s.log| && s.log[i].fate == Failed)
  }

  ghost predicate Inv(s: System) {
    && SerialOk(s)
    && FieldsOk(s.queue)
    && TimersOk(s)
    && BufferOk(s)
    && BatchOk(s)
    && LeavesOk(s)
    && LedgerOk(s)
  }

  // ---------------------------------------------------------------- every step keeps it

  lemma ScheduleKeepsTimers(s: System)
    requires SerialOk(s) && FieldsOk(s.queue) && TimersOk(s)
    ensures TimersOk(Next(s, Schedule))
  {
    var q, q' := s.queue, Next(s, Schedule).queue;
    if !q.retired {
      assert forall k :: 0 <= k < |q.timers| && q.debounceTimer != Some(k) ==> q'.timers[k] == q.timers[k];
    }
  }

  lemma ScheduleKeepsLog(s: System)
    requires FieldsOk(s.queue) && BufferOk(s) && BatchOk(s) && LedgerOk(s)
    ensures BufferOk(Next(s, Schedule)) && BatchOk(Next(s, Schedule)) && LedgerOk(Next(s, Schedule))
  {
    var s' := Next(s, Schedule);
    assert InFlight(s') == InFlight(s);
    assert forall i :: 0 <= i < |s.log| ==> s'.log[i] == s.log[i];
  }

  lemma SchedulePreserves(s: System)
    requires Inv(s)
    ensures Inv(Next(s, Schedule))
  {
    ScheduleKeepsTimers(s);
    ScheduleKeepsLog(s);
  }

  /** Steps that only add a thread or let time pass. */
  predicate Arrival(a: Action) {
    a.Tick? || a.CallFlush? || a.CallRetire? || a.TimerFires?
  }

  /** Steps that only move the serial lock. */
  predicate LockMove(a: Action) {
    a.AcquireSerial? || a.ReleaseSerial?
  }

  lemma MovesKeepTimers(s: System, a: Action)
    requires SerialOk(s) && FieldsOk(s.queue) && TimersOk(s)
    requires (Arrival(a) || LockMove(a)) && Enabled(s, a)
    ensures SerialOk(Next(s, a)) && FieldsOk(Next(s, a).queue) && TimersOk(Next(s, a))
  {
  }

  lemma ArrivalKeepsBatch(s: System, a: Action)
    requires SerialOk(s) && TimersOk(s) && BufferOk(s) && BatchOk(s)
    requires Arrival(a) && Enabled(s, a)
    ensures BufferOk(Next(s, a)) && BatchOk(Next(s, a)) && InFlight(Next(s, a)) == InFlight(s)
  {
  }

  lemma ArrivalKeepsLedger(s: System, a: Action)
    requires SerialOk(s) && TimersOk(s) && LeavesOk(s) && LedgerOk(s)
    requires Arrival(a) && Enabled(s, a) && InFlight(Next(s, a)) == InFlight(s)
    ensures LeavesOk(Next(s, a)) && LedgerOk(Next(s, a))
  {
  }

  lemma LockMoveKeepsLog(s: System, a: Action)
    requires SerialOk(s) && BufferOk(s) && BatchOk(s) && LeavesOk(s) && LedgerOk(s)
    requires LockMove(a) && Enabled(s, a)
    ensures var s' := Next(s, a); BufferOk(s') && BatchOk(s') && LeavesOk(s') && LedgerOk(s')
  {
    assert InFlight(Next(s, a)) == InFlight(s) == 0;
  }

  lemma SwapKeepsTimers(s: System, t: ThreadId)
    requires SerialOk(s) && FieldsOk(s.queue) && TimersOk(s)
    requires AtPc(s, t, {FlushHolding})
    ensures SerialOk(Swap(s, t)) && FieldsOk(Swap(s, t).queue) && TimersOk(Swap(s, t))
  {
  }

  lemma SwapKeepsBatch(s: System, t: ThreadId)
    requires SerialOk(s) && FieldsOk(s.queue) && BufferOk(s) && BatchOk(s)
    requires AtPc(s, t, {FlushHolding})
    ensures BufferOk(Swap(s, t)) && BatchOk(Swap(s, t))
  {
    assert InFlight(s) == 0;
  }

  lemma SwapKeepsLedger(s: System, t: ThreadId)
    requires SerialOk(s) && FieldsOk(s.queue) && BufferOk(s) && LeavesOk(s) && LedgerOk(s)
    requires AtPc(s, t, {FlushHolding})
    ensures LeavesOk(Swap(s, t)) && LedgerOk(Swap(s, t))
  {
    var s' := Swap(s, t);
    assert InFlight(s) == 0;
    assert forall i :: 0 <= i < |s.log| ==> (s'.log[i].fate == Failed <==> s.log[i].fate == Failed);
  }

  lemma RetireKeepsTimers(s: System, t: ThreadId)
    requires SerialOk(s) && FieldsOk(s.queue) && TimersOk(s)
    requires AtPc(s, t, {RetireHolding})
    ensures SerialOk(RetireLocked(s, t)) && FieldsOk(RetireLocked(s, t).queue) && TimersOk(RetireLocked(s, t))
  {
  }

  lemma RetireKeepsBatch(s: System, t: ThreadId)
    requires SerialOk(s) && FieldsOk(s.queue) && BufferOk(s) && BatchOk(s)
    requires AtPc(s, t, {RetireHolding})
    ensures BufferOk(RetireLocked(s, t)) && BatchOk(RetireLocked(s, t))
  {
    assert InFlight(s) == 0;
  }

  lemma RetireKeepsLedger(s: System, t: ThreadId)
    requires SerialOk(s) && FieldsOk(s.queue) && BufferOk(s) && LeavesOk(s) && LedgerOk(s)
    requires AtPc(s, t, {RetireHolding})
    ensures LeavesOk(RetireLocked(s, t)) && LedgerOk(RetireLocked(s, t))
  {
    var s' := RetireLocked(s, t);
    assert InFlight(s) == 0;
    assert forall i :: 0 <= i < |s.log| ==> (s'.log[i].fate == Failed <==> s.log[i].fate == Failed);
    if 0 < s.queue.pending {
      assert s.log[|s.log| - 1].fate == Waiting && s'.log[|s.log| - 1].fate == HandedOver;
    } else {
      assert forall i :: 0 <= i < |s.log| ==> s'.log[i] == s.log[i];
    }
  }

  lemma FlushFnEndKeepsTimers(s: System, t: ThreadId, succeeded: bool)
    requires SerialOk(s) && FieldsOk(s.queue) && TimersOk(s)
    requires t in s.threads && s.threads[t].FlushRunning?
    ensures var s' := FlushFnEnd(s, t, succeeded); SerialOk(s') && FieldsOk(s'.queue) && TimersOk(s')
  {
  }

  lemma FlushFnEndKeepsBatch(s: System, t: ThreadId, succeeded: bool)
    requires SerialOk(s) && BufferOk(s) && BatchOk(s)
    requires t in s.threads && s.threads[t].FlushRunning?
    ensures var s' := FlushFnEnd(s, t, succeeded); BufferOk(s') && BatchOk(s')
  {
    assert InFlight(FlushFnEnd(s, t, succeeded)) == 0;
  }

  lemma FlushFnEndKeepsLedger(s: System, t: ThreadId, succeeded: bool)
    requires SerialOk(s) && BufferOk(s) && BatchOk(s) && LeavesOk(s) && LedgerOk(s)
    requires t in s.threads && s.threads[t].FlushRunning?
    ensures var s' := FlushFnEnd(s, t, succeeded); LeavesOk(s') && LedgerOk(s')
  {
    var s' := FlushFnEnd(s, t, succeeded);
    var FlushRunning(count, seen) := s.threads[t];
    assert InFlight(s) == count && InFlight(s') == 0;
    if succeeded {
      assert forall i :: 0 <= i < |s.log| ==> s'.log[i].fate != Failed;
      assert forall i :: 0 <= i < seen ==> s.log[i].fate != Waiting && s.log[i].fate != HandedOver;
    } else {
      assert s.log[seen - 1].fate == Running;
      assert s'.log[seen - 1].fate == Failed;
    }
  }

  lemma StepPreserves(s: System, a: Action)
    requires Inv(s) && Enabled(s, a)
    ensures Inv(Next(s, a))
  {
    match a
    case Schedule => SchedulePreserves(s);
    case EnterLocked(t) =>
      if s.threads[t].FlushHolding? {
        SwapKeepsTimers(s, t);
        SwapKeepsBatch(s, t);
        SwapKeepsLedger(s, t);
      } else {
        RetireKeepsTimers(s, t);
        RetireKeepsBatch(s, t);
        RetireKeepsLedger(s, t);
      }
    case FlushFnEnds(t, succeeded) =>
      FlushFnEndKeepsTimers(s, t, succeeded);
      FlushFnEndKeepsBatch(s, t, succeeded);
      FlushFnEndKeepsLedger(s, t, succeeded);
    case _ =>
      MovesKeepTimers(s, a);
      if Arrival(a) {
        ArrivalKeepsBatch(s, a);
        ArrivalKeepsLedger(s, a);
      } else {
        LockMoveKeepsLog(s, a);
      }
  }

  lemma {:induction false} RunPreserves(s: System, run: seq<Action>)
    requires Inv(s) && Possible(s, run)
    ensures Inv(Exec(s, run))
    decreases |run|
  {
    if run == [] {
    } else {
      StepPreserves(s, run[0]);
      RunPreserves(Next(s, run[0]), run[1..]);
    }
  }

  /** Everything a fresh queue can reach in any interleaving. */
  ghost predicate Reachable(s: System) {
    exists debounceMs: int, maxDelayMs: int, clock: int, run: seq<Action> ::
      Possible(Start(debounceMs, maxDelayMs, clock), run) &&
      Exec(Start(debounceMs, maxDelayMs, clock), run) == s
  }

  lemma ReachableInv(s: System)
    requires Reachable(s)
    ensures Inv(s)
  {
    var debounceMs: int, maxDelayMs: int, clock: int, run: seq<Action> :|
      Possible(Start(debounceMs, maxDelayMs, clock), run) &&
      Exec(Start(debounceMs, maxDelayMs, clock), run) == s;
    RunPreserves(Start(debounceMs, maxDelayMs, clock), run);
  }

  // ---------------------------------------------------------------- what callers may rely on

  /** At most one `flush_fn` is in flight. */
  lemma OneFlushAtATime(s: System, t: ThreadId, u: ThreadId)
    requires Reachable(s)
    requires t in s.threads && s.threads[t].FlushRunning?
    requires u in s.threads && s.threads[u].FlushRunning?
    ensures t == u
  {
    ReachableInv(s);
  }

  /** When `flush` returns on a live queue, every mutation it saw has been through a completed
      `flush_fn`; a positive return says all of them are committed, earlier failures included. */
  lemma FlushReturnMeans(s: System, t: ThreadId)
    requires Reachable(s) && !s.queue.retired
    requires t in s.threads && s.threads[t].FlushLeaving?
    ensures s.threads[t].seen == |s.log| - s.queue.pending <= |s.log|
    ensures forall i :: 0 <= i < s.threads[t].seen ==> Settled(s.log[i].fate)
    ensures s.threads[t].result.Returned? && 0 < s.threads[t].result.count ==>
      forall i :: 0 <= i < s.threads[t].seen ==> s.log[i].fate == Committed
  {
    ReachableInv(s);
    forall i | 0 <= i < s.threads[t].seen ensures Settled(s.log[i].fate) {
      assert s.log[i].fate != Waiting && s.log[i].fate != Running && s.log[i].fate != HandedOver;
    }
  }

  /** Between the swap and the end of a batch, exactly when everything accepted before the swap is
      committed. */
  lemma CommittedIff(s: System)
    requires Inv(s) && InFlight(s) == 0
    ensures (forall i :: 0 <= i < |s.log| - s.queue.pending ==> s.log[i].fate == Committed)
      <==> !s.lastFlushFailed && s.transferred == 0
  {
    var seen := |s.log| - s.queue.pending;
    assert forall i :: 0 <= i < seen ==> s.log[i].fate != Waiting && s.log[i].fate != Running;
    assert forall i :: seen <= i < |s.log| ==> s.log[i].fate == Waiting;
    if s.lastFlushFailed {
      var i :| 0 <= i < |s.log| && s.log[i].fate == Failed;
      assert i < seen;
    }
    if s.transferred != 0 {
      var i :| 0 <= i < |s.log| && s.log[i].fate == HandedOver;
      assert i < seen;
    }
  }

  /** Exactly when a returning `flush`, on a live or a retired queue, leaves everything it saw
      committed: the last `flush_fn` to complete did not raise, and no `retire` handed anything
      over.  A zero return alone does not say so. */
  lemma FlushReturnCommitsIff(s: System, t: ThreadId)
    requires Reachable(s) && t in s.threads && s.threads[t].FlushLeaving?
    ensures s.threads[t].seen <= |s.log|
    ensures (forall i :: 0 <= i < s.threads[t].seen ==> s.log[i].fate == Committed)
      <==> !s.lastFlushFailed && s.transferred == 0
  {
    ReachableInv(s);
    CommittedIff(s);
  }

  predicate SeenAlike(s: System, s': System, t: ThreadId) {
    && t in s.threads && t in s'.threads && s'.threads[t] == s.threads[t]
    && s'.lastFlushFailed == s.lastFlushFailed && s.log <= s'.log
  }

  lemma SeenStaysStep(s: System, t: ThreadId, a: Action)
    requires SerialOk(s) && TimersOk(s) && Enabled(s, a) && a != ReleaseSerial(t)
    requires t in s.threads && s.threads[t].FlushLeaving?
    ensures SeenAlike(s, Next(s, a), t)
  {
    assert s.serial == Some(t);
    assert forall u :: u in s.threads && Holds(s.threads[u]) ==> u == t;
  }

  /** While one thread stands between its swap and its return, no step changes what it saw. */
  lemma {:induction false} SeenStays(s: System, t: ThreadId, run: seq<Action>)
    requires Inv(s) && Possible(s, run)
    requires t in s.threads && s.threads[t].FlushLeaving?
    requires forall k :: 0 <= k < |run| ==> run[k] != ReleaseSerial(t)
    ensures SeenAlike(s, Exec(s, run), t)
    decreases |run|
  {
    if run == [] {
    } else {
      SeenStaysStep(s, t, run[0]);
      StepPreserves(s, run[0]);
      SeenStays(Next(s, run[0]), t, run[1..]);
    }
  }

  /** What a caller can read off before the swap: a `flush` that finds the queue retired or nothing
      pending returns 0, and everything accepted before is committed then if and only if the last
      `flush_fn` to complete before that swap did not raise and no `retire` handed anything over. */
  lemma ZeroReturnCommitsIff(s: System, t: ThreadId, run: seq<Action>)
    requires Reachable(s) && AtPc(s, t, {FlushHolding}) && (s.queue.retired || s.queue.pending == 0)
    requires Possible(Next(s, EnterLocked(t)), run)
    requires forall k :: 0 <= k < |run| ==> run[k] != ReleaseSerial(t)
    ensures var s' := Exec(Next(s, EnterLocked(t)), run);
      && t in s'.threads && s'.threads[t] == FlushLeaving(Returned(0), |s.log|) && |s.log| <= |s'.log|
      && ((forall i :: 0 <= i < |s.log| ==> s'.log[i].fate == Committed)
          <==> !s.lastFlushFailed && s.transferred == 0)
  {
    ReachableInv(s);
    StepPreserves(s, EnterLocked(t));
    SeenStays(Next(s, EnterLocked(t)), t, run);
    CommittedIff(s);
    assert Next(s, EnterLocked(t)).log == s.log;
    assert forall i :: 0 <= i < |s.log| ==> Exec(Next(s, EnterLocked(t)), run).log[i] == s.log[i];
  }

  /** While a live queue buffers anything, the first-pending time and both timers are stored, and
      the hard-deadline timer is armed for exactly that time plus the maximum delay or has fired
      with its callback still before the swap.  No other timer is armed. */
  lemma NoPendingOrphan(s: System)
    requires Reachable(s)
    ensures var q := s.queue;
      && (0 < q.pending <==> q.firstPendingAt.Some?)
      && (0 < q.pending <==> q.debounceTimer.Some?)
      && (0 < q.pending <==> q.maxDelayTimer.Some?)
      && (0 < q.pending ==>
          var m := q.maxDelayTimer.value;
          m < |q.timers| &&
          (q.timers[m] == Armed(q.firstPendingAt.value + q.maxDelayMs) || CallbackDue(s, m)))
      && (forall k :: 0 <= k < |q.timers| && q.timers[k].Armed? ==>
          q.maxDelayTimer == Some(k) || q.debounceTimer == Some(k))
  {
    ReachableInv(s);
  }

  /** When the hard-deadline timer fires, no buffered mutation is older than the maximum delay
      plus the timer's own lateness. */
  lemma DeadlineBoundsAge(s: System, m: TimerId, i: nat)
    requires Reachable(s)
    requires Enabled(s, TimerFires(m)) && s.queue.maxDelayTimer == Some(m)
    requires i < |s.log| && s.log[i].fate == Waiting
    ensures 0 <= s.clock - s.log[i].acceptedAt <= s.queue.maxDelayMs + (s.clock - s.queue.timers[m].due)
  {
    ReachableInv(s);
  }

  /** Accepted mutations are conserved. */
  lemma MutationsConserved(s: System)
    requires Reachable(s)
    ensures |s.log| == s.queue.pending + InFlight(s) + s.flushed + s.failed + s.transferred
  {
    ReachableInv(s);
  }

  /** A thread that waits never waits forever on a stuck holder: some thread of the protocol can
      always move. */
  lemma NeverDeadlocked(s: System, t: ThreadId) returns (a: Action)
    requires Reachable(s) && t in s.threads
    ensures Enabled(s, a) && (a.AcquireSerial? || a.EnterLocked? || a.FlushFnEnds? || a.ReleaseSerial?)
  {
    ReachableInv(s);
    if s.serial.None? {
      a := AcquireSerial(t);
    } else {
      var u := s.serial.value;
      match s.threads[u]
      case FlushRunning(_, _) => a := FlushFnEnds(u, true);
      case FlushLeaving(_, _) => a := ReleaseSerial(u);
      case RetireLeaving(_) => a := ReleaseSerial(u);
      case _ => a := EnterLocked(u);
    }
  }

  /** The step a finished `retire` is: from here on the queue is retired. */
  lemma {:induction false} RetiredForever(s: System, run: seq<Action>)
    requires Inv(s) && s.queue.retired && Possible(s, run)
    ensures var s' := Exec(s, run);
      && s'.queue.retired && |s'.log| == |s.log|
      && s'.queue.pending == 0 && s'.queue.firstPendingAt.None?
      && s'.queue.debounceTimer.None? && s'.queue.maxDelayTimer.None?
      && InFlight(s') == 0 && s'.flushed == s.flushed && s'.failed == s.failed
      && forall t :: t in s'.threads ==> !s'.threads[t].FlushRunning?
    decreases |run|
  {
    if run == [] {
    } else {
      StepPreserves(s, run[0]);
      RetiredForever(Next(s, run[0]), run[1..]);
    }
  }

  /** Once some `retire` has passed its locked section, no `flush_fn` is running or ever starts,
      every `schedule` is refused, and the buffer stays empty with no timer stored. */
  lemma RetireFencesTheQueue(s: System, t: ThreadId, run: seq<Action>)
    requires Reachable(s) && t in s.threads && s.threads[t].RetireLeaving?
    requires Possible(s, run)
    ensures var s' := Exec(s, run);
      && |s'.log| == |s.log|
      && s'.queue.pending == 0 && s'.queue.debounceTimer.None? && s'.queue.maxDelayTimer.None?
      && forall u :: u in s'.threads ==> !s'.threads[u].FlushRunning?
  {
    ReachableInv(s);
    RetiredForever(s, run);
  }

  /** One caller runs `flush` up to the point after its swap. */
  lemma FlushToSwap(s: System, n: nat) returns (s': System)
    requires Reachable(s) && s.serial.None? && Caller(n) !in s.threads
    ensures Reachable(s') && s'.serial == Some(Caller(n)) && Caller(n) in s'.threads
    ensures var at := At(s.(serial := Some(Caller(n))), Caller(n), FlushHolding); s' == Swap(at, Caller(n))
  {
    s' := Advance(s, CallFlush(n));
    s' := Advance(s', AcquireSerial(Caller(n)));
    var at := At(s.(serial := Some(Caller(n))), Caller(n), FlushHolding);
    assert s' == at;
    s' := Advance(s', EnterLocked(Caller(n)));
  }

  /** A failed batch is not put back: the next `flush` finds nothing pending, returns zero, and
      the mutation is still not committed. */
  lemma ZeroReturnAfterFailure() returns (s: System)
    ensures Reachable(s) && !s.queue.retired
    ensures Caller(0) in s.threads && s.threads[Caller(0)] == FlushLeaving(Returned(0), 1)
    ensures |s.log| == 1 && s.log[0].fate == Failed
  {
    s := Start(5000, 30000, 0);
    assert Possible(s, []) && Exec(s, []) == s;
    s := Advance(s, Schedule);
    assert s.queue.pending == 1 && s.log == [Mutation(0, Waiting)];
    s := FlushToSwap(s, 0);
    s := Advance(s, FlushFnEnds(Caller(0), false));
    s := Advance(s, ReleaseSerial(Caller(0)));
    s := FlushToSwap(s, 0);
  }

  /** A mutation that `retire` handed over is not committed either, though no `flush_fn` failed: a
      later `flush` returns zero beside it. */
  lemma ZeroReturnAfterRetire() returns (s: System)
    ensures Reachable(s) && s.queue.retired && !s.lastFlushFailed && s.transferred == 1
    ensures Caller(1) in s.threads && s.threads[Caller(1)] == FlushLeaving(Returned(0), 1)
    ensures |s.log| == 1 && s.log[0].fate == HandedOver
  {
    s := Start(5000, 30000, 0);
    assert Possible(s, []) && Exec(s, []) == s;
    s := Advance(s, Schedule);
    assert s.queue.pending == 1 && s.log == [Mutation(0, Waiting)];
    s := Advance(s, CallRetire(0));
    s := Advance(s, AcquireSerial(Caller(0)));
    s := Advance(s, EnterLocked(Caller(0)));
    s := Advance(s, ReleaseSerial(Caller(0)));
    s := FlushToSwap(s, 1);
  }

  lemma {:induction false} Extend(s: System, run: seq<Action>, a: Action)
    requires Possible(s, run) && Enabled(Exec(s, run), a)
    ensures Possible(s, run + [a]) && Exec(s, run + [a]) == Next(Exec(s, run), a)
    decreases |run|
  {
    if run == [] {
      assert ([a])[1..] == [];
    } else {
      assert (run + [a])[1..] == run[1..] + [a];
      Extend(Next(s, run[0]), run[1..], a);
    }
  }

  lemma Advance(s: System, a: Action) returns (s': System)
    requires Reachable(s) && Enabled(s, a)
    ensures Reachable(s') && s' == Next(s, a)
  {
    var debounceMs: int, maxDelayMs: int, clock: int, run: seq<Action> :|
      Possible(Start(debounceMs, maxDelayMs, clock), run) &&
      Exec(Start(debounceMs, maxDelayMs, clock), run) == s;
    Extend(Start(debounceMs, maxDelayMs, clock), run, a);
    s' := Next(s, a);
  }
}
