/**
 The checkpoint queue object: its fields, and what each section of code that holds the queue's
 `_lock` does to them.  A section is specified by an effect function on `Queue` values, and the
 class methods are proved against those functions.  `CheckpointProtocol` then interleaves the
 same effects across threads.  Times are whole milliseconds.
 */
module CheckpointQueue {
  import opened Basics

  type TimerId = nat

  /** A `threading.Timer`: still waiting for its due time, already fired, or cancelled in time. */
  datatype Timer = Armed(due: int) | Fired | Cancelled

  /** The fields of the queue, plus every timer it ever created (a timer's id is its index). */
  datatype Queue = Queue(
    debounceMs: int,
    maxDelayMs: int,
    pending: nat,
    firstPendingAt: Option<int>,
    debounceTimer: Option<TimerId>,
    maxDelayTimer: Option<TimerId>,
    pushFailures: nat,
    retired: bool,
    timers: seq<Timer>)

  /** A configured max delay that leaves less than a second beyond the debounce is corrected. */
  function CorrectedMaxDelay(debounceMs: int, maxDelayMs: int): (r: int)
    ensures debounceMs + 1000 <= r
    ensures maxDelayMs <= r
    ensures r == maxDelayMs || r == debounceMs + 1000
  {
    if maxDelayMs < debounceMs + 1000 then debounceMs + 1000 else maxDelayMs
  }

  /** Cancelling only stops a timer that has not fired yet. */
  function Cancel(timers: seq<Timer>, timer: Option<TimerId>): (r: seq<Timer>)
    ensures |r| == |timers|
    ensures forall k :: 0 <= k < |timers| && timer != Some(k) ==> r[k] == timers[k]
    ensures forall k :: 0 <= k < |timers| && timer == Some(k) ==> !r[k].Armed?
  {
    if timer.Some? && timer.value < |timers| && timers[timer.value].Armed?
    then timers[timer.value := Cancelled]
    else timers
  }

  /** `schedule` on a live queue: the first pending mutation starts the hard deadline, and every
      mutation restarts the debounce. */
  function ScheduleEffect(q: Queue, now: int): Queue {
    var counted := q.(pending := q.pending + 1);
    var dated :=
      if q.firstPendingAt.None? then
        counted.(firstPendingAt := Some(now),
                 maxDelayTimer := Some(|q.timers|),
                 timers := q.timers + [Armed(now + q.maxDelayMs)])
      else
        counted;
    dated.(debounceTimer := Some(|dated.timers|),
           timers := Cancel(dated.timers, q.debounceTimer) + [Armed(now + q.debounceMs)])
  }

  /** Emptying the buffer, shared by `flush` and `retire`. */
  function DrainEffect(q: Queue): Queue {
    q.(pending := 0,
       firstPendingAt := None,
       debounceTimer := None,
       maxDelayTimer := None,
       timers := Cancel(Cancel(q.timers, q.debounceTimer), q.maxDelayTimer))
  }

  /** The locked section of `flush`: nothing happens on a retired or empty queue. */
  function SwapEffect(q: Queue): Queue {
    if q.retired || q.pending == 0 then q else DrainEffect(q)
  }

  /** The locked section of `retire`. */
  function RetireEffect(q: Queue): Queue {
    if q.retired then q else DrainEffect(q).(retired := true)
  }

  /** The queue object itself. */
  class CheckpointQueue {
    const debounceMs: int
    const maxDelayMs: int
    var pending: nat
    var firstPendingAt: Option<int>
    var debounceTimer: Option<TimerId>
    var maxDelayTimer: Option<TimerId>
    var pushFailures: nat
    var retired: bool
    var timers: seq<Timer>
    var lastPushAt: Option<int>

    /** Everything the other threads act on; when the last push was is only reported. */
    function View(): Queue
      reads this
    {
      Queue(debounceMs, maxDelayMs, pending, firstPendingAt, debounceTimer, maxDelayTimer,
            pushFailures, retired, timers)
    }

    constructor (debounceMs: int, maxDelayMs: int)
      ensures View() == Queue(debounceMs, CorrectedMaxDelay(debounceMs, maxDelayMs),
                              0, None, None, None, 0, false, [])
      ensures lastPushAt == None
    {
      this.debounceMs := debounceMs;
      this.maxDelayMs := CorrectedMaxDelay(debounceMs, maxDelayMs);
      pending, pushFailures, retired, timers := 0, 0, false, [];
      firstPendingAt, debounceTimer, maxDelayTimer, lastPushAt := None, None, None, None;
    }

    method CancelTimer(timer: Option<TimerId>)
      modifies this`timers
      ensures timers == Cancel(old(timers), timer)
    {
      if timer.Some? && timer.value < |timers| && timers[timer.value].Armed? {
        timers := timers[timer.value := Cancelled];
      }
    }

    method StartTimer(due: int) returns (timer: TimerId)
      modifies this`timers
      ensures timer == |old(timers)| && timers == old(timers) + [Armed(due)]
    {
      timer := |timers|;
      timers := timers + [Armed(due)];
    }

    /** Registers one mutation, or refuses it (the program raises) once the queue is retired. */
    method Schedule(now: int) returns (accepted: bool)
      modifies this
      ensures accepted == !old(retired)
      ensures View() == if accepted then ScheduleEffect(old(View()), now) else old(View())
      ensures lastPushAt == old(lastPushAt)
    {
      if retired {
        return false;
      }
      accepted := true;
      pending := pending + 1;
      if firstPendingAt.None? {
        firstPendingAt := Some(now);
        var hardDeadline := StartTimer(now + maxDelayMs);
        maxDelayTimer := Some(hardDeadline);
      }
      CancelTimer(debounceTimer);
      var debounce := StartTimer(now + debounceMs);
      debounceTimer := Some(debounce);
    }

    method Drain()
      modifies this
      ensures View() == DrainEffect(old(View()))
      ensures lastPushAt == old(lastPushAt)
    {
      CancelTimer(debounceTimer);
      debounceTimer := None;
      CancelTimer(maxDelayTimer);
      maxDelayTimer := None;
      pending := 0;
      firstPendingAt := None;
    }

    /** The swap of `flush`; a zero count means `flush` returns at once. */
    method BeginFlush() returns (count: nat)
      modifies this
      ensures count == if old(retired) then 0 else old(pending)
      ensures View() == SwapEffect(old(View()))
      ensures lastPushAt == old(lastPushAt)
    {
      if retired {
        return 0;
      }
      count := pending;
      if count == 0 {
        return;
      }
      Drain();
    }

    /** What `flush` records after `flush_fn` returned or raised: a success is dated, a failure is only
        counted. */
    method EndFlush(succeeded: bool, now: int)
      modifies this`pushFailures, this`lastPushAt
      ensures pushFailures == old(pushFailures) + if succeeded then 0 else 1
      ensures lastPushAt == if succeeded then Some(now) else old(lastPushAt)
    {
      if succeeded {
        lastPushAt := Some(now);
      } else {
        pushFailures := pushFailures + 1;
      }
    }

    method Retire() returns (count: nat)
      modifies this
      ensures count == if old(retired) then 0 else old(pending)
      ensures View() == RetireEffect(old(View()))
      ensures lastPushAt == old(lastPushAt)
    {
      if retired {
        return 0;
      }
      retired := true;
      count := pending;
      Drain();
    }
  }
}
