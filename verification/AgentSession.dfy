/**
 Launching and stopping a CLI agent: the transport permit, the subprocess, and the stop lock.
 One step is what runs between two `await`s on the event loop.  The class methods are those
 sections, proved against effect functions on `Session` values, and the lemmas are about every
 interleaving of the same effects.
 */
module AgentSession {

  datatype Process = NoProcess | Live | Retired

  /** What the orchestrator sees of a permit. */
  datatype Entry = Granted | Contacted | Returned

  /** Where `start` is: at `create_subprocess_exec`, in its own `stop`, or over. */
  datatype Phase = Idle | Spawning | Stopping | Done(returned: bool)

  /** Who holds (first) and who waits for the stop lock; `asyncio.Lock` is first come first served. */
  datatype Stopper = Starter | Outsider

  datatype Session = Session(
    hasCallback: bool,
    stopRequested: bool,
    admitted: bool,
    contacted: bool,
    starting: bool,
    process: Process,
    stoppers: seq<Stopper>,
    phase: Phase,
    ledger: seq<Entry>)

  function New(hasCallback: bool): Session {
    Session(hasCallback, false, false, false, false, NoProcess, [], Idle, [])
  }

  /** What the admission callback answers: a permit, a denial, or an exception. */
  datatype Answer = Permit | Denial | Failure

  datatype Step =
    | Begin(setupFails: bool, answer: Answer, callbackStops: bool)
    | SpawnReturns(observerStops: bool)
    | SpawnRaises
    | CallStop
    | StopEnds
    | WaiterCancelled(k: nat)

  // ---------------------------------------------------------------- effects

  /** Hands back a permit that was granted and not used. */
  function CancelEffect(s: Session): Session {
    if !s.admitted || s.contacted then s else s.(admitted := false, ledger := s.ledger + [Returned])
  }

  /** `start` up to the subprocess call.  The callback may set the stop flag while it runs. */
  function BeginEffect(s: Session, setupFails: bool, answer: Answer, callbackStops: bool): Session {
    if setupFails || s.stopRequested then s.(phase := Done(false))
    else if !s.hasCallback then s.(starting := true, phase := Spawning)
    else
      var asked := s.(stopRequested := callbackStops);
      if !answer.Permit? then asked.(phase := Done(false))
      else if callbackStops then asked.(ledger := s.ledger + [Granted, Returned], phase := Done(false))
      else asked.(admitted := true, starting := true, ledger := s.ledger + [Granted], phase := Spawning)
  }

  /** The subprocess exists.  A stop requested meanwhile is carried out before `start` ends. */
  function SpawnReturnsEffect(s: Session, observerStops: bool): Session {
    var contacted := s.(starting := false, process := Live, contacted := true, admitted := false,
                        ledger := s.ledger + [Contacted], stopRequested := s.stopRequested || observerStops);
    if contacted.stopRequested
    then contacted.(stoppers := s.stoppers + [Starter], phase := Stopping)
    else contacted.(phase := Done(true))
  }

  /** The subprocess call failed or was cancelled. */
  function SpawnRaisesEffect(s: Session): Session {
    CancelEffect(s.(starting := false)).(phase := Done(false))
  }

  /** A `stop` from outside, up to the stop lock. */
  function CallStopEffect(s: Session): Session {
    var asked := s.(stopRequested := true);
    if s.process.NoProcess? then if s.starting then asked else CancelEffect(asked)
    else asked.(stoppers := s.stoppers + [Outsider])
  }

  /** The stopper that holds the lock has stopped the process tree (also when it is cancelled,
      which completes a bounded hard stop) and lets the next one in. */
  function StopEndsEffect(s: Session): Session
    requires s.stoppers != []
  {
    var stopped := s.(process := Retired, stoppers := s.stoppers[1..]);
    if s.stoppers[0].Starter? then stopped.(phase := Done(false)) else stopped
  }

  /** A stopper is cancelled while it waits for the lock. */
  function WaiterCancelledEffect(s: Session, k: nat): Session
    requires k < |s.stoppers|
  {
    var left := s.(stoppers := s.stoppers[..k] + s.stoppers[k + 1..]);
    if s.stoppers[k].Starter? then left.(phase := Done(false)) else left
  }

  // ---------------------------------------------------------------- the session object

  class AgentSession {
    const isolateRemoteWrite: bool
    const hasCallback: bool
    var stopRequested: bool
    var transportAdmitted: bool
    var transportContacted: bool
    var transportStarting: bool
    var process: Process
    var stoppers: seq<Stopper>
    var phase: Phase
    ghost var ledger: seq<Entry>

    ghost function View(): Session
      reads this
    {
      Session(hasCallback, stopRequested, transportAdmitted, transportContacted, transportStarting,
              process, stoppers, phase, ledger)
    }

    constructor (isolateRemoteWrite: bool, hasCallback: bool)
      ensures View() == New(hasCallback) && this.isolateRemoteWrite == isolateRemoteWrite
    {
      this.isolateRemoteWrite, this.hasCallback := isolateRemoteWrite, hasCallback;
      stopRequested, transportAdmitted, transportContacted, transportStarting := false, false, false, false;
      process, stoppers, phase, ledger := NoProcess, [], Idle, [];
    }

    method CancelPrecontactAdmission()
      modifies this`transportAdmitted, this`ledger
      ensures View() == CancelEffect(old(View()))
    {
      if !transportAdmitted || transportContacted {
        return;
      }
      transportAdmitted := false;
      ledger := ledger + [Returned];
    }

    /** `start` from its first line to the subprocess call. */
    method BeginStart(environmentFails: bool, answer: Answer, callbackStops: bool)
      requires phase.Idle? && !transportAdmitted && !transportContacted
      modifies this
      ensures View() == BeginEffect(old(View()), isolateRemoteWrite || environmentFails, answer, callbackStops)
    {
      if isolateRemoteWrite {
        phase := Done(false);
        return;
      }
      var raised := environmentFails || stopRequested;
      if !raised && hasCallback {
        stopRequested := callbackStops;
        if !answer.Permit? {
          raised := true;
        } else {
          transportAdmitted := true;
          ledger := ledger + [Granted];
          if stopRequested {
            CancelPrecontactAdmission();
            assert ledger == old(ledger) + [Granted, Returned];
            raised := true;
          }
        }
      }
      if raised {
        CancelPrecontactAdmission();
        phase := Done(false);
      } else {
        transportStarting := true;
        phase := Spawning;
      }
    }

    /** `start` after the subprocess call, up to the stop lock when a stop was requested. */
    method FinishSpawn(observerStops: bool)
      modifies this
      ensures View() == SpawnReturnsEffect(old(View()), observerStops)
    {
      transportStarting := false;
      process := Live;
      transportContacted := true;
      transportAdmitted := false;
      ledger := ledger + [Contacted];
      stopRequested := stopRequested || observerStops;
      if stopRequested {
        stoppers := stoppers + [Starter];
        phase := Stopping;
      } else {
        phase := Done(true);
      }
    }

    /** `start` when the subprocess call raised or was cancelled. */
    method FailSpawn()
      modifies this
      ensures View() == SpawnRaisesEffect(old(View()))
    {
      transportStarting := false;
      CancelPrecontactAdmission();
      phase := Done(false);
    }

    method Stop()
      modifies this
      ensures View() == CallStopEffect(old(View()))
    {
      stopRequested := true;
      if process.NoProcess? {
        if !transportStarting {
          CancelPrecontactAdmission();
        }
        return;
      }
      stoppers := stoppers + [Outsider];
    }
  }

  // ---------------------------------------------------------------- runs

  predicate Enabled(s: Session, step: Step) {
    match step
    case Begin(_, _, _) => s.phase.Idle?
    case SpawnReturns(_) => s.phase.Spawning?
    case SpawnRaises => s.phase.Spawning?
    case CallStop => true
    case StopEnds => s.stoppers != []
    case WaiterCancelled(k) => 1 <= k < |s.stoppers|
  }

  function Next(s: Session, step: Step): Session
    requires Enabled(s, step)
  {
    match step
    case Begin(setupFails, answer, callbackStops) => BeginEffect(s, setupFails, answer, callbackStops)
    case SpawnReturns(observerStops) => SpawnReturnsEffect(s, observerStops)
    case SpawnRaises => SpawnRaisesEffect(s)
    case CallStop => CallStopEffect(s)
    case StopEnds => StopEndsEffect(s)
    case WaiterCancelled(k) => WaiterCancelledEffect(s, k)
  }

  predicate Possible(s: Session, run: seq<Step>)
    decreases |run|
  {
    run == [] || (Enabled(s, run[0]) && Possible(Next(s, run[0]), run[1..]))
  }

  function Exec(s: Session, run: seq<Step>): Session
    requires Possible(s, run)
    decreases |run|
  {
    if run == [] then s else Exec(Next(s, run[0]), run[1..])
  }

  /** The permit's history, given the flags. */
  predicate LedgerInv(s: Session) {
    && (s.contacted ==> s.ledger == if s.hasCallback then [Granted, Contacted] else [Contacted])
    && (!s.contacted && s.admitted ==> s.ledger == [Granted])
    && (!s.contacted && !s.admitted ==> s.ledger == [] || (s.hasCallback && s.ledger == [Granted, Returned]))
  }

  predicate PhaseInv(s: Session) {
    && (s.starting <==> s.phase.Spawning?)
    && (s.admitted <==> s.hasCallback && s.phase.Spawning?)
    && (s.contacted <==> !s.process.NoProcess?)
    && (s.phase.Idle? || s.phase.Spawning? ==> !s.contacted && Returned !in s.ledger)
    && (s.phase.Stopping? ==> s.contacted && s.stopRequested)
    && (s.phase == Done(true) ==> s.contacted)
    && (s.phase == Done(false) ==> !s.process.Live?)
  }

  /** `start` waits for the stop lock behind nobody, and a stop that got through has retired the
      process. */
  predicate StopInv(s: Session) {
    && (s.process.NoProcess? ==> s.stoppers == [])
    && (s.phase.Stopping? <==> s.stoppers != [] && s.stoppers[0].Starter?)
    && (forall k :: 1 <= k < |s.stoppers| ==> s.stoppers[k].Outsider?)
    && (s.contacted && s.stopRequested && s.stoppers == [] ==> s.process.Retired?)
  }

  predicate Inv(s: Session) {
    LedgerInv(s) && PhaseInv(s) && StopInv(s)
  }

  lemma NextKeeps(s: Session, step: Step)
    requires Inv(s) && Enabled(s, step)
    ensures Inv(Next(s, step))
  {
  }

  lemma {:induction false} RunKeeps(s: Session, run: seq<Step>)
    requires Inv(s) && Possible(s, run)
    ensures Inv(Exec(s, run)) && Exec(s, run).hasCallback == s.hasCallback
    decreases |run|
  {
    if run != [] {
      NextKeeps(s, run[0]);
      RunKeeps(Next(s, run[0]), run[1..]);
    }
  }

  // ---------------------------------------------------------------- main results

  /** In every run a permit is granted at most once, and when `start` is over it is settled exactly
      once: contacted if a process was created and returned if not. */
  lemma PermitSettledOnce(hasCallback: bool, run: seq<Step>)
    requires Possible(New(hasCallback), run)
    ensures var s := Exec(New(hasCallback), run);
      hasCallback ==> s.ledger in {[], [Granted], [Granted, Contacted], [Granted, Returned]}
    ensures var s := Exec(New(hasCallback), run);
      hasCallback && s.phase.Done? ==>
        s.ledger in {[], [Granted, Returned]} || s.ledger == [Granted, Contacted]
    ensures var s := Exec(New(hasCallback), run);
      (Contacted in s.ledger <==> !s.process.NoProcess?)
    ensures var s := Exec(New(hasCallback), run);
      s.phase == Done(true) ==> Contacted in s.ledger
  {
    RunKeeps(New(hasCallback), run);
  }

  /** Once a permit is contacted or returned, nothing more ever happens to it; in particular it is
      never returned after contact. */
  lemma {:induction false} SettledForGood(s: Session, run: seq<Step>)
    requires Inv(s) && Possible(s, run) && (Contacted in s.ledger || Returned in s.ledger)
    ensures Exec(s, run).ledger == s.ledger
    ensures !s.process.NoProcess? ==> !Exec(s, run).process.NoProcess?
    decreases |run|
  {
    if run != [] {
      NextKeeps(s, run[0]);
      SettledForGood(Next(s, run[0]), run[1..]);
    }
  }

  /** A stop requested before `start` is over: `start` never returns normally afterwards, and once
      it is over no process it created is left running. */
  lemma {:induction false} StopFencesStart(s: Session, run: seq<Step>)
    requires Inv(s) && Possible(s, run)
    requires s.stopRequested && s.phase != Done(true)
    ensures Exec(s, run).phase != Done(true)
    ensures Exec(s, run).phase.Done? ==> !Exec(s, run).process.Live?
    decreases |run|
  {
    if run != [] {
      NextKeeps(s, run[0]);
      StopFencesStart(Next(s, run[0]), run[1..]);
    }
  }

  /** A stop requested before the subprocess call keeps the process from ever being created. */
  lemma {:induction false} EarlyStopPreventsContact(s: Session, run: seq<Step>)
    requires Inv(s) && Possible(s, run)
    requires s.stopRequested && s.process.NoProcess? && !s.phase.Spawning?
    ensures Exec(s, run).process.NoProcess? && Contacted !in Exec(s, run).ledger
    ensures Granted in s.ledger <==> Granted in Exec(s, run).ledger
    decreases |run|
  {
    if run != [] {
      NextKeeps(s, run[0]);
      EarlyStopPreventsContact(Next(s, run[0]), run[1..]);
    }
  }

  /** Whenever a stop was requested and no stopper is left at the lock, the process is retired; and
      a retired process never runs again. */
  lemma {:induction false} StopsComplete(s: Session, run: seq<Step>)
    requires Inv(s) && Possible(s, run)
    ensures var t := Exec(s, run);
      t.stopRequested && !t.process.NoProcess? && t.stoppers == [] ==> t.process.Retired?
    ensures s.process.Retired? ==> Exec(s, run).process.Retired?
    decreases |run|
  {
    RunKeeps(s, run);
    if run != [] {
      NextKeeps(s, run[0]);
      StopsComplete(Next(s, run[0]), run[1..]);
    }
  }
}
