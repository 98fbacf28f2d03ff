/**
 The transport permit of the two provider-backed agents.  The ACP session grants it to a backend
 that calls back at its own transport edge; the API session asks once and keeps the answer.
 */
module ProviderPermit {
  import opened Basics
  import opened AgentSession

  // ---------------------------------------------------------------- ACP: the facade's fields

  datatype Facade = Facade(
    hasCallback: bool,
    stopRequested: bool,
    admitted: bool,
    contacted: bool,
    ledger: seq<Entry>)

  /** Hands back a permit that was granted and not used. */
  function ReturnEffect(f: Facade): Facade {
    if !f.admitted || f.contacted then f else f.(admitted := false, ledger := f.ledger + [Returned])
  }

  /** A backend asks for its permit.  Without a callback the facade admits by itself. */
  function AskEffect(f: Facade, answer: Answer, callbackStops: bool): Facade {
    if f.stopRequested then f
    else
      var asked := f.(stopRequested := f.hasCallback && callbackStops);
      if f.hasCallback && !answer.Permit? then asked
      else
        var granted := asked.(admitted := true, ledger := f.ledger + [Granted]);
        if granted.stopRequested then ReturnEffect(granted) else granted
  }

  /** The backend is told it may cross its edge. */
  predicate Admits(f: Facade, answer: Answer, callbackStops: bool) {
    !f.stopRequested && (f.hasCallback ==> answer.Permit? && !callbackStops)
  }

  function MarkEffect(f: Facade): Facade {
    f.(contacted := true, admitted := false, ledger := f.ledger + [Contacted])
  }

  class AcpFacade {
    const hasCallback: bool
    var stopRequested: bool
    var transportAdmitted: bool
    var transportContacted: bool
    ghost var ledger: seq<Entry>

    ghost function View(): Facade
      reads this
    {
      Facade(hasCallback, stopRequested, transportAdmitted, transportContacted, ledger)
    }

    constructor (hasCallback: bool)
      ensures View() == Facade(hasCallback, false, false, false, [])
    {
      this.hasCallback := hasCallback;
      stopRequested, transportAdmitted, transportContacted, ledger := false, false, false, [];
    }

    method CancelPrecontactAdmission()
      modifies this
      ensures View() == ReturnEffect(old(View()))
    {
      if !transportAdmitted || transportContacted {
        return;
      }
      transportAdmitted := false;
      ledger := ledger + [Returned];
    }

    method BeginBackendTransportContact(answer: Answer, callbackStops: bool) returns (admitted: bool)
      modifies this
      ensures View() == AskEffect(old(View()), answer, callbackStops)
      ensures admitted == Admits(old(View()), answer, callbackStops)
    {
      if stopRequested {
        return false;
      }
      if hasCallback {
        stopRequested := callbackStops;
        if !answer.Permit? {
          return false;
        }
      }
      transportAdmitted := true;
      ledger := ledger + [Granted];
      if stopRequested {
        CancelPrecontactAdmission();
        return false;
      }
      return true;
    }

    method MarkBackendTransportContacted()
      modifies this
      ensures View() == MarkEffect(old(View()))
    {
      transportContacted := true;
      transportAdmitted := false;
      ledger := ledger + [Contacted];
    }
  }

  // ---------------------------------------------------------------- ACP: runs with one backend

  /** Where the backend is; it asks at most once, and marks or cancels only a permit it holds. */
  datatype Backend = Fresh | Holding | Finished

  datatype Run = Run(facade: Facade, backend: Backend, over: bool)

  datatype Move =
    | Ask(answer: Answer, callbackStops: bool)
    | Mark
    | CancelContact
    | Terminate
    | RunTaskEnds

  function NewRun(hasCallback: bool): Run {
    Run(Facade(hasCallback, false, false, false, []), Fresh, false)
  }

  predicate CanMove(r: Run, move: Move) {
    match move
    case Ask(_, _) => r.backend.Fresh? && !r.over
    case Mark => r.backend.Holding? && !r.over
    case CancelContact => r.backend.Holding? && !r.over
    case Terminate => true
    case RunTaskEnds => !r.over
  }

  /** `run_task` ends in a `finally` that returns an unused permit, wherever the backend stands. */
  function After(r: Run, move: Move): Run {
    match move
    case Ask(answer, callbackStops) =>
      r.(facade := AskEffect(r.facade, answer, callbackStops),
         backend := if Admits(r.facade, answer, callbackStops) then Holding else Finished)
    case Mark => r.(facade := MarkEffect(r.facade), backend := Finished)
    case CancelContact => r.(facade := ReturnEffect(r.facade), backend := Finished)
    case Terminate => r.(facade := r.facade.(stopRequested := true))
    case RunTaskEnds => r.(facade := ReturnEffect(r.facade), over := true)
  }

  predicate CanRun(r: Run, moves: seq<Move>)
    decreases |moves|
  {
    moves == [] || (CanMove(r, moves[0]) && CanRun(After(r, moves[0]), moves[1..]))
  }

  function AfterAll(r: Run, moves: seq<Move>): Run
    decreases |moves|
  {
    if moves == [] then r else AfterAll(After(r, moves[0]), moves[1..])
  }

  predicate RunInv(r: Run) {
    var f := r.facade;
    && (f.contacted ==> f.ledger == [Granted, Contacted] && !f.admitted)
    && (f.admitted ==> f.ledger == [Granted])
    && (!f.contacted && !f.admitted ==> f.ledger == [] || f.ledger == [Granted, Returned])
    && (r.backend.Fresh? ==> f.ledger == [])
    && (r.backend.Holding? && !r.over ==> f.admitted)
    && (f.admitted ==> r.backend.Holding? && !r.over)
  }

  lemma {:induction false} AllRunsKeep(r: Run, moves: seq<Move>)
    requires RunInv(r) && CanRun(r, moves)
    ensures RunInv(AfterAll(r, moves))
    decreases |moves|
  {
    if moves != [] {
      AllRunsKeep(After(r, moves[0]), moves[1..]);
    }
  }

  /** In every run the backend's permit is granted at most once, and when `run_task` is over it is
      either contacted or returned, never both and never neither. */
  lemma AcpPermitSettledOnce(hasCallback: bool, moves: seq<Move>)
    requires CanRun(NewRun(hasCallback), moves)
    ensures var r := AfterAll(NewRun(hasCallback), moves);
      r.facade.ledger in {[], [Granted], [Granted, Contacted], [Granted, Returned]}
    ensures var r := AfterAll(NewRun(hasCallback), moves);
      r.over ==> r.facade.ledger != [Granted]
    ensures var r := AfterAll(NewRun(hasCallback), moves);
      r.facade.contacted <==> Contacted in r.facade.ledger
  {
    AllRunsKeep(NewRun(hasCallback), moves);
  }

  /** A permit that was contacted or returned stays as it is. */
  lemma {:induction false} AcpSettledForGood(r: Run, moves: seq<Move>)
    requires RunInv(r) && CanRun(r, moves) && (Contacted in r.facade.ledger || Returned in r.facade.ledger)
    ensures AfterAll(r, moves).facade.ledger == r.facade.ledger
    decreases |moves|
  {
    if moves != [] {
      AllRunsKeep(r, moves[..1]);
      assert After(r, moves[0]) == AfterAll(r, moves[..1]);
      AcpSettledForGood(After(r, moves[0]), moves[1..]);
    }
  }

  /** `terminate` before the backend asks keeps it from ever reaching its provider. */
  lemma {:induction false} TerminateFencesBackend(r: Run, moves: seq<Move>)
    requires RunInv(r) && CanRun(r, moves) && r.facade.stopRequested && !r.backend.Holding?
    ensures AfterAll(r, moves).facade.ledger == r.facade.ledger
    decreases |moves|
  {
    if moves != [] {
      AllRunsKeep(r, moves[..1]);
      assert After(r, moves[0]) == AfterAll(r, moves[..1]);
      TerminateFencesBackend(After(r, moves[0]), moves[1..]);
    }
  }

  function Grants(ledger: seq<Entry>): int {
    if ledger == [] then 0 else Grants(ledger[..|ledger| - 1]) + if ledger[|ledger| - 1].Granted? then 1 else 0
  }

  function Settlements(ledger: seq<Entry>): int {
    if ledger == [] then 0 else Settlements(ledger[..|ledger| - 1]) + if ledger[|ledger| - 1].Granted? then 0 else 1
  }

  lemma OneMore(ledger: seq<Entry>, e: Entry)
    ensures Grants(ledger + [e]) == Grants(ledger) + if e.Granted? then 1 else 0
    ensures Settlements(ledger + [e]) == Settlements(ledger) + if e.Granted? then 0 else 1
  {
    assert (ledger + [e])[..|ledger|] == ledger;
  }

  lemma {:induction false} RunBalance(r: Run)
    requires RunInv(r)
    ensures Grants(r.facade.ledger) == Settlements(r.facade.ledger) + if r.facade.admitted then 1 else 0
  {
    OneMore([], Granted);
    assert [] + [Granted] == [Granted];
    OneMore([Granted], Contacted);
    OneMore([Granted], Returned);
    assert [Granted] + [Contacted] == [Granted, Contacted] && [Granted] + [Returned] == [Granted, Returned];
  }

  /** Why a backend may ask only once: a second permit that is granted and then abandoned is
      settled by the end of `run_task` if and only if the first was neither still held nor used. */
  lemma SecondAskSettledIff(r: Run)
    requires RunInv(r) && !r.facade.stopRequested
    ensures var end := ReturnEffect(AskEffect(r.facade, Permit, false));
      Grants(end.ledger) == Settlements(end.ledger) <==> !r.facade.admitted && !r.facade.contacted
  {
    var asked := AskEffect(r.facade, Permit, false);
    RunBalance(r);
    OneMore(r.facade.ledger, Granted);
    OneMore(asked.ledger, Returned);
  }

  // ---------------------------------------------------------------- API: one sticky answer

  /** What `_admit_transport_once` keeps: nothing decided yet, a permit, or a denial. */
  datatype Admission = Undecided | Allowed | Refused(reason: string)

  /** One call's outcome, of the callback or of `_admit_transport_once`. */
  datatype Reply = Allow | Refuse(reason: string) | Raise

  /** What the callback's reply settles, the first time it replies at all. */
  function Settle(reply: Reply): Admission {
    match reply
    case Allow => Allowed
    case Refuse(reason) => Refused(reason)
    case Raise => Undecided
  }

  /** The answer an HTTP attempt gets from a decided admission. */
  function Answered(a: Admission): Reply {
    match a
    case Allowed => Allow
    case Refused(reason) => Refuse(reason)
    case Undecided => Raise
  }

  function AdmitEffect(a: Admission, hasCallback: bool, reply: Reply): Admission {
    if !a.Undecided? then a else if !hasCallback then Allowed else Settle(reply)
  }

  class ApiAdmission {
    const hasCallback: bool
    var contacted: bool
    var denial: Option<string>
    ghost var consulted: nat

    ghost predicate Valid()
      reads this
    {
      contacted ==> denial.None?
    }

    ghost function View(): Admission
      reads this
    {
      if contacted then Allowed else if denial.Some? then Refused(denial.value) else Undecided
    }

    constructor (hasCallback: bool)
      ensures Valid() && View() == Undecided && consulted == 0 && this.hasCallback == hasCallback
    {
      this.hasCallback := hasCallback;
      contacted, denial, consulted := false, None, 0;
    }

    /** One HTTP attempt at its transport edge; `reply` is what the callback would say if asked. */
    method AdmitOnce(reply: Reply) returns (answer: Reply)
      requires Valid()
      modifies this
      ensures Valid() && View() == AdmitEffect(old(View()), hasCallback, reply)
      ensures answer == Answered(View())
      ensures consulted == old(consulted) + if hasCallback && old(View()).Undecided? then 1 else 0
    {
      if contacted {
        return Allow;
      }
      if denial.Some? {
        return Refuse(denial.value);
      }
      if hasCallback {
        consulted := consulted + 1;
        match reply {
          case Raise => {
            return Raise;
          }
          case Refuse(reason) => {
            denial := Some(reason);
            return reply;
          }
          case Allow => {
          }
        }
      }
      contacted := true;
      return Allow;
    }
  }

  /** The admission after a run of attempts, each with what the callback would say. */
  function Attempts(a: Admission, hasCallback: bool, replies: seq<Reply>): Admission {
    if replies == [] then a
    else AdmitEffect(Attempts(a, hasCallback, replies[..|replies| - 1]), hasCallback, replies[|replies| - 1])
  }

  /** The first reply that is not an exception decides every attempt from then on; before it every
      attempt raises, and after it no attempt consults the callback again. */
  lemma {:induction false} FirstReplySticks(replies: seq<Reply>, first: nat)
    requires forall k :: 0 <= k < |replies| && k < first ==> replies[k].Raise?
    requires first < |replies| ==> !replies[first].Raise?
    ensures Answered(Attempts(Undecided, true, replies)) == if first < |replies| then replies[first] else Raise
    ensures Attempts(Undecided, true, replies).Undecided? <==> |replies| <= first
  {
    if replies != [] {
      FirstReplySticks(replies[..|replies| - 1], first);
    }
  }

  /** Once decided, whatever later attempts bring, they are answered alike. */
  lemma {:induction false} DecisionIsFinal(a: Admission, hasCallback: bool, replies: seq<Reply>)
    requires !a.Undecided?
    ensures Attempts(a, hasCallback, replies) == a
  {
    if replies != [] {
      DecisionIsFinal(a, hasCallback, replies[..|replies| - 1]);
    }
  }
}
