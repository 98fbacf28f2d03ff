/**
 The retry lane of one durable audit: planning a launch within two budgets, recovering an
 abandoned attempt, failing before launch and finishing an attempt; then every run of those
 operations with worker exits, crashes, verdicts and evidence changes in between.  A finish may
 name any attempt, as a worker that exits late does.
 */
module AuditLane {
  import opened Basics
  import opened AuditChain
  import Sel = AuditorSelector

  datatype Lane = Lane(maxAttempts: int, maxTransportRetries: int, ttl: int)

  /** The constructor's argument checks. */
  predicate ValidLane(lane: Lane) {
    0 < lane.maxAttempts && 0 <= lane.maxTransportRetries && 0 < lane.ttl
  }

  // ---------------------------------------------------------------- budgets

  predicate TransportRetry(a: Attempt) {
    a.verdict.None? && a.failure.Some? && (a.failure.value.InfrastructureError? || a.failure.value.FinalizationFailure?)
  }

  predicate LifecyclePause(a: Attempt) {
    a.verdict.None? && a.failure == Some(SchedulerPause)
  }

  predicate Substantive(a: Attempt) {
    !TransportRetry(a) && !LifecyclePause(a)
  }

  function SubstantiveCount(attempts: seq<Attempt>): nat {
    if attempts == [] then 0
    else SubstantiveCount(attempts[..|attempts| - 1]) + if Substantive(attempts[|attempts| - 1]) then 1 else 0
  }

  function TransportCount(attempts: seq<Attempt>): nat {
    if attempts == [] then 0
    else TransportCount(attempts[..|attempts| - 1]) + if TransportRetry(attempts[|attempts| - 1]) then 1 else 0
  }

  /** The provider/model pairs this audit has used up. */
  function AttemptedPairs(r: Record): set<(string, string)> {
    set i | 0 <= i < |r.attempts| && ConsumesPair(r.attempts[i]) :: (r.attempts[i].provider, r.attempts[i].model)
  }

  predicate ConsumesPair(a: Attempt) {
    a.provider != "" && a.model != "" && Substantive(a)
  }

  // ---------------------------------------------------------------- operations

  /** The latest attempt that was launched and has not ended, if any. */
  function Current(attempts: seq<Attempt>): (r: Option<Attempt>)
    ensures r.Some? ==> r.value in attempts && Unended(r.value)
    ensures r.None? ==> forall a :: a in attempts ==> !Unended(a)
  {
    if attempts == [] then None
    else
      var last := attempts[|attempts| - 1];
      if Unended(last) then Some(last) else Current(attempts[..|attempts| - 1])
  }

  datatype RecoveryReason =
    | NoReason
    | Backoff
    | ChangedWhileRunning
    | ChangedDuringRun
    | AlreadyRunning
    | AttemptEnded
    | TtlElapsed
    | NoLiveWorker
    | PresumedRunning

  datatype Recovery = Recovery(record: Record, ready: bool, reason: RecoveryReason, attemptId: Option<string>)

  type Identity = (string, string, string, string)

  function IdentityOf(r: Record, a: Attempt): Identity {
    (r.projectId, r.taskId, r.auditId, a.id)
  }

  function WithAttempt(attempts: seq<Attempt>, id: string, to: Attempt): (r: seq<Attempt>)
    ensures |r| == |attempts|
    ensures forall i :: 0 <= i < |attempts| ==> r[i] == if attempts[i].id == id then to else attempts[i]
  {
    seq(|attempts|, i requires 0 <= i < |attempts| => if attempts[i].id == id then to else attempts[i])
  }

  function Abandoned(current: Attempt, why: string, now: int): Attempt {
    current.(
      requestState := Pending,
      endedAt := if current.endedAt == Missing then At(now) else current.endedAt,
      reason := why,
      failure := if current.failure.Some? then current.failure else Some(InfrastructureError),
      origin := if current.origin.Some? then current.origin else Some(AbandonedRecovery))
  }

  /** Ends the abandoned attempt `current` and returns the record to the pending state. */
  function Abandon(r: Record, current: Attempt, why: string, now: int): Record {
    r.(requestState := Pending, attempts := WithAttempt(r.attempts, current.id, Abandoned(current, why, now)))
  }

  function Age(current: Attempt, now: int, ttl: int): int {
    var started := Parse(if current.startedAt == Missing then current.createdAt else current.startedAt);
    if started.Some? then now - started.value else ttl
  }

  /** Whether an unended attempt is left to its worker or ended, and why. */
  datatype Judgement = Leave(reason: RecoveryReason) | EndAs(reason: RecoveryReason, text: string)

  function Judge(lane: Lane, r: Record, current: Attempt, live: Option<set<Identity>>, now: int): Judgement {
    var changed := current.fingerprint != r.fingerprint;
    var active := live.Some? && IdentityOf(r, current) in live.value;
    if active && changed then Leave(ChangedWhileRunning)
    else if changed then EndAs(ChangedDuringRun, "evidence fingerprint changed during auditor run")
    else if active then Leave(AlreadyRunning)
    else if current.endedAt != Missing then
      EndAs(AttemptEnded, if current.reason == "" then "auditor attempt ended" else current.reason)
    else if lane.ttl <= Age(current, now, lane.ttl) then
      EndAs(TtlElapsed, "auditor session abandoned after attempt TTL")
    else if live.Some? then EndAs(NoLiveWorker, "auditor session abandoned; no live worker owns the attempt")
    else Leave(PresumedRunning)
  }

  /** `recover`; `live` is the caller's registry of running workers, when it has one. */
  function Recover(lane: Lane, r: Record, live: Option<set<Identity>>, now: int): Recovery {
    var found := Current(r.attempts);
    if found.Some? then
      var current := found.value;
      match Judge(lane, r, current, live, now)
      case Leave(reason) => Recovery(r, false, reason, Some(current.id))
      case EndAs(reason, text) => Recovery(Abandon(r, current, text, now), true, reason, Some(current.id))
    else if InBackoff(r.attempts, now) then
      Recovery(r, false, Backoff, Some(r.attempts[|r.attempts| - 1].id))
    else
      Recovery(r, r.requestState == Pending, NoReason, None)
  }

  predicate InBackoff(attempts: seq<Attempt>, now: int) {
    attempts != [] && attempts[|attempts| - 1].nextRetryAt.At? && now < attempts[|attempts| - 1].nextRetryAt.instant
  }

  /** The launch data persisted before a worker starts. */
  datatype Plan = Plan(
    auditId: string, projectId: string, taskId: string, attemptId: string, target: TargetState,
    fingerprint: string, candidate: Sel.Candidate, rotation: nat, createdAt: int, binding: Binding)

  datatype Refusal = MaxSubstantive | MaxTransport | NoCandidate(reason: Sel.Reason)

  function MakePlan(lane: Lane, sel: Sel.Selector, r: Record, contributors: seq<Sel.Contributor>, newId: string,
                    now: int)
    : Result<Plan, Refusal>
  {
    var substantive := SubstantiveCount(r.attempts);
    var transport := TransportCount(r.attempts);
    if lane.maxAttempts <= substantive then Err(MaxSubstantive)
    else if transport != 0 && lane.maxTransportRetries <= transport then Err(MaxTransport)
    else
      var candidates := Sel.SelectCandidates(sel, contributors, AttemptedPairs(r));
      if candidates.Err? then Err(NoCandidate(candidates.error))
      else Ok(Plan(r.auditId, r.projectId, r.taskId, newId, r.target, r.fingerprint,
                   candidates.value[0], |r.attempts|, now, r.binding))
  }

  function LaunchedAttempt(p: Plan): Attempt {
    Attempt(p.attemptId, p.target, p.fingerprint, InProgress, None, None, p.candidate.provider,
            p.candidate.model, At(p.createdAt), At(p.createdAt), Missing, "", Missing, p.rotation, p.binding, None)
  }

  datatype PersistError = DifferentAudit | DifferentBinding

  function PersistPlan(r: Record, p: Plan): Result<Record, PersistError> {
    if p.auditId != r.auditId || p.projectId != r.projectId || p.taskId != r.taskId then Err(DifferentAudit)
    else if p.binding != r.binding then Err(DifferentBinding)
    else Ok(r.(requestState := InProgress, attempts := r.attempts + [LaunchedAttempt(p)], updatedAt := At(p.createdAt)))
  }

  /** `record_prelaunch_failure`; refused once the budgeted attempts are used up. */
  function PrelaunchFailure(lane: Lane, r: Record, newId: string, why: string, retryAt: Stamp, now: int)
    : Option<Record>
  {
    if lane.maxAttempts <= SubstantiveCount(r.attempts) + TransportCount(r.attempts) then None
    else
      var failed := Attempt(newId, r.target, r.fingerprint, Pending, None, Some(InfrastructureError), "", "",
                            At(now), Missing, At(now), why, retryAt, 0, r.binding, None);
      Some(r.(requestState := Pending, attempts := r.attempts + [failed], updatedAt := At(now)))
  }

  function Ended(a: Attempt, why: string, end: int, retryAt: Stamp, failure: Option<FailureClass>): Attempt {
    a.(requestState := Pending,
       endedAt := At(end),
       reason := if why == "" then a.reason else why,
       nextRetryAt := retryAt,
       failure := if failure.Some? then failure else a.failure)
  }

  function EndedAll(attempts: seq<Attempt>, id: string, why: string, end: int, retryAt: Stamp,
                    failure: Option<FailureClass>)
    : (r: seq<Attempt>)
    ensures |r| == |attempts|
    ensures forall i :: 0 <= i < |attempts| ==>
      r[i] == if attempts[i].id == id then Ended(attempts[i], why, end, retryAt, failure) else attempts[i]
  {
    seq(|attempts|, i requires 0 <= i < |attempts| =>
      if attempts[i].id == id then Ended(attempts[i], why, end, retryAt, failure) else attempts[i])
  }

  function Finished(r: Record, id: string, why: string, end: int, retryAt: Stamp, failure: Option<FailureClass>)
    : Record
  {
    if exists i :: 0 <= i < |r.attempts| && r.attempts[i].id == id then
      r.(requestState := Pending,
         attempts := EndedAll(r.attempts, id, why, end, retryAt, failure),
         updatedAt := At(end))
    else r
  }

  /** The program's loop over the attempts. */
  method FinishAttempt(r: Record, id: string, why: string, end: int, retryAt: Stamp, failure: Option<FailureClass>)
    returns (finished: Record)
    ensures finished == Finished(r, id, why, end, retryAt, failure)
  {
    var changed := false;
    var attempts: seq<Attempt> := [];
    for i := 0 to |r.attempts|
      invariant |attempts| == i
      invariant changed <==> exists k :: 0 <= k < i && r.attempts[k].id == id
      invariant forall k :: 0 <= k < i ==>
        attempts[k]
          == if r.attempts[k].id == id then Ended(r.attempts[k], why, end, retryAt, failure) else r.attempts[k]
    {
      if r.attempts[i].id != id {
        attempts := attempts + [r.attempts[i]];
      } else {
        changed := true;
        attempts := attempts + [Ended(r.attempts[i], why, end, retryAt, failure)];
      }
    }
    if !changed {
      return r;
    }
    assert attempts == EndedAll(r.attempts, id, why, end, retryAt, failure);
    finished := r.(requestState := Pending, attempts := attempts, updatedAt := At(end));
  }

  // ---------------------------------------------------------------- runs

  /** The durable record and the attempts that live workers of this audit are running. */
  datatype State = State(record: Record, workers: set<string>)

  datatype Action =
    | Launch(sel: Sel.Selector, contributors: seq<Sel.Contributor>, newId: string, now: int)
    | RecoverOnly(now: int)
    | FailBeforeLaunch(newId: string, why: string, retryAt: Stamp, now: int)
    | Finish(id: string, why: string, end: int, retryAt: Stamp, failure: Option<FailureClass>)
    | Verdict(verdict: AuditChain.Verdict, failure: Option<FailureClass>, now: int, terminal: bool)
    | WorkerExits(id: string)
    | Crash
    | EvidenceChanges(fingerprint: string)

  /** The accurate registry handed to `recover`. */
  function Live(s: State): set<Identity> {
    set id | id in s.workers :: (s.record.projectId, s.record.taskId, s.record.auditId, id)
  }

  function Gate(lane: Lane, s: State, now: int): Recovery {
    Recover(lane, s.record, Some(Live(s)), now)
  }

  predicate FreshId(r: Record, id: string) {
    forall a :: a in r.attempts ==> a.id != id
  }

  /** The coordinator's application of a structured result to the running attempt: a terminal
      verdict completes it and the audit, a nonterminal one ends it for a retry. */
  function Judged(a: Attempt, v: AuditChain.Verdict, failure: Option<FailureClass>, now: int, terminal: bool): Attempt {
    a.(requestState := if terminal then Completed else Pending,
       verdict := Some(v),
       failure := failure,
       endedAt := At(now))
  }

  predicate Enabled(lane: Lane, s: State, a: Action) {
    match a
    case Launch(sel, contributors, newId, now) =>
      var gate := Gate(lane, s, now);
      && gate.ready && FreshId(s.record, newId) && newId !in s.workers
      && MakePlan(lane, sel, gate.record, contributors, newId, now).Ok?
    case RecoverOnly(_) => true
    case FailBeforeLaunch(newId, _, retryAt, now) =>
      var gate := Gate(lane, s, now);
      && gate.ready && FreshId(s.record, newId)
      && PrelaunchFailure(lane, gate.record, newId, "", retryAt, now).Some?
    case Verdict(_, _, _, _) => Current(s.record.attempts).Some?
    case _ => true
  }

  function Next(lane: Lane, s: State, a: Action): State
    requires Enabled(lane, s, a)
  {
    match a
    case Launch(sel, contributors, newId, now) =>
      var ready := Gate(lane, s, now).record;
      var plan := MakePlan(lane, sel, ready, contributors, newId, now).value;
      State(PersistPlan(ready, plan).value, s.workers + {newId})
    case RecoverOnly(now) => s.(record := Gate(lane, s, now).record)
    case FailBeforeLaunch(newId, why, retryAt, now) =>
      s.(record := PrelaunchFailure(lane, Gate(lane, s, now).record, newId, why, retryAt, now).value)
    case Finish(id, why, end, retryAt, failure) =>
      s.(record := Finished(s.record, id, why, end, retryAt, failure))
    case Verdict(v, failure, now, terminal) =>
      var current := Current(s.record.attempts).value;
      s.(record := s.record.(
        requestState := if terminal then Completed else Pending,
        attempts := WithAttempt(s.record.attempts, current.id, Judged(current, v, failure, now, terminal))))
    case WorkerExits(id) => s.(workers := s.workers - {id})
    case Crash => s.(workers := {})
    case EvidenceChanges(fingerprint) => s.(record := s.record.(fingerprint := fingerprint))
  }

  predicate Possible(lane: Lane, s: State, run: seq<Action>)
    decreases |run|
  {
    run == [] || (Enabled(lane, s, run[0]) && Possible(lane, Next(lane, s, run[0]), run[1..]))
  }

  function Exec(lane: Lane, s: State, run: seq<Action>): State
    requires Possible(lane, s, run)
    decreases |run|
  {
    if run == [] then s else Exec(lane, Next(lane, s, run[0]), run[1..])
  }

  // ---------------------------------------------------------------- the invariant

  function Max(a: int, b: int): int {
    if a < b then b else a
  }

  function TransportBound(lane: Lane): int {
    Max(1, Max(lane.maxTransportRetries, lane.maxAttempts))
  }

  predicate DistinctAttempts(attempts: seq<Attempt>) {
    forall i, j :: 0 <= i < j < |attempts| ==> attempts[i].id != attempts[j].id
  }

  predicate LastIsLive(attempts: seq<Attempt>) {
    attempts != [] && Unended(attempts[|attempts| - 1])
  }

  /** Only the newest attempt can be unended, and then it is a bare launch; a record in progress has
      one. */
  predicate OneLive(r: Record) {
    && DistinctAttempts(r.attempts)
    && (forall i :: 0 <= i < |r.attempts| - 1 ==> !Unended(r.attempts[i]))
    && (LastIsLive(r.attempts) ==>
        var last := r.attempts[|r.attempts| - 1];
        last.verdict.None? && last.failure.None? && last.nextRetryAt == Missing)
    && (r.requestState == InProgress ==> LastIsLive(r.attempts))
  }

  predicate DistinctPairs(attempts: seq<Attempt>) {
    forall i, j :: 0 <= i < j < |attempts| && ConsumesPair(attempts[i]) && ConsumesPair(attempts[j]) ==>
      (attempts[i].provider, attempts[i].model) != (attempts[j].provider, attempts[j].model)
  }

  predicate WithinBudgets(lane: Lane, attempts: seq<Attempt>) {
    && SubstantiveCount(attempts) <= lane.maxAttempts
    && TransportCount(attempts) + (if LastIsLive(attempts) then 1 else 0) <= TransportBound(lane)
  }

  /** No pair is spent twice and both budgets are kept. */
  predicate Paid(lane: Lane, attempts: seq<Attempt>) {
    DistinctPairs(attempts) && WithinBudgets(lane, attempts)
  }

  predicate Inv(lane: Lane, s: State) {
    OneLive(s.record) && Paid(lane, s.record.attempts)
  }

  /** A newly requested audit. */
  predicate Initial(s: State) {
    s.record.attempts == [] && s.record.requestState == Pending && s.workers == {}
  }

  // ---------------------------------------------------------------- every step keeps it

  lemma CurrentIsLast(r: Record)
    requires OneLive(r)
    ensures Current(r.attempts) == if LastIsLive(r.attempts) then Some(r.attempts[|r.attempts| - 1]) else None
  {
    var found := Current(r.attempts);
    if found.Some? {
      var i :| 0 <= i < |r.attempts| && r.attempts[i] == found.value;
      assert i == |r.attempts| - 1;
    }
  }

  function WithLast(attempts: seq<Attempt>, to: Attempt): seq<Attempt>
    requires attempts != []
  {
    attempts[..|attempts| - 1] + [to]
  }

  lemma OnlyLastChanges(attempts: seq<Attempt>, to: Attempt)
    requires attempts != [] && DistinctAttempts(attempts)
    ensures WithAttempt(attempts, attempts[|attempts| - 1].id, to) == WithLast(attempts, to)
  {
  }

  lemma OnlyLastEnds(attempts: seq<Attempt>, why: string, end: int, retryAt: Stamp, failure: Option<FailureClass>)
    requires attempts != [] && DistinctAttempts(attempts)
    ensures var last := attempts[|attempts| - 1];
      EndedAll(attempts, last.id, why, end, retryAt, failure)
        == WithLast(attempts, Ended(last, why, end, retryAt, failure))
  {
  }

  lemma EndingLastLive(r: Record, to: Attempt, state: RequestState)
    requires OneLive(r) && LastIsLive(r.attempts) && state != InProgress
    requires to.id == r.attempts[|r.attempts| - 1].id && !Unended(to)
    ensures OneLive(r.(attempts := WithLast(r.attempts, to), requestState := state))
    ensures !LastIsLive(WithLast(r.attempts, to))
  {
    assert forall i :: 0 <= i < |r.attempts| - 1 ==> WithLast(r.attempts, to)[i] == r.attempts[i];
  }

  /** Ending the live attempt, in whatever way, keeps the budgets. */
  lemma EndingLastPaid(lane: Lane, r: Record, to: Attempt)
    requires Inv(lane, State(r, {})) && LastIsLive(r.attempts)
    requires var last := r.attempts[|r.attempts| - 1];
      to.provider == last.provider && to.model == last.model && !Unended(to)
    ensures Paid(lane, WithLast(r.attempts, to))
  {
    var attempts, attempts' := r.attempts, WithLast(r.attempts, to);
    assert attempts'[..|attempts'| - 1] == attempts[..|attempts| - 1];
    assert Substantive(attempts[|attempts| - 1]);
    assert !LastIsLive(attempts');
    assert DistinctPairs(attempts') by {
      assert forall i :: 0 <= i < |attempts| - 1 ==> attempts'[i] == attempts[i];
      assert ConsumesPair(to) ==> ConsumesPair(attempts[|attempts| - 1]);
    }
  }

  lemma RecoverShape(lane: Lane, r: Record, live: Option<set<Identity>>, now: int) returns (why: string)
    requires OneLive(r)
    ensures var after := Recover(lane, r, live, now);
      && (after.record == r ||
          (LastIsLive(r.attempts) && after.record == Abandon(r, r.attempts[|r.attempts| - 1], why, now)))
      && (after.ready && LastIsLive(r.attempts) ==>
          after.record == Abandon(r, r.attempts[|r.attempts| - 1], why, now))
      && (after.ready && !LastIsLive(r.attempts) ==> r.requestState == Pending)
  {
    CurrentIsLast(r);
    why := "";
    if LastIsLive(r.attempts) {
      var judgement := Judge(lane, r, r.attempts[|r.attempts| - 1], live, now);
      why := if judgement.EndAs? then judgement.text else "";
    }
  }

  lemma RecoverLive(lane: Lane, r: Record, live: Option<set<Identity>>, now: int)
    requires OneLive(r)
    ensures var after := Recover(lane, r, live, now);
      && OneLive(after.record)
      && (after.ready ==> after.record.requestState == Pending && !LastIsLive(after.record.attempts))
      && (!LastIsLive(r.attempts) ==> after.record == r)
      && |after.record.attempts| == |r.attempts|
      && (forall i :: 0 <= i < |r.attempts| && !Unended(r.attempts[i]) ==> after.record.attempts[i] == r.attempts[i])
      && (forall i :: 0 <= i < |r.attempts| ==> after.record.attempts[i].id == r.attempts[i].id)
  {
    var why := RecoverShape(lane, r, live, now);
    if LastIsLive(r.attempts) {
      var last := r.attempts[|r.attempts| - 1];
      OnlyLastChanges(r.attempts, Abandoned(last, why, now));
      EndingLastLive(r, Abandoned(last, why, now), Pending);
    }
  }

  lemma RecoverPaid(lane: Lane, r: Record, live: Option<set<Identity>>, now: int)
    requires Inv(lane, State(r, {}))
    ensures Paid(lane, Recover(lane, r, live, now).record.attempts)
  {
    var why := RecoverShape(lane, r, live, now);
    if LastIsLive(r.attempts) {
      var last := r.attempts[|r.attempts| - 1];
      OnlyLastChanges(r.attempts, Abandoned(last, why, now));
      EndingLastPaid(lane, r, Abandoned(last, why, now));
    }
  }

  lemma AppendKeepsPairs(attempts: seq<Attempt>, new_: Attempt, r: Record)
    requires DistinctPairs(attempts) && attempts == r.attempts
    requires ConsumesPair(new_) ==> (new_.provider, new_.model) !in AttemptedPairs(r)
    ensures DistinctPairs(attempts + [new_])
  {
    assert forall i :: 0 <= i < |attempts| && ConsumesPair(attempts[i]) ==>
      (attempts[i].provider, attempts[i].model) in AttemptedPairs(r);
  }

  lemma AppendCounts(attempts: seq<Attempt>, new_: Attempt)
    ensures SubstantiveCount(attempts + [new_]) == SubstantiveCount(attempts) + if Substantive(new_) then 1 else 0
    ensures TransportCount(attempts + [new_]) == TransportCount(attempts) + if TransportRetry(new_) then 1 else 0
  {
    assert (attempts + [new_])[..|attempts|] == attempts;
  }

  lemma AppendKeepsLive(r: Record, r': Record, new_: Attempt)
    requires OneLive(r) && !LastIsLive(r.attempts) && FreshId(r, new_.id) && r'.attempts == r.attempts + [new_]
    requires Unended(new_) <==> r'.requestState == InProgress
    requires Unended(new_) ==> new_.verdict.None? && new_.failure.None? && new_.nextRetryAt == Missing
    ensures OneLive(r')
  {
  }

  /** Appending an attempt whose pair is unused and that fits the budgets. */
  lemma AppendPaid(lane: Lane, r: Record, new_: Attempt)
    requires Inv(lane, State(r, {})) && !LastIsLive(r.attempts)
    requires ConsumesPair(new_) ==> (new_.provider, new_.model) !in AttemptedPairs(r)
    requires SubstantiveCount(r.attempts) + (if Substantive(new_) then 1 else 0) <= lane.maxAttempts
    requires TransportCount(r.attempts) + (if TransportRetry(new_) || Unended(new_) then 1 else 0)
      <= TransportBound(lane)
    requires Unended(new_) ==> new_.failure.None?
    ensures Paid(lane, r.attempts + [new_])
  {
    AppendKeepsPairs(r.attempts, new_, r);
    AppendCounts(r.attempts, new_);
  }

  /** The attempt that a launch or a failure before launch appends to the recovered record. */
  function Appended(lane: Lane, s: State, a: Action): Attempt
    requires (a.Launch? || a.FailBeforeLaunch?) && Enabled(lane, s, a)
  {
    var ready := Gate(lane, s, a.now).record;
    if a.Launch? then LaunchedAttempt(MakePlan(lane, a.sel, ready, a.contributors, a.newId, a.now).value)
    else PrelaunchFailure(lane, ready, a.newId, a.why, a.retryAt, a.now).value.attempts[|ready.attempts|]
  }

  lemma AppendingShape(lane: Lane, s: State, a: Action)
    requires OneLive(s.record) && (a.Launch? || a.FailBeforeLaunch?) && Enabled(lane, s, a)
    ensures var ready, next := Gate(lane, s, a.now).record, Next(lane, s, a).record;
      && OneLive(ready) && !LastIsLive(ready.attempts) && FreshId(ready, a.newId)
      && next.attempts == ready.attempts + [Appended(lane, s, a)]
      && next.requestState == if a.Launch? then InProgress else Pending
  {
    RecoverLive(lane, s.record, Some(Live(s)), a.now);
  }

  lemma AppendingLive(lane: Lane, s: State, a: Action)
    requires OneLive(s.record) && (a.Launch? || a.FailBeforeLaunch?) && Enabled(lane, s, a)
    ensures OneLive(Next(lane, s, a).record)
  {
    AppendingShape(lane, s, a);
    var next := Next(lane, s, a).record;
    AppendKeepsLive(Gate(lane, s, a.now).record, next, Appended(lane, s, a));
  }

  lemma LaunchPaid(lane: Lane, s: State, a: Action)
    requires ValidLane(lane) && Inv(lane, s) && a.Launch? && Enabled(lane, s, a)
    ensures Paid(lane, Next(lane, s, a).record.attempts)
  {
    AppendingShape(lane, s, a);
    RecoverPaid(lane, s.record, Some(Live(s)), a.now);
    AppendPaid(lane, Gate(lane, s, a.now).record, Appended(lane, s, a));
  }

  lemma FailBeforeLaunchPaid(lane: Lane, s: State, a: Action)
    requires ValidLane(lane) && Inv(lane, s) && a.FailBeforeLaunch? && Enabled(lane, s, a)
    ensures Paid(lane, Next(lane, s, a).record.attempts)
  {
    AppendingShape(lane, s, a);
    RecoverPaid(lane, s.record, Some(Live(s)), a.now);
    AppendPaid(lane, Gate(lane, s, a.now).record, Appended(lane, s, a));
  }

  lemma VerdictKeeps(lane: Lane, s: State, a: Action)
    requires OneLive(s.record) && a.Verdict? && Enabled(lane, s, a)
    ensures OneLive(Next(lane, s, a).record)
    ensures Inv(lane, s) ==> Paid(lane, Next(lane, s, a).record.attempts)
  {
    CurrentIsLast(s.record);
    var last := s.record.attempts[|s.record.attempts| - 1];
    var judged := Judged(last, a.verdict, a.failure, a.now, a.terminal);
    OnlyLastChanges(s.record.attempts, judged);
    EndingLastLive(s.record, judged, if a.terminal then Completed else Pending);
    if Inv(lane, s) {
      EndingLastPaid(lane, s.record, judged);
    }
  }

  // ---------------------------------------------------------------- finishing any attempt

  /** Which budget a failure counts in while there is no verdict. */
  datatype Budget = TransportBudget | NoBudget | SubstantiveBudget

  function BudgetOf(failure: Option<FailureClass>): Budget {
    match failure
    case Some(InfrastructureError) => TransportBudget
    case Some(FinalizationFailure) => TransportBudget
    case Some(SchedulerPause) => NoBudget
    case _ => SubstantiveBudget
  }

  /** Finishing the attempt with this failure leaves it in the budget it is in. */
  predicate Conserves(a: Attempt, failure: Option<FailureClass>) {
    a.verdict.Some? || failure.None? || BudgetOf(failure) == BudgetOf(a.failure)
  }

  /** The change that one changed attempt makes to both counts. */
  lemma {:induction false} CountsOfChange(before: seq<Attempt>, after: seq<Attempt>, i: nat)
    requires i < |before| == |after|
    requires forall k :: 0 <= k < |before| && k != i ==> after[k] == before[k]
    ensures SubstantiveCount(after) - SubstantiveCount(before)
      == (if Substantive(after[i]) then 1 else 0) - (if Substantive(before[i]) then 1 else 0)
    ensures TransportCount(after) - TransportCount(before)
      == (if TransportRetry(after[i]) then 1 else 0) - (if TransportRetry(before[i]) then 1 else 0)
  {
    var n := |before| - 1;
    if i < n {
      CountsOfChange(before[..n], after[..n], i);
    } else {
      assert before[..n] == after[..n];
    }
  }

  /** Exactly when finishing an attempt, ended or not, leaves both counts as they are. */
  lemma FinishingConservesIff(r: Record, i: nat, why: string, end: int, retryAt: Stamp, failure: Option<FailureClass>)
    requires DistinctAttempts(r.attempts) && i < |r.attempts|
    ensures var after := Finished(r, r.attempts[i].id, why, end, retryAt, failure).attempts;
      SubstantiveCount(after) == SubstantiveCount(r.attempts) && TransportCount(after) == TransportCount(r.attempts)
      <==> Conserves(r.attempts[i], failure)
  {
    CountsOfChange(r.attempts, EndedAll(r.attempts, r.attempts[i].id, why, end, retryAt, failure), i);
  }

  /** Exactly when it leaves the spent pairs as they are: the attempt has no pair, or goes on
      spending or not spending it, or starts to spend a pair that is spent already. */
  lemma FinishingKeepsPairsIff(r: Record, i: nat, why: string, end: int, retryAt: Stamp, failure: Option<FailureClass>)
    requires DistinctAttempts(r.attempts) && DistinctPairs(r.attempts) && i < |r.attempts|
    ensures var a := r.attempts[i];
      var before, after := BudgetOf(a.failure), BudgetOf(failure);
      AttemptedPairs(Finished(r, a.id, why, end, retryAt, failure)) == AttemptedPairs(r)
      <==>
      || a.provider == "" || a.model == "" || a.verdict.Some? || failure.None?
      || (before == SubstantiveBudget <==> after == SubstantiveBudget)
      || (before != SubstantiveBudget && (a.provider, a.model) in AttemptedPairs(r))
  {
    var a := r.attempts[i];
    var r' := Finished(r, a.id, why, end, retryAt, failure);
    assert r'.attempts[i] == Ended(a, why, end, retryAt, failure);
    assert forall k :: 0 <= k < |r.attempts| && k != i ==> r'.attempts[k] == r.attempts[k];
    OnePairMoves(r, r', i);
  }

  /** The change that one changed attempt makes to the spent pairs. */
  lemma OnePairMoves(r: Record, r': Record, i: nat)
    requires DistinctPairs(r.attempts) && i < |r.attempts| == |r'.attempts|
    requires forall k :: 0 <= k < |r.attempts| && k != i ==> r'.attempts[k] == r.attempts[k]
    requires r'.attempts[i].provider == r.attempts[i].provider && r'.attempts[i].model == r.attempts[i].model
    ensures var pair := (r.attempts[i].provider, r.attempts[i].model);
      AttemptedPairs(r') ==
        if ConsumesPair(r'.attempts[i]) then AttemptedPairs(r) + {pair}
        else if ConsumesPair(r.attempts[i]) then AttemptedPairs(r) - {pair}
        else AttemptedPairs(r)
  {
    var pair := (r.attempts[i].provider, r.attempts[i].model);
    forall p ensures p in AttemptedPairs(r') <==>
      (p == pair && ConsumesPair(r'.attempts[i])) || exists k :: k != i && Spends(r, k, p)
    {
      assert p == pair && ConsumesPair(r'.attempts[i]) ==> Spends(r', i, p);
      assert forall k :: k != i ==> (Spends(r', k, p) <==> Spends(r, k, p));
      SpentBy(r', p);
    }
    forall p ensures p in AttemptedPairs(r) <==>
      (p == pair && ConsumesPair(r.attempts[i])) || exists k :: k != i && Spends(r, k, p)
    {
      assert p == pair && ConsumesPair(r.attempts[i]) ==> Spends(r, i, p);
      SpentBy(r, p);
    }
    assert ConsumesPair(r.attempts[i]) ==> forall k :: k != i ==> !Spends(r, k, pair);
  }

  predicate Spends(r: Record, k: int, pair: (string, string)) {
    && 0 <= k < |r.attempts| && ConsumesPair(r.attempts[k])
    && (r.attempts[k].provider, r.attempts[k].model) == pair
  }

  lemma SpentBy(r: Record, pair: (string, string))
    ensures pair in AttemptedPairs(r) <==> exists k :: Spends(r, k, pair)
  {
    if k :| Spends(r, k, pair) {
      assert 0 <= k < |r.attempts| && ConsumesPair(r.attempts[k]);
    }
    if pair in AttemptedPairs(r) {
      var k :| 0 <= k < |r.attempts| && ConsumesPair(r.attempts[k])
        && (r.attempts[k].provider, r.attempts[k].model) == pair;
      assert Spends(r, k, pair);
    }
  }

  /** Ending attempts, and changing ended ones, keeps the record live or not as it was. */
  lemma EndingsLive(r: Record, r': Record)
    requires OneLive(r) && |r'.attempts| == |r.attempts| && r'.requestState != InProgress
    requires forall i :: 0 <= i < |r.attempts| ==> r'.attempts[i].id == r.attempts[i].id
    requires forall i :: 0 <= i < |r.attempts| && Unended(r'.attempts[i]) ==> r'.attempts[i] == r.attempts[i]
    ensures OneLive(r')
  {
  }

  lemma FinishLive(r: Record, id: string, why: string, end: int, retryAt: Stamp, failure: Option<FailureClass>)
    requires OneLive(r)
    ensures OneLive(Finished(r, id, why, end, retryAt, failure))
  {
    var r' := Finished(r, id, why, end, retryAt, failure);
    if r' != r {
      EndedAllShape(r.attempts, id, why, end, retryAt, failure);
      assert r'.attempts == EndedAll(r.attempts, id, why, end, retryAt, failure) && r'.requestState == Pending;
      EndingsLive(r, r');
    }
  }

  lemma EndedAllShape(attempts: seq<Attempt>, id: string, why: string, end: int, retryAt: Stamp,
                      failure: Option<FailureClass>)
    ensures var after := EndedAll(attempts, id, why, end, retryAt, failure);
      && |after| == |attempts|
      && (forall i :: 0 <= i < |after| ==> after[i].id == attempts[i].id)
      && (forall i :: 0 <= i < |after| && Unended(after[i]) ==> after[i] == attempts[i])
  {
  }

  /** The attempt may be finished with this failure: it stays in its budget, or leaves both, or there
      is room for it in the budget it moves to. */
  predicate Fits(lane: Lane, r: Record, a: Attempt, failure: Option<FailureClass>) {
    || Conserves(a, failure)
    || match BudgetOf(failure)
       case NoBudget => true
       case TransportBudget =>
         TransportCount(r.attempts) + (if LastIsLive(r.attempts) then 1 else 0) < TransportBound(lane)
       case SubstantiveBudget =>
         && SubstantiveCount(r.attempts) < lane.maxAttempts
         && (a.provider == "" || a.model == "" || (a.provider, a.model) !in AttemptedPairs(r))
  }

  lemma DistinctPairsOfChange(r: Record, r': Record, i: nat)
    requires DistinctPairs(r.attempts) && i < |r.attempts| == |r'.attempts|
    requires forall k :: 0 <= k < |r.attempts| && k != i ==> r'.attempts[k] == r.attempts[k]
    requires r'.attempts[i].provider == r.attempts[i].provider && r'.attempts[i].model == r.attempts[i].model
    ensures DistinctPairs(r'.attempts) <==>
      (ConsumesPair(r'.attempts[i]) && !ConsumesPair(r.attempts[i]) ==>
        (r.attempts[i].provider, r.attempts[i].model) !in AttemptedPairs(r))
  {
    var pair := (r.attempts[i].provider, r.attempts[i].model);
    SpentBy(r, pair);
    if ConsumesPair(r'.attempts[i]) && !ConsumesPair(r.attempts[i]) {
      if k :| Spends(r, k, pair) {
        assert k != i && ConsumesPair(r'.attempts[k]);
      } else {
        assert forall k :: 0 <= k < |r.attempts| && k != i && ConsumesPair(r'.attempts[k]) ==>
          !Spends(r, k, pair) && (r'.attempts[k].provider, r'.attempts[k].model) != pair;
      }
    }
  }

  lemma FinishChangesOne(r: Record, i: nat, why: string, end: int, retryAt: Stamp, failure: Option<FailureClass>)
    requires DistinctAttempts(r.attempts) && i < |r.attempts|
    ensures var after := Finished(r, r.attempts[i].id, why, end, retryAt, failure).attempts;
      && |after| == |r.attempts| && after[i] == Ended(r.attempts[i], why, end, retryAt, failure)
      && forall k :: 0 <= k < |after| && k != i ==> after[k] == r.attempts[k]
  {
  }

  lemma BudgetsOfChangeIff(lane: Lane, before: seq<Attempt>, after: seq<Attempt>, i: nat, failure: Option<FailureClass>)
    requires i < |before| == |after| && WithinBudgets(lane, before)
    requires forall k :: 0 <= k < |before| && k != i ==> after[k] == before[k]
    requires !Unended(before[i]) && !Unended(after[i]) && after[i].verdict == before[i].verdict
    requires after[i].failure == if failure.Some? then failure else before[i].failure
    ensures WithinBudgets(lane, after) <==>
      || Conserves(before[i], failure) || BudgetOf(failure) == NoBudget
      || (BudgetOf(failure) == SubstantiveBudget && SubstantiveCount(before) < lane.maxAttempts)
      || (BudgetOf(failure) == TransportBudget
          && TransportCount(before) + (if LastIsLive(before) then 1 else 0) < TransportBound(lane))
  {
    CountsOfChange(before, after, i);
    assert LastIsLive(after) <==> LastIsLive(before);
  }

  /** Exactly when finishing an ended attempt again keeps pairs and budgets. */
  lemma FinishPaidIff(lane: Lane, r: Record, i: nat, why: string, end: int, retryAt: Stamp,
                      failure: Option<FailureClass>)
    requires Inv(lane, State(r, {})) && i < |r.attempts| && !Unended(r.attempts[i])
    ensures Paid(lane, Finished(r, r.attempts[i].id, why, end, retryAt, failure).attempts)
      <==> Fits(lane, r, r.attempts[i], failure)
  {
    var r' := Finished(r, r.attempts[i].id, why, end, retryAt, failure);
    FinishChangesOne(r, i, why, end, retryAt, failure);
    BudgetsOfChangeIff(lane, r.attempts, r'.attempts, i, failure);
    DistinctPairsOfChange(r, r', i);
  }

  /** A finish fits when the ended attempt that it names, if it names one, does. */
  predicate Fitting(lane: Lane, r: Record, a: Action) {
    a.Finish? ==> forall i :: 0 <= i < |r.attempts| && r.attempts[i].id == a.id ==>
      Unended(r.attempts[i]) || Fits(lane, r, r.attempts[i], a.failure)
  }

  lemma FinishStepIff(lane: Lane, s: State, a: Action)
    requires Inv(lane, s) && a.Finish?
    ensures Paid(lane, Next(lane, s, a).record.attempts) <==> Fitting(lane, s.record, a)
  {
    var r := s.record;
    if i :| 0 <= i < |r.attempts| && r.attempts[i].id == a.id {
      assert forall k :: 0 <= k < |r.attempts| && r.attempts[k].id == a.id ==> k == i;
      if Unended(r.attempts[i]) {
        OnlyLastEnds(r.attempts, a.why, a.end, a.retryAt, a.failure);
        EndingLastPaid(lane, r, Ended(r.attempts[i], a.why, a.end, a.retryAt, a.failure));
      } else {
        FinishPaidIff(lane, r, i, a.why, a.end, a.retryAt, a.failure);
      }
    }
  }

  // ---------------------------------------------------------------- steps and runs

  lemma StepLive(lane: Lane, s: State, a: Action)
    requires OneLive(s.record) && Enabled(lane, s, a)
    ensures OneLive(Next(lane, s, a).record)
  {
    match a
    case Launch(_, _, _, _) => AppendingLive(lane, s, a);
    case FailBeforeLaunch(_, _, _, _) => AppendingLive(lane, s, a);
    case RecoverOnly(now) => RecoverLive(lane, s.record, Some(Live(s)), now);
    case Finish(id, why, end, retryAt, failure) => FinishLive(s.record, id, why, end, retryAt, failure);
    case Verdict(_, _, _, _) => VerdictKeeps(lane, s, a);
    case _ =>
  }

  /** Every operation and event keeps the invariant, a finish if and only if it fits. */
  lemma StepKeeps(lane: Lane, s: State, a: Action)
    requires ValidLane(lane) && Inv(lane, s) && Enabled(lane, s, a)
    ensures Inv(lane, Next(lane, s, a)) <==> Fitting(lane, s.record, a)
  {
    StepLive(lane, s, a);
    match a
    case Launch(_, _, _, _) => LaunchPaid(lane, s, a);
    case FailBeforeLaunch(_, _, _, _) => FailBeforeLaunchPaid(lane, s, a);
    case RecoverOnly(now) => RecoverPaid(lane, s.record, Some(Live(s)), now);
    case Finish(_, _, _, _, _) => FinishStepIff(lane, s, a);
    case Verdict(_, _, _, _) => VerdictKeeps(lane, s, a);
    case _ =>
  }

  lemma {:induction false} RunLive(lane: Lane, s: State, run: seq<Action>)
    requires OneLive(s.record) && Possible(lane, s, run)
    ensures OneLive(Exec(lane, s, run).record)
    decreases |run|
  {
    if run == [] {
    } else {
      StepLive(lane, s, run[0]);
      RunLive(lane, Next(lane, s, run[0]), run[1..]);
    }
  }

  /** Every finish in the run fits at its moment. */
  predicate FittingRun(lane: Lane, s: State, run: seq<Action>)
    requires Possible(lane, s, run)
    decreases |run|
  {
    run == [] || (Fitting(lane, s.record, run[0]) && FittingRun(lane, Next(lane, s, run[0]), run[1..]))
  }

  /** Pairs and budgets are kept at every moment of the run. */
  predicate PaidThroughout(lane: Lane, s: State, run: seq<Action>)
    requires Possible(lane, s, run)
    decreases |run|
  {
    && Paid(lane, s.record.attempts)
    && (run == [] || PaidThroughout(lane, Next(lane, s, run[0]), run[1..]))
  }

  /** The exact law over runs: pairs and budgets are kept at every moment if and only if every finish
      fits at its own. */
  lemma {:induction false} PaidThroughoutIff(lane: Lane, s: State, run: seq<Action>)
    requires ValidLane(lane) && Inv(lane, s) && Possible(lane, s, run)
    ensures PaidThroughout(lane, s, run) <==> FittingRun(lane, s, run)
    decreases |run|
  {
    if run == [] {
    } else {
      StepKeeps(lane, s, run[0]);
      StepLive(lane, s, run[0]);
      if Fitting(lane, s.record, run[0]) {
        PaidThroughoutIff(lane, Next(lane, s, run[0]), run[1..]);
      }
    }
  }

  lemma {:induction false} PaidAtEnd(lane: Lane, s: State, run: seq<Action>)
    requires Possible(lane, s, run) && PaidThroughout(lane, s, run)
    ensures Paid(lane, Exec(lane, s, run).record.attempts)
    decreases |run|
  {
    if run != [] {
      PaidAtEnd(lane, Next(lane, s, run[0]), run[1..]);
    }
  }

  // ---------------------------------------------------------------- over every run

  /** Every run whose finishes fit stays within both budgets and spends no provider/model pair
      twice, at its end and before. */
  lemma BudgetsHold(lane: Lane, s: State, run: seq<Action>)
    requires ValidLane(lane) && Initial(s) && Possible(lane, s, run) && FittingRun(lane, s, run)
    ensures PaidThroughout(lane, s, run)
    ensures var attempts := Exec(lane, s, run).record.attempts;
      && SubstantiveCount(attempts) <= lane.maxAttempts
      && TransportCount(attempts) <= Max(1, Max(lane.maxTransportRetries, lane.maxAttempts))
      && forall i, j :: 0 <= i < j < |attempts| && ConsumesPair(attempts[i]) && ConsumesPair(attempts[j]) ==>
          (attempts[i].provider, attempts[i].model) != (attempts[j].provider, attempts[j].model)
  {
    PaidThroughoutIff(lane, s, run);
    PaidAtEnd(lane, s, run);
  }

  /** No run, crashes included, leaves two launched attempts unended. */
  lemma OneUnendedAttempt(lane: Lane, s: State, run: seq<Action>, i: nat, j: nat)
    requires Initial(s) && Possible(lane, s, run)
    requires var attempts := Exec(lane, s, run).record.attempts;
      i < |attempts| && j < |attempts| && Unended(attempts[i]) && Unended(attempts[j])
    ensures i == j
  {
    RunLive(lane, s, run);
  }

  /** A launch is never persisted while a live worker owns the current attempt. */
  lemma NoLaunchOverLiveWorker(lane: Lane, s: State, run: seq<Action>, a: Action)
    requires Initial(s) && Possible(lane, s, run) && a.Launch?
    requires Enabled(lane, Exec(lane, s, run), a)
    ensures var now := Exec(lane, s, run);
      forall current :: current in now.record.attempts && Unended(current) ==> current.id !in now.workers
  {
    RunLive(lane, s, run);
    ReadySparesWorkers(lane, Exec(lane, s, run), a.now);
  }

  lemma ReadySparesWorkers(lane: Lane, s: State, now: int)
    requires OneLive(s.record) && Gate(lane, s, now).ready
    ensures forall current :: current in s.record.attempts && Unended(current) ==> current.id !in s.workers
  {
    CurrentIsLast(s.record);
    if LastIsLive(s.record.attempts) {
      var last := s.record.attempts[|s.record.attempts| - 1];
      assert last.id in s.workers ==> IdentityOf(s.record, last) in Live(s);
    }
  }

  lemma RecoverTwice(lane: Lane, r: Record, live: Option<set<Identity>>, now: int)
    requires OneLive(r)
    ensures var once := Recover(lane, r, live, now);
      var twice := Recover(lane, once.record, live, now);
      twice.record == once.record && twice.ready == once.ready
  {
    CurrentIsLast(r);
    RecoverLive(lane, r, live, now);
    CurrentIsLast(Recover(lane, r, live, now).record);
    if LastIsLive(r.attempts) {
      var why := RecoverShape(lane, r, live, now);
      OnlyLastChanges(r.attempts, Abandoned(r.attempts[|r.attempts| - 1], why, now));
    }
  }

  /** Applying `recover` twice is the same as applying it once. */
  lemma RecoverIdempotent(lane: Lane, s: State, run: seq<Action>, live: Option<set<Identity>>, now: int)
    requires Initial(s) && Possible(lane, s, run)
    ensures var once := Recover(lane, Exec(lane, s, run).record, live, now);
      var twice := Recover(lane, once.record, live, now);
      twice.record == once.record && twice.ready == once.ready
  {
    RunLive(lane, s, run);
    RecoverTwice(lane, Exec(lane, s, run).record, live, now);
  }

  /** Exactly when recovery ends the launched attempt; otherwise the record stays as it is. */
  lemma RecoverEndsIff(lane: Lane, r: Record, live: Option<set<Identity>>, now: int)
    requires OneLive(r) && LastIsLive(r.attempts)
    ensures var last, after := r.attempts[|r.attempts| - 1], Recover(lane, r, live, now);
      && (after.record == r || after.record.requestState == Pending)
      && (after.record != r <==>
          !(live.Some? && IdentityOf(r, last) in live.value)
          && (last.fingerprint != r.fingerprint || lane.ttl <= Age(last, now, lane.ttl) || live.Some?))
      && (after.ready <==> after.record != r)
  {
    CurrentIsLast(r);
  }

  lemma {:induction false} FirstUnattempted(candidates: seq<Sel.Candidate>, exclude: set<(string, string)>)
    returns (k: nat)
    requires Sel.Unattempted(candidates, exclude) != []
    ensures k < |candidates| && Sel.Unattempted(candidates, exclude)[0] == candidates[k]
    ensures forall i :: 0 <= i < k ==> (candidates[i].provider, candidates[i].model) in exclude
  {
    if (candidates[0].provider, candidates[0].model) !in exclude {
      k := 0;
    } else {
      k := FirstUnattempted(candidates[1..], exclude);
      assert candidates[1..][k] == candidates[k + 1];
      assert forall i :: 0 <= i < k ==> candidates[1..][i] == candidates[i + 1];
      k := k + 1;
    }
  }

  /** A plan names the first eligible auditor whose pair is not spent, and that auditor is
      independent of every contributor. */
  lemma PlanIsFirstUnused(lane: Lane, sel: Sel.Selector, r: Record, contributors: seq<Sel.Contributor>,
                          newId: string, now: int) returns (k: nat)
    requires MakePlan(lane, sel, r, contributors, newId, now).Ok?
    ensures Sel.Eligible(sel, contributors).Ok?
    ensures var auditors := Sel.Eligible(sel, contributors).value;
      var chosen := MakePlan(lane, sel, r, contributors, newId, now).value.candidate;
      && k < |auditors| && chosen == auditors[k]
      && (chosen.provider, chosen.model) !in AttemptedPairs(r)
      && (forall i :: 0 <= i < k ==> (auditors[i].provider, auditors[i].model) in AttemptedPairs(r))
      && chosen in sel.role && sel.policy(chosen)
      && Sel.Viable(chosen, Sel.ContributorPairs(contributors))
  {
    var auditors := Sel.Eligible(sel, contributors).value;
    k := FirstUnattempted(auditors, AttemptedPairs(r));
    assert auditors[k] in auditors;
    Sel.EligibleIff(sel, contributors);
  }

  /** At most one attempt is added, no identity moves, and an ended attempt is only rewritten by a
      finish that names it. */
  predicate AppendsOnly(before: seq<Attempt>, a: Action, after: seq<Attempt>) {
    && |before| <= |after| <= |before| + 1
    && (forall i :: 0 <= i < |before| ==> after[i].id == before[i].id)
    && (forall i :: 0 <= i < |before| && !Unended(before[i]) && !Names(a, before[i]) ==> after[i] == before[i])
  }

  predicate Names(a: Action, attempt: Attempt) {
    a.Finish? && a.id == attempt.id
  }

  lemma GateAppendsNothing(lane: Lane, s: State, a: Action, now: int)
    requires OneLive(s.record)
    ensures var ready := Gate(lane, s, now).record.attempts;
      |ready| == |s.record.attempts| && AppendsOnly(s.record.attempts, a, ready)
  {
    RecoverLive(lane, s.record, Some(Live(s)), now);
  }

  lemma AppendsOneMore(before: seq<Attempt>, a: Action, between: seq<Attempt>, added: Attempt)
    requires AppendsOnly(before, a, between) && |between| == |before|
    ensures AppendsOnly(before, a, between + [added])
  {
  }

  lemma GatedAppendsOnly(lane: Lane, s: State, a: Action)
    requires OneLive(s.record) && Enabled(lane, s, a)
    requires a.Launch? || a.FailBeforeLaunch? || a.RecoverOnly?
    ensures AppendsOnly(s.record.attempts, a, Next(lane, s, a).record.attempts)
  {
    GateAppendsNothing(lane, s, a, a.now);
    if !a.RecoverOnly? {
      AppendingShape(lane, s, a);
      AppendsOneMore(s.record.attempts, a, Gate(lane, s, a.now).record.attempts, Appended(lane, s, a));
    }
  }

  lemma VerdictAppendsOnly(lane: Lane, s: State, a: Action)
    requires OneLive(s.record) && a.Verdict? && Enabled(lane, s, a)
    ensures AppendsOnly(s.record.attempts, a, Next(lane, s, a).record.attempts)
  {
    CurrentIsLast(s.record);
    var last := Current(s.record.attempts).value;
    OnlyLastChanges(s.record.attempts, Judged(last, a.verdict, a.failure, a.now, a.terminal));
  }

  /** The history is append-only: a step keeps every identity in place and rewrites no attempt that
      has ended, unless it is a finish that names it. */
  lemma StepAppendsOnly(lane: Lane, s: State, a: Action)
    requires OneLive(s.record) && Enabled(lane, s, a)
    ensures AppendsOnly(s.record.attempts, a, Next(lane, s, a).record.attempts)
  {
    if a.Launch? || a.FailBeforeLaunch? || a.RecoverOnly? {
      GatedAppendsOnly(lane, s, a);
    } else if a.Verdict? {
      VerdictAppendsOnly(lane, s, a);
    }
  }

  /** An ended attempt survives unchanged every later run that does not finish it again. */
  lemma {:induction false} HistoryImmutable(lane: Lane, s: State, run: seq<Action>, i: nat)
    requires OneLive(s.record) && Possible(lane, s, run)
    requires i < |s.record.attempts| && !Unended(s.record.attempts[i])
    requires forall k :: 0 <= k < |run| ==> !Names(run[k], s.record.attempts[i])
    ensures var after := Exec(lane, s, run).record.attempts; i < |after| && after[i] == s.record.attempts[i]
    decreases |run|
  {
    if run == [] {
    } else {
      StepAppendsOnly(lane, s, run[0]);
      StepLive(lane, s, run[0]);
      HistoryImmutable(lane, Next(lane, s, run[0]), run[1..], i);
    }
  }

  /** One way to break it: naming an ended attempt without a verdict again, as a lifecycle pause,
      takes it out of the substantive budget and frees its pair. */
  lemma FinishingAgainRefunds(r: Record, i: nat, why: string, end: int)
    requires DistinctAttempts(r.attempts) && i < |r.attempts|
    requires !Unended(r.attempts[i]) && ConsumesPair(r.attempts[i]) && r.attempts[i].verdict.None?
    ensures var after := Finished(r, r.attempts[i].id, why, end, Missing, Some(SchedulerPause)).attempts;
      |after| == |r.attempts| && LifecyclePause(after[i]) && !ConsumesPair(after[i])
    ensures var after := Finished(r, r.attempts[i].id, why, end, Missing, Some(SchedulerPause)).attempts;
      SubstantiveCount(after) == SubstantiveCount(r.attempts) - 1
  {
    CountsOfChange(r.attempts, EndedAll(r.attempts, r.attempts[i].id, why, end, Missing, Some(SchedulerPause)), i);
  }

  // A reachable record on which it breaks: the first worker's attempt was recovered as abandoned,
  // its pair was launched again, and then the first worker reports why it ended after all.

  const STALE_LANE := Lane(1, 3, 60)

  function Only(): Sel.Candidate {
    Sel.Candidate("p", "m")
  }

  function Request(): Record {
    Record("audit", "project", "task", Done, "f", Pending, [], Missing, Missing, true, None,
           Binding(None, None, None), None, 0)
  }

  function Launched(id: string, rotation: nat, now: int): Attempt {
    Attempt(id, Done, "f", InProgress, None, None, "p", "m", At(now), At(now), Missing, "", Missing, rotation,
            Binding(None, None, None), None)
  }

  lemma OnlyIsEligible(sel: Sel.Selector)
    requires sel.role == [Only()] && sel.policy(Only())
    ensures Sel.SelectCandidates(sel, [], {}) == Ok([Only()])
  {
    assert Sel.Filter([Only()], sel.policy) == [Only()];
    assert Sel.ContributorPairs([]) == {};
  }

  /** Launching the only candidate on a request of this lane while its pair is unspent. */
  lemma LaunchOnly(sel: Sel.Selector, s: State, id: string, now: int) returns (a: Action)
    requires sel.role == [Only()] && sel.policy(Only())
    requires s.record == Request().(attempts := s.record.attempts, updatedAt := s.record.updatedAt) && s.workers == {}
    requires forall k :: 0 <= k < |s.record.attempts| ==>
      !Unended(s.record.attempts[k]) && s.record.attempts[k].id != id
    requires !InBackoff(s.record.attempts, now) && AttemptedPairs(s.record) == {}
    requires SubstantiveCount(s.record.attempts) == 0 && TransportCount(s.record.attempts) < 3
    ensures a == Launch(sel, [], id, now) && Enabled(STALE_LANE, s, a)
    ensures var after := Next(STALE_LANE, s, a);
      && after.record.attempts == s.record.attempts + [Launched(id, |s.record.attempts|, now)]
      && after.record == Request().(attempts := after.record.attempts, requestState := InProgress, updatedAt := At(now))
      && after.workers == {id}
  {
    a := Launch(sel, [], id, now);
    OnlyIsEligible(sel);
    assert Current(s.record.attempts).None?;
    assert Gate(STALE_LANE, s, now) == Recovery(s.record, true, NoReason, None);
  }

  lemma Prepend(lane: Lane, s: State, a: Action, rest: seq<Action>)
    requires Enabled(lane, s, a) && Possible(lane, Next(lane, s, a), rest)
    ensures Possible(lane, s, [a] + rest) && Exec(lane, s, [a] + rest) == Exec(lane, Next(lane, s, a), rest)
  {
    assert ([a] + rest)[1..] == rest;
  }

  /** The first worker is lost and its attempt recovered. */
  lemma LostAndRecovered(s: State) returns (abandoned: Attempt)
    requires s.record == Request().(attempts := [Launched("a", 0, 0)], requestState := InProgress, updatedAt := At(0))
    requires s.workers == {}
    ensures abandoned.id == "a" && TransportRetry(abandoned) && !Unended(abandoned)
    ensures abandoned.provider == "p" && abandoned.model == "m" && abandoned.nextRetryAt == Missing
    ensures Next(STALE_LANE, s, RecoverOnly(1))
      == State(Request().(attempts := [abandoned], requestState := Pending, updatedAt := At(0)), {})
  {
    var current := Launched("a", 0, 0);
    assert Current([current]) == Some(current);
    var text := "auditor session abandoned; no live worker owns the attempt";
    assert Judge(STALE_LANE, s.record, current, Some(Live(s)), 1) == EndAs(NoLiveWorker, text);
    abandoned := Abandoned(current, text, 1);
    assert WithAttempt([current], "a", abandoned) == [abandoned];
  }

  lemma TwoSubstantive(attempts: seq<Attempt>)
    requires |attempts| == 2 && Substantive(attempts[0]) && Substantive(attempts[1])
    ensures SubstantiveCount(attempts) == 2
  {
    assert attempts[..1][..0] == [];
    assert SubstantiveCount(attempts[..1]) == 1;
  }

  const POLICY := Some(Other("policy"))

  /** Spent beyond the budget of the lane, and one pair twice. */
  predicate Overspent(attempts: seq<Attempt>) {
    SubstantiveCount(attempts) > STALE_LANE.maxAttempts && !DistinctPairs(attempts)
  }

  /** Both attempts end, the abandoned one a second time. */
  lemma StaleFinish(s: State, abandoned: Attempt)
    requires abandoned.id == "a" && TransportRetry(abandoned) && !Unended(abandoned)
    requires abandoned.provider == "p" && abandoned.model == "m"
    requires s.record.attempts == [abandoned, Launched("b", 1, 2)]
    ensures var done := Next(STALE_LANE, s, Finish("b", "", 3, Missing, POLICY));
      Overspent(Next(STALE_LANE, done, Finish("a", "", 4, Missing, POLICY)).record.attempts)
  {
    var done := Next(STALE_LANE, s, Finish("b", "", 3, Missing, POLICY));
    assert s.record.attempts[1].id == "b" && s.record.attempts[0].id == "a";
    assert done.record.attempts == [abandoned, Ended(Launched("b", 1, 2), "", 3, Missing, POLICY)];
    var attempts := Next(STALE_LANE, done, Finish("a", "", 4, Missing, POLICY)).record.attempts;
    assert done.record.attempts[0].id == "a";
    assert attempts == [Ended(abandoned, "", 4, Missing, POLICY), done.record.attempts[1]];
    TwoSubstantive(attempts);
    assert ConsumesPair(attempts[0]) && ConsumesPair(attempts[1]);
  }

  lemma StaleTail(s: State, abandoned: Attempt) returns (run: seq<Action>)
    requires abandoned.id == "a" && TransportRetry(abandoned) && !Unended(abandoned)
    requires abandoned.provider == "p" && abandoned.model == "m"
    requires s.record.attempts == [abandoned, Launched("b", 1, 2)]
    ensures Possible(STALE_LANE, s, run) && Overspent(Exec(STALE_LANE, s, run).record.attempts)
  {
    var endB, endA := Finish("b", "", 3, Missing, POLICY), Finish("a", "", 4, Missing, POLICY);
    StaleFinish(s, abandoned);
    Prepend(STALE_LANE, Next(STALE_LANE, s, endB), endA, []);
    Prepend(STALE_LANE, s, endB, [endA] + []);
    run := [endB] + ([endA] + []);
  }

  lemma StaleRelaunch(sel: Sel.Selector, s: State, abandoned: Attempt) returns (run: seq<Action>)
    requires sel.role == [Only()] && sel.policy(Only())
    requires abandoned.id == "a" && TransportRetry(abandoned) && !Unended(abandoned)
    requires abandoned.provider == "p" && abandoned.model == "m" && abandoned.nextRetryAt == Missing
    requires s == State(Request().(attempts := [abandoned], requestState := Pending, updatedAt := At(0)), {})
    ensures Possible(STALE_LANE, s, run) && Overspent(Exec(STALE_LANE, s, run).record.attempts)
  {
    CountsOfOne(abandoned, s.record);
    var second := LaunchOnly(sel, s, "b", 2);
    assert [abandoned] + [Launched("b", 1, 2)] == [abandoned, Launched("b", 1, 2)];
    run := StaleTail(Next(STALE_LANE, s, second), abandoned);
    Prepend(STALE_LANE, s, second, run);
    run := [second] + run;
  }

  lemma StaleMiddle(sel: Sel.Selector, s: State) returns (run: seq<Action>)
    requires sel.role == [Only()] && sel.policy(Only())
    requires s.record == Request().(attempts := [Launched("a", 0, 0)], requestState := InProgress, updatedAt := At(0))
    requires s.workers == {}
    ensures Possible(STALE_LANE, s, run) && Overspent(Exec(STALE_LANE, s, run).record.attempts)
  {
    var abandoned := LostAndRecovered(s);
    run := StaleRelaunch(sel, Next(STALE_LANE, s, RecoverOnly(1)), abandoned);
    Prepend(STALE_LANE, s, RecoverOnly(1), run);
    run := [RecoverOnly(1)] + run;
  }

  /** A run from a new request, with every launch gated by `recover`, that spends more than the
      budget and spends a pair twice: some finish in it did not fit. */
  lemma StaleFinishOverspends(sel: Sel.Selector) returns (s: State, run: seq<Action>)
    requires sel.role == [Only()] && sel.policy(Only())
    ensures ValidLane(STALE_LANE) && Initial(s) && Possible(STALE_LANE, s, run)
    ensures Overspent(Exec(STALE_LANE, s, run).record.attempts) && !FittingRun(STALE_LANE, s, run)
  {
    s := State(Request(), {});
    var first := LaunchOnly(sel, s, "a", 0);
    var launched := Next(STALE_LANE, s, first);
    assert [] + [Launched("a", 0, 0)] == [Launched("a", 0, 0)];
    run := StaleMiddle(sel, Next(STALE_LANE, launched, WorkerExits("a")));
    Prepend(STALE_LANE, launched, WorkerExits("a"), run);
    Prepend(STALE_LANE, s, first, [WorkerExits("a")] + run);
    run := [first] + ([WorkerExits("a")] + run);
    if FittingRun(STALE_LANE, s, run) {
      BudgetsHold(STALE_LANE, s, run);
    }
  }

  lemma CountsOfOne(a: Attempt, r: Record)
    requires TransportRetry(a) && r.attempts == [a]
    ensures SubstantiveCount(r.attempts) == 0 && TransportCount(r.attempts) == 1 && AttemptedPairs(r) == {}
  {
    assert [a][..0] == [];
  }

  lemma PairsWithoutLast(r: Record, to: Attempt)
    requires r.attempts != [] && !ConsumesPair(to)
    ensures AttemptedPairs(r.(attempts := WithLast(r.attempts, to)))
      == AttemptedPairs(r.(attempts := r.attempts[..|r.attempts| - 1]))
  {
    var n := |r.attempts| - 1;
    var with, without := WithLast(r.attempts, to), r.attempts[..n];
    assert forall i :: 0 <= i < n ==> with[i] == without[i];
    assert forall i :: 0 <= i <= n && ConsumesPair(with[i]) ==> i < n;
  }

  /** A pause at the end of a history counts in neither budget and spends no pair. */
  lemma PausedLast(r: Record, paused: Attempt)
    requires r.attempts != [] && LifecyclePause(paused)
    ensures var earlier, after := r.attempts[..|r.attempts| - 1], WithLast(r.attempts, paused);
      && SubstantiveCount(after) == SubstantiveCount(earlier)
      && TransportCount(after) == TransportCount(earlier)
      && AttemptedPairs(r.(attempts := after)) == AttemptedPairs(r.(attempts := earlier))
  {
    PairsWithoutLast(r, paused);
    AppendCounts(r.attempts[..|r.attempts| - 1], paused);
  }

  lemma FinishedLast(r: Record, why: string, end: int, retryAt: Stamp, failure: Option<FailureClass>)
    requires DistinctAttempts(r.attempts) && r.attempts != []
    ensures var last := r.attempts[|r.attempts| - 1];
      Finished(r, last.id, why, end, retryAt, failure).attempts
        == WithLast(r.attempts, Ended(last, why, end, retryAt, failure))
  {
    OnlyLastEnds(r.attempts, why, end, retryAt, failure);
  }

  /** Ending the live attempt as a lifecycle pause gives its slot back: afterwards neither budget
      counts it and its pair may be planned again. */
  lemma PauseConsumesNothing(lane: Lane, s: State, why: string, end: int)
    requires OneLive(s.record) && LastIsLive(s.record.attempts)
    ensures var earlier := s.record.attempts[..|s.record.attempts| - 1];
      var paused := Finish(s.record.attempts[|s.record.attempts| - 1].id, why, end, Missing, Some(SchedulerPause));
      Enabled(lane, s, paused) &&
      var after := Next(lane, s, paused).record;
      && SubstantiveCount(after.attempts) == SubstantiveCount(earlier)
      && TransportCount(after.attempts) == TransportCount(earlier)
      && AttemptedPairs(after) == AttemptedPairs(s.record.(attempts := earlier))
  {
    var last := s.record.attempts[|s.record.attempts| - 1];
    var paused := Ended(last, why, end, Missing, Some(SchedulerPause));
    var after := Finished(s.record, last.id, why, end, Missing, Some(SchedulerPause));
    FinishedLast(s.record, why, end, Missing, Some(SchedulerPause));
    PausedLast(s.record, paused);
    SamePairs(after, s.record.(attempts := WithLast(s.record.attempts, paused)));
  }

  lemma SamePairs(a: Record, b: Record)
    requires a.attempts == b.attempts
    ensures AttemptedPairs(a) == AttemptedPairs(b)
  {
  }
}
