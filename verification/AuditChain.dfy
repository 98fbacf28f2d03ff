/**
 Terminal-audit records and the choice of the one record the scheduler may work on.
 */
module AuditChain {
  import opened Basics
  import Text

  datatype TargetState = Done | Merged | Archived
  datatype RequestState = Pending | InProgress | Completed | Superseded | Cancelled
  datatype Verdict = Pass | Fail | NeedsHuman | Error

  /** Why an attempt ended; `Other` stands for the classifications the lane treats alike. */
  datatype FailureClass = InfrastructureError | FinalizationFailure | SchedulerPause | Other(code: string)

  datatype Origin = RetryExhaustion | AbandonedRecovery

  /** A persisted timestamp: absent, present but unreadable, or an instant. */
  datatype Stamp = Missing | Unreadable | At(instant: int)

  /** The immutable revision an audit is bound to. */
  datatype Binding = Binding(selectedRef: Option<string>, selectedSha: Option<string>, landing: Option<string>)

  datatype Attempt = Attempt(
    id: string,
    target: TargetState,
    fingerprint: string,
    requestState: RequestState,
    verdict: Option<Verdict>,
    failure: Option<FailureClass>,
    provider: string,
    model: string,
    createdAt: Stamp,
    startedAt: Stamp,
    endedAt: Stamp,
    reason: string,
    nextRetryAt: Stamp,
    rotation: nat,
    binding: Binding,
    origin: Option<Origin>)

  datatype Record = Record(
    auditId: string,
    projectId: string,
    taskId: string,
    target: TargetState,
    fingerprint: string,
    requestState: RequestState,
    attempts: seq<Attempt>,
    createdAt: Stamp,
    updatedAt: Stamp,
    eligible: bool,
    prerequisite: Option<string>,
    binding: Binding,
    workflowRevision: Option<string>,
    sourceGeneration: int)

  /** An attempt that was launched and has not ended. */
  predicate Unended(a: Attempt) {
    a.requestState == InProgress && a.endedAt == Missing
  }

  predicate OwnsLiveAttempt(r: Record) {
    exists i :: 0 <= i < |r.attempts| && Unended(r.attempts[i])
  }

  // ---------------------------------------------------------------- execution ownership order

  /** The tuple duplicate live rows are ordered by. */
  datatype Key = Key(live: bool, inProgress: bool, generation: int, newest: Option<int>, auditId: string)

  function Stamps(attempts: seq<Attempt>): seq<Stamp> {
    if attempts == [] then []
    else
      var last := attempts[|attempts| - 1];
      Stamps(attempts[..|attempts| - 1]) + [last.endedAt, last.startedAt, last.createdAt]
  }

  /** Of two optional instants, the later; absence is earlier than everything. */
  function Later(a: Option<int>, b: Option<int>): Option<int> {
    if a.None? then b else if b.None? then a else if a.value < b.value then b else a
  }

  function Parse(s: Stamp): Option<int> {
    if s.At? then Some(s.instant) else None
  }

  function NewestInstant(stamps: seq<Stamp>): (r: Option<int>)
    ensures r.Some? ==> At(r.value) in stamps
    ensures forall t :: At(t) in stamps ==> r.Some? && t <= r.value
  {
    if stamps == [] then None
    else Later(NewestInstant(stamps[..|stamps| - 1]), Parse(stamps[|stamps| - 1]))
  }

  function KeyOf(r: Record): Key {
    Key(OwnsLiveAttempt(r), r.requestState == InProgress, r.sourceGeneration,
        NewestInstant([r.updatedAt, r.createdAt] + Stamps(r.attempts)), r.auditId)
  }

  /** The program's accumulator loops compute that key. */
  method ExecutionAuthorityKey(r: Record) returns (key: Key)
    ensures key == KeyOf(r)
  {
    var live := exists i :: 0 <= i < |r.attempts| && Unended(r.attempts[i]);
    var timestamps := [r.updatedAt, r.createdAt];
    for i := 0 to |r.attempts|
      invariant timestamps == [r.updatedAt, r.createdAt] + Stamps(r.attempts[..i])
    {
      var a := r.attempts[i];
      assert r.attempts[..i + 1][..i] == r.attempts[..i];
      timestamps := timestamps + [a.endedAt, a.startedAt, a.createdAt];
    }
    assert r.attempts[..|r.attempts|] == r.attempts;
    var newest: Option<int> := None;
    for i := 0 to |timestamps|
      invariant newest == NewestInstant(timestamps[..i])
    {
      assert timestamps[..i + 1][..i] == timestamps[..i];
      newest := Later(newest, Parse(timestamps[i]));
    }
    assert timestamps[..|timestamps|] == timestamps;
    key := Key(live, r.requestState == InProgress, r.sourceGeneration, newest, r.auditId);
  }

  predicate InstantLess(a: Option<int>, b: Option<int>) {
    b.Some? && (a.None? || a.value < b.value)
  }

  /** Lexicographic comparison of ownership tuples. */
  predicate KeyLess(a: Key, b: Key) {
    if a.live != b.live then b.live
    else if a.inProgress != b.inProgress then b.inProgress
    else if a.generation != b.generation then a.generation < b.generation
    else if a.newest != b.newest then InstantLess(a.newest, b.newest)
    else Text.Less(a.auditId, b.auditId)
  }

  lemma KeyTotal(a: Key, b: Key)
    ensures KeyLess(a, b) || a == b || KeyLess(b, a)
  {
    Text.LessTotal(a.auditId, b.auditId);
  }

  lemma KeyTransitive(a: Key, b: Key, c: Key)
    requires !KeyLess(b, a) && !KeyLess(c, b)
    ensures !KeyLess(c, a)
  {
    KeyTotal(a, b);
    KeyTotal(b, c);
    if a != b && b != c && a.live == b.live == c.live && a.inProgress == b.inProgress == c.inProgress
       && a.generation == b.generation == c.generation && a.newest == b.newest == c.newest {
      Text.LessTransitive(a.auditId, b.auditId, c.auditId);
      Text.LessAsymmetric(a.auditId, c.auditId);
    }
  }

  /** Selection order: either the ownership tuple alone, or source generation before it. */
  predicate Below(a: Record, b: Record, sourceFirst: bool) {
    if sourceFirst && a.sourceGeneration != b.sourceGeneration
    then a.sourceGeneration < b.sourceGeneration
    else KeyLess(KeyOf(a), KeyOf(b))
  }

  lemma BelowTransitive(a: Record, b: Record, c: Record, sourceFirst: bool)
    requires !Below(b, a, sourceFirst) && !Below(c, b, sourceFirst)
    ensures !Below(c, a, sourceFirst)
  {
    if a.sourceGeneration == b.sourceGeneration == c.sourceGeneration || !sourceFirst {
      KeyTransitive(KeyOf(a), KeyOf(b), KeyOf(c));
    }
  }

  /** Python's `max`: the first of the greatest elements. */
  function Greatest(rs: seq<Record>, sourceFirst: bool): (best: Record)
    requires rs != []
    ensures best in rs
  {
    if |rs| == 1 then rs[0]
    else
      var best := Greatest(rs[..|rs| - 1], sourceFirst);
      var last := rs[|rs| - 1];
      if Below(best, last, sourceFirst) then last else best
  }

  lemma {:induction false} GreatestDominates(rs: seq<Record>, sourceFirst: bool, r: Record)
    requires r in rs
    ensures !Below(Greatest(rs, sourceFirst), r, sourceFirst)
  {
    if |rs| == 1 {
      KeyTotal(KeyOf(r), KeyOf(r));
      SelfNotBelow(r, sourceFirst);
    } else {
      var front, last := rs[..|rs| - 1], rs[|rs| - 1];
      var best := Greatest(front, sourceFirst);
      SelfNotBelow(last, sourceFirst);
      if r in front {
        GreatestDominates(front, sourceFirst, r);
        if Below(best, last, sourceFirst) {
          NotBelowBack(best, last, sourceFirst);
          BelowTransitive(r, best, last, sourceFirst);
        }
      } else {
        assert r == last;
      }
    }
  }

  lemma SelfNotBelow(r: Record, sourceFirst: bool)
    ensures !Below(r, r, sourceFirst)
  {
    if Text.Less(r.auditId, r.auditId) {
      Text.LessAsymmetric(r.auditId, r.auditId);
    }
  }

  lemma NotBelowBack(a: Record, b: Record, sourceFirst: bool)
    requires Below(a, b, sourceFirst)
    ensures !Below(b, a, sourceFirst)
  {
    if Text.Less(a.auditId, b.auditId) {
      Text.LessAsymmetric(a.auditId, b.auditId);
    }
  }

  /** Audit ids identify records. */
  predicate DistinctIds(rs: seq<Record>) {
    forall r, s :: r in rs && s in rs && r.auditId == s.auditId ==> r == s
  }

  lemma GreatestUnique(rs: seq<Record>, rs': seq<Record>, sourceFirst: bool)
    requires rs != [] && rs' != [] && DistinctIds(rs)
    requires forall r :: r in rs <==> r in rs'
    ensures Greatest(rs, sourceFirst) == Greatest(rs', sourceFirst)
  {
    var a, b := Greatest(rs, sourceFirst), Greatest(rs', sourceFirst);
    GreatestDominates(rs, sourceFirst, b);
    GreatestDominates(rs', sourceFirst, a);
    KeyTotal(KeyOf(a), KeyOf(b));
  }

  // ---------------------------------------------------------------- completion authority

  predicate SameAuthority(a: Record, b: Record) {
    && a.fingerprint == b.fingerprint
    && a.workflowRevision == b.workflowRevision
    && a.binding == b.binding
  }

  /** `r` proves Done for the exact project, task and completion authority of `authority`. */
  predicate CompletedDonePass(r: Record, authority: Record) {
    && r.target == Done
    && r.projectId == authority.projectId
    && r.taskId == authority.taskId
    && SameAuthority(r, authority)
    && r.requestState == Completed
    && exists i :: 0 <= i < |r.attempts| && DonePass(r.attempts[i], authority.fingerprint)
  }

  predicate DonePass(a: Attempt, fingerprint: string) {
    && a.target == Done
    && a.fingerprint == fingerprint
    && a.requestState == Completed
    && a.verdict == Some(Pass)
  }

  // ---------------------------------------------------------------- the pending record

  predicate Schedulable(r: Record) {
    r.requestState == Pending || r.requestState == InProgress
  }

  predicate ActiveFor(r: Record, projectId: string, taskId: string) {
    && Schedulable(r)
    && r.projectId == projectId
    && r.taskId == taskId
    && !(r.prerequisite.Some? && !r.eligible)
  }

  function Active(records: seq<Record>, projectId: string, taskId: string): (rs: seq<Record>)
    ensures forall r :: r in rs <==> r in records && ActiveFor(r, projectId, taskId)
  {
    if records == [] then []
    else
      var rest := Active(records[1..], projectId, taskId);
      if ActiveFor(records[0], projectId, taskId) then [records[0]] + rest else rest
  }

  function OfTarget(records: seq<Record>, target: TargetState): (rs: seq<Record>)
    ensures forall r :: r in rs <==> r in records && r.target == target
  {
    if records == [] then []
    else
      var rest := OfTarget(records[1..], target);
      if records[0].target == target then [records[0]] + rest else rest
  }

  function OfAuthority(records: seq<Record>, authority: Record): (rs: seq<Record>)
    ensures forall r :: r in rs <==> r in records && SameAuthority(r, authority)
  {
    if records == [] then []
    else
      var rest := OfAuthority(records[1..], authority);
      if SameAuthority(records[0], authority) then [records[0]] + rest else rest
  }

  predicate IsPrerequisite(r: Record, of: Record, auditId: string) {
    r.auditId == auditId && r.projectId == of.projectId && r.taskId == of.taskId
  }

  /** The first record with the exact prerequisite identity. */
  function FindPrerequisite(records: seq<Record>, of: Record, auditId: string): (r: Option<Record>)
    ensures r.Some? ==> r.value in records && IsPrerequisite(r.value, of, auditId)
    ensures r.None? ==> forall s :: s in records ==> !IsPrerequisite(s, of, auditId)
  {
    if records == [] then None
    else if IsPrerequisite(records[0], of, auditId) then Some(records[0])
    else FindPrerequisite(records[1..], of, auditId)
  }

  /** What the Done prerequisite of a Merged lane says: dispatch that Done record instead, stay
      blocked, or go on. */
  datatype Gate = Redirect(record: Record) | Blocked | Open

  function ExactGate(records: seq<Record>, newest: Record, auditId: string): Gate {
    var found := FindPrerequisite(records, newest, auditId);
    if found.None? || found.value.target != Done || !SameAuthority(found.value, newest) then Blocked
    else if Schedulable(found.value) then Redirect(found.value)
    else if CompletedDonePass(found.value, newest) then Open
    else Blocked
  }

  function LegacyGate(records: seq<Record>, active: seq<Record>, newest: Record): Gate {
    var live := OfAuthority(OfTarget(active, Done), newest);
    if live != [] then
      var newestLive := Greatest(live, true);
      Redirect(Greatest(OfAuthority(live, newestLive), false))
    else if exists r :: r in records && CompletedDonePass(r, newest) then Open
    else Blocked
  }

  function MergedGate(records: seq<Record>, active: seq<Record>, newest: Record): Gate {
    if newest.prerequisite.Some? then ExactGate(records, newest, newest.prerequisite.value)
    else LegacyGate(records, active, newest)
  }

  /** The authoritative record inside a target lane. */
  function LaneRecord(lane: seq<Record>): (r: Record)
    requires lane != []
  {
    var newest := Greatest(lane, true);
    assert newest in OfAuthority(lane, newest);
    Greatest(OfAuthority(lane, newest), false)
  }

  /** What a lane offers: its authoritative record, unless the gate before Merged redirects or blocks. */
  function FromLane(records: seq<Record>, active: seq<Record>, lane: seq<Record>, target: TargetState): Option<Record>
    requires lane != []
  {
    if target != Merged then Some(LaneRecord(lane))
    else
      match MergedGate(records, active, Greatest(lane, true))
      case Redirect(r) => Some(r)
      case Blocked => None
      case Open => Some(LaneRecord(lane))
  }

  /** The lane of the first active target. */
  function FirstLane(active: seq<Record>): (lane: seq<Record>)
    requires active != []
    ensures lane != []
    ensures forall r :: r in lane <==> r in active && r.target == active[0].target
  {
    assert active[0] in OfTarget(active, active[0].target);
    OfTarget(active, active[0].target)
  }

  function PendingRecord(records: seq<Record>, projectId: string, taskId: string): Option<Record> {
    var active := Active(records, projectId, taskId);
    if active == [] then None else FromLane(records, active, FirstLane(active), active[0].target)
  }

  // ---------------------------------------------------------------- what dispatch may rely on

  lemma GateMeaning(records: seq<Record>, active: seq<Record>, newest: Record)
    requires forall r :: r in active ==> r in records
    ensures var gate := MergedGate(records, active, newest);
      && (gate.Redirect? ==> gate.record.target == Done && gate.record in records)
      && (gate.Open? ==> exists d :: d in records && CompletedDonePass(d, newest))
  {
  }

  lemma LaneRecordAuthority(lane: seq<Record>)
    requires lane != []
    ensures LaneRecord(lane) in lane && SameAuthority(LaneRecord(lane), Greatest(lane, true))
  {
  }

  lemma MergedFromLane(records: seq<Record>, active: seq<Record>, lane: seq<Record>, target: TargetState,
                       projectId: string, taskId: string)
    requires lane != [] && FromLane(records, active, lane, target).Some?
    requires FromLane(records, active, lane, target).value.target == Merged
    requires forall r :: r in lane ==> r.target == target && r.projectId == projectId && r.taskId == taskId
    requires forall r :: r in active ==> r in records
    ensures exists d :: d in records && CompletedDonePass(d, FromLane(records, active, lane, target).value)
  {
    var r := FromLane(records, active, lane, target).value;
    var newest := Greatest(lane, true);
    GateMeaning(records, active, newest);
    LaneRecordAuthority(lane);
    var d :| d in records && CompletedDonePass(d, newest);
    PassTransfers(d, newest, r);
  }

  /** Merged is never dispatched before its Done: whichever duplicate is returned, the chain holds
      a completed Done record with a PASS for that very record's project, task and authority. */
  lemma MergedNeedsDonePass(records: seq<Record>, projectId: string, taskId: string)
    requires PendingRecord(records, projectId, taskId).Some?
    requires PendingRecord(records, projectId, taskId).value.target == Merged
    ensures exists d :: d in records && CompletedDonePass(d, PendingRecord(records, projectId, taskId).value)
  {
    var active := Active(records, projectId, taskId);
    MergedFromLane(records, active, FirstLane(active), active[0].target, projectId, taskId);
  }

  lemma PassTransfers(d: Record, a: Record, b: Record)
    requires CompletedDonePass(d, a) && SameAuthority(b, a)
    requires a.projectId == b.projectId && a.taskId == b.taskId
    ensures CompletedDonePass(d, b)
  {
  }

  predicate NewestSource(n: Record, lane: seq<Record>) {
    n in lane && forall x :: x in lane ==> x.sourceGeneration <= n.sourceGeneration
  }

  /** The record has the authority of a newest source generation, and owns a live attempt if any
      record of that authority does. */
  ghost predicate LeadsLane(r: Record, lane: seq<Record>) {
    && r in lane
    && (exists n :: NewestSource(n, lane) && SameAuthority(r, n))
    && (forall x :: x in lane && SameAuthority(x, r) && OwnsLiveAttempt(x) ==> OwnsLiveAttempt(r))
  }

  lemma LaneRecordOwns(lane: seq<Record>)
    requires lane != []
    ensures LeadsLane(LaneRecord(lane), lane)
  {
    var newest, r := Greatest(lane, true), LaneRecord(lane);
    forall x | x in lane ensures x.sourceGeneration <= newest.sourceGeneration {
      GreatestDominates(lane, true, x);
    }
    assert NewestSource(newest, lane);
    forall x | x in lane && SameAuthority(x, r) && OwnsLiveAttempt(x) ensures OwnsLiveAttempt(r) {
      assert x in OfAuthority(lane, newest);
      GreatestDominates(OfAuthority(lane, newest), false, x);
    }
  }

  lemma LaneLeads(records: seq<Record>, active: seq<Record>, lane: seq<Record>, target: TargetState)
    requires lane != [] && FromLane(records, active, lane, target).Some?
    requires FromLane(records, active, lane, target).value.target == target
    requires forall r :: r in active ==> r in records
    ensures LeadsLane(FromLane(records, active, lane, target).value, lane)
  {
    GateMeaning(records, active, Greatest(lane, true));
    assert FromLane(records, active, lane, target) == Some(LaneRecord(lane));
    LaneRecordOwns(lane);
  }

  /** Within the lane of the first active target, the returned record has the authority of the
      newest source generation, and owns a live attempt if any record of that authority does. */
  lemma LiveOwnerOfNewestSource(records: seq<Record>, projectId: string, taskId: string)
    requires Active(records, projectId, taskId) != []
    requires PendingRecord(records, projectId, taskId).Some?
    requires PendingRecord(records, projectId, taskId).value.target == Active(records, projectId, taskId)[0].target
    ensures LeadsLane(PendingRecord(records, projectId, taskId).value, FirstLane(Active(records, projectId, taskId)))
  {
    var active := Active(records, projectId, taskId);
    LaneLeads(records, active, FirstLane(active), active[0].target);
  }

  lemma LaneRecordOrderFree(lane: seq<Record>, lane': seq<Record>)
    requires lane != [] && lane' != [] && DistinctIds(lane)
    requires forall r :: r in lane <==> r in lane'
    ensures LaneRecord(lane) == LaneRecord(lane')
  {
    GreatestUnique(lane, lane', true);
    var newest := Greatest(lane, true);
    assert newest in OfAuthority(lane, newest) && newest in OfAuthority(lane', newest);
    GreatestUnique(OfAuthority(lane, newest), OfAuthority(lane', newest), false);
  }

  lemma GateOrderFree(records: seq<Record>, records': seq<Record>, active: seq<Record>, active': seq<Record>,
                      newest: Record)
    requires DistinctIds(records)
    requires forall r :: r in records <==> r in records'
    requires forall r :: r in active <==> r in active'
    requires forall r :: r in active ==> r in records
    ensures MergedGate(records, active, newest) == MergedGate(records', active', newest)
  {
    if newest.prerequisite.Some? {
      var a := FindPrerequisite(records, newest, newest.prerequisite.value);
      var b := FindPrerequisite(records', newest, newest.prerequisite.value);
      assert a == b;
    } else {
      var live, live' := OfAuthority(OfTarget(active, Done), newest), OfAuthority(OfTarget(active', Done), newest);
      assert live != [] ==> live[0] in live && live[0] in live';
      assert live' != [] ==> live'[0] in live' && live'[0] in live;
      if live != [] {
        LaneRecordOrderFree(live, live');
      }
    }
  }

  lemma LaneOrderFree(records: seq<Record>, records': seq<Record>, active: seq<Record>, active': seq<Record>,
                      lane: seq<Record>, lane': seq<Record>, target: TargetState)
    requires DistinctIds(records) && lane != [] && lane' != []
    requires forall r :: r in records <==> r in records'
    requires forall r :: r in active <==> r in active'
    requires forall r :: r in lane <==> r in lane'
    requires forall r :: r in active ==> r in records
    requires forall r :: r in lane ==> r in active
    ensures FromLane(records, active, lane, target) == FromLane(records', active', lane', target)
  {
    SameNewest(lane, lane');
    GateOrderFree(records, records', active, active', Greatest(lane, true));
  }

  lemma PendingOrderFree(records: seq<Record>, records': seq<Record>, projectId: string, taskId: string)
    requires DistinctIds(records)
    requires forall r :: r in records <==> r in records'
    requires var a, a' := Active(records, projectId, taskId), Active(records', projectId, taskId);
      a != [] && a' != [] && a[0].target == a'[0].target
    ensures PendingRecord(records, projectId, taskId) == PendingRecord(records', projectId, taskId)
  {
    var a, a' := Active(records, projectId, taskId), Active(records', projectId, taskId);
    LaneOrderFree(records, records', a, a', FirstLane(a), FirstLane(a'), a[0].target);
  }

  lemma SameNewest(lane: seq<Record>, lane': seq<Record>)
    requires lane != [] && lane' != [] && DistinctIds(lane)
    requires forall r :: r in lane <==> r in lane'
    ensures Greatest(lane, true) == Greatest(lane', true) && LaneRecord(lane) == LaneRecord(lane')
  {
    GreatestUnique(lane, lane', true);
    LaneRecordOrderFree(lane, lane');
  }

  /** List order matters only through the first active target: reordering the chain in any way
      that keeps that target gives the same record. */
  lemma OrderMattersOnlyForFirstTarget(records: seq<Record>, records': seq<Record>, projectId: string, taskId: string)
    requires DistinctIds(records) && multiset(records) == multiset(records')
    requires var a, a' := Active(records, projectId, taskId), Active(records', projectId, taskId);
      a != [] && a' != [] ==> a[0].target == a'[0].target
    ensures PendingRecord(records, projectId, taskId) == PendingRecord(records', projectId, taskId)
  {
    var a, a' := Active(records, projectId, taskId), Active(records', projectId, taskId);
    forall r ensures r in records <==> r in records' {
      assert r in records <==> r in multiset(records);
      assert r in records' <==> r in multiset(records');
    }
    assert a' != [] ==> a'[0] in a;
    if a != [] {
      assert a[0] in a';
      PendingOrderFree(records, records', projectId, taskId);
    }
  }
}
