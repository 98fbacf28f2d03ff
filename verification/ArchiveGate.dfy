/**
 The archive safety gate.  `collect` records every reason against archiving a task in a list of
 failure modes; `passed` and `has_failures` then judge the finished snapshot, each in its own way.
 The helpers append to one shared list; what they append is given by the `...Modes` functions.
 */
module ArchiveGate {
  import opened Basics
  import Text

  datatype Disposition = Retention | Duplicate | Obsolete | Blocked | Superseded

  datatype FailureMode =
    | NoDoneAudit | DoneAuditFailed | NoMergedAudit | MergedAuditFailed | InvalidPreArchiveState
    | NoDispositionReason | InvalidDispositionType
    | ActiveWorker | ActiveClaim | ActiveRetry | OpenReview | ActiveChild | UnresolvedDependency
    | RequirementChanged | ShaChanged
    | DuplicateNoSource | ObsoleteNoSource | BlockedNoExplanation | SupersededNoSource
    | RecentCompletion | FingerprintMismatch | MissingEvidence

  /** A yes-or-no finding, or evidence that is unavailable or invalid. */
  datatype Finding = Yes | No | Bad

  /** A number of days: finite, not finite, or not a number of days at all. */
  datatype Days = Finite(days: real) | NotFinite | NoNumber

  datatype AuditInput = AuditInput(id: string, verdict: string, fingerprint: Option<string>)

  /** The arguments of `collect`.  A disposition type given as an enum member stands for its value. */
  datatype Inputs = Inputs(
    taskId: string,
    currentState: string,
    dispositionType: Option<string>,
    explanation: string,
    sourceLink: Option<string>,
    done: AuditInput,
    merged: AuditInput,
    worker: Finding, claim: Finding, retry: Finding,
    review: Finding, child: Finding, dependency: Finding,
    requirementChanged: Finding,
    shaChanged: Finding,
    daysSinceCompletion: Days,
    retentionDaysRequired: Days,
    currentFingerprint: Option<string>)

  datatype TaskState = TaskState(
    state: string,
    worker: Finding, claim: Finding, retry: Finding,
    review: Finding, child: Finding, dependency: Finding)

  datatype Completion = Done | Merged

  /** The prior audit: not needed, unavailable, or referenced; a missing verdict or fingerprint is
      unavailable evidence inside the reference. */
  datatype Prior = NotNeeded | Missing | Audit(kind: Completion, verdict: Option<string>, fingerprint: Option<string>)

  /** The reason given: a sentence for each of these modes, or the word "Unknown". */
  datatype Reason = Unknown | Because(modes: seq<FailureMode>)

  /** Where to restore the task to: the captured state, the audited one, or a human decides. */
  datatype Restoration = ToCaptured(state: string) | ToCompletion(kind: Completion) | ToNeedsHuman

  function StateName(r: Restoration): string {
    match r
    case ToCaptured(state) => state
    case ToCompletion(kind) => if kind.Merged? then "Merged" else "Done"
    case ToNeedsHuman => "Needs Human"
  }

  /** Where to restore the task to, the modes an action is listed for, and the reason. */
  datatype Guidance = Guidance(restored: Restoration, actionsFor: seq<FailureMode>, unsafeCondition: Reason)

  datatype Snapshot = Snapshot(
    taskState: Option<TaskState>,
    prior: Prior,
    disposition: Option<Disposition>,
    failureModes: seq<FailureMode>,
    guidance: Option<Guidance>)

  predicate Blank(s: string) {
    Text.Strip(s) == []
  }

  /** A state as it is compared: stripped and case-folded. */
  function Normal(state: string): string {
    Text.CaseFold(Text.Strip(state))
  }

  // ---------------------------------------------------------------- what each helper records

  function FlagMode(value: Finding, active: FailureMode): seq<FailureMode> {
    match value
    case Yes => [active]
    case No => []
    case Bad => [MissingEvidence]
  }

  function Checks(i: Inputs): seq<(Finding, FailureMode)> {
    [(i.worker, ActiveWorker), (i.claim, ActiveClaim), (i.retry, ActiveRetry),
     (i.review, OpenReview), (i.child, ActiveChild), (i.dependency, UnresolvedDependency)]
  }

  function FlagModes(checks: seq<(Finding, FailureMode)>): seq<FailureMode> {
    if checks == [] then []
    else FlagModes(checks[..|checks| - 1]) + FlagMode(checks[|checks| - 1].0, checks[|checks| - 1].1)
  }

  function When(condition: bool, mode: FailureMode): seq<FailureMode> {
    if condition then [mode] else []
  }

  function StateModes(i: Inputs): seq<FailureMode> {
    When(Blank(i.currentState), InvalidPreArchiveState) + FlagModes(Checks(i))
    + When(Normal(i.currentState) == "archived", InvalidPreArchiveState)
  }

  /** A blank task id leaves no task state, and no failure mode that says so. */
  function TaskStateOf(i: Inputs): Option<TaskState> {
    if Blank(i.taskId) then None
    else Some(TaskState(Text.Strip(i.currentState), i.worker, i.claim, i.retry, i.review, i.child, i.dependency))
  }

  function Underscored(s: string): string {
    seq(|s|, k requires 0 <= k < |s| => if s[k] == '-' || s[k] == ' ' then '_' else s[k])
  }

  function ParseDisposition(raw: string): Option<Disposition> {
    var word := Underscored(Text.Lower(Text.Strip(raw)));
    if word == "retention" then Some(Retention)
    else if word == "duplicate" then Some(Duplicate)
    else if word == "obsolete" then Some(Obsolete)
    else if word == "blocked" then Some(Blocked)
    else if word == "superseded" then Some(Superseded)
    else None
  }

  /** The disposition, or the one failure mode that its checks end with. */
  function DispositionOf(i: Inputs): Result<Disposition, FailureMode> {
    if i.dispositionType.None? || i.dispositionType.value == [] || Blank(i.explanation) then Err(NoDispositionReason)
    else
      var parsed := ParseDisposition(i.dispositionType.value);
      var sourced := i.sourceLink.Some? && !Blank(i.sourceLink.value);
      if parsed.None? then Err(InvalidDispositionType)
      else if parsed.value.Duplicate? && !sourced then Err(DuplicateNoSource)
      else if parsed.value.Obsolete? && !sourced then Err(ObsoleteNoSource)
      else if parsed.value.Superseded? && !sourced then Err(SupersededNoSource)
      else Ok(parsed.value)
  }

  function DispositionModes(i: Inputs): seq<FailureMode> {
    var d := DispositionOf(i);
    if d.Err? then [d.error] else []
  }

  predicate IsRetention(i: Inputs) {
    DispositionOf(i) == Ok(Retention)
  }

  /** A disposition that stands on its own reason and needs no completion audit. */
  predicate IsDirect(i: Inputs) {
    DispositionOf(i).Ok? && !IsRetention(i)
  }

  function PreArchiveModes(i: Inputs): seq<FailureMode> {
    When(!Blank(i.currentState) && Normal(i.currentState) != "archived" && IsRetention(i)
         && Normal(i.currentState) != "done" && Normal(i.currentState) != "merged",
         InvalidPreArchiveState)
  }

  /** Which completion audit has to back the archive. */
  function ExpectedKind(i: Inputs): Completion {
    if Normal(i.currentState) == "merged" then Merged
    else if Normal(i.currentState) == "done" then Done
    else if !Blank(i.merged.id) then Merged
    else Done
  }

  function Chosen(i: Inputs): AuditInput {
    if ExpectedKind(i).Merged? then i.merged else i.done
  }

  predicate FoldsToPass(verdict: string) {
    Text.CaseFold(verdict) == "pass" || Text.CaseFold(verdict) == "passed"
  }

  predicate LowersToPass(verdict: string) {
    Text.Lower(verdict) == "pass" || Text.Lower(verdict) == "passed"
  }

  function PriorOf(i: Inputs): Prior {
    var chosen := Chosen(i);
    if Blank(chosen.id) then if IsDirect(i) then NotNeeded else Missing
    else Audit(ExpectedKind(i), if Blank(chosen.verdict) then None else Some(chosen.verdict), chosen.fingerprint)
  }

  function AuditModes(i: Inputs): seq<FailureMode> {
    var failed := if ExpectedKind(i).Merged? then MergedAuditFailed else DoneAuditFailed;
    match PriorOf(i)
    case NotNeeded => []
    case Missing => [if ExpectedKind(i).Merged? then NoMergedAudit else NoDoneAudit]
    case Audit(_, verdict, fingerprint) =>
      When(verdict.None? || !FoldsToPass(verdict.value), failed)
      + if fingerprint.None? then [failed, MissingEvidence] else []
  }

  function ChangeMode(changed: Finding, mode: FailureMode, prior: Prior): seq<FailureMode> {
    match changed
    case Yes => [mode]
    case No => []
    case Bad => When(!prior.NotNeeded?, MissingEvidence)
  }

  function FingerprintModes(prior: Prior, current: Option<string>): seq<FailureMode> {
    if !prior.Audit? || current.None? then []
    else if prior.fingerprint.None? then [MissingEvidence]
    else When(prior.fingerprint.value != current.value, FingerprintMismatch)
  }

  function ChangeModes(i: Inputs, prior: Prior): seq<FailureMode> {
    ChangeMode(i.requirementChanged, RequirementChanged, prior)
    + ChangeMode(i.shaChanged, ShaChanged, prior)
    + FingerprintModes(prior, i.currentFingerprint)
  }

  function RetentionModes(i: Inputs): seq<FailureMode> {
    if !IsRetention(i) then []
    else if !i.daysSinceCompletion.Finite? || !i.retentionDaysRequired.Finite? then [MissingEvidence]
    else When(i.daysSinceCompletion.days < i.retentionDaysRequired.days, RecentCompletion)
  }

  function AllModes(i: Inputs): seq<FailureMode> {
    StateModes(i) + DispositionModes(i) + PreArchiveModes(i) + AuditModes(i)
    + ChangeModes(i, PriorOf(i)) + RetentionModes(i)
  }

  // ---------------------------------------------------------------- guidance

  /** The failure modes that guidance has a sentence and an action for. */
  const EXPLAINED: set<FailureMode> := {
    ActiveWorker, ActiveClaim, ActiveRetry, OpenReview, ActiveChild, UnresolvedDependency,
    RequirementChanged, ShaChanged, FingerprintMismatch, RecentCompletion,
    NoDoneAudit, NoMergedAudit, DoneAuditFailed, MergedAuditFailed, InvalidPreArchiveState,
    NoDispositionReason, DuplicateNoSource, ObsoleteNoSource, SupersededNoSource,
    InvalidDispositionType, BlockedNoExplanation, MissingEvidence}

  /** The captured state unless it cannot be restored or is the name for waiting for a human; else
      the audited one, else a human decides. */
  function Restored(state: Option<TaskState>, prior: Prior): Restoration {
    var captured := if state.Some? then Text.Strip(state.value.state) else [];
    if !Restorable(captured) || captured == StateName(ToNeedsHuman)
    then if prior.Audit? then ToCompletion(prior.kind) else ToNeedsHuman
    else ToCaptured(captured)
  }

  predicate Restorable(captured: string) {
    captured != [] && Text.CaseFold(captured) != "archived"
  }

  method ChooseRestored(state: Option<TaskState>, prior: Prior) returns (restored: Restoration)
    ensures restored == Restored(state, prior)
  {
    restored := ToNeedsHuman;
    if state.Some? {
      var captured := Text.Strip(state.value.state);
      if Restorable(captured) {
        restored := if captured == StateName(ToNeedsHuman) then ToNeedsHuman else ToCaptured(captured);
      }
    }
    if restored.ToNeedsHuman? && prior.Audit? {
      restored := ToCompletion(prior.kind);
    }
  }

  method Explain(modes: seq<FailureMode>) returns (actions: seq<FailureMode>, reason: Reason)
    requires modes != []
    ensures actions == modes && reason == Because(modes)
  {
    var conditions: seq<FailureMode> := [];
    actions := [];
    for k := 0 to |modes|
      invariant conditions == actions == modes[..k]
    {
      EveryModeExplained(modes[k]);
      if modes[k] in EXPLAINED {
        conditions := conditions + [modes[k]];
        actions := actions + [modes[k]];
      }
    }
    reason := if conditions != [] then Because(conditions) else Unknown;
  }

  method BuildGuidance(modes: seq<FailureMode>, state: Option<TaskState>, prior: Prior) returns (g: Guidance)
    requires modes != []
    ensures g == Guidance(Restored(state, prior), modes, Because(modes))
  {
    var restored := ChooseRestored(state, prior);
    var actions, reason := Explain(modes);
    g := Guidance(restored, actions, reason);
  }

  lemma EveryModeExplained(mode: FailureMode)
    ensures mode in EXPLAINED
  {
  }

  // ---------------------------------------------------------------- the collector

  /** The list of failure modes that the helpers share. */
  class FailureList {
    var modes: seq<FailureMode>

    constructor ()
      ensures modes == []
    {
      modes := [];
    }

    method Append(mode: FailureMode)
      modifies this
      ensures modes == old(modes) + [mode]
    {
      modes := modes + [mode];
    }
  }

  method CheckFlags(checks: seq<(Finding, FailureMode)>, failures: FailureList)
    modifies failures
    ensures failures.modes == old(failures.modes) + FlagModes(checks)
  {
    for k := 0 to |checks|
      invariant failures.modes == old(failures.modes) + FlagModes(checks[..k])
    {
      assert checks[..k + 1][..k] == checks[..k];
      if checks[k].0.Yes? {
        failures.Append(checks[k].1);
      } else if checks[k].0.Bad? {
        failures.Append(MissingEvidence);
      }
    }
    assert checks[..|checks|] == checks;
  }

  method CollectTaskState(i: Inputs, failures: FailureList) returns (state: Option<TaskState>)
    modifies failures
    ensures failures.modes == old(failures.modes) + StateModes(i) && state == TaskStateOf(i)
  {
    if Blank(i.currentState) {
      failures.Append(InvalidPreArchiveState);
    }
    CheckFlags(Checks(i), failures);
    var captured := Text.Strip(i.currentState);
    if Text.CaseFold(captured) == "archived" {
      failures.Append(InvalidPreArchiveState);
    }
    if Blank(i.taskId) {
      return None;
    }
    state := Some(TaskState(captured, i.worker, i.claim, i.retry, i.review, i.child, i.dependency));
  }

  /** The program's further check of a blocked disposition's explanation can no longer fail here. */
  method ValidateDisposition(i: Inputs, failures: FailureList) returns (disposition: Option<Disposition>)
    modifies failures
    ensures failures.modes == old(failures.modes) + DispositionModes(i)
    ensures disposition == if DispositionOf(i).Ok? then Some(DispositionOf(i).value) else None
  {
    disposition := None;
    if i.dispositionType.None? || i.dispositionType.value == [] {
      failures.Append(NoDispositionReason);
      return;
    }
    if Blank(i.explanation) {
      failures.Append(NoDispositionReason);
      return;
    }
    var parsed := ParseDisposition(i.dispositionType.value);
    if parsed.None? {
      failures.Append(InvalidDispositionType);
      return;
    }
    var sourced := i.sourceLink.Some? && !Blank(i.sourceLink.value);
    if parsed.value.Duplicate? && !sourced {
      failures.Append(DuplicateNoSource);
      return;
    }
    if parsed.value.Obsolete? && !sourced {
      failures.Append(ObsoleteNoSource);
      return;
    }
    if parsed.value.Superseded? && !sourced {
      failures.Append(SupersededNoSource);
      return;
    }
    disposition := parsed;
  }

  method SelectPriorAudit(i: Inputs, failures: FailureList) returns (prior: Prior)
    modifies failures
    ensures failures.modes == old(failures.modes) + AuditModes(i) && prior == PriorOf(i)
  {
    var kind := ExpectedKind(i);
    var chosen := if kind.Merged? then i.merged else i.done;
    var failed := if kind.Merged? then MergedAuditFailed else DoneAuditFailed;
    if Blank(chosen.id) {
      if IsDirect(i) {
        return NotNeeded;
      }
      failures.Append(if kind.Merged? then NoMergedAudit else NoDoneAudit);
      return Missing;
    }
    prior := Audit(kind, if Blank(chosen.verdict) then None else Some(chosen.verdict), chosen.fingerprint);
    if prior.verdict.None? {
      failures.Append(failed);
    } else if !FoldsToPass(prior.verdict.value) {
      failures.Append(failed);
    }
    if prior.fingerprint.None? {
      failures.Append(failed);
      failures.Append(MissingEvidence);
    }
  }

  method CheckChange(changed: Finding, mode: FailureMode, prior: Prior, failures: FailureList)
    modifies failures
    ensures failures.modes == old(failures.modes) + ChangeMode(changed, mode, prior)
  {
    if changed.Yes? {
      failures.Append(mode);
    } else if changed.Bad? && !prior.NotNeeded? {
      failures.Append(MissingEvidence);
    }
  }

  method CheckFingerprint(prior: Prior, current: Option<string>, failures: FailureList)
    modifies failures
    ensures failures.modes == old(failures.modes) + FingerprintModes(prior, current)
  {
    if prior.Audit? && current.Some? {
      if prior.fingerprint.None? {
        failures.Append(MissingEvidence);
      } else if prior.fingerprint.value != current.value {
        failures.Append(FingerprintMismatch);
      }
    }
  }

  method CheckEvidenceChanges(i: Inputs, prior: Prior, failures: FailureList)
    modifies failures
    ensures failures.modes == old(failures.modes) + ChangeModes(i, prior)
  {
    CheckChange(i.requirementChanged, RequirementChanged, prior, failures);
    CheckChange(i.shaChanged, ShaChanged, prior, failures);
    CheckFingerprint(prior, i.currentFingerprint, failures);
  }

  method CheckRetentionPeriod(i: Inputs, failures: FailureList)
    modifies failures
    ensures failures.modes == old(failures.modes) + RetentionModes(i)
  {
    if !IsRetention(i) {
      return;
    }
    if !i.daysSinceCompletion.Finite? || !i.retentionDaysRequired.Finite? {
      failures.Append(MissingEvidence);
      return;
    }
    if i.daysSinceCompletion.days < i.retentionDaysRequired.days {
      failures.Append(RecentCompletion);
    }
  }

  method ValidatePreArchiveState(i: Inputs, failures: FailureList)
    modifies failures
    ensures failures.modes == old(failures.modes) + PreArchiveModes(i)
  {
    if Blank(i.currentState) || Normal(i.currentState) == "archived" {
      return;
    }
    if IsRetention(i) && Normal(i.currentState) != "done" && Normal(i.currentState) != "merged" {
      failures.Append(InvalidPreArchiveState);
    }
  }

  /** The snapshot `collect` builds, guidance aside. */
  predicate IsSnapshot(s: Snapshot, i: Inputs) {
    && s.taskState == TaskStateOf(i) && s.prior == PriorOf(i)
    && s.disposition == (if DispositionOf(i).Ok? then Some(DispositionOf(i).value) else None)
    && s.failureModes == AllModes(i)
    && (s.guidance.Some? <==> AllModes(i) != [])
  }

  method Collect(i: Inputs) returns (s: Snapshot)
    ensures IsSnapshot(s, i)
    ensures s.guidance.Some? ==>
      s.guidance.value == Guidance(Restored(s.taskState, s.prior), s.failureModes, Because(s.failureModes))
  {
    var failures := new FailureList();
    var state := CollectTaskState(i, failures);
    var disposition := ValidateDisposition(i, failures);
    ValidatePreArchiveState(i, failures);
    var prior := SelectPriorAudit(i, failures);
    CheckEvidenceChanges(i, prior, failures);
    CheckRetentionPeriod(i, failures);
    FromEmpty(StateModes(i));
    assert failures.modes == AllModes(i);
    var guidance: Option<Guidance> := None;
    if failures.modes != [] {
      var g := BuildGuidance(failures.modes, state, prior);
      guidance := Some(g);
    }
    s := Snapshot(state, prior, disposition, failures.modes, guidance);
  }

  lemma FromEmpty(modes: seq<FailureMode>)
    ensures [] + modes == modes
  {
  }

  // ---------------------------------------------------------------- the two gates

  /** `passed`: no failure mode, and everything it looks at once more is in order. */
  predicate Passed(s: Snapshot) {
    && s.failureModes == []
    && s.taskState.Some? && s.disposition.Some?
    && (s.disposition.value.Retention? ==> s.prior.Audit?)
    && !s.prior.Missing?
    && (s.prior.Audit? ==>
          s.prior.verdict.Some? && LowersToPass(s.prior.verdict.value) && s.prior.fingerprint.Some?)
    && var state := s.taskState.value;
       var normal := Normal(state.state);
       && normal != "" && normal != "archived"
       && (s.disposition.value.Retention? ==> normal == "done" || normal == "merged")
       && !state.worker.Yes? && !state.claim.Yes? && !state.retry.Yes?
       && !state.review.Yes? && !state.child.Yes? && !state.dependency.Yes?
  }

  /** `has_failures`: a failure mode, or evidence that is unavailable or invalid as a whole. */
  predicate HasFailures(s: Snapshot) {
    s.failureModes != [] || s.taskState.None? || s.prior.Missing? || s.disposition.None?
  }

  // ---------------------------------------------------------------- main results

  predicate AllQuiet(i: Inputs) {
    i.worker.No? && i.claim.No? && i.retry.No? && i.review.No? && i.child.No? && i.dependency.No?
  }

  /** The completion audit that has to back the archive exists, passed, and is of this evidence. */
  predicate Backed(i: Inputs) {
    var audit := Chosen(i);
    && !Blank(audit.id) && !Blank(audit.verdict) && FoldsToPass(audit.verdict) && audit.fingerprint.Some?
    && (i.currentFingerprint.Some? ==> i.currentFingerprint == audit.fingerprint)
    && i.requirementChanged.No? && i.shaChanged.No?
  }

  /** A direct disposition without a completion audit: only known changes count against it. */
  predicate StandsAlone(i: Inputs) {
    IsDirect(i) && Blank(Chosen(i).id) && !i.requirementChanged.Yes? && !i.shaChanged.Yes?
  }

  predicate RetainedLongEnough(i: Inputs) {
    && (Normal(i.currentState) == "done" || Normal(i.currentState) == "merged")
    && i.daysSinceCompletion.Finite? && i.retentionDaysRequired.Finite?
    && i.daysSinceCompletion.days >= i.retentionDaysRequired.days
  }

  /** When archiving is safe, as conditions on the inputs.  Which audit has to back it, how a
      disposition is parsed and which verdicts pass are the collector's own definitions. */
  predicate Safe(i: Inputs) {
    && !Blank(i.currentState) && Normal(i.currentState) != "archived"
    && AllQuiet(i)
    && DispositionOf(i).Ok?
    && (IsRetention(i) ==> RetainedLongEnough(i))
    && (Backed(i) || StandsAlone(i))
  }

  lemma {:induction false} NoFlagsIff(checks: seq<(Finding, FailureMode)>)
    ensures FlagModes(checks) == [] <==> forall k :: 0 <= k < |checks| ==> checks[k].0.No?
  {
    if checks != [] {
      var front, last := checks[..|checks| - 1], checks[|checks| - 1];
      NoFlagsIff(front);
      assert FlagMode(last.0, last.1) == [] <==> last.0.No?;
      assert |FlagModes(checks)| == |FlagModes(front)| + |FlagMode(last.0, last.1)|;
      assert forall k :: 0 <= k < |front| ==> checks[k] == front[k];
    }
  }

  lemma QuietIff(i: Inputs)
    ensures FlagModes(Checks(i)) == [] <==> AllQuiet(i)
  {
    var checks := Checks(i);
    NoFlagsIff(checks);
    assert checks[0].0 == i.worker && checks[1].0 == i.claim && checks[2].0 == i.retry;
    assert checks[3].0 == i.review && checks[4].0 == i.child && checks[5].0 == i.dependency;
  }

  lemma BackedIff(i: Inputs)
    ensures AuditModes(i) == [] && ChangeModes(i, PriorOf(i)) == [] <==> Backed(i) || StandsAlone(i)
  {
  }

  lemma AllEmptyIff(a: seq<FailureMode>, b: seq<FailureMode>, c: seq<FailureMode>,
                    d: seq<FailureMode>, e: seq<FailureMode>, f: seq<FailureMode>)
    ensures a + b + c + d + e + f == [] <==> a == [] && b == [] && c == [] && d == [] && e == [] && f == []
  {
    assert |a + b + c + d + e + f| == |a| + |b| + |c| + |d| + |e| + |f|;
  }

  lemma StateIff(i: Inputs)
    ensures StateModes(i) == [] <==>
      !Blank(i.currentState) && Normal(i.currentState) != "archived" && AllQuiet(i)
  {
    QuietIff(i);
    AllEmptyIff(When(Blank(i.currentState), InvalidPreArchiveState), FlagModes(Checks(i)),
                When(Normal(i.currentState) == "archived", InvalidPreArchiveState), [], [], []);
  }

  lemma RetainedIff(i: Inputs)
    requires StateModes(i) == []
    ensures PreArchiveModes(i) == [] && RetentionModes(i) == [] <==> (IsRetention(i) ==> RetainedLongEnough(i))
  {
    StateIff(i);
  }

  /** The collector records no failure mode exactly when archiving is safe. */
  lemma NoModeIffSafe(i: Inputs)
    ensures AllModes(i) == [] <==> Safe(i)
  {
    AllEmptyIff(StateModes(i), DispositionModes(i), PreArchiveModes(i), AuditModes(i),
                ChangeModes(i, PriorOf(i)), RetentionModes(i));
    StateIff(i);
    if StateModes(i) == [] {
      RetainedIff(i);
    }
    BackedIff(i);
  }

  /** A verdict that the collector accepts (by `casefold`) and `passed` does not (by `lower`). */
  predicate VerdictGap(i: Inputs) {
    !Blank(Chosen(i).id) && FoldsToPass(Chosen(i).verdict) && !LowersToPass(Chosen(i).verdict)
  }

  /** `has_failures` is false exactly for a safe task with an id. */
  lemma HasFailuresIff(i: Inputs, s: Snapshot)
    requires IsSnapshot(s, i)
    ensures !HasFailures(s) <==> Safe(i) && !Blank(i.taskId)
  {
    NoModeIffSafe(i);
  }

  lemma PlainStateMatches(i: Inputs, s: Snapshot)
    requires IsSnapshot(s, i) && !Blank(i.taskId)
    ensures s.taskState.Some? && Normal(s.taskState.value.state) == Normal(i.currentState)
    ensures Normal(i.currentState) == "" <==> Blank(i.currentState)
  {
    Text.StripIdempotent(i.currentState);
    Folded(Text.Strip(i.currentState));
  }

  lemma Folded(s: string)
    ensures Text.CaseFold(s) == "" <==> s == ""
  {
  }

  /** `passed` holds exactly for a safe task with an id whose audit verdict is not in the gap. */
  lemma PassedIff(i: Inputs, s: Snapshot)
    requires IsSnapshot(s, i)
    ensures Passed(s) <==> Safe(i) && !Blank(i.taskId) && !VerdictGap(i)
  {
    NoModeIffSafe(i);
    if AllModes(i) == [] && !Blank(i.taskId) {
      PlainStateMatches(i, s);
    }
  }

  /** The two gates agree if and only if the task is not one that is safe but for its verdict. */
  lemma GatesAgreeIff(i: Inputs, s: Snapshot)
    requires IsSnapshot(s, i)
    ensures Passed(s) == !HasFailures(s) <==> !(Safe(i) && !Blank(i.taskId) && VerdictGap(i))
  {
    PassedIff(i, s);
    HasFailuresIff(i, s);
  }

  /** Of the verdicts the collector accepts, `passed` accepts exactly those without a character
      that only case folding turns into "s". */
  lemma GapIffSpecial(verdict: string)
    requires FoldsToPass(verdict)
    ensures LowersToPass(verdict) <==> Text.Plain(verdict)
  {
    if Text.Plain(verdict) {
      Text.FoldIsLowerOnPlain(verdict);
    } else {
      var k :| 0 <= k < |verdict| && verdict[k] in {'\U{00DF}', '\U{1E9E}', '\U{017F}'};
      assert Text.Lower(verdict)[k] == Text.LowerChar(verdict[k]);
      assert Text.LowerChar(verdict[k]) !in "pass" && Text.LowerChar(verdict[k]) !in "passed";
    }
  }

  /** So for verdicts in plain letters the two gates agree on every input. */
  lemma GatesAgreeOnPlainVerdicts(i: Inputs, s: Snapshot)
    requires IsSnapshot(s, i) && Text.Plain(Chosen(i).verdict)
    ensures Passed(s) == !HasFailures(s)
  {
    GatesAgreeIff(i, s);
    if VerdictGap(i) {
      GapIffSpecial(Chosen(i).verdict);
    }
  }

  /** A done task with a sharp s for the last two letters of its verdict: nothing is recorded and
      `has_failures` is false, but `passed` is false too, and there is no guidance. */
  lemma SharpVerdictSplitsGates(s: Snapshot)
    requires IsSnapshot(s, SharpVerdict())
    ensures !HasFailures(s) && !Passed(s) && s.failureModes == [] && s.guidance.None?
  {
    var i := SharpVerdict();
    SharpVerdictIsSafe();
    NoModeIffSafe(i);
    HasFailuresIff(i, s);
    PassedIff(i, s);
  }

  lemma SharpVerdictIsSafe()
    ensures Safe(SharpVerdict()) && !Blank(SharpVerdict().taskId) && VerdictGap(SharpVerdict())
  {
    var i := SharpVerdict();
    Trimmed("T");
    DoneIsNormal();
    SharpVerdictIsRetention();
    SharpVerdictIsBacked();
    assert RetainedLongEnough(i);
  }

  lemma SharpVerdictIsRetention()
    ensures DispositionOf(SharpVerdict()) == Ok(Retention)
  {
    Trimmed("e");
    RetentionParses();
  }

  lemma SharpVerdictIsBacked()
    ensures Backed(SharpVerdict()) && VerdictGap(SharpVerdict())
  {
    DoneIsNormal();
    Trimmed("A");
    SharpVerdictPasses();
    assert Chosen(SharpVerdict()) == SharpVerdict().done;
  }

  lemma Trimmed(s: string)
    requires s != [] && !Text.IsSpace(s[0]) && !Text.IsSpace(s[|s| - 1])
    ensures Text.Strip(s) == s && !Blank(s)
  {
  }

  lemma DoneIsNormal()
    ensures Normal("done") == "done"
  {
    Trimmed("done");
    assert Text.CaseFold("done") == "done";
  }

  lemma RetentionParses()
    ensures ParseDisposition("retention") == Some(Retention)
  {
    var word := "retention";
    assert Text.Strip(word) == word;
    assert Text.Lower(word) == word;
    assert Underscored(word) == word;
  }

  lemma SharpVerdictPasses()
    ensures FoldsToPass("pa\U{00DF}") && !LowersToPass("pa\U{00DF}") && !Blank("pa\U{00DF}")
  {
    var verdict := "pa\U{00DF}";
    assert Text.CaseFold(verdict) == "pass";
    assert Text.Lower(verdict)[2] == '\U{00DF}';
    assert Text.Strip(verdict) == verdict;
  }

  function SharpVerdict(): Inputs {
    var audit := AuditInput("A", "pa\U{00DF}", Some("f"));
    Inputs("T", "done", Some("retention"), "e", None, audit, audit, No, No, No, No, No, No, No, No,
           Finite(30.0), Finite(30.0), None)
  }

  /** Guidance is given exactly when a failure mode was recorded.  An unsafe snapshot goes without
      it if and only if nothing was recorded against a task with a blank id or a verdict in the gap. */
  lemma GuidanceMissingIff(i: Inputs, s: Snapshot)
    requires IsSnapshot(s, i)
    ensures !Passed(s) && s.guidance.None? <==> Safe(i) && (Blank(i.taskId) || VerdictGap(i))
  {
    PassedIff(i, s);
    NoModeIffSafe(i);
  }

  lemma NotArchived(s: string)
    requires s != [] && !Text.IsSpace(s[0]) && !Text.IsSpace(s[|s| - 1])
    requires Text.FoldChar(s[0])[0] != 'a'
    ensures Normal(s) != "archived" && !Blank(s)
  {
    Trimmed(s);
    assert Text.CaseFold(s)[0] == Text.FoldChar(s[0])[0];
  }

  /** Guidance never sends a task back to Archived, nor to a state without a name. */
  lemma NeverRestoredToArchived(state: Option<TaskState>, prior: Prior)
    ensures var name := StateName(Restored(state, prior));
      Normal(name) != "archived" && !Blank(name)
  {
    match Restored(state, prior)
    case ToCaptured(captured) => Text.StripIdempotent(state.value.state);
    case ToCompletion(kind) => {
      NotArchived("Merged");
      NotArchived("Done");
    }
    case ToNeedsHuman => NotArchived("Needs Human");
  }

  lemma {:induction false} FlagsNeverMissAnExplanation(checks: seq<(Finding, FailureMode)>)
    requires forall k :: 0 <= k < |checks| ==> !checks[k].1.BlockedNoExplanation?
    ensures BlockedNoExplanation !in FlagModes(checks)
  {
    if checks != [] {
      FlagsNeverMissAnExplanation(checks[..|checks| - 1]);
    }
  }

  lemma AbsentFromAll(m: FailureMode, a: seq<FailureMode>, b: seq<FailureMode>, c: seq<FailureMode>,
                      d: seq<FailureMode>, e: seq<FailureMode>, f: seq<FailureMode>)
    requires m !in a && m !in b && m !in c && m !in d && m !in e && m !in f
    ensures m !in a + b + c + d + e + f
  {
  }

  lemma AbsentFromState(i: Inputs)
    ensures BlockedNoExplanation !in StateModes(i)
  {
    FlagsNeverMissAnExplanation(Checks(i));
  }

  lemma AbsentFromAudit(i: Inputs)
    ensures BlockedNoExplanation !in AuditModes(i) && BlockedNoExplanation !in ChangeModes(i, PriorOf(i))
  {
  }

  /** The failure mode for a blocked disposition without an explanation is never recorded: a missing
      explanation was already recorded as a missing reason. */
  lemma BlockedModeNeverRecorded(i: Inputs)
    ensures BlockedNoExplanation !in AllModes(i)
  {
    AbsentFromState(i);
    AbsentFromAudit(i);
    AbsentFromAll(BlockedNoExplanation, StateModes(i), DispositionModes(i), PreArchiveModes(i), AuditModes(i),
                  ChangeModes(i, PriorOf(i)), RetentionModes(i));
  }
}
