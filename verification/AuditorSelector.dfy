/**
 Selection of an auditor that is demonstrably independent of every contributor, and the
 reservation that keeps one such candidate out of contributor use.  Health, budget, credential,
 whitelist and capability checks are one fixed predicate, `policy`.
 */
module AuditorSelector {
  import opened Basics
  import opened Text

  datatype Candidate = Candidate(provider: string, model: string)

  /** A durable record that a provider and model worked on the task. */
  datatype Contributor = Contributor(provider: Option<string>, model: Option<string>)

  /** A normalized identity; an unknown model is `None`. */
  type Pair = (Option<string>, Option<string>)

  datatype Reason =
    | EmptyRole
    | PolicyFailure
    | UnknownError
    | UnknownModelsOnly
    | AllAreContributors
    | AllAttempted
    | InsufficientIndependentCandidates
    | AuditorReservationRequired

  /** The auditor role in operator order, and the policy filter. */
  datatype Selector = Selector(role: seq<Candidate>, policy: Candidate -> bool)

  const UNKNOWN_MODEL_NAMES: set<string> :=
    {"", "default", "cli-managed", "cli", "sdk-managed", "__sdk_managed__", "unknown", "auto"}

  function NormalizeModel(model: Option<string>): Option<string> {
    if model.None? || CaseFold(Strip(model.value)) in UNKNOWN_MODEL_NAMES
    then None
    else Some(Strip(model.value))
  }

  predicate Known(c: Candidate) {
    NormalizeModel(Some(c.model)).Some?
  }

  function ContributorPair(c: Contributor): Pair {
    (if c.provider.None? then None else Some(Strip(c.provider.value)), NormalizeModel(c.model))
  }

  function ContributorPairs(contributors: seq<Contributor>): (r: set<Pair>) {
    set c | c in contributors :: ContributorPair(c)
  }

  function CandidatePair(c: Candidate): (string, string) {
    var model := NormalizeModel(Some(c.model));
    (Strip(c.provider), if model.None? then "" else model.value)
  }

  // ---------------------------------------------------------------- independence, specified

  predicate Contributed(provider: string, pairs: set<Pair>) {
    exists p :: p in pairs && p.0 == Some(provider)
  }

  /** No contributor shares the candidate's provider. */
  predicate Independent(v: Candidate, pairs: set<Pair>) {
    !Contributed(v.provider, pairs)
  }

  /** Contributors share the provider, but every model involved is known and they all differ. */
  predicate Fallback(v: Candidate, pairs: set<Pair>) {
    && Contributed(v.provider, pairs)
    && Known(v)
    && (Some(v.provider), None) !in pairs
    && (Some(v.provider), NormalizeModel(Some(v.model))) !in pairs
  }

  predicate Unverifiable(v: Candidate, pairs: set<Pair>) {
    && Contributed(v.provider, pairs)
    && ((Some(v.provider), None) in pairs || !Known(v))
  }

  predicate Viable(v: Candidate, pairs: set<Pair>) {
    Independent(v, pairs) || Fallback(v, pairs)
  }

  /** A contributor without a provider identity. */
  predicate Anonymous(pairs: set<Pair>) {
    exists p :: p in pairs && (p.0.None? || p.0.value == "")
  }

  datatype Class = IsIndependent | IsFallback | IsUnverifiable | IsContributor

  function Classify(v: Candidate, pairs: set<Pair>): Class {
    if Independent(v, pairs) then IsIndependent
    else if Fallback(v, pairs) then IsFallback
    else if Unverifiable(v, pairs) then IsUnverifiable
    else IsContributor
  }

  /** The candidates of one class, in operator order. */
  function Kept(candidates: seq<Candidate>, pairs: set<Pair>, class_: Class): (r: seq<Candidate>)
    ensures forall v :: v in r <==> v in candidates && Classify(v, pairs) == class_
  {
    if candidates == [] then []
    else
      var rest := Kept(candidates[1..], pairs, class_);
      if Classify(candidates[0], pairs) == class_ then [candidates[0]] + rest else rest
  }

  lemma {:induction false} KeptAppend(candidates: seq<Candidate>, v: Candidate, pairs: set<Pair>, class_: Class)
    ensures Kept(candidates + [v], pairs, class_)
      == Kept(candidates, pairs, class_) + if Classify(v, pairs) == class_ then [v] else []
  {
    if candidates == [] {
      assert candidates + [v] == [v] && [v][1..] == [];
    } else {
      assert (candidates + [v])[1..] == candidates[1..] + [v];
      KeptAppend(candidates[1..], v, pairs, class_);
    }
  }

  /** Independent candidates are preferred; same-provider fallbacks serve only when there is no
      independent one; otherwise the exclusion fails. */
  function Excluded(candidates: seq<Candidate>, pairs: set<Pair>): Result<seq<Candidate>, Reason> {
    if pairs == {} then Ok(candidates)
    else if Anonymous(pairs) then Err(UnknownError)
    else if Kept(candidates, pairs, IsIndependent) != [] then Ok(Kept(candidates, pairs, IsIndependent))
    else if Kept(candidates, pairs, IsFallback) != [] then Ok(Kept(candidates, pairs, IsFallback))
    else if Kept(candidates, pairs, IsUnverifiable) != [] then Err(UnknownModelsOnly)
    else Err(AllAreContributors)
  }

  predicate Indexed(models: map<string, set<string>>, p: string, m: string) {
    p in models && m in models[p]
  }

  function WithPair(models: map<string, set<string>>, pair: Pair): map<string, set<string>> {
    if pair.0.Some? && pair.1.Some? then
      var p := pair.0.value;
      models[p := (if p in models then models[p] else {}) + {pair.1.value}]
    else models
  }

  lemma WithPairIndexes(models: map<string, set<string>>, pair: Pair, p: string, m: string)
    ensures Indexed(WithPair(models, pair), p, m) <==> Indexed(models, p, m) || pair == (Some(p), Some(m))
  {
  }

  /** The known models each provider contributed, as the program indexes them. */
  method ContributedModels(pairs: set<Pair>) returns (models: map<string, set<string>>)
    ensures forall p, m :: Indexed(models, p, m) <==> (Some(p), Some(m)) in pairs
    ensures forall p :: p in models ==> models[p] != {}
  {
    models := map[];
    var rest := pairs;
    while rest != {}
      invariant rest <= pairs
      invariant forall p, m :: Indexed(models, p, m) <==> (Some(p), Some(m)) in pairs && (Some(p), Some(m)) !in rest
      invariant forall p :: p in models ==> models[p] != {}
      decreases |rest|
    {
      var pair :| pair in rest;
      ghost var before := models;
      models := WithPair(models, pair);
      forall p, m ensures Indexed(models, p, m) <==> Indexed(before, p, m) || pair == (Some(p), Some(m)) {
        WithPairIndexes(before, pair, p, m);
      }
      rest := rest - {pair};
    }
  }

  /** The program's if-chain for one candidate, over the sets it prepared. */
  method Sort(v: Candidate, pairs: set<Pair>, models: map<string, set<string>>) returns (class_: Class)
    requires forall p, m :: Indexed(models, p, m) <==> (Some(p), Some(m)) in pairs
    ensures class_ == Classify(v, pairs)
  {
    var contributedProviders := set p | p in pairs :: p.0;
    var unknownProviders := set p | p in pairs && p.1.None? :: p.0;
    var model := NormalizeModel(Some(v.model));
    if Some(v.provider) !in contributedProviders {
      return IsIndependent;
    }
    if Some(v.provider) in unknownProviders {
      assert (Some(v.provider), None) in pairs;
      return IsUnverifiable;
    }
    if (Some(v.provider), model) in pairs {
      return IsContributor;
    }
    if model.None? || Indexed(models, v.provider, model.value) {
      return IsUnverifiable;
    }
    class_ := IsFallback;
  }

  /** The program's partition loop computes exactly the specified exclusion. */
  method ExcludeContributors(candidates: seq<Candidate>, pairs: set<Pair>)
    returns (r: Result<seq<Candidate>, Reason>)
    ensures r == Excluded(candidates, pairs)
  {
    if pairs == {} {
      return Ok(candidates);
    }
    if exists p :: p in pairs && (p.0.None? || p.0.value == "") {
      return Err(UnknownError);
    }
    var models := ContributedModels(pairs);
    var independent: seq<Candidate>, fallback: seq<Candidate>, unknownModels: seq<Candidate> := [], [], [];
    for i := 0 to |candidates|
      invariant independent == Kept(candidates[..i], pairs, IsIndependent)
      invariant fallback == Kept(candidates[..i], pairs, IsFallback)
      invariant unknownModels == Kept(candidates[..i], pairs, IsUnverifiable)
    {
      var v := candidates[i];
      assert candidates[..i + 1] == candidates[..i] + [v];
      KeptAppend(candidates[..i], v, pairs, IsIndependent);
      KeptAppend(candidates[..i], v, pairs, IsFallback);
      KeptAppend(candidates[..i], v, pairs, IsUnverifiable);
      var class_ := Sort(v, pairs, models);
      match class_
      case IsIndependent => independent := independent + [v];
      case IsFallback => fallback := fallback + [v];
      case IsUnverifiable => unknownModels := unknownModels + [v];
      case IsContributor =>
    }
    assert candidates[..|candidates|] == candidates;
    if independent != [] {
      return Ok(independent);
    }
    if fallback != [] {
      return Ok(fallback);
    }
    r := Err(if unknownModels != [] then UnknownModelsOnly else AllAreContributors);
  }

  // ---------------------------------------------------------------- selection and reservation

  function Filter(candidates: seq<Candidate>, keep: Candidate -> bool): (r: seq<Candidate>)
    ensures forall v :: v in r <==> v in candidates && keep(v)
  {
    if candidates == [] then []
    else if keep(candidates[0]) then [candidates[0]] + Filter(candidates[1..], keep)
    else Filter(candidates[1..], keep)
  }

  /** The candidates whose exact provider and model are not in `exclude`. */
  function Unattempted(candidates: seq<Candidate>, exclude: set<(string, string)>): (r: seq<Candidate>)
    ensures forall v :: v in r <==> v in candidates && (v.provider, v.model) !in exclude
    ensures exclude == {} ==> r == candidates
  {
    if candidates == [] then []
    else
      var rest := Unattempted(candidates[1..], exclude);
      if (candidates[0].provider, candidates[0].model) !in exclude then [candidates[0]] + rest else rest
  }

  /** Every currently eligible auditor, in selection order. */
  function Eligible(sel: Selector, contributors: seq<Contributor>): Result<seq<Candidate>, Reason> {
    var passing := Filter(sel.role, sel.policy);
    if sel.role == [] then Err(EmptyRole)
    else if passing == [] then Err(PolicyFailure)
    else Excluded(passing, ContributorPairs(contributors))
  }

  /** `select_candidates`: eligible auditors whose exact provider and model were not attempted. */
  function SelectCandidates(sel: Selector, contributors: seq<Contributor>, exclude: set<(string, string)>)
    : (r: Result<seq<Candidate>, Reason>)
    ensures r.Ok? ==> r.value != []
    ensures r.Ok? ==> forall v :: v in r.value ==> (v.provider, v.model) !in exclude
  {
    var eligible := Eligible(sel, contributors);
    if eligible.Err? then eligible
    else
      var remaining := Unattempted(eligible.value, exclude);
      if remaining != [] then Ok(remaining) else Err(AllAttempted)
  }

  datatype Reservation = Reservation(
    remaining: seq<Candidate>, reserved: Option<Candidate>, reason: Option<Reason>)

  /** Everything offered except the reserved identity, order kept. */
  function Without(offered: seq<Candidate>, reserved: Candidate): (r: seq<Candidate>)
    ensures forall v :: v in r <==> v in offered && CandidatePair(v) != CandidatePair(reserved)
  {
    if offered == [] then []
    else
      var rest := Without(offered[1..], reserved);
      if CandidatePair(offered[0]) != CandidatePair(reserved) then [offered[0]] + rest else rest
  }

  /** `reserve_for_contributor_candidates`. */
  function Reserve(sel: Selector, offered: seq<Candidate>, contributors: seq<Contributor>): Reservation {
    var eligible := SelectCandidates(sel, contributors, {});
    if eligible.Err? then Reservation([], None, Some(eligible.error))
    else
      var auditors := eligible.value;
      var available := set v | v in auditors :: CandidatePair(v);
      var last := auditors[|auditors| - 1];
      if forall v :: v in offered ==> CandidatePair(v) !in available then
        Reservation(offered, Some(last), None)
      else if Without(offered, last) != [] then
        Reservation(Without(offered, last), Some(last), None)
      else
        Reservation([], Some(last), Some(
          if |auditors| == 1 then InsufficientIndependentCandidates else AuditorReservationRequired))
  }

  // ---------------------------------------------------------------- what selection guarantees

  lemma ContributedPair(contributors: seq<Contributor>, k: Contributor)
    requires k in contributors
    ensures ContributorPair(k) in ContributorPairs(contributors)
  {
  }

  /** Independence is never claimed without evidence: every selected auditor differs from every
      recorded contributor in provider, or in a model both of which are known. */
  lemma SelectedAreIndependent(sel: Selector, contributors: seq<Contributor>, exclude: set<(string, string)>,
                               v: Candidate, k: Contributor)
    requires SelectCandidates(sel, contributors, exclude).Ok?
    requires v in SelectCandidates(sel, contributors, exclude).value && k in contributors
    ensures v in sel.role && sel.policy(v)
    ensures k.provider.Some? && Strip(k.provider.value) != ""
    ensures Strip(k.provider.value) != v.provider
      || (Known(v) && NormalizeModel(k.model).Some? && NormalizeModel(k.model) != NormalizeModel(Some(v.model)))
  {
    var pairs := ContributorPairs(contributors);
    ContributedPair(contributors, k);
    assert ContributorPair(k) in pairs;
    assert Viable(v, pairs);
    if k.provider.Some? && Strip(k.provider.value) == v.provider {
      assert Contributed(v.provider, pairs);
    }
  }

  /** Selection succeeds exactly when no contributor is anonymous and some candidate that passes
      the policy is viable. */
  lemma EligibleIff(sel: Selector, contributors: seq<Contributor>)
    ensures var pairs := ContributorPairs(contributors);
      Eligible(sel, contributors).Ok? <==>
        !Anonymous(pairs) && exists v :: v in sel.role && sel.policy(v) && Viable(v, pairs)
    ensures Eligible(sel, contributors).Ok? ==>
      Eligible(sel, contributors).value != [] &&
      forall v :: v in Eligible(sel, contributors).value ==>
        v in sel.role && sel.policy(v) && Viable(v, ContributorPairs(contributors))
  {
    var pairs := ContributorPairs(contributors);
    var passing := Filter(sel.role, sel.policy);
    if passing != [] {
      assert passing[0] in passing;
      if pairs == {} {
        assert Viable(passing[0], pairs);
      }
      forall v | v in passing && Viable(v, pairs)
        ensures v in Kept(passing, pairs, IsIndependent) || v in Kept(passing, pairs, IsFallback)
      {
      }
      var independent, fallback := Kept(passing, pairs, IsIndependent), Kept(passing, pairs, IsFallback);
      assert independent != [] ==> independent[0] in independent && Viable(independent[0], pairs);
      assert fallback != [] ==> fallback[0] in fallback && Viable(fallback[0], pairs);
    }
  }

  // ---------------------------------------------------------------- the reservation, over runs

  /** The durable record of dispatching `c` as a contributor. */
  function Record(c: Candidate): Contributor {
    Contributor(Some(c.provider), Some(c.model))
  }

  /** `c` working on the task costs `v` its demonstrable independence. */
  predicate Spoils(c: Candidate, v: Candidate) {
    && v.provider == Strip(c.provider)
    && (!Known(c) || !Known(v) || NormalizeModel(Some(c.model)) == NormalizeModel(Some(v.model)))
  }

  lemma PairsAppend(contributors: seq<Contributor>, k: Contributor)
    ensures ContributorPairs(contributors + [k]) == ContributorPairs(contributors) + {ContributorPair(k)}
  {
    forall p | p in ContributorPairs(contributors) + {ContributorPair(k)}
      ensures p in ContributorPairs(contributors + [k])
    {
      if p == ContributorPair(k) {
        assert k in contributors + [k];
      } else {
        var c :| c in contributors && ContributorPair(c) == p;
        assert c in contributors + [k];
      }
    }
  }

  /** The one-step law of viability, in both directions. */
  lemma DispatchSpoils(contributors: seq<Contributor>, c: Candidate, v: Candidate)
    ensures Viable(v, ContributorPairs(contributors + [Record(c)]))
      <==> Viable(v, ContributorPairs(contributors)) && !Spoils(c, v)
  {
    var pairs, pair := ContributorPairs(contributors), ContributorPair(Record(c));
    var pairs' := pairs + {pair};
    PairsAppend(contributors, Record(c));
    assert pair == (Some(Strip(c.provider)), NormalizeModel(Some(c.model)));
    assert Contributed(v.provider, pairs') <==> Contributed(v.provider, pairs) || v.provider == Strip(c.provider) by {
      if v.provider == Strip(c.provider) {
        assert pair in pairs' && pair.0 == Some(v.provider);
      }
      if Contributed(v.provider, pairs) {
        var p :| p in pairs && p.0 == Some(v.provider);
        assert p in pairs';
      }
    }
    if !Contributed(v.provider, pairs) {
      assert (Some(v.provider), None) !in pairs;
      assert (Some(v.provider), NormalizeModel(Some(v.model))) !in pairs;
    }
  }

  /** A contributor dispatch: `c` was left available by the reservation. */
  predicate Dispatchable(sel: Selector, contributors: seq<Contributor>, offered: seq<Candidate>, c: Candidate) {
    var r := Reserve(sel, offered, contributors);
    r.reason.None? && r.reserved.Some? && c in r.remaining
  }

  /** The hypotheses under which the reserved auditor is certain to survive the dispatch. */
  predicate Identified(c: Candidate, reserved: Candidate) {
    && Strip(c.provider) != ""
    && (reserved.provider == Strip(c.provider) ==> Known(c) && Known(reserved))
  }

  lemma SelectedIsEligible(sel: Selector, contributors: seq<Contributor>, v: Candidate)
    requires SelectCandidates(sel, contributors, {}).Ok?
    requires v in SelectCandidates(sel, contributors, {}).value
    ensures v in sel.role && sel.policy(v) && Viable(v, ContributorPairs(contributors))
    ensures !Anonymous(ContributorPairs(contributors))
  {
    EligibleIff(sel, contributors);
  }

  lemma RemainingDiffers(sel: Selector, contributors: seq<Contributor>, offered: seq<Candidate>, c: Candidate)
    requires Dispatchable(sel, contributors, offered, c)
    ensures SelectCandidates(sel, contributors, {}).Ok?
    ensures var r := Reserve(sel, offered, contributors).reserved.value;
      && r in SelectCandidates(sel, contributors, {}).value
      && c in offered && CandidatePair(c) != CandidatePair(r)
  {
    var auditors := SelectCandidates(sel, contributors, {}).value;
    var last := auditors[|auditors| - 1];
    assert last in auditors;
    var available := set v | v in auditors :: CandidatePair(v);
    assert CandidatePair(last) in available;
  }

  lemma ReservedIsEligible(sel: Selector, contributors: seq<Contributor>, offered: seq<Candidate>, c: Candidate)
    requires Dispatchable(sel, contributors, offered, c)
    ensures var r := Reserve(sel, offered, contributors).reserved.value;
      && r in sel.role && sel.policy(r) && Viable(r, ContributorPairs(contributors))
      && CandidatePair(c) != CandidatePair(r)
      && c in offered && !Anonymous(ContributorPairs(contributors))
  {
    RemainingDiffers(sel, contributors, offered, c);
    SelectedIsEligible(sel, contributors, Reserve(sel, offered, contributors).reserved.value);
  }

  /** Exactly when the reserved auditor survives: the dispatched provider is identified, and if it
      is the reserved provider then both models are known. */
  lemma ReservedSurvivesIff(sel: Selector, contributors: seq<Contributor>, offered: seq<Candidate>, c: Candidate)
    requires Dispatchable(sel, contributors, offered, c)
    ensures var r := Reserve(sel, offered, contributors).reserved.value;
      var after := ContributorPairs(contributors + [Record(c)]);
      !Anonymous(after) && Viable(r, after) <==> Identified(c, r)
  {
    ReservedIsEligible(sel, contributors, offered, c);
    var r := Reserve(sel, offered, contributors).reserved.value;
    var after := ContributorPairs(contributors + [Record(c)]);
    PairsAppend(contributors, Record(c));
    DispatchSpoils(contributors, c, r);
    StripIdempotent(c.provider);
    assert ContributorPair(Record(c)) in after;
  }

  lemma AnonymousAfterIff(contributors: seq<Contributor>, c: Candidate)
    ensures Anonymous(ContributorPairs(contributors + [Record(c)]))
      <==> Anonymous(ContributorPairs(contributors)) || Strip(c.provider) == ""
  {
    PairsAppend(contributors, Record(c));
    var pairs, pair := ContributorPairs(contributors), ContributorPair(Record(c));
    assert pair in pairs + {pair} && pair.0 == Some(Strip(c.provider));
    if p :| p in pairs && (p.0.None? || p.0.value == "") {
      assert p in pairs + {pair};
    }
  }

  /** A candidate that the policy passes, that is viable, and that the dispatch does not spoil. */
  predicate Outlives(sel: Selector, contributors: seq<Contributor>, c: Candidate, v: Candidate) {
    v in sel.role && sel.policy(v) && Viable(v, ContributorPairs(contributors)) && !Spoils(c, v)
  }

  /** Exactly when some auditor stays eligible after a dispatch. */
  lemma EligibleAfterIff(sel: Selector, contributors: seq<Contributor>, c: Candidate)
    ensures Eligible(sel, contributors + [Record(c)]).Ok? <==>
      && !Anonymous(ContributorPairs(contributors)) && Strip(c.provider) != ""
      && exists v :: Outlives(sel, contributors, c, v)
  {
    EligibleIff(sel, contributors + [Record(c)]);
    AnonymousAfterIff(contributors, c);
    forall v ensures Viable(v, ContributorPairs(contributors + [Record(c)]))
      <==> Viable(v, ContributorPairs(contributors)) && !Spoils(c, v)
    {
      DispatchSpoils(contributors, c, v);
    }
    var after := ContributorPairs(contributors + [Record(c)]);
    if v :| v in sel.role && sel.policy(v) && Viable(v, after) {
      assert Outlives(sel, contributors, c, v);
    }
  }

  /** A dispatch that the reservation allows empties the eligible auditors if and only if the
      provider is not identified or every viable candidate is spoiled, the reserved one included. */
  lemma DispatchEmptiesIff(sel: Selector, contributors: seq<Contributor>, offered: seq<Candidate>, c: Candidate)
    requires Dispatchable(sel, contributors, offered, c)
    ensures Eligible(sel, contributors + [Record(c)]).Err? <==>
      Strip(c.provider) == "" ||
      forall v :: v in sel.role && sel.policy(v) && Viable(v, ContributorPairs(contributors)) ==> Spoils(c, v)
  {
    ReservedIsEligible(sel, contributors, offered, c);
    EligibleAfterIff(sel, contributors, c);
    if v :| v in sel.role && sel.policy(v) && Viable(v, ContributorPairs(contributors)) && !Spoils(c, v) {
      assert Outlives(sel, contributors, c, v);
    }
  }

  /** One dispatch never empties the eligible auditors when the reserved one is certain to survive. */
  lemma DispatchKeepsAuditor(sel: Selector, contributors: seq<Contributor>, offered: seq<Candidate>, c: Candidate)
    requires Dispatchable(sel, contributors, offered, c)
    requires Identified(c, Reserve(sel, offered, contributors).reserved.value)
    ensures Eligible(sel, contributors + [Record(c)]).Ok?
  {
    var r := Reserve(sel, offered, contributors).reserved.value;
    ReservedIsEligible(sel, contributors, offered, c);
    ReservedSurvivesIff(sel, contributors, offered, c);
    DispatchSpoils(contributors, c, r);
    assert Outlives(sel, contributors, c, r);
    EligibleAfterIff(sel, contributors, c);
  }

  datatype Dispatch = Dispatch(offered: seq<Candidate>, chosen: Candidate)

  ghost predicate SafeDispatch(sel: Selector, contributors: seq<Contributor>, d: Dispatch) {
    && Dispatchable(sel, contributors, d.offered, d.chosen)
    && Identified(d.chosen, Reserve(sel, d.offered, contributors).reserved.value)
  }

  /** A run of contributor dispatches, each allowed by the reservation made at that moment. */
  ghost predicate ReservedRun(sel: Selector, contributors: seq<Contributor>, run: seq<Dispatch>)
    decreases |run|
  {
    run == [] ||
    ( && SafeDispatch(sel, contributors, run[0])
      && ReservedRun(sel, contributors + [Record(run[0].chosen)], run[1..]))
  }

  function After(contributors: seq<Contributor>, run: seq<Dispatch>): seq<Contributor>
    decreases |run|
  {
    if run == [] then contributors else After(contributors + [Record(run[0].chosen)], run[1..])
  }

  lemma {:induction false} ViableAfterRunIff(contributors: seq<Contributor>, run: seq<Dispatch>, v: Candidate)
    ensures Viable(v, ContributorPairs(After(contributors, run)))
      <==> Viable(v, ContributorPairs(contributors)) && forall i :: 0 <= i < |run| ==> !Spoils(run[i].chosen, v)
    decreases |run|
  {
    if run != [] {
      DispatchSpoils(contributors, run[0].chosen, v);
      ViableAfterRunIff(contributors + [Record(run[0].chosen)], run[1..], v);
      assert forall i :: 0 < i < |run| ==> run[i] == run[1..][i - 1];
    }
  }

  lemma {:induction false} AnonymousAfterRunIff(contributors: seq<Contributor>, run: seq<Dispatch>)
    ensures Anonymous(ContributorPairs(After(contributors, run)))
      <==>
      || Anonymous(ContributorPairs(contributors))
      || exists i :: 0 <= i < |run| && Strip(run[i].chosen.provider) == ""
    decreases |run|
  {
    if run != [] {
      AnonymousAfterIff(contributors, run[0].chosen);
      AnonymousAfterRunIff(contributors + [Record(run[0].chosen)], run[1..]);
      assert forall i :: 0 < i < |run| ==> run[i] == run[1..][i - 1];
    }
  }

  /** A candidate that no dispatch of the run spoils. */
  predicate OutlivesRun(sel: Selector, contributors: seq<Contributor>, run: seq<Dispatch>, v: Candidate) {
    && v in sel.role && sel.policy(v) && Viable(v, ContributorPairs(contributors))
    && forall i :: 0 <= i < |run| ==> !Spoils(run[i].chosen, v)
  }

  /** The exact law over any run of dispatches, reserved or not: an auditor is eligible at the end if
      and only if every contributor is identified and some candidate was spoiled by none of them. */
  lemma EligibleAfterRunIff(sel: Selector, contributors: seq<Contributor>, run: seq<Dispatch>)
    ensures Eligible(sel, After(contributors, run)).Ok? <==>
      && !Anonymous(ContributorPairs(contributors))
      && (forall i :: 0 <= i < |run| ==> Strip(run[i].chosen.provider) != "")
      && exists v :: OutlivesRun(sel, contributors, run, v)
  {
    var after := ContributorPairs(After(contributors, run));
    EligibleIff(sel, After(contributors, run));
    AnonymousAfterRunIff(contributors, run);
    forall v ensures Viable(v, after)
      <==> Viable(v, ContributorPairs(contributors)) && forall i :: 0 <= i < |run| ==> !Spoils(run[i].chosen, v)
    {
      ViableAfterRunIff(contributors, run, v);
    }
    if v :| v in sel.role && sel.policy(v) && Viable(v, after) {
      assert OutlivesRun(sel, contributors, run, v);
    }
  }

  /** A run of dispatches reserved at their moment meets that law: one candidate outlives them all. */
  lemma {:induction false} AuditorAlwaysRemains(sel: Selector, contributors: seq<Contributor>, run: seq<Dispatch>)
    requires Eligible(sel, contributors).Ok? && ReservedRun(sel, contributors, run)
    ensures Eligible(sel, After(contributors, run)).Ok? && Eligible(sel, After(contributors, run)).value != []
    ensures exists v :: OutlivesRun(sel, contributors, run, v)
    decreases |run|
  {
    if run == [] {
      EligibleIff(sel, contributors);
    } else {
      DispatchKeepsAuditor(sel, contributors, run[0].offered, run[0].chosen);
      AuditorAlwaysRemains(sel, contributors + [Record(run[0].chosen)], run[1..]);
    }
    EligibleAfterRunIff(sel, contributors, run);
  }

  /** The reservation is not enough by itself: when every viable candidate is on one provider, a
      contributor there with an unresolved model is left available, and recording it leaves no
      eligible auditor. */
  lemma UnknownModelEmptiesAuditors(sel: Selector, contributors: seq<Contributor>, c: Candidate)
    requires Eligible(sel, contributors).Ok?
    requires Strip(c.provider) != "" && !Known(c)
    requires forall v :: v in sel.role && sel.policy(v) && Viable(v, ContributorPairs(contributors)) ==>
      v.provider == Strip(c.provider) && Known(v)
    ensures Dispatchable(sel, contributors, [c], c)
    ensures Eligible(sel, contributors + [Record(c)]).Err?
  {
    EligibleIff(sel, contributors);
    AloneDispatchable(sel, contributors, c);
    DispatchEmptiesIff(sel, contributors, [c], c);
  }

  /** The reservation leaves a candidate without a model available when every eligible auditor has one. */
  lemma AloneDispatchable(sel: Selector, contributors: seq<Contributor>, c: Candidate)
    requires Eligible(sel, contributors).Ok? && Eligible(sel, contributors).value != [] && !Known(c)
    requires forall v :: v in Eligible(sel, contributors).value ==> Known(v)
    ensures Dispatchable(sel, contributors, [c], c)
  {
    var auditors := SelectCandidates(sel, contributors, {}).value;
    forall v | v in auditors ensures CandidatePair(v) != CandidatePair(c) {
      NamedModel(v);
    }
  }

  lemma NamedModel(v: Candidate)
    requires Known(v)
    ensures Strip(v.model) != ""
  {
  }

  /** It is not certain to fail either: with a viable candidate on another provider an auditor
      remains, although the reserved one does not survive. */
  lemma ReservedLostAuditorKept(sel: Selector, v: Candidate, r: Candidate, c: Candidate)
    requires sel.role == [v, r] && sel.policy(v) && sel.policy(r)
    requires Strip(c.provider) != "" && !Known(c) && Known(r)
    requires r.provider == Strip(c.provider) && v.provider != r.provider && Strip(v.provider) == v.provider
    ensures Dispatchable(sel, [], [c], c)
    ensures !Identified(c, Reserve(sel, [c], []).reserved.value)
    ensures Eligible(sel, [Record(c)]).Ok?
  {
    assert Filter([v, r], sel.policy) == [v, r] by {
      assert [v, r][1..] == [r];
      assert Filter([r], sel.policy) == [r];
    }
    assert ContributorPairs([]) == {};
    assert SelectCandidates(sel, [], {}) == Ok([v, r]);
    StripIdempotent(c.provider);
    NamedModel(r);
    assert CandidatePair(c) != CandidatePair(v) && CandidatePair(c) != CandidatePair(r);
    assert Outlives(sel, [], c, v);
    EligibleAfterIff(sel, [], c);
    assert [] + [Record(c)] == [Record(c)];
  }

  /** Such candidates exist: an ACP provider whose model is left unset. */
  lemma UnknownModelEmptiesAuditorsWitness(sel: Selector)
    requires sel.role == [Candidate("p", "m")] && sel.policy(Candidate("p", "m"))
    ensures var c := Candidate("p", "");
      Dispatchable(sel, [], [c], c) && Eligible(sel, [Record(c)]).Err?
  {
    assert Strip("p") == "p";
    assert !Known(Candidate("p", ""));
    KnownModel();
    assert Filter([Candidate("p", "m")], sel.policy) == [Candidate("p", "m")];
    assert ContributorPairs([]) == {} && Eligible(sel, []) == Ok([Candidate("p", "m")]);
    UnknownModelEmptiesAuditors(sel, [], Candidate("p", ""));
    assert [] + [Record(Candidate("p", ""))] == [Record(Candidate("p", ""))];
  }

  lemma KnownModel()
    ensures Known(Candidate("p", "m"))
  {
    assert Strip("m") == "m";
    assert |CaseFold("m")| == 1;
    assert forall name :: name in UNKNOWN_MODEL_NAMES ==> |name| != 1;
  }
}
