/**
 The churn store: per project, a rolling window of conflict events and the per-file counts that
 are kept up to date beside it.  The two classes are proved against functions on `State` values;
 the lemmas compare every run of those functions with recounting the log of accepted events.
 */
module ChurnStore {
  import Text

  datatype Conflict = Conflict(project: string, path: string, at: int, review: string)

  datatype State = State(history: seq<Conflict>, counts: map<string, nat>, total: nat, updated: int)

  const EMPTY := State([], map[], 0, 0)

  function Counted(counts: map<string, nat>, path: string): nat {
    if path in counts then counts[path] else 0
  }

  /** The per-file counts of a history, counted from scratch. */
  function Recount(history: seq<Conflict>): map<string, nat> {
    if history == [] then map[]
    else
      var counts := Recount(history[..|history| - 1]);
      var path := history[|history| - 1].path;
      counts[path := Counted(counts, path) + 1]
  }

  /** How often a file occurs. */
  function Occurrences(history: seq<Conflict>, path: string): nat {
    if history == [] then 0
    else Occurrences(history[..|history| - 1], path) + if history[|history| - 1].path == path then 1 else 0
  }

  lemma {:induction false} RecountCounts(history: seq<Conflict>, path: string)
    ensures Counted(Recount(history), path) == Occurrences(history, path)
    ensures path in Recount(history) <==> Occurrences(history, path) > 0
  {
    if history != [] {
      RecountCounts(history[..|history| - 1], path);
    }
  }

  /** Python's `history[-n:]`: the newest `n`; everything for 0; all but the oldest `-n` below 0. */
  function Tail(history: seq<Conflict>, n: int): seq<Conflict> {
    if n > 0 then if n < |history| then history[|history| - n..] else history
    else if -n < |history| then history[-n..] else []
  }

  // ---------------------------------------------------------------- effects

  function Add(s: State, c: Conflict): State {
    State(s.history + [c], s.counts[c.path := Counted(s.counts, c.path) + 1], s.total + 1, c.at)
  }

  function AddAll(s: State, cs: seq<Conflict>): State {
    if cs == [] then s else Add(AddAll(s, cs[..|cs| - 1]), cs[|cs| - 1])
  }

  /** The window check after recording: the counts are rebuilt, the total is not touched. */
  function Prune(s: State, window: int): State {
    if |s.history| > window
    then s.(history := Tail(s.history, window), counts := Recount(Tail(s.history, window)))
    else s
  }

  function Cleared(s: State, keepLast: int): State {
    if keepLast >= |s.history| then s
    else if keepLast > 0 then s.(history := Tail(s.history, keepLast), counts := Recount(Tail(s.history, keepLast)))
    else s.(history := [], counts := map[], total := 0)
  }

  /** `dict.fromkeys`: the first occurrence of each path, in order. */
  function Dedup(paths: seq<string>): (r: seq<string>)
    ensures forall p :: p in r <==> p in paths
    ensures forall i, j :: 0 <= i < j < |r| ==> r[i] != r[j]
  {
    if paths == [] then []
    else
      var before := Dedup(paths[..|paths| - 1]);
      var path := paths[|paths| - 1];
      if path in before then before else before + [path]
  }

  function Events(project: string, paths: seq<string>, review: string, at: int): seq<Conflict> {
    seq(|paths|, i requires 0 <= i < |paths| => Conflict(project, paths[i], at, review))
  }

  type Store = map<string, State>

  function StateOf(store: Store, project: string): State {
    if project in store then store[project] else EMPTY
  }

  datatype Op =
    | RecordConflict(project: string, path: string, review: string, at: int)
    | RecordConflicts(project: string, paths: seq<string>, review: string, at: int)
    | ClearProject(project: string)
    | ClearWindow(project: string, keepLast: int)

  /** The events one call records. */
  function Recorded(op: Op): seq<Conflict> {
    match op
    case RecordConflict(p, path, review, at) => Events(p, [path], review, at)
    case RecordConflicts(p, paths, review, at) => Events(p, Dedup(paths), review, at)
    case ClearProject(_) => []
    case ClearWindow(_, _) => []
  }

  function Apply(store: Store, window: int, op: Op): Store {
    match op
    case RecordConflict(p, _, _, _) => store[p := Prune(AddAll(StateOf(store, p), Recorded(op)), window)]
    case RecordConflicts(p, _, _, _) => store[p := Prune(AddAll(StateOf(store, p), Recorded(op)), window)]
    case ClearProject(p) => store - {p}
    case ClearWindow(p, keepLast) => if p in store then store[p := Cleared(store[p], keepLast)] else store
  }

  // ---------------------------------------------------------------- ranking

  datatype Ranked = Ranked(path: string, count: nat)

  /** The sort key `(-count, path)`. */
  predicate Before(a: Ranked, b: Ranked) {
    b.count < a.count || (a.count == b.count && Text.Less(a.path, b.path))
  }

  predicate Ordered(r: seq<Ranked>) {
    forall i, j :: 0 <= i < j < |r| ==> Before(r[i], r[j])
  }

  ghost predicate IsRanking(r: seq<Ranked>, counts: map<string, nat>) {
    Ordered(r) && forall x :: x in r <==> x.path in counts && counts[x.path] == x.count
  }

  /** Python's `[:n]`. */
  function Cut(r: seq<Ranked>, n: int): seq<Ranked> {
    if n < 0 then if -n < |r| then r[..|r| + n] else []
    else if n < |r| then r[..n] else r
  }

  ghost predicate IsTop(top: seq<Ranked>, counts: map<string, nat>, n: int) {
    exists r :: IsRanking(r, counts) && top == Cut(r, n)
  }

  lemma BeforeTotal(a: Ranked, b: Ranked)
    ensures Before(a, b) || Before(b, a) || a == b
  {
    Text.LessTotal(a.path, b.path);
  }

  lemma BeforeAsymmetric(a: Ranked, b: Ranked)
    requires Before(a, b)
    ensures a != b && !Before(b, a)
  {
    if a.count == b.count {
      Text.LessAsymmetric(a.path, b.path);
    }
  }

  lemma BeforeTransitive(a: Ranked, b: Ranked, c: Ranked)
    requires Before(a, b) && Before(b, c)
    ensures Before(a, c)
  {
    if a.count == b.count == c.count {
      Text.LessTransitive(a.path, b.path, c.path);
    }
  }

  /** Two ordered sequences with the same elements are the same sequence. */
  lemma {:induction false} OrderedUnique(r: seq<Ranked>, q: seq<Ranked>)
    requires Ordered(r) && Ordered(q) && forall x :: x in r <==> x in q
    ensures r == q
  {
    if r == [] {
      assert forall k :: 0 <= k < |q| ==> q[k] in q;
    } else {
      assert r[0] in q;
      var i :| 0 <= i < |q| && q[i] == r[0];
      assert q[0] in r;
      var j :| 0 <= j < |r| && r[j] == q[0];
      if 0 < i && 0 < j {
        BeforeAsymmetric(r[0], r[j]);
      }
      assert r[0] == q[0];
      forall x ensures x in r[1..] <==> x in q[1..] {
        TailElements(r, x);
        TailElements(q, x);
      }
      OrderedUnique(r[1..], q[1..]);
      assert r == [r[0]] + r[1..] && q == [q[0]] + q[1..];
    }
  }

  lemma TailElements(r: seq<Ranked>, x: Ranked)
    requires Ordered(r) && r != []
    ensures x in r[1..] <==> x in r && x != r[0]
  {
    assert r == [r[0]] + r[1..];
    if x in r[1..] {
      var i :| 0 <= i < |r| - 1 && r[1..][i] == x;
      assert Before(r[0], r[i + 1]);
      BeforeAsymmetric(r[0], x);
    }
  }

  /** The counts decide the answer: there is one ranking, hence one top. */
  lemma TopUnique(top: seq<Ranked>, top': seq<Ranked>, counts: map<string, nat>, n: int)
    requires IsTop(top, counts, n) && IsTop(top', counts, n)
    ensures top == top'
  {
    var r :| IsRanking(r, counts) && top == Cut(r, n);
    var q :| IsRanking(q, counts) && top' == Cut(q, n);
    OrderedUnique(r, q);
  }

  /** The path no other path in the set comes before. */
  predicate IsFirst(counts: map<string, nat>, paths: set<string>, path: string)
    requires paths <= counts.Keys && path in paths
  {
    forall p :: p in paths && p != path ==> Before(Ranked(path, counts[path]), Ranked(p, counts[p]))
  }

  lemma {:induction false} FirstExists(counts: map<string, nat>, paths: set<string>)
    requires paths <= counts.Keys && paths != {}
    ensures exists path :: path in paths && IsFirst(counts, paths, path)
    decreases |paths|
  {
    var p: string :| p in paths;
    var others := paths - {p};
    if others == {} {
      forall o | o in paths ensures o == p {
        assert o in others || o == p;
      }
      assert IsFirst(counts, paths, p);
    } else {
      FirstExists(counts, others);
      var q: string :| q in others && IsFirst(counts, others, q);
      BeforeTotal(Ranked(p, counts[p]), Ranked(q, counts[q]));
      if Before(Ranked(p, counts[p]), Ranked(q, counts[q])) {
        forall o | o in paths && o != p ensures Before(Ranked(p, counts[p]), Ranked(o, counts[o])) {
          if o != q {
            BeforeTransitive(Ranked(p, counts[p]), Ranked(q, counts[q]), Ranked(o, counts[o]));
          }
        }
        assert IsFirst(counts, paths, p);
      } else {
        assert IsFirst(counts, paths, q);
      }
    }
  }

  // ---------------------------------------------------------------- the objects

  class ProjectChurnState {
    var conflictHistory: seq<Conflict>
    var fileCounts: map<string, nat>
    var totalConflicts: nat
    var lastUpdated: int

    function View(): State
      reads this
    {
      State(conflictHistory, fileCounts, totalConflicts, lastUpdated)
    }

    constructor ()
      ensures View() == EMPTY
    {
      conflictHistory, fileCounts, totalConflicts, lastUpdated := [], map[], 0, 0;
    }

    method AddConflict(record: Conflict)
      modifies this
      ensures View() == Add(old(View()), record)
    {
      conflictHistory := conflictHistory + [record];
      fileCounts := fileCounts[record.path := Counted(fileCounts, record.path) + 1];
      totalConflicts := totalConflicts + 1;
      lastUpdated := record.at;
    }

    /** Replaces the history by a part of it and counts that part again. */
    method Keep(recent: seq<Conflict>)
      modifies this
      ensures View() == old(View()).(history := recent, counts := Recount(recent))
    {
      var counts: map<string, nat> := map[];
      for i := 0 to |recent|
        invariant counts == Recount(recent[..i])
      {
        assert recent[..i + 1][..i] == recent[..i];
        counts := counts[recent[i].path := Counted(counts, recent[i].path) + 1];
      }
      assert recent[..|recent|] == recent;
      conflictHistory, fileCounts := recent, counts;
    }

    method PruneToWindow(window: int)
      modifies this
      ensures View() == Prune(old(View()), window)
    {
      if |conflictHistory| > window {
        Keep(Tail(conflictHistory, window));
      }
    }

    /** Adds one event per path and checks the window. */
    method Record(project: string, paths: seq<string>, review: string, at: int, window: int)
      modifies this
      ensures View() == Prune(AddAll(old(View()), Events(project, paths, review, at)), window)
    {
      ghost var events := Events(project, paths, review, at);
      for i := 0 to |paths|
        invariant View() == AddAll(old(View()), events[..i])
      {
        assert events[..i + 1][..i] == events[..i];
        AddConflict(Conflict(project, paths[i], at, review));
      }
      assert events[..|paths|] == events;
      PruneToWindow(window);
    }

    /** The first `n` files by falling count and then by path. */
    method TopFiles(n: int) returns (top: seq<Ranked>)
      ensures IsTop(top, fileCounts, n)
    {
      var ranking: seq<Ranked> := [];
      var todo := fileCounts.Keys;
      while todo != {}
        invariant todo <= fileCounts.Keys && Ordered(ranking)
        invariant forall r :: r in ranking <==> r.path in fileCounts && r.path !in todo && fileCounts[r.path] == r.count
        invariant forall i, p :: 0 <= i < |ranking| && p in todo ==> Before(ranking[i], Ranked(p, fileCounts[p]))
        decreases |todo|
      {
        FirstExists(fileCounts, todo);
        var path: string :| path in todo && IsFirst(fileCounts, todo, path);
        ranking := ranking + [Ranked(path, fileCounts[path])];
        todo := todo - {path};
      }
      assert IsRanking(ranking, fileCounts);
      top := Cut(ranking, n);
    }
  }

  /** Making sure of the project's state and then recording into it is what the call does. */
  lemma ApplyRecords(before: Store, ready: Store, after: Store, window: int, op: Op)
    requires op.RecordConflict? || op.RecordConflicts?
    requires ready == before[op.project := StateOf(before, op.project)]
    requires after == ready[op.project := Prune(AddAll(ready[op.project], Recorded(op)), window)]
    ensures after == Apply(before, window, op)
  {
  }

  /** The store object; every project has a state object of its own. */
  class ChurnMagnetStore {
    const windowSize: int
    var projects: map<string, ProjectChurnState>

    ghost predicate Valid()
      reads this
    {
      forall p, q :: p in projects && q in projects && p != q ==> projects[p] != projects[q]
    }

    ghost function View(): Store
      reads this, projects.Values
    {
      map p | p in projects :: projects[p].View()
    }

    constructor (windowSize: int)
      ensures Valid() && View() == map[] && projects == map[] && this.windowSize == windowSize
    {
      this.windowSize := windowSize;
      projects := map[];
    }

    /** Creates the project's state object when it is missing. */
    method Ensure(project: string)
      requires Valid()
      modifies this
      ensures Valid() && project in projects && fresh(projects.Values - old(projects.Values))
      ensures View() == old(View())[project := StateOf(old(View()), project)]
    {
      if project !in projects {
        var created := new ProjectChurnState();
        projects := projects[project := created];
      }
    }

    /** Records into a project that has a state object; the others keep theirs as they are. */
    method RecordInto(project: string, paths: seq<string>, review: string, at: int)
      requires Valid() && project in projects
      modifies projects.Values
      ensures View() == old(View())[project :=
        Prune(AddAll(old(View())[project], Events(project, paths, review, at)), windowSize)]
    {
      projects[project].Record(project, paths, review, at, windowSize);
    }

    method RecordConflict(project: string, path: string, review: string, at: int)
      requires Valid()
      modifies this, projects.Values
      ensures Valid() && fresh(projects.Values - old(projects.Values))
      ensures View() == Apply(old(View()), windowSize, Op.RecordConflict(project, path, review, at))
    {
      ghost var before := View();
      Ensure(project);
      ghost var ready := View();
      RecordInto(project, [path], review, at);
      ApplyRecords(before, ready, View(), windowSize, Op.RecordConflict(project, path, review, at));
    }

    method RecordConflicts(project: string, paths: seq<string>, review: string, at: int) returns (count: nat)
      requires Valid()
      modifies this, projects.Values
      ensures Valid() && fresh(projects.Values - old(projects.Values))
      ensures View() == Apply(old(View()), windowSize, Op.RecordConflicts(project, paths, review, at))
      ensures count == |Dedup(paths)|
    {
      var deduped := Dedup(paths);
      ghost var before := View();
      Ensure(project);
      ghost var ready := View();
      RecordInto(project, deduped, review, at);
      ApplyRecords(before, ready, View(), windowSize, Op.RecordConflicts(project, paths, review, at));
      count := |deduped|;
    }

    /** Forgets a project; says whether there was one. */
    method ClearProject(project: string) returns (removed: bool)
      requires Valid()
      modifies this
      ensures Valid() && projects.Values <= old(projects.Values)
      ensures View() == Apply(old(View()), windowSize, Op.ClearProject(project))
      ensures removed == (project in old(View()))
    {
      removed := project in projects;
      if removed {
        projects := projects - {project};
      }
    }

    /** Keeps only the newest records; says how many were pruned. */
    method ClearWindow(project: string, keepLast: int) returns (pruned: int)
      requires Valid()
      modifies this, projects.Values
      ensures Valid() && projects == old(projects)
      ensures View() == Apply(old(View()), windowSize, Op.ClearWindow(project, keepLast))
      ensures pruned == PrunedCount(old(View()), project, keepLast)
    {
      if project !in projects {
        return 0;
      }
      var state := projects[project];
      if keepLast >= |state.conflictHistory| {
        return 0;
      }
      pruned := |state.conflictHistory| - keepLast;
      if keepLast > 0 {
        state.Keep(Tail(state.conflictHistory, keepLast));
      } else {
        state.conflictHistory, state.fileCounts, state.totalConflicts := [], map[], 0;
      }
    }

    method GetTopFiles(project: string, n: int) returns (top: seq<Ranked>)
      requires Valid()
      ensures IsTop(top, StateOf(View(), project).counts, n)
    {
      if project !in projects {
        assert IsRanking([], map[]);
        return [];
      }
      top := projects[project].TopFiles(n);
    }
  }

  /** What `clear_window` says it pruned. */
  function PrunedCount(store: Store, project: string, keepLast: int): int {
    if project !in store || keepLast >= |store[project].history| then 0
    else |store[project].history| - keepLast
  }

  // ---------------------------------------------------------------- runs

  function Exec(window: int, ops: seq<Op>): Store {
    if ops == [] then map[] else Apply(Exec(window, ops[..|ops| - 1]), window, ops[|ops| - 1])
  }

  function Min(a: int, b: int): int {
    if a < b then a else b
  }

  /** The log of a project after a call that names it. */
  function SteppedLog(log: seq<Conflict>, op: Op): seq<Conflict> {
    match op
    case ClearProject(_) => []
    case ClearWindow(_, keepLast) => if keepLast > 0 then log else []
    case _ => log + Recorded(op)
  }

  /** How many of that log the window still holds. */
  function SteppedKept(window: int, kept: int, op: Op): int {
    match op
    case ClearProject(_) => 0
    case ClearWindow(_, keepLast) => if keepLast > 0 then Min(keepLast, kept) else 0
    case _ => Min(window, kept + |Recorded(op)|)
  }

  /** Every event recorded for a project since it was last cleared. */
  function Accepted(ops: seq<Op>, project: string): seq<Conflict> {
    if ops == [] then []
    else
      var before, op := Accepted(ops[..|ops| - 1], project), ops[|ops| - 1];
      if op.project == project then SteppedLog(before, op) else before
  }

  /** How many of those are still in the window. */
  function Kept(window: int, ops: seq<Op>, project: string): int {
    if ops == [] then 0
    else
      var before, op := Kept(window, ops[..|ops| - 1], project), ops[|ops| - 1];
      if op.project == project then SteppedKept(window, before, op) else before
  }

  lemma {:induction false} AddAllAdds(s: State, cs: seq<Conflict>)
    ensures AddAll(s, cs).history == s.history + cs && AddAll(s, cs).total == s.total + |cs|
    ensures s.counts == Recount(s.history) ==> AddAll(s, cs).counts == Recount(s.history + cs)
  {
    if cs == [] {
      assert s.history + cs == s.history;
    } else {
      var front := cs[..|cs| - 1];
      AddAllAdds(s, front);
      assert s.history + cs == (s.history + front) + [cs[|cs| - 1]];
      assert (s.history + cs)[..|s.history + cs| - 1] == s.history + front;
    }
  }

  /** A state that agrees with a log of accepted events: the newest `kept` of them are the history,
      and the counts and the total are what recounting gives. */
  predicate Agrees(s: State, log: seq<Conflict>, kept: int) {
    && 0 <= kept <= |log| && (kept == 0 ==> log == [])
    && s.history == log[|log| - kept..]
    && s.counts == Recount(s.history)
    && s.total == |log|
  }

  lemma AddingAgrees(s: State, log: seq<Conflict>, kept: int, cs: seq<Conflict>)
    requires Agrees(s, log, kept)
    ensures Agrees(AddAll(s, cs), log + cs, kept + |cs|)
  {
    AddAllAdds(s, cs);
    SuffixGrows(log, |log| - kept, cs);
    GrownAgrees(s, AddAll(s, cs), log, kept, cs);
  }

  lemma GrownAgrees(s: State, t: State, log: seq<Conflict>, kept: int, cs: seq<Conflict>)
    requires Agrees(s, log, kept) && t.history == s.history + cs && t.total == s.total + |cs|
    requires t.counts == Recount(s.history + cs)
    requires |log + cs| == |log| + |cs| && (log + cs)[|log| - kept..] == log[|log| - kept..] + cs
    ensures Agrees(t, log + cs, kept + |cs|)
  {
    assert |log + cs| - (kept + |cs|) == |log| - kept;
  }

  lemma SuffixGrows(log: seq<Conflict>, start: nat, cs: seq<Conflict>)
    requires start <= |log|
    ensures |log + cs| == |log| + |cs| && (log + cs)[start..] == log[start..] + cs
  {
  }

  /** Both ways of dropping old events keep the newest ones. */
  lemma TailAgrees(s: State, log: seq<Conflict>, kept: int, n: int)
    requires 0 < n < kept && Agrees(s, log, kept)
    ensures Agrees(s.(history := Tail(s.history, n), counts := Recount(Tail(s.history, n))), log, n)
  {
    assert Tail(s.history, n) == log[|log| - n..];
  }

  lemma RecordingAgrees(s: State, log: seq<Conflict>, kept: int, cs: seq<Conflict>, window: int)
    requires window > 0 && Agrees(s, log, kept)
    ensures Agrees(Prune(AddAll(s, cs), window), log + cs, Min(window, kept + |cs|))
  {
    AddingAgrees(s, log, kept, cs);
    if window < kept + |cs| {
      TailAgrees(AddAll(s, cs), log + cs, kept + |cs|, window);
    }
  }

  lemma ClearingAgrees(s: State, log: seq<Conflict>, kept: int, keepLast: int)
    requires Agrees(s, log, kept)
    ensures Agrees(Cleared(s, keepLast), if keepLast > 0 then log else [],
                   if keepLast > 0 then Min(keepLast, kept) else 0)
  {
    if 0 < keepLast < kept {
      TailAgrees(s, log, kept, keepLast);
    }
  }

  /** One call, seen from the project it names. */
  function Stepped(s: State, window: int, op: Op): State {
    match op
    case ClearProject(_) => EMPTY
    case ClearWindow(_, keepLast) => Cleared(s, keepLast)
    case _ => Prune(AddAll(s, Recorded(op)), window)
  }

  lemma ApplyStepped(store: Store, window: int, op: Op, project: string)
    ensures StateOf(Apply(store, window, op), project)
         == if op.project == project then Stepped(StateOf(store, project), window, op) else StateOf(store, project)
  {
  }

  lemma SteppedRecords(s: State, log: seq<Conflict>, kept: int, window: int, op: Op)
    requires !op.ClearProject? && !op.ClearWindow?
    ensures Stepped(s, window, op) == Prune(AddAll(s, Recorded(op)), window)
    ensures SteppedLog(log, op) == log + Recorded(op)
    ensures SteppedKept(window, kept, op) == Min(window, kept + |Recorded(op)|)
  {
  }

  lemma RecordingStepAgrees(s: State, log: seq<Conflict>, kept: int, window: int, op: Op)
    requires window > 0 && Agrees(s, log, kept) && !op.ClearProject? && !op.ClearWindow?
    ensures Agrees(Stepped(s, window, op), SteppedLog(log, op), SteppedKept(window, kept, op))
  {
    SteppedRecords(s, log, kept, window, op);
    RecordingAgrees(s, log, kept, Recorded(op), window);
  }

  lemma StepAgrees(s: State, log: seq<Conflict>, kept: int, window: int, op: Op)
    requires window > 0 && Agrees(s, log, kept)
    ensures Agrees(Stepped(s, window, op), SteppedLog(log, op), SteppedKept(window, kept, op))
  {
    if op.ClearWindow? {
      ClearingAgrees(s, log, kept, op.keepLast);
    } else if !op.ClearProject? {
      RecordingStepAgrees(s, log, kept, window, op);
    }
  }

  /** After every sequence of calls the incrementally kept index agrees with recounting the newest
      events, the history never exceeds the window, and the total counts every event accepted. */
  lemma {:induction false} RunAgrees(window: int, ops: seq<Op>, project: string)
    requires window > 0
    ensures Agrees(StateOf(Exec(window, ops), project), Accepted(ops, project), Kept(window, ops, project))
    ensures Kept(window, ops, project) <= window
  {
    if ops != [] {
      var front, op := ops[..|ops| - 1], ops[|ops| - 1];
      RunAgrees(window, front, project);
      var s, log, kept := StateOf(Exec(window, front), project), Accepted(front, project), Kept(window, front, project);
      ApplyStepped(Exec(window, front), window, op, project);
      if op.project == project {
        StepAgrees(s, log, kept, window, op);
      }
    }
  }

  /** The window bounds the history in every run if and only if it is positive: with a window of 0
      the slice `history[-0:]` is the whole history. */
  lemma WindowBoundsIff(window: int)
    ensures (forall ops, project :: |StateOf(Exec(window, ops), project).history| <= window) <==> window > 0
  {
    if window > 0 {
      forall ops, project ensures |StateOf(Exec(window, ops), project).history| <= window {
        RunAgrees(window, ops, project);
      }
    } else if window < 0 {
      var none: seq<Op> := [];
      assert |StateOf(Exec(window, none), "p").history| > window;
    } else {
      var op := Op.RecordConflict("p", "f", "1", 0);
      assert [op][..0] == [];
      var events := Recorded(op);
      AddAllAdds(EMPTY, events);
      assert |StateOf(Exec(window, [op]), "p").history| > window;
    }
  }

  /** The calls made the window drop an event of the project that no later call cleared: some call
      recorded more than fitted beside what was kept, or kept fewer than were there. */
  predicate Dropped(window: int, ops: seq<Op>, project: string) {
    ops != [] &&
    var front, op := ops[..|ops| - 1], ops[|ops| - 1];
    if op.project != project then Dropped(window, front, project)
    else
      match op
      case ClearProject(_) => false
      case ClearWindow(_, keepLast) =>
        0 < keepLast && (keepLast < Kept(window, front, project) || Dropped(window, front, project))
      case _ => window < Kept(window, front, project) + |Recorded(op)| || Dropped(window, front, project)
  }

  lemma {:induction false} DroppedIff(window: int, ops: seq<Op>, project: string)
    requires window > 0
    ensures Kept(window, ops, project) < |Accepted(ops, project)| <==> Dropped(window, ops, project)
  {
    if ops != [] {
      var front, op := ops[..|ops| - 1], ops[|ops| - 1];
      DroppedIff(window, front, project);
      RunAgrees(window, front, project);
    }
  }

  /** `total_conflicts` is documented as the events in the window.  It is that number if and only if
      the calls made the window drop nothing since the project was last cleared. */
  lemma TotalIsWindowIff(window: int, ops: seq<Op>, project: string)
    requires window > 0
    ensures var s := StateOf(Exec(window, ops), project);
      s.total == |s.history| <==> !Dropped(window, ops, project)
  {
    RunAgrees(window, ops, project);
    DroppedIff(window, ops, project);
  }

  /** With a window of one, two events on one file leave a total of two. */
  lemma TotalOutlivesWindow()
    ensures exists ops :: StateOf(Exec(1, ops), "p").total == 2 && |StateOf(Exec(1, ops), "p").history| == 1
  {
    var op := Op.RecordConflict("p", "f", "1", 0);
    var ops := [op, op];
    assert ops[..1] == [op] && [op][..0] == [];
    RunAgrees(1, ops, "p");
    assert Accepted([op], "p") == [] + Recorded(op);
    assert Kept(1, [op], "p") == 1 && Kept(1, ops, "p") == 1;
  }

  /** The ranking of the files of a history by how often they occur in it. */
  ghost predicate RanksHistory(r: seq<Ranked>, history: seq<Conflict>) {
    Ordered(r) && forall x: Ranked :: x in r <==> x.count > 0 && x.count == Occurrences(history, x.path)
  }

  /** The first `n` files of that ranking. */
  ghost predicate IsHistoryTop(top: seq<Ranked>, history: seq<Conflict>, n: int) {
    exists r :: RanksHistory(r, history) && top == Cut(r, n)
  }

  lemma CountsRankHistory(r: seq<Ranked>, history: seq<Conflict>)
    requires IsRanking(r, Recount(history))
    ensures RanksHistory(r, history)
  {
    forall x: Ranked ensures x in r <==> x.count > 0 && x.count == Occurrences(history, x.path) {
      RecountCounts(history, x.path);
    }
  }

  lemma CountsTopHistory(top: seq<Ranked>, history: seq<Conflict>, n: int)
    requires IsTop(top, Recount(history), n)
    ensures IsHistoryTop(top, history, n)
  {
    var r :| IsRanking(r, Recount(history)) && top == Cut(r, n);
    CountsRankHistory(r, history);
  }

  /** The newest accepted events of a project, as many as the window still holds. */
  function InWindow(window: int, ops: seq<Op>, project: string): seq<Conflict> {
    var log, kept := Accepted(ops, project), Kept(window, ops, project);
    if 0 <= kept <= |log| then log[|log| - kept..] else []
  }

  lemma WindowAgrees(window: int, ops: seq<Op>, project: string)
    requires window > 0
    ensures StateOf(Exec(window, ops), project).counts == Recount(InWindow(window, ops, project))
    ensures |InWindow(window, ops, project)| == Kept(window, ops, project)
  {
    RunAgrees(window, ops, project);
  }

  /** `top_files` answers from the counts what ranking the files of the newest events answers. */
  lemma TopFromHistory(window: int, ops: seq<Op>, project: string, top: seq<Ranked>, n: int)
    requires window > 0 && IsTop(top, StateOf(Exec(window, ops), project).counts, n)
    ensures IsHistoryTop(top, InWindow(window, ops, project), n)
  {
    WindowAgrees(window, ops, project);
    CountsTopHistory(top, InWindow(window, ops, project), n);
  }

  /** The number `clear_window` returns is the number of records that went, if and only if it was
      not asked to keep a negative number of an existing project's records. */
  lemma PrunedCountIff(store: Store, window: int, project: string, keepLast: int)
    ensures var after := Apply(store, window, Op.ClearWindow(project, keepLast));
      PrunedCount(store, project, keepLast) == |StateOf(store, project).history| - |StateOf(after, project).history|
      <==> keepLast >= 0 || project !in store
  {
  }

  /** The deduplicated paths are in the order of their first occurrence. */
  lemma {:induction false} DedupInOrder(paths: seq<string>, i: nat, j: nat)
    requires i < j < |Dedup(paths)|
    ensures exists k :: 0 <= k <= |paths| && Dedup(paths)[i] in paths[..k] && Dedup(paths)[j] !in paths[..k]
  {
    var front := paths[..|paths| - 1];
    var before := Dedup(front);
    if j < |before| {
      DedupInOrder(front, i, j);
      var k :| 0 <= k <= |front| && before[i] in front[..k] && before[j] !in front[..k];
      assert paths[..k] == front[..k];
    } else {
      assert paths[..|front|] == front && before[i] in before;
    }
  }
}
