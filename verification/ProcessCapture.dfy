/**
 Finding every process that belongs to a workspace, and terminating exactly those processes.
 The process table is the environment's: `At(world, t)` is the table at instant `t`, and every read
 or signal takes an instant, during which the table may change in any way.
 */
module ProcessCapture {
  import opened Basics

  type Pid = nat

  datatype Identity = Identity(pid: Pid, starttime: int, cwd: Option<string>)

  datatype Record = Record(ppid: Pid, identity: Identity, argv: seq<string>)

  type Table = map<Pid, Record>

  // ---------------------------------------------------------------- capture

  function Prefix(workspace: string): string {
    workspace + "/"
  }

  /** The process names the exact workspace, or something inside it, by cwd or by an argument. */
  predicate NamesWorkspace(r: Record, workspace: string) {
    || r.identity.cwd == Some(workspace)
    || (r.identity.cwd.Some? && Prefix(workspace) <= r.identity.cwd.value)
    || exists k :: 0 <= k < |r.argv| && (r.argv[k] == workspace || Prefix(workspace) <= r.argv[k])
  }

  /** A line of descent: it starts at a process that names the workspace, and each next process is
      a child of the one before. */
  predicate IsLine(table: Table, workspace: string, line: seq<Pid>) {
    && line != []
    && (forall k :: 0 <= k < |line| ==> line[k] in table)
    && NamesWorkspace(table[line[0]], workspace)
    && (forall k :: 0 < k < |line| ==> table[line[k]].ppid == line[k - 1])
  }

  ghost predicate Belongs(table: Table, workspace: string, pid: Pid) {
    exists line :: IsLine(table, workspace, line) && line[|line| - 1] == pid
  }

  lemma SeedBelongs(table: Table, workspace: string, pid: Pid)
    requires pid in table && NamesWorkspace(table[pid], workspace)
    ensures Belongs(table, workspace, pid)
  {
    assert IsLine(table, workspace, [pid]);
  }

  lemma ChildBelongs(table: Table, workspace: string, pid: Pid)
    requires pid in table && Belongs(table, workspace, table[pid].ppid)
    ensures Belongs(table, workspace, pid)
  {
    var line :| IsLine(table, workspace, line) && line[|line| - 1] == table[pid].ppid;
    assert IsLine(table, workspace, line + [pid]);
  }

  /** A set that holds every seed and every child of a member holds every process that belongs. */
  lemma {:induction false} ClosedHoldsLine(table: Table, workspace: string, selected: set<Pid>, line: seq<Pid>)
    requires IsLine(table, workspace, line)
    requires forall pid :: pid in table && NamesWorkspace(table[pid], workspace) ==> pid in selected
    requires forall pid :: pid in table && table[pid].ppid in selected ==> pid in selected
    ensures line[|line| - 1] in selected
  {
    if |line| > 1 {
      var shorter := line[..|line| - 1];
      ClosedHoldsLine(table, workspace, selected, shorter);
      assert table[line[|line| - 1]].ppid == shorter[|shorter| - 1];
    }
  }

  /** The breadth-first walk returns exactly the processes that belong to the workspace, on any
      parent graph, cycles included. */
  method CaptureWorkspaceProcesses(table: Table, workspace: string) returns (captured: map<Pid, Identity>)
    ensures forall pid :: pid in captured <==> pid in table && Belongs(table, workspace, pid)
    ensures forall pid :: pid in captured ==> captured[pid] == table[pid].identity
  {
    var seeds := set pid | pid in table && NamesWorkspace(table[pid], workspace);
    var selected, frontier := seeds, seeds;
    forall pid | pid in seeds ensures Belongs(table, workspace, pid) {
      SeedBelongs(table, workspace, pid);
    }
    while frontier != {}
      invariant seeds <= selected <= table.Keys && frontier <= selected
      invariant forall pid :: pid in selected ==> Belongs(table, workspace, pid)
      invariant forall pid :: pid in table && table[pid].ppid in selected - frontier ==> pid in selected
      decreases table.Keys - selected, frontier
    {
      var parents := frontier;
      frontier := set pid | pid in table && table[pid].ppid in parents && pid !in selected;
      forall pid | pid in frontier ensures Belongs(table, workspace, pid) {
        ChildBelongs(table, workspace, pid);
      }
      selected := selected + frontier;
    }
    captured := map pid | pid in selected :: table[pid].identity;
    forall pid | pid in table && Belongs(table, workspace, pid) ensures pid in selected {
      var line :| IsLine(table, workspace, line) && line[|line| - 1] == pid;
      ClosedHoldsLine(table, workspace, selected, line);
    }
  }

  // ---------------------------------------------------------------- termination

  /** What a caller expects of a pid: its start time only (older callers) or a full identity. */
  datatype Expected = StartTime(starttime: int) | Exactly(identity: Identity)

  /** The pid is alive and still the process that was captured, not a reuse of its number. */
  predicate Matches(table: Table, pid: Pid, expected: Expected) {
    pid in table &&
    match expected
    case StartTime(starttime) => table[pid].identity.starttime == starttime
    case Exactly(identity) =>
      table[pid].identity.pid == identity.pid && table[pid].identity.starttime == identity.starttime
  }

  /** The process table at every instant. */
  type World = imap<nat, Table>

  function At(world: World, t: nat): Table {
    if t in world then world[t] else map[]
  }

  /** What a walk of a root's descendants begun at an instant would report. */
  type Walks = imap<(Pid, nat), map<Pid, Identity>>

  function Report(walks: Walks, root: Pid, t: nat): map<Pid, Identity> {
    if (root, t) in walks then walks[(root, t)] else map[]
  }

  /** The same identity is alive, then not, then alive again. */
  predicate Revives(world: World, t0: nat, t1: nat, t2: nat, pid: Pid, e: Expected) {
    && t0 <= t1 <= t2
    && Matches(At(world, t0), pid, e) && !Matches(At(world, t1), pid, e) && Matches(At(world, t2), pid, e)
  }

  ghost predicate NoRevival(world: World) {
    forall t0, t1, t2, pid, e :: !Revives(world, t0, t1, t2, pid, e)
  }

  ghost predicate SeenBy(world: World, now: nat, pid: Pid, e: Expected) {
    exists t: nat :: t <= now && Matches(At(world, t), pid, e)
  }

  /** Every expected identity was alive at some instant up to `now`. */
  ghost predicate AllSeen(world: World, expected: map<Pid, Expected>, now: nat) {
    forall pid :: pid in expected ==> SeenBy(world, now, pid, expected[pid])
  }

  /** Walking a root reports processes that are alive at that instant. */
  ghost predicate WalkIsReal(world: World, walks: Walks, root: Pid, t: nat) {
    forall pid :: pid in Report(walks, root, t) ==> Matches(At(world, t), pid, Exactly(Report(walks, root, t)[pid]))
  }

  ghost predicate WalksAreReal(world: World, walks: Walks) {
    forall root, t: nat :: WalkIsReal(world, walks, root, t)
  }

  ghost predicate ReadWithin(world: World, from: int, to: int, pid: Pid, expected: Expected, matched: bool) {
    exists t: nat :: from <= t < to && Matches(At(world, t), pid, expected) == matched
  }

  lemma ReadOnce(world: World, from: int, t: nat, to: int, pid: Pid, expected: Expected)
    requires from <= t < to
    ensures ReadWithin(world, from, to, pid, expected, Matches(At(world, t), pid, expected))
  {
    assert Matches(At(world, t), pid, expected) == Matches(At(world, t), pid, expected);
  }

  /** `alive` is what reading each expected pid once, between `from` and `to`, showed. */
  ghost predicate IsSweep(world: World, expected: map<Pid, Expected>, from: nat, to: nat, alive: set<Pid>) {
    && alive <= expected.Keys
    && forall pid :: pid in expected ==> ReadWithin(world, from, to, pid, expected[pid], pid in alive)
  }

  /** Reads every expected pid once, in some order. */
  method Sweep(world: World, expected: map<Pid, Expected>, now: nat) returns (alive: set<Pid>, later: nat)
    ensures later == now + |expected|
    ensures IsSweep(world, expected, now, later, alive)
  {
    alive, later := {}, now;
    var todo := expected.Keys;
    while todo != {}
      invariant todo <= expected.Keys && alive <= expected.Keys - todo
      invariant later == now + |expected.Keys| - |todo| && now <= later
      invariant forall pid :: pid in expected && pid !in todo ==>
        ReadWithin(world, now, later, pid, expected[pid], pid in alive)
      decreases |todo|
    {
      var pid: Pid :| pid in todo;
      var matched := Matches(At(world, later), pid, expected[pid]);
      if matched {
        alive := alive + {pid};
      }
      ReadOnce(world, now, later, later + 1, pid, expected[pid]);
      todo := todo - {pid};
      later := later + 1;
    }
  }

  datatype Kind = Term | Kill

  datatype Signal = Signal(pid: Pid, kind: Kind, at: nat)

  lemma {:induction false} HasGreatest(pids: set<Pid>)
    requires pids != {}
    ensures exists p :: p in pids && forall q :: q in pids ==> q <= p
    decreases pids
  {
    var p: Pid :| p in pids;
    if pids != {p} {
      HasGreatest(pids - {p});
      var r: Pid :| r in pids - {p} && forall q :: q in pids - {p} ==> q <= r;
      var g := if r < p then p else r;
      forall q | q in pids ensures q <= g {
        assert q == p || q in pids - {p};
      }
      assert g in pids;
    }
  }

  ghost predicate IsSent(sent: seq<Signal>, pid: Pid) {
    exists k :: 0 <= k < |sent| && sent[k].pid == pid
  }

  lemma SentGrows(sent: seq<Signal>, s: Signal)
    ensures IsSent(sent + [s], s.pid)
    ensures forall pid :: IsSent(sent, pid) ==> IsSent(sent + [s], pid)
  {
    assert (sent + [s])[|sent|] == s;
    forall pid | IsSent(sent, pid) ensures IsSent(sent + [s], pid) {
      var k :| 0 <= k < |sent| && sent[k].pid == pid;
      assert (sent + [s])[k] == sent[k];
    }
  }

  predicate HighestFirst(sent: seq<Signal>) {
    forall j, k :: 0 <= j < k < |sent| ==> sent[k].pid < sent[j].pid
  }

  /** Signals a set of pids, highest first. */
  method SendAll(pids: set<Pid>, kind: Kind, now: nat) returns (sent: seq<Signal>, later: nat)
    ensures |sent| == |pids| && later == now + |pids|
    ensures forall pid :: pid in pids ==> IsSent(sent, pid)
    ensures forall k :: 0 <= k < |sent| ==> sent[k].pid in pids && sent[k].kind == kind && sent[k].at == now + k
    ensures HighestFirst(sent)
  {
    sent, later := [], now;
    var todo := pids;
    while todo != {}
      invariant todo <= pids && |sent| == |pids| - |todo| && later == now + |sent|
      invariant forall k :: 0 <= k < |sent| ==>
        sent[k].kind == kind && sent[k].at == now + k && sent[k].pid in pids - todo
      invariant forall pid :: pid in pids && pid !in todo ==> IsSent(sent, pid)
      invariant forall j, k :: 0 <= j < k < |sent| ==> sent[k].pid < sent[j].pid
      invariant forall pid, k :: pid in todo && 0 <= k < |sent| ==> pid < sent[k].pid
      decreases |todo|
    {
      HasGreatest(todo);
      var pid: Pid :| pid in todo && forall q :: q in todo ==> q <= pid;
      ghost var before := sent;
      sent := sent + [Signal(pid, kind, later)];
      SentGrows(before, Signal(pid, kind, later));
      todo := todo - {pid};
      later := later + 1;
    }
  }

  /** The sweep that began at `from` showed `alive`, and the signals from `start` on went to exactly
      those, highest first, each to a process that matched when that sweep read it. */
  ghost predicate SignalsSweep(world: World, expected: map<Pid, Expected>, from: nat, alive: set<Pid>,
                               sent: seq<Signal>, kind: Kind, start: nat) {
    && IsSweep(world, expected, from, from + |expected|, alive) && from + |expected| <= start
    && |sent| == |alive| && HighestFirst(sent)
    && (forall pid :: pid in alive ==> IsSent(sent, pid))
    && forall k :: 0 <= k < |sent| ==> IsDue(world, expected, from, alive, sent[k], kind, start + k)
  }

  ghost predicate IsDue(world: World, expected: map<Pid, Expected>, from: nat, alive: set<Pid>, s: Signal,
                        kind: Kind, at: nat) {
    && s.pid in alive && s.pid in expected && s.kind == kind && s.at == at
    && ReadWithin(world, from, from + |expected|, s.pid, expected[s.pid], true)
  }

  /** Nobody but the survivors is ever alive again from `end` on. */
  ghost predicate AllDead(world: World, expected: map<Pid, Expected>, survivors: set<Pid>, end: nat) {
    forall pid :: pid in expected && pid !in survivors ==> DeadFrom(world, end, pid, expected[pid])
  }

  ghost predicate DeadFrom(world: World, end: nat, pid: Pid, e: Expected) {
    forall t: nat :: end <= t ==> !Matches(At(world, t), pid, e)
  }

  /** An identity that was seen alive and is missing from a sweep is dead from then on. */
  lemma MissingIsDead(world: World, expected: map<Pid, Expected>, from: nat, to: nat, alive: set<Pid>, seen: nat)
    requires NoRevival(world) && AllSeen(world, expected, seen) && seen <= from
    requires from + |expected| <= to && IsSweep(world, expected, from, from + |expected|, alive)
    ensures AllDead(world, expected, alive, to)
  {
    forall pid, t: nat | pid in expected && pid !in alive && to <= t
      ensures !Matches(At(world, t), pid, expected[pid])
    {
      assert SeenBy(world, seen, pid, expected[pid]);
      assert ReadWithin(world, from, from + |expected|, pid, expected[pid], false);
      var t0: nat :| t0 <= seen && Matches(At(world, t0), pid, expected[pid]);
      var t1: nat :| from <= t1 < to && !Matches(At(world, t1), pid, expected[pid]);
      assert !Revives(world, t0, t1, t, pid, expected[pid]);
    }
  }

  predicate Reports(walks: Walks, root: Pid, t: nat, pid: Pid, e: Expected) {
    pid in Report(walks, root, t) && e == Exactly(Report(walks, root, t)[pid])
  }

  /** The walk of one of the roots reported exactly this process. */
  ghost predicate Walked(walks: Walks, roots: set<Pid>, from: nat, to: nat,
                         pid: Pid, e: Expected) {
    exists root, t: nat :: root in roots && from <= t < to && Reports(walks, root, t, pid, e)
  }

  /** A root was walked in the interval and everything its walk reported is expected. */
  ghost predicate WalkAdded(walks: Walks, root: Pid, from: nat, to: nat, expected: map<Pid, Expected>) {
    exists t: nat :: from <= t < to && Report(walks, root, t).Keys <= expected.Keys
  }

  ghost predicate AllWalked(walks: Walks, roots: set<Pid>, from: nat, to: nat, expected: map<Pid, Expected>) {
    forall root :: root in roots ==> WalkAdded(walks, root, from, to, expected)
  }

  lemma WalkAdds(walks: Walks, roots: set<Pid>, from: nat, now: nat, expected: map<Pid, Expected>, root: Pid)
    requires AllWalked(walks, roots, from, now, expected) && from <= now
    ensures AllWalked(walks, roots + {root}, from, now + 1, Merge(expected, Report(walks, root, now)))
  {
    var merged := Merge(expected, Report(walks, root, now));
    assert Report(walks, root, now).Keys <= merged.Keys && expected.Keys <= merged.Keys;
    forall r | r in roots + {root} ensures WalkAdded(walks, r, from, now + 1, merged) {
      if r != root {
        assert WalkAdded(walks, r, from, now, expected);
        var t: nat :| from <= t < now && Report(walks, r, t).Keys <= expected.Keys;
        assert Report(walks, r, t).Keys <= merged.Keys;
      }
    }
  }

  /** Records what a walk found without replacing what is already expected of a pid. */
  function Merge(expected: map<Pid, Expected>, found: map<Pid, Identity>): (r: map<Pid, Expected>)
    ensures forall pid :: pid in r <==> pid in expected || pid in found
    ensures forall pid :: pid in expected ==> r[pid] == expected[pid]
    ensures forall pid :: pid in found && pid !in expected ==> r[pid] == Exactly(found[pid])
  {
    map pid | pid in expected.Keys + found.Keys ::
      if pid in expected then expected[pid] else Exactly(found[pid])
  }

  /** `expected` is what was captured plus reports of walks that began in the interval. */
  ghost predicate IsExtension(walks: Walks, matched: set<Pid>, captured: map<Pid, Expected>,
                              from: nat, to: nat, expected: map<Pid, Expected>) {
    && (forall pid :: pid in captured ==> pid in expected && expected[pid] == captured[pid])
    && (forall pid :: pid in expected && pid !in captured ==>
          Walked(walks, matched, from, to, pid, expected[pid]))
  }

  lemma MergeExtends(walks: Walks, matched: set<Pid>, captured: map<Pid, Expected>,
                     from: nat, to: nat, expected: map<Pid, Expected>, root: Pid)
    requires IsExtension(walks, matched, captured, from, to, expected) && root in matched && from <= to
    ensures IsExtension(walks, matched, captured, from, to + 1, Merge(expected, Report(walks, root, to)))
  {
    var merged := Merge(expected, Report(walks, root, to));
    forall pid | pid in merged && pid !in captured
      ensures Walked(walks, matched, from, to + 1, pid, merged[pid])
    {
      if pid in expected {
        assert Walked(walks, matched, from, to, pid, expected[pid]);
      } else {
        assert Reports(walks, root, to, pid, merged[pid]);
      }
    }
  }

  lemma MergeSeen(world: World, walks: Walks, now: nat,
                  expected: map<Pid, Expected>, root: Pid)
    requires AllSeen(world, expected, now) && WalksAreReal(world, walks)
    ensures AllSeen(world, Merge(expected, Report(walks, root, now)), now + 1)
  {
    var merged := Merge(expected, Report(walks, root, now));
    assert WalkIsReal(world, walks, root, now);
    forall pid | pid in merged ensures SeenBy(world, now + 1, pid, merged[pid]) {
      if pid in expected {
        assert SeenBy(world, now, pid, expected[pid]);
      } else {
        assert Matches(At(world, now), pid, Exactly(Report(walks, root, now)[pid]));
      }
    }
  }

  lemma SeenLater(world: World, expected: map<Pid, Expected>, now: nat, later: nat)
    requires AllSeen(world, expected, now) && now <= later
    ensures AllSeen(world, expected, later)
  {
    forall pid | pid in expected ensures SeenBy(world, later, pid, expected[pid]) {
      assert SeenBy(world, now, pid, expected[pid]);
    }
  }

  /** Adds one root's descendants. */
  method ExtendBy(world: World, walks: Walks, ghost matched: set<Pid>, ghost captured: map<Pid, Expected>,
      expected: map<Pid, Expected>, root: Pid, ghost walked: set<Pid>, ghost from: nat, now: nat)
    returns (more: map<Pid, Expected>)
    requires AllSeen(world, expected, now) && WalksAreReal(world, walks)
    requires root in matched && from <= now && IsExtension(walks, matched, captured, from, now, expected)
    requires AllWalked(walks, walked, from, now, expected)
    ensures AllSeen(world, more, now + 1) && IsExtension(walks, matched, captured, from, now + 1, more)
    ensures AllWalked(walks, walked + {root}, from, now + 1, more)
  {
    more := Merge(expected, Report(walks, root, now));
    MergeSeen(world, walks, now, expected, root);
    MergeExtends(walks, matched, captured, from, now, expected, root);
    WalkAdds(walks, walked, from, now, expected, root);
  }

  /** Adds the descendants of every captured process that still matches, and of no other: one sweep
      of the captured processes, then one walk of each that matched. */
  method Extend(world: World, walks: Walks, captured: map<Pid, Expected>, now: nat)
    returns (expected: map<Pid, Expected>, later: nat, ghost matched: set<Pid>)
    requires AllSeen(world, captured, now) && WalksAreReal(world, walks)
    ensures later == now + |captured| + |matched| && AllSeen(world, expected, later)
    ensures IsSweep(world, captured, now, now + |captured|, matched)
    ensures IsExtension(walks, matched, captured, now + |captured|, later, expected)
    ensures AllWalked(walks, matched, now + |captured|, later, expected)
  {
    var roots;
    roots, later := Sweep(world, captured, now);
    matched := roots;
    SeenLater(world, captured, now, later);
    expected, later := ExtendByAll(world, walks, captured, roots, later);
  }

  /** Walks every one of the roots, in some order. */
  method ExtendByAll(world: World, walks: Walks, captured: map<Pid, Expected>, roots: set<Pid>, now: nat)
    returns (expected: map<Pid, Expected>, later: nat)
    requires AllSeen(world, captured, now) && WalksAreReal(world, walks)
    ensures later == now + |roots| && AllSeen(world, expected, later)
    ensures IsExtension(walks, roots, captured, now, later, expected)
    ensures AllWalked(walks, roots, now, later, expected)
  {
    expected, later := captured, now;
    var todo := roots;
    while todo != {}
      invariant todo <= roots && now <= later == now + |roots| - |todo|
      invariant AllSeen(world, expected, later)
      invariant IsExtension(walks, roots, captured, now, later, expected)
      invariant AllWalked(walks, roots - todo, now, later, expected)
      decreases |todo|
    {
      var root: Pid :| root in todo;
      expected := ExtendBy(world, walks, roots, captured, expected, root, roots - todo, now, later);
      assert roots - (todo - {root}) == roots - todo + {root};
      todo := todo - {root};
      later := later + 1;
    }
    assert roots - todo == roots;
  }

  /** What was missing from a sweep is missing from every later one. */
  lemma SweepsShrink(world: World, expected: map<Pid, Expected>, from: nat, alive: set<Pid>,
                     from': nat, alive': set<Pid>, seen: nat)
    requires NoRevival(world) && AllSeen(world, expected, seen) && seen <= from
    requires IsSweep(world, expected, from, from + |expected|, alive) && from + |expected| <= from'
    requires IsSweep(world, expected, from', from' + |expected|, alive')
    ensures alive' <= alive
  {
    MissingIsDead(world, expected, from, from + |expected|, alive, seen);
    forall pid | pid in alive' ensures pid in alive {
      assert ReadWithin(world, from', from' + |expected|, pid, expected[pid], true);
      var t: nat :| from' <= t && Matches(At(world, t), pid, expected[pid]);
      assert DeadFrom(world, from + |expected|, pid, expected[pid]) || pid in alive;
    }
  }

  /** How long it takes to sleep and sweep so often. */
  function Patience(expected: map<Pid, Expected>, polls: nat): nat {
    if polls == 0 then 0 else Patience(expected, polls - 1) + 1 + |expected|
  }

  /** Polling from `now` to `later`, after a sweep at `since` that showed `first`: the sweep at `swept`
      was the last and showed `alive`; it is the earlier one only if there was nothing to poll for or
      no time, and something is left only if the whole time was spent. */
  ghost predicate Polled(world: World, expected: map<Pid, Expected>, since: nat, first: set<Pid>, now: nat,
                         polls: nat, swept: nat, alive: set<Pid>, later: nat) {
    && IsSweep(world, expected, swept, swept + |expected|, alive)
    && (if first == {} || polls == 0 then swept == since && alive == first && later == now
        else now < swept && later == swept + |expected|)
    && (alive != {} ==> later == now + Patience(expected, polls))
  }

  /** Sleeps and sweeps until nothing is alive or the deadline passes.  `since` and `swept` are when
      the sweeps that showed `first` and `alive` began. */
  method Poll(world: World, expected: map<Pid, Expected>, now: nat, first: set<Pid>, polls: nat, ghost since: nat)
    returns (alive: set<Pid>, later: nat, ghost swept: nat)
    requires IsSweep(world, expected, since, since + |expected|, first)
    ensures Polled(world, expected, since, first, now, polls, swept, alive, later)
  {
    alive, later, swept := first, now, since;
    var done := 0;
    while alive != {} && done < polls
      invariant done <= polls && later == now + Patience(expected, done)
      invariant IsSweep(world, expected, swept, swept + |expected|, alive)
      invariant if done == 0 then alive == first && swept == since else now < swept && later == swept + |expected|
      invariant first == {} ==> done == 0
      decreases polls - done
    {
      swept := later + 1;
      alive, later := Sweep(world, expected, later + 1);
      done := done + 1;
    }
  }

  /** Signals what the last sweep matched and polls for it to go away. */
  method SignalAndPoll(world: World, expected: map<Pid, Expected>, alive: set<Pid>, ghost since: nat,
      ghost seen: nat, kind: Kind, polls: nat, now: nat)
    returns (left: set<Pid>, sent: seq<Signal>, later: nat, ghost swept: nat)
    requires NoRevival(world) && AllSeen(world, expected, seen) && seen <= since
    requires IsSweep(world, expected, since, since + |expected|, alive) && since + |expected| <= now
    ensures SignalsSweep(world, expected, since, alive, sent, kind, now)
    ensures Polled(world, expected, since, alive, now + |sent|, polls, swept, left, later)
    ensures left <= alive
  {
    sent, later := SendAll(alive, kind, now);
    left, later, swept := Poll(world, expected, later, alive, polls, since);
    if swept != since {
      SweepsShrink(world, expected, since, alive, swept, left, seen);
    }
  }

  /** KILL for whoever TERM left. */
  method KillLeft(world: World, expected: map<Pid, Expected>, alive: set<Pid>, ghost since: nat,
      ghost seen: nat, polls: nat, now: nat)
    returns (left: set<Pid>, sent: seq<Signal>, later: nat, ghost swept: nat)
    requires NoRevival(world) && AllSeen(world, expected, seen) && seen <= since
    requires IsSweep(world, expected, since, since + |expected|, alive) && since + |expected| <= now
    ensures SignalsSweep(world, expected, since, alive, sent, Kill, now)
    ensures Polled(world, expected, since, alive, now + |sent|, polls, swept, left, later)
    ensures left <= alive
  {
    left, sent, later, swept := {}, [], now, since;
    if alive != {} {
      left, sent, later, swept := SignalAndPoll(world, expected, alive, since, seen, Kill, polls, now);
    }
  }

  /** The course of a termination: who was sent TERM; when the sweep began after which KILL was sent,
      when and to whom; and when the last sweep began. */
  datatype Course = Course(termed: set<Pid>, killSweep: nat, killed: set<Pid>, killsAt: nat, lastSweep: nat)

  /** A sweep from `now`, TERM to exactly what it matched, polling, KILL to exactly what the last sweep
      of that matched, polling; the survivors are what the last sweep of all still matched. */
  ghost predicate Terminated(world: World, expected: map<Pid, Expected>, termPolls: nat, killPolls: nat, now: nat,
                             c: Course, terms: seq<Signal>, kills: seq<Signal>, survivors: set<Pid>, end: nat) {
    && SignalsSweep(world, expected, now, c.termed, terms, Term, now + |expected|)
    && Polled(world, expected, now, c.termed, now + |expected| + |terms|, termPolls, c.killSweep, c.killed, c.killsAt)
    && SignalsSweep(world, expected, c.killSweep, c.killed, kills, Kill, c.killsAt)
    && Polled(world, expected, c.killSweep, c.killed, c.killsAt + |kills|, killPolls, c.lastSweep, survivors, end)
    && survivors <= c.killed <= c.termed
  }

  /** TERM, poll, KILL what is left, poll, once it is settled who is expected. */
  method TerminateAll(world: World, expected: map<Pid, Expected>, termPolls: nat, killPolls: nat, now: nat)
    returns (survivors: set<Pid>, terms: seq<Signal>, kills: seq<Signal>, end: nat, ghost course: Course)
    requires NoRevival(world) && AllSeen(world, expected, now)
    ensures Terminated(world, expected, termPolls, killPolls, now, course, terms, kills, survivors, end)
    ensures AllDead(world, expected, survivors, end)
    ensures forall pid :: pid in survivors ==> IsSent(terms, pid) && IsSent(kills, pid)
  {
    ghost var killSweep, lastSweep;
    var alive, left, killsAt;
    alive, end := Sweep(world, expected, now);
    left, terms, killsAt, killSweep := SignalAndPoll(world, expected, alive, now, now, Term, termPolls, end);
    survivors, kills, end, lastSweep := KillLeft(world, expected, left, killSweep, now, killPolls, killsAt);
    course := Course(alive, killSweep, left, killsAt, lastSweep);
    MissingIsDead(world, expected, lastSweep, end, survivors, now);
  }

  /** With nobody captured there is nothing to terminate. */
  lemma NothingTerminated(world: World, walks: Walks, captured: map<Pid, Expected>, termPolls: nat, killPolls: nat,
                          now: nat)
    requires |captured| == 0
    ensures IsSweep(world, captured, now, now + |captured|, {})
    ensures IsExtension(walks, {}, captured, now + |captured|, now, captured)
    ensures AllWalked(walks, {}, now + |captured|, now, captured)
    ensures Terminated(world, captured, termPolls, killPolls, now, Course({}, now, {}, now, now), [], [], {}, now)
    ensures AllDead(world, captured, {}, now)
  {
    assert captured == map[];
  }

  /** Extends the captured processes and, from `began`, terminates them all.  An empty answer means
      every expected identity is dead; each survivor was sent TERM and KILL and still matched the
      last sweep. */
  method TerminateCapturedProcesses(world: World, walks: Walks,
      captured: map<Pid, Expected>, termPolls: nat, killPolls: nat, now: nat)
    returns (survivors: set<Pid>, expected: map<Pid, Expected>, terms: seq<Signal>, kills: seq<Signal>, end: nat,
             ghost matched: set<Pid>, ghost began: nat, ghost course: Course)
    requires NoRevival(world) && AllSeen(world, captured, now) && WalksAreReal(world, walks)
    ensures IsSweep(world, captured, now, now + |captured|, matched)
    ensures began == now + |captured| + |matched|
    ensures IsExtension(walks, matched, captured, now + |captured|, began, expected)
    ensures AllWalked(walks, matched, now + |captured|, began, expected)
    ensures Terminated(world, expected, termPolls, killPolls, began, course, terms, kills, survivors, end)
    ensures forall pid :: pid in survivors ==> IsSent(terms, pid) && IsSent(kills, pid)
    ensures AllDead(world, expected, survivors, end)
  {
    if |captured| == 0 {
      survivors, expected, terms, kills, end := {}, captured, [], [], now;
      matched, began, course := {}, now, Course({}, now, {}, now, now);
      NothingTerminated(world, walks, captured, termPolls, killPolls, now);
    } else {
      expected, end, matched := Extend(world, walks, captured, now);
      began := end;
      survivors, terms, kills, end, course := TerminateAll(world, expected, termPolls, killPolls, end);
    }
  }
}
