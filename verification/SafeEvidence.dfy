/**
 The recursive flattening of an auditor's nested evidence into a flat mapping of short strings.
 Which keys and values look like credentials, and how a value is redacted, is given by `Rules`.
 The walk that fills the accumulators is compared with two definitions that never mention it:
 the leaves of a value, and what makes a value admissible.
 */
module SafeEvidence {
  import opened Basics

  const MAX_ENTRIES := 20
  const MAX_KEY_LENGTH := 128
  const MAX_VALUE_LENGTH := 512
  const MAX_DEPTH := 4

  /** A JSON-like value; a key that is not a string is `None`, and `Other` is any further type. */
  datatype Value = Text(text: string) | Object(entries: seq<Entry>) | Array(items: seq<Value>) | Other

  datatype Entry = Entry(key: Option<string>, child: Value)

  /** Keys and values that hold a credential, and the redaction of every other value. */
  datatype Rules = Rules(unsafeKeys: iset<string>, unsafeValues: iset<string>, redactions: imap<string, string>)

  function Redacted(rules: Rules, value: string): string {
    if value in rules.redactions then rules.redactions[value] else value
  }

  // ---------------------------------------------------------------- the nested value

  function Size(v: Value): nat {
    match v
    case Object(entries) => |entries|
    case Array(items) => |items|
    case _ => 0
  }

  function Child(v: Value, k: nat): (c: Value)
    requires k < Size(v)
    ensures c < v
  {
    if v.Object? then
      assert v.entries[k] < v;
      v.entries[k].child
    else v.items[k]
  }

  function Decimal(n: nat): (s: string)
    ensures s != [] && (n < 100 ==> |s| <= 2)
  {
    if n < 10 then [('0' as int + n) as char] else Decimal(n / 10) + Decimal(n % 10)
  }

  function Join(path: string, key: string): string {
    if path == [] then key else path + "." + key
  }

  /** The flattened path of a child. */
  function ChildPath(v: Value, k: nat, path: string): string
    requires k < Size(v)
  {
    if v.Array? then path + "[" + Decimal(k) + "]"
    else if v.entries[k].key.Some? then Join(path, v.entries[k].key.value)
    else path
  }

  /** How a flattened path ends, computed from the keys and indices alone: how many array levels it
      ends with, its length up to its last object key, and the width of the indices after that. */
  datatype Tail = Tail(arrays: nat, base: nat, width: nat)

  const ROOT := Tail(0, 0, 0)

  function Below(v: Value, k: nat, tail: Tail): Tail
    requires k < Size(v)
  {
    if v.Array? then tail.(arrays := tail.arrays + 1, width := tail.width + 2 + |Decimal(k)|)
    else if v.entries[k].key.None? then Tail(0, tail.base + tail.width, 0)
    else
      var key := v.entries[k].key.value;
      Tail(0, if tail.base + tail.width == 0 then |key| else tail.base + tail.width + 1 + |key|, 0)
  }

  /** A string in the value, its flattened path, and how that path ends. */
  datatype Leaf = Leaf(path: string, text: string, tail: Tail)

  /** The leaves of a value, in order. */
  function Leaves(v: Value, path: string, tail: Tail): seq<Leaf>
    decreases v, Size(v) + 1
  {
    if v.Text? then [Leaf(path, v.text, tail)] else LeavesUpTo(v, Size(v), path, tail)
  }

  /** The leaves of a container's first `n` children. */
  function LeavesUpTo(v: Value, n: nat, path: string, tail: Tail): seq<Leaf>
    requires n <= Size(v)
    decreases v, n
  {
    if n == 0 then [] else LeavesUpTo(v, n - 1, path, tail) + ChildLeaves(v, n - 1, path, tail)
  }

  function ChildLeaves(v: Value, k: nat, path: string, tail: Tail): seq<Leaf>
    requires k < Size(v)
    decreases v, k, 0
  {
    Leaves(Child(v, k), ChildPath(v, k, path), Below(v, k, tail))
  }

  predicate KeyAdmissible(rules: Rules, v: Value, k: nat, path: string)
    requires k < Size(v)
  {
    v.Object? ==>
      && v.entries[k].key.Some?
      && |v.entries[k].key.value| <= MAX_KEY_LENGTH
      && v.entries[k].key.value !in rules.unsafeKeys
      && |ChildPath(v, k, path)| <= MAX_KEY_LENGTH
  }

  /** The shape rules: depth, types, container sizes and keys. */
  predicate Admissible(rules: Rules, v: Value, path: string, depth: nat)
    decreases v
  {
    && depth <= MAX_DEPTH && !v.Other? && Size(v) <= MAX_ENTRIES
    && forall k :: 0 <= k < Size(v) ==> ChildAdmissible(rules, v, k, path, depth)
  }

  predicate ChildAdmissible(rules: Rules, v: Value, k: nat, path: string, depth: nat)
    requires k < Size(v)
    decreases v, 0
  {
    KeyAdmissible(rules, v, k, path) && Admissible(rules, Child(v, k), ChildPath(v, k, path), depth + 1)
  }

  /** The rules on the leaves together: not too many, no credential, none too long, no path twice. */
  predicate Fine(rules: Rules, leaves: seq<Leaf>) {
    && |leaves| <= MAX_ENTRIES
    && (forall i :: 0 <= i < |leaves| ==> LeafFine(rules, leaves[i]))
    && (forall i, j :: 0 <= i < j < |leaves| ==> leaves[i].path != leaves[j].path)
  }

  predicate LeafFine(rules: Rules, leaf: Leaf) {
    leaf.text !in rules.unsafeValues && |Redacted(rules, leaf.text)| <= MAX_VALUE_LENGTH
  }

  /** The flat mapping of a list of leaves. */
  function Collected(rules: Rules, leaves: seq<Leaf>): map<string, string> {
    if leaves == [] then map[]
    else
      var leaf := leaves[|leaves| - 1];
      Collected(rules, leaves[..|leaves| - 1])[leaf.path := Redacted(rules, leaf.text)]
  }

  // ---------------------------------------------------------------- the walk

  lemma FinePrefix(rules: Rules, front: seq<Leaf>, back: seq<Leaf>)
    requires Fine(rules, front + back)
    ensures Fine(rules, front)
  {
    assert forall i :: 0 <= i < |front| ==> (front + back)[i] == front[i];
  }

  lemma {:induction false} CollectedHolds(rules: Rules, leaves: seq<Leaf>, path: string)
    ensures path in Collected(rules, leaves) <==> exists i :: 0 <= i < |leaves| && leaves[i].path == path
  {
    if leaves != [] {
      CollectedHolds(rules, leaves[..|leaves| - 1], path);
      if path == leaves[|leaves| - 1].path {
        assert leaves[|leaves| - 1].path == path;
      }
    }
  }

  lemma Associate(a: seq<Leaf>, b: seq<Leaf>, c: seq<Leaf>)
    ensures (a + b) + c == a + (b + c)
  {
  }

  lemma OneMoreChild(before: seq<Leaf>, v: Value, k: nat, path: string, tail: Tail)
    requires k < Size(v)
    ensures (before + LeavesUpTo(v, k, path, tail)) + ChildLeaves(v, k, path, tail)
         == before + LeavesUpTo(v, k + 1, path, tail)
  {
    Associate(before, LeavesUpTo(v, k, path, tail), ChildLeaves(v, k, path, tail));
  }

  /** The first `n` children are admissible, and after each of them what is collected is fine. */
  predicate FirstFine(rules: Rules, before: seq<Leaf>, v: Value, n: nat, path: string, depth: nat, tail: Tail)
    requires n <= Size(v)
  {
    if n == 0 then Fine(rules, before)
    else
      && FirstFine(rules, before, v, n - 1, path, depth, tail)
      && ChildAdmissible(rules, v, n - 1, path, depth)
      && Fine(rules, before + LeavesUpTo(v, n, path, tail))
  }

  lemma FirstFineStep(rules: Rules, before: seq<Leaf>, v: Value, k: nat, path: string, depth: nat, tail: Tail)
    requires k < Size(v) && FirstFine(rules, before, v, k, path, depth, tail)
    ensures FirstFine(rules, before, v, k + 1, path, depth, tail) <==>
      && ChildAdmissible(rules, v, k, path, depth)
      && Fine(rules, (before + LeavesUpTo(v, k, path, tail)) + ChildLeaves(v, k, path, tail))
  {
    OneMoreChild(before, v, k, path, tail);
  }

  /** Once something was refused, it stays refused. */
  lemma {:induction false} FirstFineShrinks(rules: Rules, before: seq<Leaf>, v: Value, n: nat, m: nat, path: string,
                                            depth: nat, tail: Tail)
    requires n <= m <= Size(v) && FirstFine(rules, before, v, m, path, depth, tail)
    ensures FirstFine(rules, before, v, n, path, depth, tail)
  {
    if n < m {
      FirstFineShrinks(rules, before, v, n, m - 1, path, depth, tail);
    }
  }

  lemma {:induction false} FirstFineGives(rules: Rules, before: seq<Leaf>, v: Value, n: nat, path: string, depth: nat,
                                          tail: Tail)
    requires n <= Size(v) && FirstFine(rules, before, v, n, path, depth, tail)
    ensures forall i :: 0 <= i < n ==> ChildAdmissible(rules, v, i, path, depth)
    ensures Fine(rules, before + LeavesUpTo(v, n, path, tail))
  {
    if n == 0 {
      assert before + [] == before;
    } else {
      FirstFineGives(rules, before, v, n - 1, path, depth, tail);
    }
  }

  lemma {:induction false} FirstFineFrom(rules: Rules, before: seq<Leaf>, v: Value, n: nat, path: string, depth: nat,
                                         tail: Tail)
    requires n <= Size(v)
    requires forall i :: 0 <= i < n ==> ChildAdmissible(rules, v, i, path, depth)
    requires Fine(rules, before + LeavesUpTo(v, n, path, tail))
    ensures FirstFine(rules, before, v, n, path, depth, tail)
  {
    if n == 0 {
      assert before + [] == before;
    } else {
      var front := before + LeavesUpTo(v, n - 1, path, tail);
      OneMoreChild(before, v, n - 1, path, tail);
      FinePrefix(rules, front, ChildLeaves(v, n - 1, path, tail));
      FirstFineFrom(rules, before, v, n - 1, path, depth, tail);
    }
  }

  /** For a container within the size and depth limits this is all that is asked. */
  lemma ContainerIff(rules: Rules, before: seq<Leaf>, v: Value, path: string, depth: nat, tail: Tail)
    requires depth <= MAX_DEPTH && !v.Text? && !v.Other? && Size(v) <= MAX_ENTRIES
    ensures FirstFine(rules, before, v, Size(v), path, depth, tail)
      <==> Admissible(rules, v, path, depth) && Fine(rules, before + Leaves(v, path, tail))
  {
    assert Leaves(v, path, tail) == LeavesUpTo(v, Size(v), path, tail);
    if FirstFine(rules, before, v, Size(v), path, depth, tail) {
      FirstFineGives(rules, before, v, Size(v), path, depth, tail);
      assert Admissible(rules, v, path, depth);
    }
    if Admissible(rules, v, path, depth) && Fine(rules, before + LeavesUpTo(v, Size(v), path, tail)) {
      FirstFineFrom(rules, before, v, Size(v), path, depth, tail);
    }
  }

  class Flattener {
    const rules: Rules
    var leafCount: nat
    var redacted: map<string, string>
    ghost var leaves: seq<Leaf>

    ghost predicate Valid()
      reads this
    {
      leafCount == |leaves| && Fine(rules, leaves) && redacted == Collected(rules, leaves)
    }

    constructor (rules: Rules)
      ensures Valid() && leaves == [] && this.rules == rules
    {
      this.rules := rules;
      leafCount, redacted, leaves := 0, map[], [];
    }

    /** Adds one leaf, or refuses it (the program raises). */
    method AddLeaf(path: string, text: string, ghost tail: Tail) returns (ok: bool)
      requires Valid()
      modifies this
      ensures ok <==> Fine(rules, old(leaves) + [Leaf(path, text, tail)])
      ensures ok ==> Valid() && leaves == old(leaves) + [Leaf(path, text, tail)]
    {
      ghost var leaf := Leaf(path, text, tail);
      leafCount := leafCount + 1;
      if leafCount > MAX_ENTRIES {
        return false;
      }
      if text in rules.unsafeValues {
        assert (leaves + [leaf])[|leaves|] == leaf;
        return false;
      }
      var value := Redacted(rules, text);
      if |value| > MAX_VALUE_LENGTH {
        assert (leaves + [leaf])[|leaves|] == leaf;
        return false;
      }
      CollectedHolds(rules, leaves, path);
      if path in redacted {
        ghost var i :| 0 <= i < |leaves| && leaves[i].path == path;
        assert (leaves + [leaf])[i] == leaves[i] && (leaves + [leaf])[|leaves|] == leaf;
        return false;
      }
      redacted := redacted[path := value];
      assert (leaves + [leaf])[..|leaves|] == leaves;
      leaves := leaves + [leaf];
      return true;
    }

    /** Walks a value: succeeds exactly when its shape is admissible and its leaves are fine beside
        those collected before, and then has collected exactly its leaves. */
    method Walk(v: Value, path: string, depth: nat, ghost tail: Tail) returns (ok: bool)
      requires Valid()
      modifies this
      ensures ok <==> Admissible(rules, v, path, depth) && Fine(rules, old(leaves) + Leaves(v, path, tail))
      ensures ok ==> Valid() && leaves == old(leaves) + Leaves(v, path, tail)
      decreases v, 2
    {
      if depth > MAX_DEPTH {
        return false;
      }
      if v.Text? {
        ok := AddLeaf(path, v.text, tail);
        return;
      }
      if v.Other? || Size(v) > MAX_ENTRIES {
        return false;
      }
      ContainerIff(rules, leaves, v, path, depth, tail);
      ok := WalkChildren(v, path, depth, tail);
    }

    /** The loop over a container's children. */
    method WalkChildren(v: Value, path: string, depth: nat, ghost tail: Tail) returns (ok: bool)
      requires Valid()
      modifies this
      ensures ok <==> FirstFine(rules, old(leaves), v, Size(v), path, depth, tail)
      ensures ok ==> Valid() && leaves == old(leaves) + LeavesUpTo(v, Size(v), path, tail)
      decreases v, 1
    {
      ghost var before := leaves;
      for k := 0 to Size(v)
        invariant Valid() && leaves == before + LeavesUpTo(v, k, path, tail)
        invariant FirstFine(rules, before, v, k, path, depth, tail)
      {
        FirstFineStep(rules, before, v, k, path, depth, tail);
        OneMoreChild(before, v, k, path, tail);
        ok := WalkChild(v, k, path, depth, tail);
        if !ok {
          if FirstFine(rules, before, v, Size(v), path, depth, tail) {
            FirstFineShrinks(rules, before, v, k + 1, Size(v), path, depth, tail);
          }
          return false;
        }
      }
      ok := true;
    }

    /** Checks the key of one child, if it has one, and walks the child. */
    method WalkChild(v: Value, k: nat, path: string, depth: nat, ghost tail: Tail) returns (ok: bool)
      requires Valid() && k < Size(v)
      modifies this
      ensures ok <==>
        ChildAdmissible(rules, v, k, path, depth) && Fine(rules, old(leaves) + ChildLeaves(v, k, path, tail))
      ensures ok ==> Valid() && leaves == old(leaves) + ChildLeaves(v, k, path, tail)
      decreases v, 0
    {
      if v.Object? {
        if v.entries[k].key.None? || |v.entries[k].key.value| > MAX_KEY_LENGTH {
          return false;
        }
        if v.entries[k].key.value in rules.unsafeKeys || |ChildPath(v, k, path)| > MAX_KEY_LENGTH {
          return false;
        }
      }
      ok := Walk(Child(v, k), ChildPath(v, k, path), depth + 1, Below(v, k, tail));
    }
  }

  /** The evidence is refused, or flattened to the redacted leaves. */
  method RedactSafeEvidence(rules: Rules, evidence: Value) returns (result: Option<map<string, string>>)
    ensures result.Some? <==> Admissible(rules, evidence, [], 0) && Fine(rules, Leaves(evidence, [], ROOT))
    ensures result.Some? ==> result.value == Collected(rules, Leaves(evidence, [], ROOT))
  {
    var flattener := new Flattener(rules);
    var ok := flattener.Walk(evidence, [], 0, ROOT);
    assert [] + Leaves(evidence, [], ROOT) == Leaves(evidence, [], ROOT);
    result := if ok then Some(flattener.redacted) else None;
  }

  // ---------------------------------------------------------------- main results

  predicate HoldsLeaf(rules: Rules, flat: map<string, string>, leaf: Leaf) {
    leaf.path in flat && flat[leaf.path] == Redacted(rules, leaf.text) && |flat[leaf.path]| <= MAX_VALUE_LENGTH
  }

  lemma {:induction false} LeafHeld(rules: Rules, leaves: seq<Leaf>, i: nat)
    requires Fine(rules, leaves) && i < |leaves|
    ensures HoldsLeaf(rules, Collected(rules, leaves), leaves[i])
  {
    var front, last := leaves[..|leaves| - 1], leaves[|leaves| - 1];
    assert leaves == front + [last];
    FinePrefix(rules, front, [last]);
    assert LeafFine(rules, leaves[i]);
    if i < |front| {
      LeafHeld(rules, front, i);
      assert leaves[i].path != last.path;
    }
  }

  lemma {:induction false} OneKeyPerLeaf(rules: Rules, leaves: seq<Leaf>)
    requires Fine(rules, leaves)
    ensures |Collected(rules, leaves)| == |leaves|
  {
    if leaves != [] {
      var front, last := leaves[..|leaves| - 1], leaves[|leaves| - 1];
      assert leaves == front + [last];
      FinePrefix(rules, front, [last]);
      OneKeyPerLeaf(rules, front);
      CollectedHolds(rules, front, last.path);
      assert Collected(rules, leaves).Keys == Collected(rules, front).Keys + {last.path};
    }
  }

  /** The flattening loses nothing: each leaf has a key of its own, under which its redacted text
      stands, within the length limit; and there are no other keys. */
  lemma Lossless(rules: Rules, leaves: seq<Leaf>)
    requires Fine(rules, leaves)
    ensures |Collected(rules, leaves)| == |leaves| <= MAX_ENTRIES
    ensures forall i :: 0 <= i < |leaves| ==> HoldsLeaf(rules, Collected(rules, leaves), leaves[i])
    ensures forall path :: path in Collected(rules, leaves) ==> exists i :: 0 <= i < |leaves| && leaves[i].path == path
  {
    OneKeyPerLeaf(rules, leaves);
    forall i | 0 <= i < |leaves| ensures HoldsLeaf(rules, Collected(rules, leaves), leaves[i]) {
      LeafHeld(rules, leaves, i);
    }
    forall path | path in Collected(rules, leaves) ensures exists i :: 0 <= i < |leaves| && leaves[i].path == path {
      CollectedHolds(rules, leaves, path);
    }
  }

  // ---------------------------------------------------------------- how long a flattened key is

  /** The length of every flattened path is what its end says. */
  lemma {:induction false} TailLaw(v: Value, path: string, tail: Tail)
    requires |path| == tail.base + tail.width
    ensures forall leaf :: leaf in Leaves(v, path, tail) ==> |leaf.path| == leaf.tail.base + leaf.tail.width
    decreases v
  {
    if !v.Text? {
      for n := 0 to Size(v)
        invariant forall leaf :: leaf in LeavesUpTo(v, n, path, tail) ==>
          |leaf.path| == leaf.tail.base + leaf.tail.width
      {
        TailLaw(Child(v, n), ChildPath(v, n, path), Below(v, n, tail));
      }
    }
  }

  /** A key within the limit, then between three and four characters per array level; `above` levels
      are not array levels. */
  predicate Bounded(tail: Tail, above: nat, depth: nat) {
    tail.base <= MAX_KEY_LENGTH && 3 * tail.arrays <= tail.width <= 4 * tail.arrays && tail.arrays + above <= depth
  }

  lemma {:induction false} LeafBounds(rules: Rules, v: Value, path: string, depth: nat, tail: Tail, above: nat)
    requires Admissible(rules, v, path, depth) && Bounded(tail, above, depth) && |path| == tail.base + tail.width
    ensures forall leaf :: leaf in Leaves(v, path, tail) ==> Bounded(leaf.tail, above, MAX_DEPTH)
    decreases v
  {
    if !v.Text? {
      for n := 0 to Size(v)
        invariant forall leaf :: leaf in LeavesUpTo(v, n, path, tail) ==> Bounded(leaf.tail, above, MAX_DEPTH)
      {
        assert ChildAdmissible(rules, v, n, path, depth);
        LeafBounds(rules, Child(v, n), ChildPath(v, n, path), depth + 1, Below(v, n, tail), above);
      }
    }
  }

  /** An accepted object's paths end in at most three array levels. */
  lemma ObjectLeafBounds(rules: Rules, evidence: Value, leaf: Leaf)
    requires evidence.Object? && Admissible(rules, evidence, [], 0) && leaf in Leaves(evidence, [], ROOT)
    ensures Bounded(leaf.tail, 1, MAX_DEPTH)
  {
    for n := 0 to Size(evidence)
      invariant forall l :: l in LeavesUpTo(evidence, n, [], ROOT) ==> Bounded(l.tail, 1, MAX_DEPTH)
    {
      assert ChildAdmissible(rules, evidence, n, [], 0);
      LeafBounds(rules, Child(evidence, n), ChildPath(evidence, n, []), 1, Below(evidence, n, ROOT), 1);
    }
  }

  /** The real bound on a flattened key: 128 characters plus four per array level below its last
      object key, and never more than 140 when the evidence is an object. */
  lemma FlatKeyBound(rules: Rules, evidence: Value, leaf: Leaf)
    requires evidence.Object? && Admissible(rules, evidence, [], 0) && leaf in Leaves(evidence, [], ROOT)
    ensures |leaf.path| <= MAX_KEY_LENGTH + 4 * leaf.tail.arrays
    ensures leaf.tail.arrays <= 3 && |leaf.path| <= 140
  {
    ObjectLeafBounds(rules, evidence, leaf);
    TailLaw(evidence, [], ROOT);
  }

  /** Exactly when a flattened key keeps the limit that refusals name: the length up to its last
      object key leaves room for the indices after it.  Four characters of room per array level
      are always enough. */
  lemma FlatKeyWithinIff(rules: Rules, evidence: Value, leaf: Leaf)
    requires evidence.Object? && Admissible(rules, evidence, [], 0) && leaf in Leaves(evidence, [], ROOT)
    ensures |leaf.path| <= MAX_KEY_LENGTH <==> leaf.tail.base + leaf.tail.width <= MAX_KEY_LENGTH
    ensures leaf.tail.base <= MAX_KEY_LENGTH - 4 * leaf.tail.arrays ==> |leaf.path| <= MAX_KEY_LENGTH
  {
    ObjectLeafBounds(rules, evidence, leaf);
    TailLaw(evidence, [], ROOT);
  }

  /** Ten empty arrays and one more item. */
  function Padded(item: Value): Value {
    Array(seq(10, _ => Array([])) + [item])
  }

  function Wider(tail: Tail, n: nat): Tail {
    tail.(arrays := tail.arrays + n, width := tail.width + 4 * n)
  }

  lemma PaddedLeaves(item: Value, path: string, tail: Tail)
    ensures Leaves(Padded(item), path, tail) == Leaves(item, path + "[10]", Wider(tail, 1))
  {
    var v := Padded(item);
    for n := 0 to 10
      invariant LeavesUpTo(v, n, path, tail) == []
    {
      assert Child(v, n) == Array([]);
      assert ChildLeaves(v, n, path, tail) == [];
    }
    TenIsTwoDigits();
    assert Child(v, 10) == item && ChildPath(v, 10, path) == path + "[10]";
    assert ChildLeaves(v, 10, path, tail) == Leaves(item, path + "[10]", Wider(tail, 1));
    assert LeavesUpTo(v, 11, path, tail) == [] + ChildLeaves(v, 10, path, tail);
  }

  lemma TenIsTwoDigits()
    ensures Decimal(10) == "10"
  {
    assert Decimal(1) == "1" && Decimal(0) == "0";
  }

  lemma PaddedAdmissible(rules: Rules, item: Value, path: string, depth: nat)
    requires depth < MAX_DEPTH && Admissible(rules, item, path + "[10]", depth + 1)
    ensures Admissible(rules, Padded(item), path, depth)
  {
    var v := Padded(item);
    TenIsTwoDigits();
    forall k | 0 <= k < Size(v) ensures ChildAdmissible(rules, v, k, path, depth) {
      if k < 10 {
        assert Child(v, k) == Array([]);
      } else {
        assert Child(v, k) == item && ChildPath(v, k, path) == path + "[10]";
      }
    }
  }

  lemma OnlyEntry(key: string, child: Value)
    ensures Leaves(Object([Entry(Some(key), child)]), [], ROOT) == Leaves(child, key, Tail(0, |key|, 0))
  {
    var v := Object([Entry(Some(key), child)]);
    assert LeavesUpTo(v, 1, [], ROOT) == [] + ChildLeaves(v, 0, [], ROOT);
  }

  /** An item below `n` padded arrays. */
  function Nested(n: nat, item: Value): Value {
    if n == 0 then item else Padded(Nested(n - 1, item))
  }

  function Indices(n: nat): (s: string)
    ensures |s| == 4 * n
  {
    if n == 0 then [] else "[10]" + Indices(n - 1)
  }

  lemma NestedStep(n: nat, item: Value, path: string, tail: Tail)
    requires 0 < n
    ensures Leaves(Nested(n, item), path, tail) == Leaves(Nested(n - 1, item), path + "[10]", Wider(tail, 1))
  {
    PaddedLeaves(Nested(n - 1, item), path, tail);
  }

  lemma {:induction false} NestedLeaves(n: nat, item: Value, path: string, tail: Tail)
    ensures Leaves(Nested(n, item), path, tail) == Leaves(item, path + Indices(n), Wider(tail, n))
  {
    if n == 0 {
      assert path + Indices(0) == path;
    } else {
      NestedStep(n, item, path, tail);
      NestedLeaves(n - 1, item, path + "[10]", Wider(tail, 1));
      assert path + "[10]" + Indices(n - 1) == path + Indices(n);
    }
  }

  lemma {:induction false} NestedAdmissible(rules: Rules, n: nat, text: string, path: string, depth: nat)
    requires depth + n <= MAX_DEPTH
    ensures Admissible(rules, Nested(n, Text(text)), path, depth)
  {
    if n > 0 {
      NestedAdmissible(rules, n - 1, text, path + "[10]", depth + 1);
      PaddedAdmissible(rules, Nested(n - 1, Text(text)), path, depth);
    }
  }

  /** Evidence is accepted whose only leaf has a key of this length. */
  ghost predicate Accepted(rules: Rules, evidence: Value, keyLength: nat) {
    && evidence.Object? && Admissible(rules, evidence, [], 0)
    && Fine(rules, Leaves(evidence, [], ROOT))
    && |Leaves(evidence, [], ROOT)| == 1 && |Leaves(evidence, [], ROOT)[0].path| == keyLength
  }

  /** Four characters per array level are needed: below any accepted key, up to three levels reach
      their full width. */
  lemma FlatKeyReached(rules: Rules, key: string, text: string, n: nat) returns (evidence: Value)
    requires |key| <= MAX_KEY_LENGTH && key !in rules.unsafeKeys && LeafFine(rules, Leaf([], text, ROOT)) && n <= 3
    ensures Accepted(rules, evidence, |key| + 4 * n)
  {
    var inner := Nested(n, Text(text));
    evidence := Object([Entry(Some(key), inner)]);
    var leaf := Leaf(key + Indices(n), text, Wider(Tail(0, |key|, 0), n));
    OnlyEntry(key, inner);
    NestedLeaves(n, Text(text), key, Tail(0, |key|, 0));
    NestedAdmissible(rules, n, text, key, 1);
    SoleEntryAdmissible(rules, key, inner);
    assert Leaves(evidence, [], ROOT) == [leaf];
    assert Accepted(rules, evidence, |key| + 4 * n);
  }

  /** So the room of four per level is sharp: with one character less, at any number of levels, there
      is evidence that is accepted and misses the limit. */
  lemma FlatKeyRoomSharp(rules: Rules, key: string, text: string, n: nat) returns (evidence: Value)
    requires 1 <= n <= 3 && |key| == MAX_KEY_LENGTH + 1 - 4 * n
    requires key !in rules.unsafeKeys && LeafFine(rules, Leaf([], text, ROOT))
    ensures Accepted(rules, evidence, MAX_KEY_LENGTH + 1)
  {
    evidence := FlatKeyReached(rules, key, text, n);
  }

  /** The bound is reached: with any key of 128 characters there is evidence that is accepted with a
      flattened key of 140 characters, although the refusals name 128 as the limit. */
  lemma FlatKeyLimitExceeded(rules: Rules, key: string, text: string) returns (evidence: Value)
    requires |key| == MAX_KEY_LENGTH && key !in rules.unsafeKeys && LeafFine(rules, Leaf([], text, ROOT))
    ensures Accepted(rules, evidence, 140)
  {
    evidence := FlatKeyReached(rules, key, text, 3);
  }

  lemma SoleEntryAdmissible(rules: Rules, key: string, child: Value)
    requires |key| <= MAX_KEY_LENGTH && key !in rules.unsafeKeys && Admissible(rules, child, key, 1)
    ensures Admissible(rules, Object([Entry(Some(key), child)]), [], 0)
  {
    var v := Object([Entry(Some(key), child)]);
    assert ChildAdmissible(rules, v, 0, [], 0);
  }

  /** Why paths are compared: two places of one object can flatten to the same path, and then the
      evidence is refused whatever the rules say of its keys and values. */
  lemma AmbiguousPathsRefused(rules: Rules, a: string, b: string, x: string, y: string)
    requires a != []
    ensures var evidence := Object([Entry(Some(a + "." + b), Text(x)),
                                    Entry(Some(a), Object([Entry(Some(b), Text(y))]))]);
      !Fine(rules, Leaves(evidence, [], ROOT))
  {
    var inner := Object([Entry(Some(b), Text(y))]);
    var evidence := Object([Entry(Some(a + "." + b), Text(x)), Entry(Some(a), inner)]);
    var length := |a| + 1 + |b|;
    var first, second := Leaf(a + "." + b, x, Tail(0, length, 0)), Leaf(a + "." + b, y, Tail(0, length, 0));
    var below := Tail(0, |a|, 0);
    assert ChildLeaves(inner, 0, a, below) == [second];
    assert LeavesUpTo(inner, 1, a, below) == [] + [second];
    assert ChildLeaves(evidence, 0, [], ROOT) == [first];
    assert ChildLeaves(evidence, 1, [], ROOT) == Leaves(inner, a, below) == [second];
    assert LeavesUpTo(evidence, 1, [], ROOT) == [] + [first];
    assert LeavesUpTo(evidence, 2, [], ROOT) == [first] + [second];
    assert Leaves(evidence, [], ROOT)[0].path == Leaves(evidence, [], ROOT)[1].path;
  }
}
