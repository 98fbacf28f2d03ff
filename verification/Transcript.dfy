/**
 The message list an API agent sends to its provider, and the in-place pruning that makes it fit
 a context window.
 */
module Transcript {

  datatype Role = System | User | Assistant | Tool | OtherRole

  /** A chat message.  `calls` are the ids of the tool calls it carries, `answers` the id a tool
      message answers, `jsonLength` its length in the serialized payload. */
  datatype Message = Message(role: Role, content: string, calls: seq<string>, answers: string, jsonLength: nat)

  /** The messages right after position `i` answer the calls of `ms[i]`, once each and in order. */
  predicate Answered(ms: seq<Message>, i: nat)
    requires i < |ms|
  {
    && i + |ms[i].calls| < |ms|
    && forall k :: i < k <= i + |ms[i].calls| ==>
        ms[k].role == Tool && ms[k].answers == ms[i].calls[k - i - 1]
  }

  /** From position `i` on, every tool call is answered exactly once, in order, directly after the
      message that carries it, and there is no other tool message. */
  predicate WellFormedFrom(ms: seq<Message>, i: nat)
    decreases |ms| - i
  {
    i == |ms| ||
    (i < |ms| && ms[i].role != Tool && Answered(ms, i) && WellFormedFrom(ms, i + 1 + |ms[i].calls|))
  }

  predicate WellFormed(ms: seq<Message>) {
    WellFormedFrom(ms, 0)
  }

  /** Well-formedness depends only on what is left to read. */
  lemma {:induction false} SameRest(a: seq<Message>, i: nat, b: seq<Message>, j: nat)
    requires i <= |a| && j <= |b| && |a| - i == |b| - j
    requires forall k :: j <= k < |b| ==> a[k - j + i] == b[k]
    requires WellFormedFrom(a, i)
    ensures WellFormedFrom(b, j)
    decreases |a| - i
  {
    if i < |a| {
      var n := |a[i].calls|;
      assert a[i] == b[j];
      assert forall k :: j < k <= j + n ==> a[k - j + i] == b[k];
      SameRest(a, i + 1 + n, b, j + 1 + n);
    }
  }

  /** A message that is not a tool message begins a round. */
  lemma {:induction false} RoundStarts(ms: seq<Message>, p: nat, i: nat)
    requires WellFormedFrom(ms, p) && p <= i < |ms| && ms[i].role != Tool
    ensures WellFormedFrom(ms, i)
    decreases i - p
  {
    if p < i {
      RoundStarts(ms, p + 1 + |ms[p].calls|, i);
    }
  }

  /** Two lists that agree up to `i`, where the first has a round boundary, are well formed
      together exactly when the second is well formed from there. */
  lemma {:induction false} AgreeUpTo(a: seq<Message>, b: seq<Message>, p: nat, i: nat)
    requires p <= i <= |a| && i <= |b| && WellFormedFrom(a, p)
    requires i < |a| ==> a[i].role != Tool
    requires forall k :: p <= k < i ==> a[k] == b[k]
    ensures WellFormedFrom(b, p) <==> WellFormedFrom(b, i)
    decreases i - p
  {
    if p < i {
      var n := |a[p].calls|;
      assert a[p] == b[p];
      assert p + 1 + n <= i;
      AgreeUpTo(a, b, p + 1 + n, i);
    }
  }

  /** A complete transcript may be continued by a message and the answers to its calls, and by
      nothing that starts with a tool message. */
  lemma ContinueIff(base: seq<Message>, m: Message, answers: seq<Message>)
    requires WellFormed(base)
    requires |answers| == |m.calls|
    requires forall k :: 0 <= k < |answers| ==> answers[k].role == Tool && answers[k].answers == m.calls[k]
    ensures WellFormed(base + [m] + answers) <==> m.role != Tool
  {
    var b := base + [m] + answers;
    AgreeUpTo(base, b, 0, |base|);
    assert b[|base|] == m;
    assert forall k :: |base| < k <= |base| + |m.calls| ==> b[k] == answers[k - |base| - 1];
    assert WellFormedFrom(b, |b|);
  }

  // ---------------------------------------------------------------- rounds

  /** The first assistant message at or after `from`, or the length. */
  function FirstAssistant(ms: seq<Message>, from: nat): (i: nat)
    requires from <= |ms|
    ensures from <= i <= |ms|
    ensures forall k :: from <= k < i ==> ms[k].role != Assistant
    ensures i < |ms| ==> ms[i].role == Assistant
    decreases |ms| - from
  {
    if from == |ms| || ms[from].role == Assistant then from else FirstAssistant(ms, from + 1)
  }

  /** The end of the tool messages that start at `from`. */
  function AfterTools(ms: seq<Message>, from: nat): (j: nat)
    requires from <= |ms|
    ensures from <= j <= |ms|
    ensures forall k :: from <= k < j ==> ms[k].role == Tool
    ensures j < |ms| ==> ms[j].role != Tool
    decreases |ms| - from
  {
    if from == |ms| || ms[from].role != Tool then from else AfterTools(ms, from + 1)
  }

  function HeadCount(ms: seq<Message>): nat {
    if |ms| < 2 then |ms| else 2
  }

  predicate HasRound(ms: seq<Message>, head: nat)
    requires head <= |ms|
  {
    FirstAssistant(ms, head) < |ms|
  }

  /** Removes the oldest assistant message after the head together with its tool messages. */
  function DropRound(ms: seq<Message>, head: nat): (r: seq<Message>)
    requires head <= |ms| && HasRound(ms, head)
    ensures head <= |r| < |ms| && r[..head] == ms[..head]
  {
    var i := FirstAssistant(ms, head);
    ms[..i] + ms[AfterTools(ms, i + 1)..]
  }

  lemma DropRoundIs(ms: seq<Message>, head: nat, i: nat, j: nat)
    requires head <= |ms| && HasRound(ms, head)
    requires i == FirstAssistant(ms, head) && j == AfterTools(ms, i + 1)
    ensures DropRound(ms, head) == ms[..i] + ms[j..]
  {
  }

  /** Removes the `k` oldest rounds after the head, or all of them. */
  function DropRounds(ms: seq<Message>, head: nat, k: nat): (r: seq<Message>)
    requires head <= |ms|
    ensures head <= |r| <= |ms| && r[..head] == ms[..head]
  {
    if k == 0 || !HasRound(ms, head) then ms else DropRounds(DropRound(ms, head), head, k - 1)
  }

  lemma RoundEnd(ms: seq<Message>, i: nat)
    requires WellFormedFrom(ms, i) && i < |ms|
    ensures AfterTools(ms, i + 1) == i + 1 + |ms[i].calls|
  {
    var j := AfterTools(ms, i + 1);
    var n := i + 1 + |ms[i].calls|;
    assert j < |ms| ==> ms[j].role != Tool;
    assert n < |ms| ==> ms[n].role != Tool;
  }

  /** Dropping a round keeps a transcript well formed, wherever the head ends. */
  lemma DropRoundWellFormed(ms: seq<Message>, head: nat)
    requires WellFormed(ms) && head <= |ms| && HasRound(ms, head)
    ensures WellFormed(DropRound(ms, head))
  {
    var i := FirstAssistant(ms, head);
    RoundStarts(ms, 0, i);
    RoundEnd(ms, i);
    var j := AfterTools(ms, i + 1);
    var after := DropRound(ms, head);
    SameRest(ms, j, after, i);
    AgreeUpTo(ms, after, 0, i);
  }

  // ---------------------------------------------------------------- estimating and pruning

  /** Length of the JSON object holding the messages and the tool definitions. */
  function PayloadLength(ms: seq<Message>, toolsLength: nat): nat {
    14 + BodyLength(ms) + 12 + toolsLength + 1
  }

  function BodyLength(ms: seq<Message>): nat {
    if ms == [] then 0
    else ms[0].jsonLength + (if |ms| == 1 then 0 else 2) + BodyLength(ms[1..])
  }

  /** Four characters a token. */
  function Estimate(ms: seq<Message>, toolsLength: nat): (tokens: int)
    ensures 1 <= tokens
  {
    var quarter := PayloadLength(ms, toolsLength) / 4;
    if quarter < 1 then 1 else quarter
  }

  predicate Fits(ms: seq<Message>, toolsLength: nat, maxInput: int) {
    Estimate(ms, toolsLength) <= maxInput
  }

  /** What is left once rounds are dropped one by one until the payload fits. */
  function PrunedFrom(ms: seq<Message>, head: nat, toolsLength: nat, maxInput: int): (r: seq<Message>)
    requires head <= |ms|
    ensures head <= |r| <= |ms| && r[..head] == ms[..head]
    decreases |ms|
  {
    if Fits(ms, toolsLength, maxInput) || !HasRound(ms, head) then ms
    else PrunedFrom(DropRound(ms, head), head, toolsLength, maxInput)
  }

  /** `_prune_messages_to_fit`: a non-positive allowance prunes nothing. */
  function Pruned(ms: seq<Message>, toolsLength: nat, maxInput: int): seq<Message> {
    if maxInput <= 0 then ms else PrunedFrom(ms, HeadCount(ms), toolsLength, maxInput)
  }

  function RoundsDropped(ms: seq<Message>, head: nat, toolsLength: nat, maxInput: int): nat
    requires head <= |ms|
    decreases |ms|
  {
    if Fits(ms, toolsLength, maxInput) || !HasRound(ms, head) then 0
    else 1 + RoundsDropped(DropRound(ms, head), head, toolsLength, maxInput)
  }

  lemma {:induction false} PrunedIsDropRounds(ms: seq<Message>, head: nat, toolsLength: nat, maxInput: int)
    requires head <= |ms|
    ensures PrunedFrom(ms, head, toolsLength, maxInput)
      == DropRounds(ms, head, RoundsDropped(ms, head, toolsLength, maxInput))
    decreases |ms|
  {
    if !Fits(ms, toolsLength, maxInput) && HasRound(ms, head) {
      PrunedIsDropRounds(DropRound(ms, head), head, toolsLength, maxInput);
    }
  }

  lemma {:induction false} FewerDoNotFit(ms: seq<Message>, head: nat, toolsLength: nat, maxInput: int, j: nat)
    requires head <= |ms| && j < RoundsDropped(ms, head, toolsLength, maxInput)
    ensures !Fits(DropRounds(ms, head, j), toolsLength, maxInput)
    decreases |ms|
  {
    if 0 < j {
      FewerDoNotFit(DropRound(ms, head), head, toolsLength, maxInput, j - 1);
    }
  }

  lemma {:induction false} PrunedFitsOrEmpty(ms: seq<Message>, head: nat, toolsLength: nat, maxInput: int)
    requires head <= |ms|
    ensures var r := PrunedFrom(ms, head, toolsLength, maxInput);
      Fits(r, toolsLength, maxInput) || !HasRound(r, head)
    decreases |ms|
  {
    if !Fits(ms, toolsLength, maxInput) && HasRound(ms, head) {
      PrunedFitsOrEmpty(DropRound(ms, head), head, toolsLength, maxInput);
    }
  }

  /** Pruning removes exactly the shortest run of oldest rounds after which the payload fits, or
      all rounds if it never does. */
  lemma PrunedIsShortest(ms: seq<Message>, toolsLength: nat, maxInput: int) returns (k: nat)
    requires 0 < maxInput
    ensures var head := HeadCount(ms);
      && Pruned(ms, toolsLength, maxInput) == DropRounds(ms, head, k)
      && (forall j :: 0 <= j < k ==> !Fits(DropRounds(ms, head, j), toolsLength, maxInput))
      && (Fits(DropRounds(ms, head, k), toolsLength, maxInput) || !HasRound(DropRounds(ms, head, k), head))
  {
    var head := HeadCount(ms);
    k := RoundsDropped(ms, head, toolsLength, maxInput);
    PrunedIsDropRounds(ms, head, toolsLength, maxInput);
    PrunedFitsOrEmpty(ms, head, toolsLength, maxInput);
    forall j | 0 <= j < k ensures !Fits(DropRounds(ms, head, j), toolsLength, maxInput) {
      FewerDoNotFit(ms, head, toolsLength, maxInput, j);
    }
  }

  lemma {:induction false} PrunedWellFormed(ms: seq<Message>, head: nat, toolsLength: nat, maxInput: int)
    requires WellFormed(ms) && head <= |ms|
    ensures WellFormed(PrunedFrom(ms, head, toolsLength, maxInput))
    decreases |ms|
  {
    if !Fits(ms, toolsLength, maxInput) && HasRound(ms, head) {
      DropRoundWellFormed(ms, head);
      PrunedWellFormed(DropRound(ms, head), head, toolsLength, maxInput);
    }
  }

  /** The list object the agent appends to and prunes in place. */
  class MessageList {
    var items: seq<Message>

    constructor ()
      ensures items == []
    {
      items := [];
    }

    method Append(m: Message)
      modifies this
      ensures items == old(items) + [m]
    {
      items := items + [m];
    }

    /** The scan for the oldest round after the head. */
    method FindRound(head: nat) returns (cutStart: nat, cutEnd: nat)
      requires head <= |items|
      ensures cutStart == FirstAssistant(items, head)
      ensures cutStart < |items| ==> cutEnd == AfterTools(items, cutStart + 1)
    {
      cutStart := head;
      while cutStart < |items| && items[cutStart].role != Assistant
        invariant head <= cutStart <= |items|
        invariant FirstAssistant(items, head) == FirstAssistant(items, cutStart)
      {
        cutStart := cutStart + 1;
      }
      cutEnd := cutStart + 1;
      while cutEnd < |items| && items[cutEnd].role == Tool
        invariant cutStart < cutEnd
        invariant cutStart < |items| ==>
          cutEnd <= |items| && AfterTools(items, cutStart + 1) == AfterTools(items, cutEnd)
      {
        cutEnd := cutEnd + 1;
      }
    }

    method PruneToFit(toolsLength: nat, maxInput: int) returns (removed: nat)
      modifies this
      ensures items == Pruned(old(items), toolsLength, maxInput)
      ensures removed == |old(items)| - |items|
    {
      if maxInput <= 0 {
        return 0;
      }
      var head := HeadCount(items);
      removed := 0;
      while true
        invariant head <= |items|
        invariant removed == |old(items)| - |items|
        invariant PrunedFrom(items, head, toolsLength, maxInput) == Pruned(old(items), toolsLength, maxInput)
        decreases |items|
      {
        if Estimate(items, toolsLength) <= maxInput {
          return;
        }
        var cutStart, cutEnd := FindRound(head);
        if cutStart == |items| {
          return;
        }
        DropRoundIs(items, head, cutStart, cutEnd);
        items := items[..cutStart] + items[cutEnd..];
        removed := removed + (cutEnd - cutStart);
        if |items| <= cutStart {
          assert !HasRound(items, head);
          return;
        }
      }
    }
  }
}
