/**
 Keeping oversized command output behind opaque ids, and reading text back in bounded pages by
 the continuation each page advertises.
 */
module CommandOutput {
  import opened Basics
  import Text

  const COMMAND_OUTPUT_PAGE_CHARS := 32000
  const TOOL_RESULT_MAX_CHARS := 64000

  datatype Saved = Saved(id: string, output: string)

  function Min(a: int, b: int): int {
    if a < b then a else b
  }

  /** The newest `n` entries. */
  function Newest(history: seq<Saved>, n: nat): seq<Saved> {
    if |history| <= n then history else history[|history| - n..]
  }

  predicate DistinctIds(saved: seq<Saved>) {
    forall i, j :: 0 <= i < j < |saved| ==> saved[i].id != saved[j].id
  }

  /** The order list and the record map both say exactly `kept`. */
  predicate Agree(order: seq<string>, records: map<string, string>, kept: seq<Saved>) {
    && |order| == |kept|
    && (forall i :: 0 <= i < |kept| ==> order[i] == kept[i].id)
    && (forall i :: 0 <= i < |kept| ==> kept[i].id in records && records[kept[i].id] == kept[i].output)
    && (forall id :: id in records ==> id in order)
  }

  lemma AgreeAppend(order: seq<string>, records: map<string, string>, kept: seq<Saved>, s: Saved)
    requires Agree(order, records, kept) && forall i :: 0 <= i < |kept| ==> kept[i].id != s.id
    ensures Agree(order + [s.id], records[s.id := s.output], kept + [s])
  {
  }

  lemma AgreeDrop(order: seq<string>, records: map<string, string>, kept: seq<Saved>)
    requires Agree(order, records, kept) && kept != [] && DistinctIds(kept)
    ensures Agree(order[1..], records - {order[0]}, kept[1..])
  {
    assert forall i :: 0 < i < |kept| ==> kept[i].id != kept[0].id;
    forall id | id in records - {order[0]} ensures id in order[1..] {
      var i :| 0 <= i < |order| && order[i] == id;
      assert order[1..][i - 1] == id;
    }
  }

  /** Only the newest `n` entries can be among the newest `n` after one more. */
  lemma NewestAppend(history: seq<Saved>, n: nat, s: Saved)
    requires DistinctIds(history) && forall k :: 0 <= k < |history| ==> history[k].id != s.id
    ensures DistinctIds(history + [s]) && DistinctIds(Newest(history, n) + [s])
    ensures Newest(Newest(history, n) + [s], n) == Newest(history + [s], n)
  {
  }

  lemma NewestDrop(kept: seq<Saved>, n: nat)
    requires n < |kept| && DistinctIds(kept)
    ensures DistinctIds(kept[1..]) && Newest(kept[1..], n) == Newest(kept, n)
  {
    assert kept[1..][|kept| - 1 - n..] == kept[|kept| - n..];
  }

  /** The session-local store.  `history` is everything ever saved. */
  class CommandOutputStore {
    const maxRecords: nat
    var records: map<string, string>
    var order: seq<string>
    ghost var history: seq<Saved>

    /** The store holds exactly the newest records, in saving order. */
    ghost predicate Valid()
      reads this
    {
      && 1 <= maxRecords && DistinctIds(history)
      && Agree(order, records, Newest(history, maxRecords))
      && (forall k :: 0 <= k < |history| ==> Text.Strip(history[k].id) != [])
    }

    constructor (maxRecords: int)
      ensures Valid() && history == [] && this.maxRecords == if maxRecords < 1 then 1 else maxRecords
    {
      this.maxRecords := if maxRecords < 1 then 1 else maxRecords;
      records, order, history := map[], [], [];
    }

    /** Saves one output under a fresh random id (never blank) and expires the oldest beyond the limit. */
    method Save(output: string, freshId: string)
      requires Valid()
      requires Text.Strip(freshId) != [] && forall k :: 0 <= k < |history| ==> history[k].id != freshId
      modifies this
      ensures Valid() && history == old(history) + [Saved(freshId, output)]
    {
      ghost var saved := Saved(freshId, output);
      ghost var kept := Newest(history, maxRecords) + [saved];
      AgreeAppend(order, records, Newest(history, maxRecords), saved);
      NewestAppend(history, maxRecords, saved);
      records := records[freshId := output];
      order := order + [freshId];
      history := history + [saved];
      while maxRecords < |order|
        invariant history == old(history) + [saved]
        invariant Agree(order, records, kept)
        invariant DistinctIds(kept)
        invariant Newest(kept, maxRecords) == Newest(history, maxRecords)
        decreases |order|
      {
        AgreeDrop(order, records, kept);
        NewestDrop(kept, maxRecords);
        kept := kept[1..];
        var expired := order[0];
        order := order[1..];
        records := records - {expired};
      }
    }

    /** The output of an id: exactly what was saved, if it is still kept. */
    method Get(id: string) returns (output: Option<string>)
      requires Valid()
      ensures output == Lookup(Newest(history, maxRecords), id)
      ensures var kept := Newest(history, maxRecords);
        output.Some? <==> exists i :: 0 <= i < |kept| && kept[i].id == id
      ensures output.Some? ==> Saved(id, output.value) in Newest(history, maxRecords)
    {
      ghost var kept := Newest(history, maxRecords);
      output := if Text.Strip(id) == [] then None else if id in records then Some(records[id]) else None;
      if id in records {
        ghost var i :| 0 <= i < |order| && order[i] == id;
        LookupFinds(kept, i);
        assert kept[i] == Saved(id, records[id]);
      } else {
        assert forall i :: 0 <= i < |kept| ==> kept[i].id != id;
        LookupMisses(kept, id);
      }
    }

    /** `read`: one page of a stored output, or nothing when the id is unknown or expired. */
    method Read(id: string, offset: int, limit: int) returns (page: Option<Result<Page, PageError>>)
      requires Valid()
      ensures page == StoredPage(Newest(history, maxRecords), id, offset, limit)
    {
      var output := Get(id);
      page := if output.None? then None else Some(ReadPage(output.value, offset, limit, COMMAND_OUTPUT_PAGE_CHARS));
    }
  }

  /** The output saved under an id, among these. */
  function Lookup(kept: seq<Saved>, id: string): Option<string> {
    if kept == [] then None
    else if kept[|kept| - 1].id == id then Some(kept[|kept| - 1].output)
    else Lookup(kept[..|kept| - 1], id)
  }

  lemma {:induction false} LookupFinds(kept: seq<Saved>, i: nat)
    requires i < |kept| && DistinctIds(kept)
    ensures Lookup(kept, kept[i].id) == Some(kept[i].output)
  {
    if i < |kept| - 1 {
      LookupFinds(kept[..|kept| - 1], i);
    }
  }

  lemma {:induction false} LookupMisses(kept: seq<Saved>, id: string)
    requires forall i :: 0 <= i < |kept| ==> kept[i].id != id
    ensures Lookup(kept, id).None?
  {
    if kept != [] {
      LookupMisses(kept[..|kept| - 1], id);
    }
  }

  lemma NewestFront(history: seq<Saved>, n: nat)
    requires history != [] && 0 < n
    ensures Newest(history, n) == Newest(history[..|history| - 1], n - 1) + [history[|history| - 1]]
  {
  }

  /** An output is still there exactly while fewer than the limit were saved after it. */
  lemma {:induction false} KeptIff(history: seq<Saved>, n: nat, i: nat)
    requires i < |history| && DistinctIds(history)
    ensures Lookup(Newest(history, n), history[i].id)
      == if |history| - 1 - i < n then Some(history[i].output) else None
    decreases |history|
  {
    if 0 < n {
      var front, last := history[..|history| - 1], history[|history| - 1];
      NewestFront(history, n);
      LookupLast(Newest(front, n - 1), last, history[i].id);
      if i < |front| {
        assert front[i] == history[i] && last.id != history[i].id;
        KeptIff(front, n - 1, i);
      }
    }
  }

  lemma LookupLast(kept: seq<Saved>, last: Saved, id: string)
    ensures Lookup(kept + [last], id) == if last.id == id then Some(last.output) else Lookup(kept, id)
  {
    assert (kept + [last])[..|kept|] == kept;
  }

  // ---------------------------------------------------------------- pages

  datatype PageError = BadOffset | BadLimit | PastEnd

  /** One page: its text and, unless it is the last, the offset it tells the reader to go on at. */
  datatype Page = Page(text: string, next: Option<nat>)

  /** `read` of a stored output and `read_file`, which differ only in the page size cap. */
  function ReadPage(text: string, offset: int, limit: int, cap: nat): Result<Page, PageError> {
    if offset < 0 then Err(BadOffset)
    else if limit < 1 then Err(BadLimit)
    else if |text| < offset then Err(PastEnd)
    else
      var end := Min(|text|, offset + Min(limit, cap));
      Ok(Page(text[offset..end], if end < |text| then Some(end) else None))
  }

  /** Pages are bounded by the cap and by the limit asked for, and only the last one may be short. */
  lemma PageBounded(text: string, offset: nat, limit: int, cap: nat)
    requires 1 <= limit && 1 <= cap && offset <= |text|
    ensures var page := ReadPage(text, offset, limit, cap);
      && page.Ok?
      && |page.value.text| <= cap && |page.value.text| <= limit
      && (page.value.next.Some? ==>
          page.value.next.value == offset + Min(limit, cap) && |page.value.text| == Min(limit, cap))
      && (page.value.next.None? ==> offset + |page.value.text| == |text|)
  {
  }

  /** What a reader gets by following every advertised continuation with the same limit. */
  function Follow(text: string, offset: nat, limit: int, cap: nat): seq<string>
    requires 1 <= limit && 1 <= cap && offset <= |text|
    decreases |text| - offset
  {
    var page := ReadPage(text, offset, limit, cap).value;
    [page.text] + if page.next.Some? then Follow(text, page.next.value, limit, cap) else []
  }

  function Concat(pages: seq<string>): string {
    if pages == [] then [] else pages[0] + Concat(pages[1..])
  }

  /** Following the continuations ends and puts the whole text back together, from any offset. */
  lemma {:induction false} PagesRebuildText(text: string, offset: nat, limit: int, cap: nat)
    requires 1 <= limit && 1 <= cap && offset <= |text|
    ensures Concat(Follow(text, offset, limit, cap)) == text[offset..]
    decreases |text| - offset
  {
    var page := ReadPage(text, offset, limit, cap).value;
    var pages := Follow(text, offset, limit, cap);
    if page.next.Some? {
      PagesRebuildText(text, page.next.value, limit, cap);
      assert pages[1..] == Follow(text, page.next.value, limit, cap);
      calc {
        Concat(pages);
        page.text + text[page.next.value..];
        text[offset..];
      }
    } else {
      assert pages == [page.text];
    }
  }

  /** Every page but the last is exactly as long as asked for (or the cap), and the last is no longer. */
  lemma {:induction false} EveryPageFull(text: string, offset: nat, limit: int, cap: nat, k: nat)
    requires 1 <= limit && 1 <= cap && offset <= |text| && k < |Follow(text, offset, limit, cap)|
    ensures |Follow(text, offset, limit, cap)[k]| <= Min(limit, cap)
    ensures k < |Follow(text, offset, limit, cap)| - 1 ==> |Follow(text, offset, limit, cap)[k]| == Min(limit, cap)
    decreases k
  {
    var page := ReadPage(text, offset, limit, cap).value;
    if k > 0 && page.next.Some? {
      EveryPageFull(text, page.next.value, limit, cap, k - 1);
    }
  }

  /** A page and what is left after it are what was left before it. */
  lemma PageOfRest(text: string, offset: nat, limit: int, cap: nat)
    requires 1 <= limit && 1 <= cap && offset <= |text|
    ensures var page := ReadPage(text, offset, limit, cap).value;
      if page.next.Some? then page.next.value <= |text| && page.text + text[page.next.value..] == text[offset..]
      else page.text == text[offset..]
  {
  }

  /** One page of a stored output. */
  function StoredPage(kept: seq<Saved>, id: string, offset: int, limit: int): Option<Result<Page, PageError>> {
    var output := Lookup(kept, id);
    if output.None? then None else Some(ReadPage(output.value, offset, limit, COMMAND_OUTPUT_PAGE_CHARS))
  }

  /** What a reader puts together who reads one page of an id at each of these moments, always with
      the same limit, going on where the page before said, until a page is the last. */
  function FollowStored(moments: seq<seq<Saved>>, n: nat, id: string, offset: nat, limit: int): Option<string> {
    if moments == [] then None
    else
      var page := StoredPage(Newest(moments[0], n), id, offset, limit);
      if page.None? || page.value.Err? then None
      else if page.value.value.next.None? then Some(page.value.value.text)
      else
        var rest := FollowStored(moments[1..], n, id, page.value.value.next.value, limit);
        if rest.None? then None else Some(page.value.value.text + rest.value)
  }

  /** The store's history at every moment of a reader: the output in question is the `i`-th saved,
      and nothing is ever taken back. */
  predicate Moments(moments: seq<seq<Saved>>, i: nat, saved: Saved) {
    && (forall k :: 0 <= k < |moments| ==> i < |moments[k]| && DistinctIds(moments[k]) && moments[k][i] == saved)
    && (forall j, k :: 0 <= j <= k < |moments| ==> |moments[j]| <= |moments[k]|)
  }

  /** Reading a stored output page by page, while other outputs are saved, gives the whole rest of it
      if and only if fewer than the limit were saved after it by the time of its last page;
      otherwise the reader is told that the id expired. */
  lemma {:induction false} StoredPagesIff(moments: seq<seq<Saved>>, n: nat, i: nat, saved: Saved, offset: nat,
                                          limit: int)
    requires Moments(moments, i, saved) && offset <= |saved.output| && 1 <= limit
    requires |moments| == |Follow(saved.output, offset, limit, COMMAND_OUTPUT_PAGE_CHARS)|
    ensures FollowStored(moments, n, saved.id, offset, limit)
      == if |moments[|moments| - 1]| - 1 - i < n then Some(saved.output[offset..]) else None
    decreases |moments|
  {
    var page := ReadPage(saved.output, offset, limit, COMMAND_OUTPUT_PAGE_CHARS).value;
    var first, last := moments[0], moments[|moments| - 1];
    KeptIff(first, n, i);
    assert |first| <= |last|;
    if page.next.Some? {
      var later := moments[1..];
      assert later[|later| - 1] == last;
      LaterMoments(moments, i, saved);
      StoredPagesIff(later, n, i, saved, page.next.value, limit);
    } else {
      assert first == last;
    }
    PageOfRest(saved.output, offset, limit, COMMAND_OUTPUT_PAGE_CHARS);
  }

  lemma LaterMoments(moments: seq<seq<Saved>>, i: nat, saved: Saved)
    requires Moments(moments, i, saved) && moments != []
    ensures Moments(moments[1..], i, saved)
  {
  }

  /** What `run_command` returns for its output, and where the stored rest goes on. */
  datatype CommandResult = Whole(text: string) | Preview(text: string, next: nat)

  function Present(output: string): CommandResult {
    if |output| <= TOOL_RESULT_MAX_CHARS then Whole(output)
    else Preview(output[..COMMAND_OUTPUT_PAGE_CHARS], COMMAND_OUTPUT_PAGE_CHARS)
  }

  /** The preview plus the pages advertised after it are the whole output. */
  lemma PreviewContinues(output: string)
    requires Present(output).Preview?
    ensures Present(output).next <= |output|
    ensures Present(output).text
        + Concat(Follow(output, Present(output).next, COMMAND_OUTPUT_PAGE_CHARS, COMMAND_OUTPUT_PAGE_CHARS)) == output
  {
    PagesRebuildText(output, COMMAND_OUTPUT_PAGE_CHARS, COMMAND_OUTPUT_PAGE_CHARS, COMMAND_OUTPUT_PAGE_CHARS);
  }

  /** The preview and the stored pages it points to are the whole output if and only if the record
      has not expired when its last page is read. */
  lemma PreviewContinuesIff(moments: seq<seq<Saved>>, n: nat, i: nat, saved: Saved)
    requires Present(saved.output).Preview? && Moments(moments, i, saved)
    requires |moments| == |Follow(saved.output, COMMAND_OUTPUT_PAGE_CHARS, COMMAND_OUTPUT_PAGE_CHARS,
                                  COMMAND_OUTPUT_PAGE_CHARS)|
    ensures var preview := Present(saved.output);
      var rest := FollowStored(moments, n, saved.id, preview.next, COMMAND_OUTPUT_PAGE_CHARS);
      if |moments[|moments| - 1]| - 1 - i < n
      then rest.Some? && preview.text + rest.value == saved.output
      else rest.None?
  {
    StoredPagesIff(moments, n, i, saved, COMMAND_OUTPUT_PAGE_CHARS, COMMAND_OUTPUT_PAGE_CHARS);
  }
}
