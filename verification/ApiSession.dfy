/**
 One run of the API agent: the turn loop, the provider call with its retries and token budget,
 and the rules that stop it.  Whatever the provider, the tools and the cancellation signal do is
 given as functions from the number of the request, turn and tool call to an outcome.
 */
module ApiSession {
  import opened Basics
  import opened Transcript

  const DEFAULT_MAX_OUTPUT_TOKENS := 32768
  const MIN_MAX_OUTPUT_TOKENS := 1024
  const TOKENIZER_SAFETY_MARGIN := 1024
  const FALLBACK_CONTEXT := 131072
  const MAX_RETRIES := 5
  const MAX_CONSECUTIVE_ERRORS := 3

  /** How the agent treats a tool call: a question it may stop on, or a tool it runs. */
  datatype Call =
    | Ask(id: string, complete: bool, question: Question)
    | Run(id: string, complete: bool, productive: bool, submitsAudit: bool)

  datatype Question = Blank | Blocked | Genuine

  datatype AssistantReply = AssistantReply(
    role: Role, content: string, jsonLength: nat, truncated: bool, calls: seq<Call>)

  /** What one HTTP attempt yields; a reply may lack choices. */
  datatype Http =
    | Reply(reply: Option<AssistantReply>)
    | RateLimited
    | TransientFailure
    | ContextWindow(limit: Option<int>)
    | PermanentFailure

  /** The text a tool call ends in, or an exception that ends the run.  `signature` is the tool
      name with the first 200 characters of the text, by which repeated errors are recognized. */
  datatype ToolOutcome =
    | Result(text: string, signature: string, failed: bool, accepted: bool, jsonLength: nat)
    | Raises

  datatype Status = Succeeded | Failed | AskedQuestion | Stalled | MaxTurns | RateLimit

  /** One request as sent: a snapshot of the messages and the output allowance. */
  datatype Request = Request(messages: seq<Message>, toolsLength: nat, maxTokens: int, window: Option<int>)

  /** The allowance for the answer inside a context window. */
  function MaxTokens(window: int, estimate: int): (r: int)
    ensures MIN_MAX_OUTPUT_TOKENS <= r <= DEFAULT_MAX_OUTPUT_TOKENS
    ensures estimate <= window - MIN_MAX_OUTPUT_TOKENS - TOKENIZER_SAFETY_MARGIN
      <==> estimate + r + TOKENIZER_SAFETY_MARGIN <= window
  {
    var headroom := window - estimate - TOKENIZER_SAFETY_MARGIN;
    var capped := if headroom < DEFAULT_MAX_OUTPUT_TOKENS then headroom else DEFAULT_MAX_OUTPUT_TOKENS;
    if capped < MIN_MAX_OUTPUT_TOKENS then MIN_MAX_OUTPUT_TOKENS else capped
  }

  function MaxInput(window: int): int {
    window - MIN_MAX_OUTPUT_TOKENS - TOKENIZER_SAFETY_MARGIN
  }

  /** The budget a request keeps: prompt, answer and margin fit the window exactly when the prompt
      fits its share, and the prompt misses its share only when nothing is left to prune. */
  predicate BudgetKept(r: Request) {
    && MIN_MAX_OUTPUT_TOKENS <= r.maxTokens <= DEFAULT_MAX_OUTPUT_TOKENS
    && (r.window.None? ==> r.maxTokens == DEFAULT_MAX_OUTPUT_TOKENS)
    && (r.window.Some? ==>
        var estimate := Estimate(r.messages, r.toolsLength);
        var share := MaxInput(r.window.value);
        && (estimate <= share <==> estimate + r.maxTokens + TOKENIZER_SAFETY_MARGIN <= r.window.value)
        && (estimate <= share || share <= 0 || !HasRound(r.messages, HeadCount(r.messages))))
  }

  /** The first two messages, or fewer while the list is shorter. */
  function Head(ms: seq<Message>): seq<Message> {
    ms[..HeadCount(ms)]
  }

  predicate Sound(r: Request) {
    WellFormed(r.messages) && BudgetKept(r)
  }

  function CallIds(calls: seq<Call>): (ids: seq<string>)
    ensures |ids| == |calls|
    ensures forall i :: 0 <= i < |calls| ==> ids[i] == calls[i].id
  {
    seq(|calls|, i requires 0 <= i < |calls| => calls[i].id)
  }

  function CompleteCalls(calls: seq<Call>): (r: seq<Call>)
    ensures forall c :: c in r <==> c in calls && c.complete
  {
    if calls == [] then []
    else
      var rest := CompleteCalls(calls[1..]);
      if calls[0].complete then [calls[0]] + rest else rest
  }

  /** A truncated reply keeps only the calls whose arguments arrived whole. */
  function KeptCalls(reply: AssistantReply): seq<Call> {
    if reply.truncated then CompleteCalls(reply.calls) else reply.calls
  }

  function AssistantMessage(reply: AssistantReply): Message {
    Message(reply.role, reply.content, CallIds(KeptCalls(reply)), "", reply.jsonLength)
  }

  function ToolMessage(id: string, text: string, jsonLength: nat): Message {
    Message(Tool, text, [], id, jsonLength)
  }

  /** These requests are sound and share a head. */
  predicate AllSound(requests: seq<Request>, head: seq<Message>) {
    forall i :: 0 <= i < |requests| ==> Sound(requests[i]) && Head(requests[i].messages) == head
  }

  /** Every request of a run so far is sound, and the head only ever grew. */
  predicate RunSound(sent: seq<Request>, head: seq<Message>) {
    && (forall i :: 0 <= i < |sent| ==> Sound(sent[i]) && Head(sent[i].messages) <= head)
    && (forall i, j :: 0 <= i <= j < |sent| ==> Head(sent[i].messages) <= Head(sent[j].messages))
  }

  lemma RunSoundOn(sent: seq<Request>, head: seq<Message>, more: seq<Request>, head': seq<Message>,
                   sent': seq<Request>)
    requires RunSound(sent, head) && head <= head' && AllSound(more, head') && sent' == sent + more
    ensures RunSound(sent', head')
  {
  }

  /** Whether the outcome of the `attempt`-th try of a call is tried again: rate limits and
      transient failures up to the last try, a context-window error only on the first. */
  predicate Retried(attempt: int, outcome: Http) {
    || ((outcome.RateLimited? || outcome.TransientFailure?) && attempt < MAX_RETRIES - 1)
    || (outcome.ContextWindow? && attempt == 0)
  }

  /** All the outcomes of a call so far were tried again. */
  predicate AllRetried(went: seq<Http>) {
    forall i :: 0 <= i < |went| ==> Retried(i, went[i])
  }

  /** The window the first request of a call is budgeted for; zero counts as unset. */
  function ConfiguredWindow(modelMaxContext: Option<int>): Option<int> {
    if modelMaxContext == Some(0) then None else modelMaxContext
  }

  /** The window a context-window error leaves the retried request with. */
  function Reported(limit: Option<int>): Option<int> {
    Some(if limit.Some? then limit.value else FALLBACK_CONTEXT)
  }

  /** The request for some messages: pruned and budgeted when there is a window. */
  function Budgeted(messages: seq<Message>, toolsLength: nat, window: Option<int>): Request {
    if window.None? then Request(messages, toolsLength, DEFAULT_MAX_OUTPUT_TOKENS, None)
    else
      var kept := Pruned(messages, toolsLength, MaxInput(window.value));
      Request(kept, toolsLength, MaxTokens(window.value, Estimate(kept, toolsLength)), window)
  }

  lemma BudgetedSound(messages: seq<Message>, toolsLength: nat, window: Option<int>)
    requires WellFormed(messages) && messages != []
    ensures var r := Budgeted(messages, toolsLength, window);
      Sound(r) && r.messages != [] && Head(r.messages) == Head(messages)
  {
    if window.Some? && 0 < MaxInput(window.value) {
      PrunedWellFormed(messages, HeadCount(messages), toolsLength, MaxInput(window.value));
      PrunedFitsOrEmpty(messages, HeadCount(messages), toolsLength, MaxInput(window.value));
    }
  }

  /** A retry sends the same again, except after a context-window error. */
  function Following(request: Request, outcome: Http): Request {
    if outcome.ContextWindow? then Budgeted(request.messages, request.toolsLength, Reported(outcome.limit))
    else request
  }

  /** Each outcome is what the provider answered to the request of that number. */
  predicate FromProvider(received: seq<Http>, provider: nat -> Http) {
    forall i :: 0 <= i < |received| ==> received[i] == provider(i)
  }

  lemma FromProviderOn(received: seq<Http>, provider: nat -> Http, outcome: Http, received': seq<Http>)
    requires FromProvider(received, provider) && outcome == provider(|received|) && received' == received + [outcome]
    ensures FromProvider(received', provider)
  {
  }

  /** The latest request of a call that went on from these outcomes. */
  function LatestRequest(first: Request, went: seq<Http>): Request {
    if went == [] then first
    else Following(LatestRequest(first, went[..|went| - 1]), went[|went| - 1])
  }

  /** All requests of a call that went on from these outcomes. */
  function Requests(first: Request, went: seq<Http>): (r: seq<Request>)
    ensures |r| == |went| + 1
  {
    if went == [] then [first] else Requests(first, went[..|went| - 1]) + [LatestRequest(first, went)]
  }

  /** A call that goes on from one more outcome. */
  lemma RequestsOn(earlier: seq<Request>, first: Request, went: seq<Http>, outcome: Http,
                   next: Request, sent: seq<Request>)
    requires next == Following(LatestRequest(first, went), outcome)
    requires sent == earlier + Requests(first, went) + [next]
    ensures next == LatestRequest(first, went + [outcome])
    ensures sent == earlier + Requests(first, went + [outcome])
  {
    assert (went + [outcome])[..|went|] == went;
  }

  /** A call's window changes exactly at its context-window errors, to the limit they report. */
  lemma {:induction false} RequestWindows(first: Request, went: seq<Http>, i: nat)
    requires i <= |went|
    ensures var r := Requests(first, went);
      r[i].window == if i == 0 then first.window
                     else if went[i - 1].ContextWindow? then Reported(went[i - 1].limit)
                     else r[i - 1].window
  {
    if went != [] {
      var front := went[..|went| - 1];
      if i < |went| {
        RequestWindows(first, front, i);
      } else {
        LatestIsLast(first, front);
      }
    }
  }

  lemma LatestIsLast(first: Request, went: seq<Http>)
    ensures Requests(first, went)[|went|] == LatestRequest(first, went)
  {
  }

  /** A call whose first request is sound stays sound and keeps its head. */
  lemma {:induction false} LatestSound(first: Request, went: seq<Http>)
    requires Sound(first) && first.messages != []
    ensures var r := LatestRequest(first, went);
      Sound(r) && r.messages != [] && Head(r.messages) == Head(first.messages)
  {
    if went != [] {
      LatestSound(first, went[..|went| - 1]);
      var before, last := LatestRequest(first, went[..|went| - 1]), went[|went| - 1];
      if last.ContextWindow? {
        BudgetedSound(before.messages, before.toolsLength, Reported(last.limit));
      }
    }
  }

  lemma {:induction false} RequestsSound(first: Request, went: seq<Http>)
    requires Sound(first) && first.messages != []
    ensures AllSound(Requests(first, went), Head(first.messages))
  {
    LatestSound(first, went);
    if went != [] {
      RequestsSound(first, went[..|went| - 1]);
    }
  }

  /** A context-window error teaches a limit unless one is held. */
  function LearnedFrom(held: Option<int>, outcome: Http): Option<int> {
    if outcome.ContextWindow? && held.None? then Reported(outcome.limit) else held
  }

  /** What the agent holds as its context limit after the outcomes it went on from: the configured
      limit, or else the first one that an error reported. */
  function Learned(configured: Option<int>, received: seq<Http>): Option<int> {
    if received == [] then configured
    else
      LearnedFrom(Learned(configured, received[..|received| - 1]), received[|received| - 1])
  }

  /** And what it holds in a call that went on from these outcomes, having held this. */
  function LearnedInCall(held: Option<int>, went: seq<Http>): Option<int> {
    if went != [] && went[0].ContextWindow? && held.None? then Reported(went[0].limit) else held
  }

  lemma LearnedInCallOn(held: Option<int>, went: seq<Http>, outcome: Http)
    requires AllRetried(went) && Retried(|went|, outcome)
    ensures LearnedInCall(held, went + [outcome]) == LearnedFrom(LearnedInCall(held, went), outcome)
    ensures AllRetried(went + [outcome])
  {
  }

  lemma {:induction false} LearnedAfterCall(configured: Option<int>, received: seq<Http>, went: seq<Http>)
    requires AllRetried(went)
    ensures Learned(configured, received + went) == LearnedInCall(Learned(configured, received), went)
  {
    if went == [] {
      assert received + went == received;
    } else {
      LearnedAfterCall(configured, received, went[..|went| - 1]);
      assert (received + went)[..|received + went| - 1] == received + went[..|went| - 1];
    }
  }

  /** The window of the request that follows these outcomes. */
  function WindowAt(configured: Option<int>, received: seq<Http>): Option<int> {
    if received == [] then ConfiguredWindow(configured)
    else
      match received[|received| - 1]
      case Reply(_) => ConfiguredWindow(Learned(configured, received))
      case ContextWindow(limit) => Reported(limit)
      case _ => WindowAt(configured, received[..|received| - 1])
  }

  /** A configured limit is never replaced, and a learned one stays. */
  lemma {:induction false} LearnedStays(configured: Option<int>, received: seq<Http>)
    requires configured.Some?
    ensures Learned(configured, received) == configured
  {
    if received != [] {
      LearnedStays(configured, received[..|received| - 1]);
    }
  }

  /** Where a turn begins: the limit held is the learned one and the last turn had a reply. */
  predicate AtTurn(configured: Option<int>, held: Option<int>, received: seq<Http>) {
    && held == Learned(configured, received)
    && (received == [] || received[|received| - 1].Reply?)
  }

  /** The last request has the window the outcomes before it call for, and is the retry of the one
      before unless that had a reply. */
  predicate LastFits(configured: Option<int>, sent: seq<Request>, received: seq<Http>)
    requires |sent| == |received| > 0
  {
    var n := |sent| - 1;
    && sent[n].window == WindowAt(configured, received[..n])
    && (n > 0 && !received[n - 1].Reply? ==> sent[n] == Following(sent[n - 1], received[n - 1]))
  }

  /** And so do all requests of a run. */
  predicate RunFits(configured: Option<int>, sent: seq<Request>, received: seq<Http>) {
    && |sent| == |received|
    && (sent != [] ==>
        && LastFits(configured, sent, received)
        && RunFits(configured, sent[..|sent| - 1], received[..|sent| - 1]))
  }

  lemma {:induction false} RunFitsAt(configured: Option<int>, sent: seq<Request>, received: seq<Http>, i: nat)
    requires RunFits(configured, sent, received) && i < |sent|
    ensures sent[i].window == WindowAt(configured, received[..i])
    ensures i > 0 && !received[i - 1].Reply? ==> sent[i] == Following(sent[i - 1], received[i - 1])
  {
    if i < |sent| - 1 {
      RunFitsAt(configured, sent[..|sent| - 1], received[..|sent| - 1], i);
      assert received[..|sent| - 1][..i] == received[..i];
    }
  }

  lemma RunFitsThroughout(configured: Option<int>, sent: seq<Request>, received: seq<Http>)
    requires RunFits(configured, sent, received)
    ensures forall i :: 0 <= i < |sent| ==> sent[i].window == WindowAt(configured, received[..i])
    ensures forall i :: 0 < i < |sent| && !received[i - 1].Reply? ==>
      sent[i] == Following(sent[i - 1], received[i - 1])
  {
    forall i: nat | i < |sent|
      ensures sent[i].window == WindowAt(configured, received[..i])
      ensures i > 0 && !received[i - 1].Reply? ==> sent[i] == Following(sent[i - 1], received[i - 1])
    {
      RunFitsAt(configured, sent, received, i);
    }
  }

  lemma RunFitsOn(configured: Option<int>, sent: seq<Request>, received: seq<Http>, r: Request, o: Http,
                  sent': seq<Request>, received': seq<Http>)
    requires RunFits(configured, sent, received) && r.window == WindowAt(configured, received)
    requires received != [] && !received[|received| - 1].Reply? ==>
      r == Following(sent[|sent| - 1], received[|received| - 1])
    requires sent' == sent + [r] && received' == received + [o]
    ensures RunFits(configured, sent', received')
  {
    assert sent'[..|sent|] == sent && received'[..|sent|] == received;
  }

  lemma RetryWindow(configured: Option<int>, sent: seq<Request>, earlier: seq<Http>, tried: Http)
    requires sent != [] && RunFits(configured, sent, earlier + [tried]) && !tried.Reply?
    ensures Following(sent[|sent| - 1], tried).window == WindowAt(configured, earlier + [tried])
  {
    assert (earlier + [tried])[..|earlier|] == earlier;
  }

  lemma CallFitsOn(configured: Option<int>, sent: seq<Request>, received: seq<Http>, first: Request,
                   front: seq<Http>, tried: Http, last: Http)
    requires RunFits(configured, sent + Requests(first, front), received + front + [tried]) && !tried.Reply?
    ensures RunFits(configured, sent + Requests(first, front + [tried]), received + (front + [tried]) + [last])
  {
    var latest := Following(LatestRequest(first, front), tried);
    LatestIsLast(first, front);
    RetryWindow(configured, sent + Requests(first, front), received + front, tried);
    RequestsOn(sent, first, front, tried, latest, sent + Requests(first, front) + [latest]);
    Regroup(received, front, [tried]);
    RunFitsOn(configured, sent + Requests(first, front), received + front + [tried], latest, last,
              sent + Requests(first, front + [tried]), received + (front + [tried]) + [last]);
  }

  /** A turn's call keeps the windows of the run right, whatever its last outcome. */
  lemma {:induction false} CallFits(configured: Option<int>, held: Option<int>, sent: seq<Request>,
                                    received: seq<Http>, first: Request, went: seq<Http>, last: Http)
    requires RunFits(configured, sent, received) && AtTurn(configured, held, received)
    requires first.window == ConfiguredWindow(held) && AllRetried(went)
    ensures RunFits(configured, sent + Requests(first, went), received + went + [last])
  {
    if went == [] {
      RunFitsOn(configured, sent, received, first, last, sent + Requests(first, went), received + went + [last]);
    } else {
      var front, tried := went[..|went| - 1], went[|went| - 1];
      CallFits(configured, held, sent, received, first, front, tried);
      assert front + [tried] == went;
      CallFitsOn(configured, sent, received, first, front, tried, last);
    }
  }

  lemma Regroup<T>(a: seq<T>, b: seq<T>, c: seq<T>)
    ensures a + b + c == a + (b + c)
  {
  }

  /** A whole turn: the windows stay right, and a reply leaves the limit that was learned. */
  lemma TurnFits(configured: Option<int>, held: Option<int>, sent: seq<Request>, received: seq<Http>, first: Request,
                 went: seq<Http>, last: Http, held': Option<int>, sent': seq<Request>, received': seq<Http>)
    requires RunFits(configured, sent, received) && AtTurn(configured, held, received)
    requires first.window == ConfiguredWindow(held) && AllRetried(went)
    requires sent' == sent + Requests(first, went) && received' == received + went + [last]
    requires held' == LearnedInCall(held, went)
    ensures RunFits(configured, sent', received')
    ensures last.Reply? ==> AtTurn(configured, held', received')
    ensures received'[|received'| - 1] == last
  {
    CallFits(configured, held, sent, received, first, went, last);
    LearnedAfterCall(configured, received, went);
    assert received'[..|received'| - 1] == received + went;
  }

  // ---------------------------------------------------------------- stop rules

  datatype ToolTrace = ToolTrace(failed: bool, signature: string)

  /** Length of the trailing run of identical failures. */
  function ErrorStreak(results: seq<ToolTrace>): nat {
    if results == [] || !results[|results| - 1].failed then 0
    else
      var front, last := results[..|results| - 1], results[|results| - 1];
      if front != [] && front[|front| - 1] == last then ErrorStreak(front) + 1 else 1
  }

  /** Length of the trailing run of turns without a successful write or command. */
  function IdleTurns(turns: seq<bool>): nat {
    if turns == [] || turns[|turns| - 1] then 0 else IdleTurns(turns[..|turns| - 1]) + 1
  }

  /** How a turn ends the run once all its calls are answered: repeated errors come first, then the
      cancellation, then idleness. */
  function AfterTurn(streak: nat, cancelled: bool, idle: nat, stallTurns: int): Option<Status> {
    if MAX_CONSECUTIVE_ERRORS <= streak then Some(Stalled)
    else if cancelled then Some(Succeeded)
    else if stallTurns <= idle then Some(Stalled)
    else None
  }

  /** What the repeated-error rule remembers of one executed call. */
  function Traced(call: Call, outcome: ToolOutcome): ToolTrace
    requires call.Run? && outcome.Result?
  {
    ToolTrace(outcome.failed, if outcome.failed then outcome.signature else "")
  }

  /** What the stop rules see of the first `n` calls of a turn, questions left out. */
  function Traces(calls: seq<Call>, outcomes: seq<ToolOutcome>, n: nat): seq<ToolTrace>
    requires n <= |calls| == |outcomes|
  {
    if n == 0 then []
    else
      var front := Traces(calls, outcomes, n - 1);
      var call, outcome := calls[n - 1], outcomes[n - 1];
      if call.Run? && outcome.Result? then front + [Traced(call, outcome)] else front
  }

  function AnswerTo(call: Call, outcome: ToolOutcome): Message {
    if outcome.Result? then ToolMessage(call.id, outcome.text, outcome.jsonLength) else ToolMessage(call.id, "", 0)
  }

  /** The answers to the first `n` calls of a turn. */
  function Answers(calls: seq<Call>, outcomes: seq<ToolOutcome>, n: nat): (r: seq<Message>)
    requires n <= |calls| == |outcomes|
    ensures |r| == n
    ensures forall k :: 0 <= k < n ==> r[k].role == Tool && r[k].answers == calls[k].id
  {
    if n == 0 then []
    else Answers(calls, outcomes, n - 1) + [AnswerTo(calls[n - 1], outcomes[n - 1])]
  }

  lemma AnswersOn(base: seq<Message>, calls: seq<Call>, outcomes: seq<ToolOutcome>, n: nat, items: seq<Message>)
    requires n < |calls| == |outcomes|
    requires items == base + Answers(calls, outcomes, n) + [AnswerTo(calls[n], outcomes[n])]
    ensures items == base + Answers(calls, outcomes, n + 1)
  {
  }

  lemma TracesOn(base: seq<ToolTrace>, calls: seq<Call>, outcomes: seq<ToolOutcome>, n: nat, results: seq<ToolTrace>)
    requires n < |calls| == |outcomes| && outcomes[n].Result?
    requires results == base + Traces(calls, outcomes, n)
      + if calls[n].Run? then [Traced(calls[n], outcomes[n])] else []
    ensures results == base + Traces(calls, outcomes, n + 1)
  {
  }

  /** Whether one of the first `n` calls of a turn was a successful write or command. */
  predicate Productive(calls: seq<Call>, outcomes: seq<ToolOutcome>, n: nat)
    requires n <= |calls| == |outcomes|
  {
    n != 0 && (Productive(calls, outcomes, n - 1) || Writes(calls[n - 1], outcomes[n - 1]))
  }

  predicate Writes(call: Call, outcome: ToolOutcome) {
    call.Run? && call.productive && outcome.Result? && !outcome.failed
  }

  /** The call at which a turn ends the run, and how. */
  function EndsAt(call: Call, outcome: ToolOutcome): Option<Status> {
    if outcome.Raises? then Some(Failed)
    else if call.Ask? then (if call.question.Genuine? then Some(AskedQuestion) else None)
    else if call.submitsAudit && outcome.accepted && !outcome.failed then Some(Succeeded)
    else None
  }

  /** The first ending among the first `n` calls of a turn. */
  function Ending(calls: seq<Call>, outcomes: seq<ToolOutcome>, n: nat): Option<Status>
    requires n <= |calls| == |outcomes|
  {
    if n == 0 then None
    else
      var earlier := Ending(calls, outcomes, n - 1);
      if earlier.Some? then earlier else EndsAt(calls[n - 1], outcomes[n - 1])
  }

  lemma {:induction false} EndingStays(calls: seq<Call>, outcomes: seq<ToolOutcome>, i: nat, n: nat)
    requires i <= n <= |calls| == |outcomes| && Ending(calls, outcomes, i).Some?
    ensures Ending(calls, outcomes, n) == Ending(calls, outcomes, i)
  {
    if i < n {
      EndingStays(calls, outcomes, i, n - 1);
    }
  }

  lemma {:induction false} EndingKinds(calls: seq<Call>, outcomes: seq<ToolOutcome>, n: nat)
    requires n <= |calls| == |outcomes|
    ensures Ending(calls, outcomes, n).Some? ==> Ending(calls, outcomes, n).value in {Succeeded, Failed, AskedQuestion}
  {
    if n != 0 {
      EndingKinds(calls, outcomes, n - 1);
    }
  }

  lemma HeadGrows(a: seq<Message>, b: seq<Message>)
    requires a <= b
    ensures Head(a) <= Head(b)
  {
  }

  class ApiSession {
    const maxTurns: int
    const stallTurns: int
    const systemPrompt: Option<Message>
    const userPrompt: Message
    const finalizationPrompt: Message
    const requiresAuditResult: bool
    const toolsLength: nat
    const auditToolsLength: nat
    var modelMaxContext: Option<int>
    var forceFinalization: bool
    var sent: seq<Request>
    var received: seq<Http>
    var results: seq<ToolTrace>
    var turns: seq<bool>

    constructor (maxTurns: int, stallTurns: int, systemPrompt: Option<Message>, userPrompt: Message,
                 finalizationPrompt: Message, requiresAuditResult: bool, toolsLength: nat,
                 auditToolsLength: nat, modelMaxContext: Option<int>)
      ensures this.maxTurns == maxTurns && this.stallTurns == stallTurns
      ensures this.systemPrompt == systemPrompt && this.userPrompt == userPrompt
      ensures this.finalizationPrompt == finalizationPrompt && this.modelMaxContext == modelMaxContext
      ensures sent == [] && received == [] && results == [] && turns == []
    {
      this.maxTurns, this.stallTurns := maxTurns, stallTurns;
      this.systemPrompt, this.userPrompt, this.finalizationPrompt := systemPrompt, userPrompt, finalizationPrompt;
      this.requiresAuditResult := requiresAuditResult;
      this.toolsLength, this.auditToolsLength := toolsLength, auditToolsLength;
      this.modelMaxContext, this.forceFinalization := modelMaxContext, false;
      sent, received, results, turns := [], [], [], [];
    }

    function ToolsLength(): nat
      reads this
    {
      if forceFinalization then auditToolsLength else toolsLength
    }

    /** Prunes the list for a window and builds the request, with the allowance that goes with it. */
    method FitWindow(messages: MessageList, window: int) returns (request: Request)
      requires WellFormed(messages.items) && messages.items != []
      modifies messages
      ensures WellFormed(messages.items) && Head(messages.items) == old(Head(messages.items))
      ensures request == Budgeted(old(messages.items), ToolsLength(), Some(window))
      ensures request.messages == messages.items && BudgetKept(request)
    {
      BudgetedSound(messages.items, ToolsLength(), Some(window));
      var removed := messages.PruneToFit(ToolsLength(), MaxInput(window));
      var maxTokens := MaxTokens(window, Estimate(messages.items, ToolsLength()));
      request := Request(messages.items, ToolsLength(), maxTokens, Some(window));
    }

    /** The first request of a call: pruned and budgeted when a context window is configured. */
    method FirstRequest(messages: MessageList) returns (request: Request)
      requires WellFormed(messages.items) && messages.items != []
      modifies messages
      ensures Head(messages.items) == old(Head(messages.items))
      ensures request == Budgeted(old(messages.items), ToolsLength(), ConfiguredWindow(modelMaxContext))
      ensures request.messages == messages.items && Sound(request)
    {
      var window := ConfiguredWindow(modelMaxContext);
      if window.Some? {
        request := FitWindow(messages, window.value);
      } else {
        request := Request(messages.items, ToolsLength(), DEFAULT_MAX_OUTPUT_TOKENS, None);
      }
    }

    /** Adopts the limit a context-window error reports and prunes to it. */
    method LearnWindow(messages: MessageList, limit: Option<int>) returns (request: Request)
      requires WellFormed(messages.items) && messages.items != []
      modifies this`modelMaxContext, messages
      ensures Head(messages.items) == old(Head(messages.items))
      ensures request == Budgeted(old(messages.items), ToolsLength(), Reported(limit))
      ensures request.messages == messages.items && Sound(request)
      ensures modelMaxContext == if old(modelMaxContext).Some? then old(modelMaxContext) else Reported(limit)
    {
      var learned := if limit.Some? then limit.value else FALLBACK_CONTEXT;
      if modelMaxContext.None? {
        modelMaxContext := Some(learned);
      }
      request := FitWindow(messages, learned);
    }

    /** The request of the next attempt: the same again, except after a context-window error. */
    method NextRequest(messages: MessageList, request: Request, outcome: Http) returns (next: Request)
      requires request.messages == messages.items && messages.items != [] && Sound(request)
      requires request.toolsLength == ToolsLength()
      modifies this`modelMaxContext, messages
      ensures Head(messages.items) == old(Head(messages.items)) && messages.items != []
      ensures next.messages == messages.items && Sound(next)
      ensures next == Following(request, outcome)
      ensures modelMaxContext == LearnedFrom(old(modelMaxContext), outcome)
    {
      if outcome.ContextWindow? {
        next := LearnWindow(messages, outcome.limit);
      } else {
        next := request;
      }
    }

    /** One HTTP attempt. */
    method Post(request: Request, provider: nat -> Http) returns (outcome: Http)
      requires |received| == |sent| && FromProvider(received, provider)
      modifies this`sent, this`received
      ensures sent == old(sent) + [request]
      ensures received == old(received) + [outcome] && FromProvider(received, provider)
    {
      outcome := provider(|sent|);
      sent := sent + [request];
      FromProviderOn(received, provider, outcome, received + [outcome]);
      received := received + [outcome];
    }

    /** Sends the next attempt after an outcome that is tried again. */
    method Retry(messages: MessageList, request: Request, outcome: Http, provider: nat -> Http)
      returns (next: Request, answer: Http)
      requires request.messages == messages.items && messages.items != [] && Sound(request)
      requires request.toolsLength == ToolsLength() && |received| == |sent| && FromProvider(received, provider)
      modifies this`sent, this`received, this`modelMaxContext, messages
      ensures next == Following(request, outcome) && sent == old(sent) + [next]
      ensures received == old(received) + [answer] && FromProvider(received, provider)
      ensures modelMaxContext == LearnedFrom(old(modelMaxContext), outcome)
      ensures next.messages == messages.items && messages.items != [] && Sound(next)
      ensures next.toolsLength == ToolsLength()
    {
      next := NextRequest(messages, request, outcome);
      answer := Post(next, provider);
    }

    /** `_call_api`: at most five attempts, each after the first the retry of the one before; a
        context-window error is retried once, pruned to the limit it reports, and only when the
        first attempt met it. */
    method CallApi(messages: MessageList, provider: nat -> Http)
      returns (outcome: Http, ghost first: Request, ghost went: seq<Http>)
      requires WellFormed(messages.items) && messages.items != []
      requires |received| == |sent| && FromProvider(received, provider)
      modifies this`sent, this`received, this`modelMaxContext, messages
      ensures first == Budgeted(old(messages.items), ToolsLength(), ConfiguredWindow(old(modelMaxContext)))
      ensures sent == old(sent) + Requests(first, went)
      ensures received == old(received) + went + [outcome]
      ensures AllRetried(went) && !Retried(|went|, outcome) && |went| < MAX_RETRIES
      ensures FromProvider(received, provider)
      ensures modelMaxContext == LearnedInCall(old(modelMaxContext), went)
      ensures messages.items == LatestRequest(first, went).messages
      ensures messages.items != [] && WellFormed(messages.items)
      ensures AllSound(Requests(first, went), Head(messages.items))
      ensures Head(messages.items) == old(Head(messages.items))
    {
      var request := FirstRequest(messages);
      first, went := request, [];
      outcome := Post(request, provider);
      var attempt := 0;
      while Retried(attempt, outcome)
        invariant 0 <= attempt == |went| < MAX_RETRIES && AllRetried(went)
        invariant sent == old(sent) + Requests(first, went) && request == LatestRequest(first, went)
        invariant received == old(received) + went + [outcome]
        invariant FromProvider(received, provider)
        invariant modelMaxContext == LearnedInCall(old(modelMaxContext), went)
        invariant request.messages == messages.items && messages.items != [] && Sound(request)
        invariant request.toolsLength == ToolsLength()
        decreases MAX_RETRIES - attempt
      {
        ghost var tried := outcome;
        LearnedInCallOn(old(modelMaxContext), went, tried);
        request, outcome := Retry(messages, request, outcome, provider);
        RequestsOn(old(sent), first, went, tried, request, sent);
        Regroup(old(received), went, [tried]);
        went := went + [tried];
        attempt := attempt + 1;
      }
      LatestSound(first, went);
      RequestsSound(first, went);
    }

    /** Neither stop rule has been met by the turns completed so far. */
    predicate Going()
      reads this
    {
      turns == [] || (ErrorStreak(results) < MAX_CONSECUTIVE_ERRORS && IdleTurns(turns) < stallTurns)
    }

    /** Runs one tool call and appends its answer, unless it ends the run first. */
    method AnswerOne(messages: MessageList, call: Call, outcome: ToolOutcome)
      returns (ends: Option<Status>, productive: bool)
      modifies this`results, messages
      ensures ends == EndsAt(call, outcome)
      ensures ends.None? ==> outcome.Result?
      ensures ends.None? ==> messages.items == old(messages.items) + [AnswerTo(call, outcome)]
      ensures old(messages.items) <= messages.items
      ensures ends.None? ==>
        results == old(results) + if call.Run? && outcome.Result? then [Traced(call, outcome)] else []
      ensures ends.None? ==> productive == Writes(call, outcome)
    {
      productive := false;
      if outcome.Raises? {
        return Some(Failed), false;
      }
      if call.Ask? && call.question.Genuine? {
        return Some(AskedQuestion), false;
      }
      messages.Append(ToolMessage(call.id, outcome.text, outcome.jsonLength));
      if call.Ask? {
        return None, false;
      }
      if call.submitsAudit && outcome.accepted && !outcome.failed {
        return Some(Succeeded), false;
      }
      productive := call.productive && !outcome.failed;
      results := results + [Traced(call, outcome)];
      ends := None;
    }

    /** Answers the tool calls of the last message, one by one.  `None` means every call was
        answered; otherwise the run ends with the given status. */
    method AnswerCalls(messages: MessageList, calls: seq<Call>, outcomes: seq<ToolOutcome>)
      returns (ends: Option<Status>, productive: bool)
      requires |outcomes| == |calls|
      modifies this`results, messages
      ensures old(messages.items) <= messages.items
      ensures ends.None? ==> messages.items == old(messages.items) + Answers(calls, outcomes, |calls|)
      ensures ends.None? ==> results == old(results) + Traces(calls, outcomes, |calls|)
      ensures ends.None? ==> productive == Productive(calls, outcomes, |calls|)
      ensures ends == Ending(calls, outcomes, |calls|)
    {
      productive := false;
      for i := 0 to |calls|
        invariant messages.items == old(messages.items) + Answers(calls, outcomes, i)
        invariant Ending(calls, outcomes, i).None?
        invariant results == old(results) + Traces(calls, outcomes, i)
        invariant productive == Productive(calls, outcomes, i)
      {
        var wrote;
        ends, wrote := AnswerOne(messages, calls[i], outcomes[i]);
        if ends.Some? {
          EndingStays(calls, outcomes, i + 1, |calls|);
          return;
        }
        AnswersOn(old(messages.items), calls, outcomes, i, messages.items);
        TracesOn(old(results), calls, outcomes, i, results);
        productive := productive || wrote;
      }
      ends := None;
    }

    /** Puts the finalization prompt on a reserved last turn. */
    method ReserveLastTurn(messages: MessageList, turn: nat)
      requires messages.items != [] && WellFormed(messages.items)
      requires finalizationPrompt.role == User && finalizationPrompt.calls == []
      modifies this`forceFinalization, messages
      ensures forceFinalization == (requiresAuditResult && turn == maxTurns)
      ensures messages.items == old(messages.items) + if forceFinalization then [finalizationPrompt] else []
      ensures messages.items != [] && WellFormed(messages.items)
      ensures old(Head(messages.items)) <= Head(messages.items)
    {
      forceFinalization := requiresAuditResult && turn == maxTurns;
      if forceFinalization {
        ContinueIff(messages.items, finalizationPrompt, []);
        HeadGrows(messages.items, messages.items + [finalizationPrompt]);
        assert messages.items + [finalizationPrompt] + [] == messages.items + [finalizationPrompt];
        messages.Append(finalizationPrompt);
      }
    }

    /** Sends the list for one turn, with the finalization prompt on a reserved last turn. */
    method SendTurn(messages: MessageList, turn: nat, provider: nat -> Http, ghost configured: Option<int>)
      returns (outcome: Http)
      requires messages.items != [] && WellFormed(messages.items)
      requires RunSound(sent, Head(messages.items))
      requires RunFits(configured, sent, received) && AtTurn(configured, modelMaxContext, received)
      requires FromProvider(received, provider)
      requires finalizationPrompt.role == User && finalizationPrompt.calls == []
      modifies this`forceFinalization, this`sent, this`received, this`modelMaxContext, messages
      ensures messages.items != [] && WellFormed(messages.items)
      ensures RunSound(sent, Head(messages.items))
      ensures |old(sent)| < |sent| <= |old(sent)| + MAX_RETRIES
      ensures RunFits(configured, sent, received)
      ensures received != [] && outcome == received[|received| - 1]
      ensures FromProvider(received, provider) && outcome == provider(|sent| - 1)
      ensures outcome.Reply? ==> AtTurn(configured, modelMaxContext, received)
    {
      ReserveLastTurn(messages, turn);
      ghost var first, went;
      outcome, first, went := CallApi(messages, provider);
      RunSoundOn(old(sent), old(Head(messages.items)), Requests(first, went), Head(messages.items), sent);
      TurnFits(configured, old(modelMaxContext), old(sent), old(received), first, went, outcome,
               modelMaxContext, sent, received);
    }

    /** Appends the reply and acts on it; `None` lets the loop go on. */
    method HandleReply(messages: MessageList, reply: AssistantReply, outcomes: seq<ToolOutcome>, cancelled: bool)
      returns (ends: Option<Status>)
      requires messages.items != [] && WellFormed(messages.items) && reply.role != Tool
      requires Going() && |outcomes| == |KeptCalls(reply)|
      modifies this`results, this`turns, messages
      ensures old(messages.items) <= messages.items
      ensures ends.None? ==> WellFormed(messages.items) && Going()
      ensures var calls := KeptCalls(reply);
        Ending(calls, outcomes, |calls|).None? && calls != [] ==>
          && messages.items == old(messages.items) + [AssistantMessage(reply)] + Answers(calls, outcomes, |calls|)
          && turns == old(turns) + [Productive(calls, outcomes, |calls|)]
          && results == old(results) + Traces(calls, outcomes, |calls|)
          && ends == AfterTurn(ErrorStreak(results), cancelled, IdleTurns(turns), stallTurns)
      ensures var ending := Ending(KeptCalls(reply), outcomes, |outcomes|);
        ending.Some? ==> ends == ending
      ensures KeptCalls(reply) == [] ==>
        && turns == old(turns) && messages.items == old(messages.items) + [AssistantMessage(reply)]
        && ends == if requiresAuditResult then None else Some(Succeeded)
      ensures ends == Some(Stalled) ==> !Going()
      ensures ends != Some(MaxTurns)
    {
      ghost var base := messages.items;
      var m := AssistantMessage(reply);
      messages.Append(m);
      var calls := KeptCalls(reply);
      if calls == [] {
        ContinueIff(base, m, []);
        assert base + [m] + [] == base + [m];
        return if requiresAuditResult then None else Some(Succeeded);
      }
      var productive;
      ends, productive := AnswerCalls(messages, calls, outcomes);
      EndingKinds(calls, outcomes, |calls|);
      if ends.Some? {
        return;
      }
      ContinueIff(base, m, Answers(calls, outcomes, |calls|));
      turns := turns + [productive];
      if MAX_CONSECUTIVE_ERRORS <= ErrorStreak(results) {
        return Some(Stalled);
      }
      if cancelled {
        return Some(Succeeded);
      }
      if stallTurns <= IdleTurns(turns) {
        return Some(Stalled);
      }
      ends := None;
    }

    /** One turn; `None` lets the loop go on. */
    method TakeTurn(messages: MessageList, turn: nat, provider: nat -> Http, tools: (nat, nat) -> ToolOutcome,
                    cancelled: bool, ghost configured: Option<int>)
      returns (ends: Option<Status>)
      requires messages.items != [] && WellFormed(messages.items)
      requires RunSound(sent, Head(messages.items)) && Going()
      requires RunFits(configured, sent, received) && AtTurn(configured, modelMaxContext, received)
      requires FromProvider(received, provider)
      requires forall n :: provider(n).Reply? && provider(n).reply.Some? ==> provider(n).reply.value.role != Tool
      requires finalizationPrompt.role == User && finalizationPrompt.calls == []
      modifies this, messages
      ensures messages.items != [] && RunSound(sent, Head(messages.items))
      ensures |sent| <= |old(sent)| + MAX_RETRIES
      ensures RunFits(configured, sent, received) && FromProvider(received, provider)
      ensures ends.None? ==> WellFormed(messages.items) && AtTurn(configured, modelMaxContext, received) && Going()
      ensures ends == Some(Stalled) ==> !Going()
      ensures ends != Some(MaxTurns)
    {
      var outcome := SendTurn(messages, turn, provider, configured);
      if outcome.RateLimited? {
        return Some(RateLimit);
      }
      if !outcome.Reply? || outcome.reply.None? {
        return Some(Failed);
      }
      ghost var before := messages.items;
      var outcomes := seq(|KeptCalls(outcome.reply.value)|, (i: nat) => tools(turn, i));
      ends := HandleReply(messages, outcome.reply.value, outcomes, cancelled);
      HeadGrows(before, messages.items);
      RunSoundOn(sent, Head(before), [], Head(messages.items), sent);
    }

    /** `run_task`.  The provider never answers in the tool role. */
    method RunTask(provider: nat -> Http, tools: (nat, nat) -> ToolOutcome, cancelled: nat -> bool)
      returns (status: Status)
      requires sent == [] && received == [] && results == [] && turns == []
      requires forall n :: provider(n).Reply? && provider(n).reply.Some? ==> provider(n).reply.value.role != Tool
      requires userPrompt.role == User && userPrompt.calls == []
      requires finalizationPrompt.role == User && finalizationPrompt.calls == []
      requires systemPrompt.Some? ==> systemPrompt.value.role == System && systemPrompt.value.calls == []
      modifies this
      ensures forall i :: 0 <= i < |sent| ==> WellFormed(sent[i].messages) && BudgetKept(sent[i])
      ensures forall i, j :: 0 <= i <= j < |sent| ==> Head(sent[i].messages) <= Head(sent[j].messages)
      ensures |received| == |sent| <= MAX_RETRIES * (if maxTurns < 0 then 0 else maxTurns)
      ensures forall i :: 0 <= i < |received| ==> received[i] == provider(i)
      ensures forall i :: 0 <= i < |sent| ==> sent[i].window == WindowAt(old(modelMaxContext), received[..i])
      ensures forall i :: 0 < i < |sent| && !received[i - 1].Reply? ==>
        sent[i] == Following(sent[i - 1], received[i - 1])
      ensures status == Stalled ==> !Going()
      ensures status == MaxTurns ==> Going()
    {
      ghost var configured := modelMaxContext;
      var messages := new MessageList();
      if systemPrompt.Some? {
        messages.Append(systemPrompt.value);
      }
      messages.Append(userPrompt);
      var turn := 1;
      while turn <= maxTurns
        invariant 1 <= turn && (turn == 1 || turn <= maxTurns + 1)
        invariant fresh(messages)
        invariant messages.items != [] && WellFormed(messages.items)
        invariant RunSound(sent, Head(messages.items))
        invariant |sent| <= MAX_RETRIES * (turn - 1)
        invariant RunFits(configured, sent, received) && AtTurn(configured, modelMaxContext, received)
        invariant FromProvider(received, provider)
        invariant Going()
      {
        var ends := TakeTurn(messages, turn, provider, tools, cancelled(turn), configured);
        if ends.Some? {
          RunFitsThroughout(configured, sent, received);
          return ends.value;
        }
        turn := turn + 1;
      }
      RunFitsThroughout(configured, sent, received);
      status := MaxTurns;
    }
  }
}
