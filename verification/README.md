# Oompah: verified models of its coordination core

This project models the parts of Oompah that decide, under concurrency, retries and crashes, what may
happen next, and proves what every run of them keeps. Each module follows one source file or component:

| module | what it models |
|---|---|
| `CheckpointQueue`, `CheckpointProtocol` | the checkpoint coalescing queue: its fields and critical sections, and all interleavings of its callers, timer threads and `flush_fn` |
| `AuditorSelector` | choosing an independent auditor, and keeping one in reserve while contributors are dispatched |
| `AuditChain`, `AuditLane` | which audit record may be worked on, and the retry lane with its two budgets over all runs |
| `Transcript`, `ApiSession` | the API agent's message list, pruning, budgeting, retries and turn loop |
| `CommandOutput` | oversized output kept by id, and reading text back page by page |
| `AgentSession`, `ProviderPermit` | the transport permit and the subprocess across launch and stop, for the CLI, ACP and API agents |
| `ProcessCapture` | finding and terminating exactly the processes of a workspace |
| `ChurnStore` | the rolling conflict window with its incrementally kept per-file counts |
| `SafeEvidence` | flattening nested auditor evidence |
| `ArchiveGate` | the archive safety gate that is judged twice |
| `Text`, `Basics` | string operations and small datatypes |

Code that changes state step by step is a class or a method, proved against a function on values; the
lemmas are about those functions and about every run of them. A protocol is a state machine whose steps
are the sections that run without interruption: sections under the queue's lock, or what runs between
two `await`s on one event loop. The environment (provider replies, tool results, process tables, clocks,
random ids, verdicts) enters as parameters that may take any value.

## Where the code and its promise part

Each of these is proved, with the exact condition under which the promise holds.

- A `flush` that returns 0 does not say that everything it saw is committed. A failed batch is not put
  back into the buffer (`oompah/checkpoint_queue.py:203-204`), although the log text there and
  `plans/state-branch-design.md:399` speak of a retry, and what `retire` handed over is not committed by
  the queue. On a live or a retired queue everything is committed if and only if the last `flush_fn` to
  complete did not fail and nothing was handed over: `FlushReturnCommitsIff`, `ZeroReturnCommitsIff`, with
  the witnesses `ZeroReturnAfterFailure` and `ZeroReturnAfterRetire`.
- A dispatch that the reservation allows can still empty the eligible auditors: it does if and only if
  the dispatched provider is not identified or it spoils every viable candidate, the reserved one
  included: `DispatchEmptiesIff`, and over runs `EligibleAfterRunIff`. An unresolved model on the only
  viable provider does it: `UnknownModelEmptiesAuditors`. The reserved candidate itself survives if and
  only if the provider is identified and, on its own provider, both models are known:
  `ReservedSurvivesIff`, which is not needed for some other auditor to remain: `ReservedLostAuditorKept`.
- `finish_attempt` may name an attempt that has ended, as a worker that exits late does
  (`oompah/orchestrator.py:67664-67684`), and moves it between budgets if and only if it has
  no verdict and the new failure counts in another budget: `FinishingConservesIff`, and for the spent
  pairs `FinishingKeepsPairsIff`. Pairs and budgets are kept at every moment of a run if and only if every
  such finish fits at its own (`FinishPaidIff`, `PaidThroughoutIff`). A move to no budget, that is, a late
  lifecycle pause, always fits, though it refunds (`FinishingAgainRefunds`); a move to the transport
  budget fits while that has room beside the running attempt; a move to the substantive budget fits while
  that has room and the pair is not spent again. One that does not fit is reachable:
  `StaleFinishOverspends`.
- A backend may ask for its transport permit only once: a second permit that is abandoned is never
  returned while the first is held or used: `SecondAskSettledIff`.
- A churn window of 0 bounds nothing (`history[-0:]` is everything): `WindowBoundsIff`. The total is
  documented as the events in the window and counts the dropped ones too: `TotalIsWindowIff`,
  `TotalOutlivesWindow`. `clear_window` misreports what it pruned for a negative `keep_last`:
  `PrunedCountIff`.
- A flattened evidence key may be 140 characters long although refusals name 128 as the limit
  (`FlatKeyBound`, `FlatKeyLimitExceeded`). It keeps the limit if and only if its length up to the last
  object key leaves room for the array indices after it; four characters per array level are enough room
  and one less is not: `FlatKeyWithinIff`, `FlatKeyRoomSharp`.
- The archive gates disagree on a verdict that only `casefold` turns into "pass": one accepts it by
  `casefold`, the other compares by `lower`. The two then say different things of a snapshot that records
  no failure mode and carries no guidance: `GatesAgreeIff`, `GapIffSpecial`, `SharpVerdictSplitsGates`,
  `GuidanceMissingIff`. The failure mode for a blocked disposition without an explanation is dead code:
  `BlockedModeNeverRecorded`.

## Model

| member | source | states |
|---|---|---|
| `CheckpointQueue.CorrectedMaxDelay` | oompah/checkpoint_queue.py:69-79 | a configured hard delay is raised to leave at least one second beyond the debounce, and otherwise kept |
| `CheckpointQueue.CheckpointQueue.constructor` | oompah/checkpoint_queue.py:58-110 | a new queue is empty, live, without timers |
| `CheckpointQueue.CheckpointQueue.Schedule` | oompah/checkpoint_queue.py:113-155 | the locked section does exactly what the protocol's schedule step does, or refuses on a retired queue and changes nothing |
| `CheckpointQueue.CheckpointQueue.Drain` | oompah/checkpoint_queue.py:191-204 | cancels both timers and empties the buffer |
| `CheckpointQueue.CheckpointQueue.BeginFlush` | oompah/checkpoint_queue.py:187-204 | the swap section of `flush`: nothing on a retired or empty queue |
| `CheckpointQueue.CheckpointQueue.EndFlush` | oompah/checkpoint_queue.py:210-252 | a successful `flush_fn` dates the last push; a failed one counts one push failure and restores nothing |
| `CheckpointQueue.CheckpointQueue.Retire` | oompah/checkpoint_queue.py:254-279 | the locked section of `retire`: drains once, then reports 0 |
| `CheckpointProtocol.StepPreserves` | oompah/checkpoint_queue.py:113-279 | every enabled step of every thread keeps the protocol invariant |
| `CheckpointProtocol.RunPreserves` | oompah/checkpoint_queue.py:113-348 | so does every run, for any number of callers and timer threads |
| `CheckpointProtocol.OneFlushAtATime` | oompah/checkpoint_queue.py:187-221 | in no interleaving are two `flush_fn` calls in flight |
| `CheckpointProtocol.FlushReturnMeans` | oompah/checkpoint_queue.py:187-221 | when a `flush` returns on a live queue every mutation accepted before its swap has had a completed `flush_fn`; a positive return means all are committed, earlier failed batches included |
| `CheckpointProtocol.FlushReturnCommitsIff` | oompah/checkpoint_queue.py:203-252 | on a live or a retired queue, everything a returning `flush` saw is committed if and only if the last `flush_fn` to complete did not fail and no `retire` handed anything over |
| `CheckpointProtocol.ZeroReturnCommitsIff` | oompah/checkpoint_queue.py:187-204 | a `flush` that finds the queue retired or nothing pending returns 0, and everything accepted before is committed then if and only if the last `flush_fn` to complete before its swap did not fail and no `retire` handed anything over |
| `CheckpointProtocol.ZeroReturnAfterFailure` | oompah/checkpoint_queue.py:203-252 | a reachable run in which `flush` returns 0 and an accepted mutation stays uncommitted |
| `CheckpointProtocol.ZeroReturnAfterRetire` | oompah/checkpoint_queue.py:187-190 | a reachable run in which no `flush_fn` failed and a `flush` on the retired queue returns 0 beside a mutation that was handed over |
| `CheckpointProtocol.NoPendingOrphan` | oompah/checkpoint_queue.py:113-147 | pending, first-pending time and both stored timers agree, and the hard timer is armed for first-pending plus the maximum delay or has a callback that has not yet swapped |
| `CheckpointProtocol.DeadlineBoundsAge` | oompah/checkpoint_queue.py:125-147 | when the hard timer fires no pending mutation is older than the maximum delay plus the timer's own lateness |
| `CheckpointProtocol.MutationsConserved` | oompah/checkpoint_queue.py:119-279 | pending + in flight + flushed + failed + transferred = accepted, in every reachable state |
| `CheckpointProtocol.NeverDeadlocked` | oompah/checkpoint_queue.py:187-279 | while any thread is inside `flush` or `retire` some thread can move |
| `CheckpointProtocol.RetireFencesTheQueue` | oompah/checkpoint_queue.py:254-279 | after a `retire` no `flush_fn` runs or starts, nothing is accepted and no timer is stored, in every continuation |
| `AuditorSelector.ContributedModels` | oompah/auditor_candidate_selector.py:467-478 | the index of known models per contributing provider holds exactly the known contributor pairs |
| `AuditorSelector.ExcludeContributors` | oompah/auditor_candidate_selector.py:450-522 | the partition loop computes the specified exclusion: independent candidates first, verified same-provider fallbacks only without one, otherwise the reason |
| `AuditorSelector.SelectedAreIndependent` | oompah/auditor_candidate_selector.py:177-215 | every selected auditor differs from every contributor in provider, or in a model where both are known |
| `AuditorSelector.EligibleIff` | oompah/auditor_candidate_selector.py:329-401 | an auditor is eligible if and only if no contributor is anonymous and some candidate that passes the policy is viable |
| `AuditorSelector.DispatchSpoils` | oompah/auditor_candidate_selector.py:450-522 | recording a contributor costs a candidate its viability if and only if they share the provider and are not demonstrably different models |
| `AuditorSelector.ReservedSurvivesIff` | oompah/auditor_candidate_selector.py:217-289 | the reserved auditor survives a dispatch if and only if the dispatched provider is identified and, on the reserved provider, both models are known |
| `AuditorSelector.EligibleAfterIff` | oompah/auditor_candidate_selector.py:450-522 | an auditor is eligible after a dispatch if and only if every contributor is identified and some viable candidate is not spoiled |
| `AuditorSelector.DispatchEmptiesIff` | oompah/auditor_candidate_selector.py:217-289 | a dispatch allowed by the reservation empties the auditors if and only if its provider is not identified or it spoils every viable candidate |
| `AuditorSelector.EligibleAfterRunIff` | oompah/auditor_candidate_selector.py:217-289 | over any run of dispatches an auditor is eligible at the end if and only if every contributor is identified and some candidate was spoiled by none |
| `AuditorSelector.AuditorAlwaysRemains` | oompah/auditor_candidate_selector.py:217-289 | a run of dispatches, each reserved and identified at its moment, meets that condition, so the eligible auditors are never emptied |
| `AuditorSelector.UnknownModelEmptiesAuditors` | oompah/auditor_candidate_selector.py:492-503 | for any role and contributors, when all viable candidates are on one provider an allowed dispatch there with an unresolved model empties them |
| `AuditorSelector.ReservedLostAuditorKept` | oompah/auditor_candidate_selector.py:492-503 | with another viable provider an auditor remains although the reserved one is lost |
| `AuditorSelector.UnknownModelEmptiesAuditorsWitness` | oompah/auditor_candidate_selector.py:492-503 | a concrete candidate with an unset model that does |
| `AuditChain.ExecutionAuthorityKey` | oompah/auditor_dispatch.py:104-134 | the accumulator loops compute the ownership key: live, in progress, generation, newest instant, id |
| `AuditChain.KeyTotal` | oompah/auditor_dispatch.py:104-134 | ownership keys are totally ordered |
| `AuditChain.GreatestDominates` | oompah/auditor_dispatch.py:298-322 | no record is above the one `max` picks |
| `AuditChain.MergedNeedsDonePass` | oompah/auditor_dispatch.py:278-401 | a Merged record is returned only if the chain holds a completed Done record with a PASS for that very record's project, task and authority, duplicates included |
| `AuditChain.LiveOwnerOfNewestSource` | oompah/auditor_dispatch.py:298-401 | the returned record has the newest source generation's authority and owns a live attempt if any record of that authority does |
| `AuditChain.OrderMattersOnlyForFirstTarget` | oompah/auditor_dispatch.py:278-401 | any permutation of the chain that keeps the first active target yields the same record |
| `AuditLane.FinishAttempt` | oompah/auditor_dispatch.py:727-770 | the loop ends exactly the named attempt, or leaves the record alone |
| `AuditLane.FinishingConservesIff` | oompah/auditor_dispatch.py:727-770 | finishing an attempt, ended or not, leaves both counts as they are if and only if it has a verdict, no failure is given, or the failure counts in the same budget |
| `AuditLane.FinishingKeepsPairsIff` | oompah/auditor_dispatch.py:416-434 | and the spent pairs if and only if there is no pair, nothing changes for it, or it was spent already |
| `AuditLane.StepLive` | oompah/auditor_dispatch.py:466-770 | every operation and environment event keeps at most one live attempt, the newest |
| `AuditLane.StepKeeps` | oompah/auditor_dispatch.py:466-770 | every one also keeps distinct pairs and both budgets, a finish if and only if it fits |
| `AuditLane.FinishPaidIff` | oompah/auditor_dispatch.py:727-770 | finishing an ended attempt again keeps distinct pairs and both budgets if and only if it stays in its budget, leaves both, or has room, and an unspent pair, where it moves |
| `AuditLane.PaidThroughoutIff` | oompah/auditor_dispatch.py:416-464 | pairs and budgets are kept at every moment of a run if and only if every finish fits at its own |
| `AuditLane.BudgetsHold` | oompah/auditor_dispatch.py:416-464 | at the end of every run whose finishes fit, and before, substantive attempts stay within `max_attempts`, transport failures within max(1, `max_transport_retries`, `max_attempts`), and no provider/model pair is spent twice |
| `AuditLane.StaleFinishOverspends` | oompah/auditor_dispatch.py:747-767 | a run from a new request, launches gated by `recover`, whose late finish overspends the budget and spends a pair twice |
| `AuditLane.OneUnendedAttempt` | oompah/auditor_dispatch.py:466-572 | no run, crashes included, has two unended launched attempts |
| `AuditLane.NoLaunchOverLiveWorker` | oompah/auditor_dispatch.py:474-572 | a launch is never persisted while a live worker owns the current attempt |
| `AuditLane.RecoverIdempotent` | oompah/auditor_dispatch.py:474-572 | on reachable records recovering twice is recovering once |
| `AuditLane.RecoverEndsIff` | oompah/auditor_dispatch.py:474-572 | recovery ends the launched attempt if and only if no live worker owns it and its evidence changed, its TTL passed or the caller has a registry; otherwise it changes nothing |
| `AuditLane.PlanIsFirstUnused` | oompah/auditor_dispatch.py:574-640 | a plan names the first eligible auditor whose provider/model pair the audit has not spent, independent of every contributor |
| `AuditLane.StepAppendsOnly` | oompah/auditor_dispatch.py:642-770 | an operation adds at most one attempt, moves no identity and rewrites no ended attempt but the one a finish names |
| `AuditLane.HistoryImmutable` | oompah/auditor_dispatch.py:642-770 | an ended attempt is the same after every later run that does not finish it again |
| `AuditLane.PauseConsumesNothing` | oompah/auditor_dispatch.py:57-77 | an attempt ended as a lifecycle pause consumes neither budget and frees its pair |
| `AuditLane.FinishingAgainRefunds` | oompah/auditor_dispatch.py:747-767 | naming an ended substantive attempt again as a pause refunds its budget and frees its pair |
| `Transcript.ContinueIff` | oompah/api_agent.py:2561-2754 | a complete transcript stays complete with a message and its answers if and only if that message is not itself a tool message |
| `Transcript.MessageList.FindRound` | oompah/api_agent.py:2118-2130 | the scan finds the oldest assistant message after the head and the end of its tool messages |
| `Transcript.MessageList.PruneToFit` | oompah/api_agent.py:2086-2137 | pruning in place leaves the specified list, ends, and returns the number of messages removed |
| `Transcript.PrunedIsShortest` | oompah/api_agent.py:2086-2137 | what goes is exactly the shortest run of oldest rounds that makes the payload fit, or all of them |
| `Transcript.PrunedFitsOrEmpty` | oompah/api_agent.py:2086-2137 | afterwards the payload fits or no round is left |
| `Transcript.PrunedWellFormed` | oompah/api_agent.py:2127-2134 | pruning any amount leaves every tool call answered once, in order, directly after it, and no orphan answers |
| `ApiSession.MaxTokens` | oompah/api_agent.py:3004-3008 | the output allowance is between 1024 and 32768 and fits the window with the margin if and only if the prompt fits its share |
| `ApiSession.ApiSession.FitWindow` | oompah/api_agent.py:2989-3008 | a request for a window is pruned for it, keeps its head and keeps the budget |
| `ApiSession.ApiSession.LearnWindow` | oompah/api_agent.py:3117-3145 | a reported or fallback limit is adopted and the retried request keeps the budget for it |
| `ApiSession.ApiSession.CallApi` | oompah/api_agent.py:2969-3153 | at most five attempts, each sound and within budget; the first is pruned and budgeted for the configured window, a context-window error is retried once, pruned and budgeted for the limit it reports, which is learned unless one is held, and any other retry sends the same again; exactly the retryable outcomes are retried |
| `ApiSession.RequestWindows` | oompah/api_agent.py:3055-3145 | within a call the window changes exactly at a context-window error, to the reported or fallback limit |
| `ApiSession.RequestsSound` | oompah/api_agent.py:2989-3145 | a call whose first request is well formed and within budget stays so and keeps its head through any outcomes |
| `ApiSession.LearnedAfterCall` | oompah/api_agent.py:3117-3130 | over the calls of a run the limit held is the configured one or else the first one reported |
| `ApiSession.LearnedStays` | oompah/api_agent.py:3124-3130 | a limit that is held is never replaced by a reported one |
| `ApiSession.CallFits` | oompah/api_agent.py:2969-3153 | a call extends a run whose windows are those its outcomes call for to a longer such run |
| `ApiSession.ApiSession.AnswerCalls` | oompah/api_agent.py:2622-2794 | every call gets one answer in order until the first call that ends the run |
| `ApiSession.ApiSession.HandleReply` | oompah/api_agent.py:2556-2848 | a turn whose calls were all answered ends as stalled for repeated errors, else as succeeded if cancelled, else as stalled for idleness, else goes on with a complete transcript; any other turn ends as its first ending call says |
| `ApiSession.ApiSession.RunTask` | oompah/api_agent.py:2378-2859 | in every run every request sent is well formed and within budget for the window its outcomes call for: the configured or learned limit after a reply, the reported limit after a context-window error, else that of the request it repeats; a retry is what the retried request and its outcome determine, the first two messages never change once present, requests are bounded, and the run stalls only when a stop rule is met |
| `CommandOutput.CommandOutputStore.Save` | oompah/api_agent.py:332-340 | order and records agree on exactly the newest outputs up to the limit |
| `CommandOutput.CommandOutputStore.Get` | oompah/api_agent.py:342-346 | an id yields exactly what was saved under it, if and only if it is among the newest |
| `CommandOutput.CommandOutputStore.Read` | oompah/api_agent.py:355-402 | one page of the stored output, or nothing for an unknown or expired id |
| `CommandOutput.KeptIff` | oompah/api_agent.py:332-346 | a saved output is found under its id if and only if fewer than the limit were saved after it |
| `CommandOutput.PageBounded` | oompah/api_agent.py:349-402 | a page is bounded by the limit and the cap, and advertises the offset where it ends unless it is the last |
| `CommandOutput.PagesRebuildText` | oompah/api_agent.py:798-828 | following the advertised offsets from anywhere ends and rebuilds the rest of the text |
| `CommandOutput.EveryPageFull` | oompah/api_agent.py:798-828 | every page but the last is exactly as long as asked for |
| `CommandOutput.PreviewContinues` | oompah/api_agent.py:1412-1434 | the preview of a command plus the pages advertised after it are the whole output |
| `CommandOutput.StoredPagesIff` | oompah/api_agent.py:332-402 | reading a stored output page by page while others are saved with any limit gives the whole rest if and only if it has not expired at its last page |
| `CommandOutput.PreviewContinuesIff` | oompah/api_agent.py:1412-1434 | following the preview's continuation through the store rebuilds the output if and only if fewer than the limit were saved after it by the last page |
| `AgentSession.AgentSession.CancelPrecontactAdmission` | oompah/agent.py:511-523 | returns a permit that is held and not contacted, and nothing else |
| `AgentSession.AgentSession.BeginStart` | oompah/agent.py:549-607 | `start` up to the subprocess call, on every failing path without a permit left behind |
| `AgentSession.AgentSession.FinishSpawn` | oompah/agent.py:617-651 | the process and the contact are published in one section and a stop requested meanwhile is carried out |
| `AgentSession.AgentSession.FailSpawn` | oompah/agent.py:652-663 | a failed or cancelled subprocess call returns the permit |
| `AgentSession.AgentSession.Stop` | oompah/agent.py:939-953 | a stop before the process exists returns an unused permit unless the subprocess call is in flight |
| `AgentSession.NextKeeps` | oompah/agent.py:549-663 | every section, in every order with stops, keeps the permit ledger, the phase flags and the stop lock in agreement |
| `AgentSession.PermitSettledOnce` | oompah/agent.py:511-663 | in every interleaving a permit is granted at most once and, once `start` is over, was contacted or returned, never both |
| `AgentSession.SettledForGood` | oompah/agent.py:511-523 | a contacted or returned permit never changes again; no return after contact |
| `AgentSession.StopFencesStart` | oompah/agent.py:643-651 | a stop requested before `start` is over prevents a normal return, and no process is left running when it is over |
| `AgentSession.EarlyStopPreventsContact` | oompah/agent.py:579-602 | a stop before the subprocess call prevents the process |
| `AgentSession.StopsComplete` | oompah/agent.py:939-953 | when no stopper is left at the lock a stopped process is retired, for good |
| `ProviderPermit.AcpFacade.BeginBackendTransportContact` | oompah/acp_agent.py:452-467 | a backend is admitted only if no stop was requested before or during the callback |
| `ProviderPermit.AcpFacade.MarkBackendTransportContacted` | oompah/acp_agent.py:469-473 | contact uses the permit up |
| `ProviderPermit.AcpFacade.CancelPrecontactAdmission` | oompah/acp_agent.py:297-308 | returns a permit that is held and not contacted, and nothing else |
| `ProviderPermit.AcpPermitSettledOnce` | oompah/acp_agent.py:297-473 | for a backend that asks once, the permit is contacted or returned when `run_task` is over, never both and never neither |
| `ProviderPermit.AcpSettledForGood` | oompah/acp_agent.py:297-308 | a settled permit never changes again |
| `ProviderPermit.TerminateFencesBackend` | oompah/acp_agent.py:452-489 | after `terminate` a backend that holds no permit never gets one |
| `ProviderPermit.SecondAskSettledIff` | oompah/acp_agent.py:446-473 | a second permit that is abandoned is settled if and only if the first is neither held nor used |
| `ProviderPermit.ApiAdmission.AdmitOnce` | oompah/api_agent.py:2278-2299 | one attempt consults the callback only while nothing is decided and returns the decided answer |
| `ProviderPermit.FirstReplySticks` | oompah/api_agent.py:2278-2299 | the first reply that is not an exception decides every later attempt |
| `ProviderPermit.DecisionIsFinal` | oompah/api_agent.py:2288-2299 | a denial can never turn into a permit, nor a permit into a denial |
| `ProcessCapture.CaptureWorkspaceProcesses` | oompah/agent.py:319-368 | the walk ends on any parent graph and returns exactly the processes that descend from one naming the workspace |
| `ProcessCapture.Sweep` | oompah/agent.py:409-415 | every expected pid is read once and reported alive exactly as that read showed |
| `ProcessCapture.SendAll` | oompah/agent.py:417-424 | exactly the given pids are signalled, highest first |
| `ProcessCapture.Merge` | oompah/agent.py:405-407 | a walk adds processes and replaces no captured identity |
| `ProcessCapture.Extend` | oompah/agent.py:396-407 | every captured process that still matches is walked and what its walk reports is expected from then on, and nothing else is added |
| `ProcessCapture.SweepsShrink` | oompah/agent.py:426-441 | a process missing from one sweep is missing from every later one |
| `ProcessCapture.MissingIsDead` | oompah/agent.py:409-441 | an identity that was seen and is missing from a sweep is dead from then on |
| `ProcessCapture.TerminateCapturedProcesses` | oompah/agent.py:371-441 | TERM and KILL each go, at once and highest first, to exactly the processes the sweep just taken matched; KILL only to those left after the whole grace period; survivors were sent both and still matched the last sweep, and everyone else who was expected is dead for good |
| `ChurnStore.RecountCounts` | oompah/churn_magnet.py:545-548 | recounting gives each path its number of occurrences |
| `ChurnStore.Dedup` | oompah/churn_magnet.py:563 | the deduplicated paths are the given ones, each once |
| `ChurnStore.DedupInOrder` | oompah/churn_magnet.py:563 | and in the order of their first occurrence |
| `ChurnStore.ProjectChurnState.AddConflict` | oompah/churn_magnet.py:77-84 | one event extends the history and moves one count |
| `ChurnStore.ProjectChurnState.Keep` | oompah/churn_magnet.py:541-548 | the counting loop rebuilds the counts of the kept records |
| `ChurnStore.ProjectChurnState.TopFiles` | oompah/churn_magnet.py:86-92 | the answer is the start of the ranking of the counts |
| `ChurnStore.ChurnMagnetStore.RecordConflict` | oompah/churn_magnet.py:517-549 | one project's state changes as specified, no other project's does |
| `ChurnStore.ChurnMagnetStore.RecordConflicts` | oompah/churn_magnet.py:551-585 | as above for the deduplicated paths, whose number is returned |
| `ChurnStore.ChurnMagnetStore.ClearProject` | oompah/churn_magnet.py:587-597 | removes exactly one project and says whether it was there |
| `ChurnStore.ChurnMagnetStore.ClearWindow` | oompah/churn_magnet.py:599-627 | keeps the newest records of one project and returns the program's count |
| `ChurnStore.ChurnMagnetStore.GetTopFiles` | oompah/churn_magnet.py:490-501 | the answer is the start of the ranking of that project's counts, and nothing for an unknown project |
| `ChurnStore.RunAgrees` | oompah/churn_magnet.py:517-627 | after every sequence of calls the history is the newest accepted events, at most a window of them, the counts are their recount and the total is every event accepted |
| `ChurnStore.WindowBoundsIff` | oompah/churn_magnet.py:540-548 | the window bounds the history in every run if and only if it is positive |
| `ChurnStore.DroppedIff` | oompah/churn_magnet.py:540-548 | which sequences of calls make the window drop an event that is not cleared later |
| `ChurnStore.TotalIsWindowIff` | oompah/churn_magnet.py:66-84 | the total is the number of events in the window if and only if the calls made the window drop none since the last clearing |
| `ChurnStore.TotalOutlivesWindow` | oompah/churn_magnet.py:540-548 | a concrete run after which it is not |
| `ChurnStore.TopFromHistory` | oompah/churn_magnet.py:86-92 | `top_files` answers what ranking the files of the newest accepted events answers |
| `ChurnStore.TopUnique` | oompah/churn_magnet.py:86-92 | the counts admit only one answer |
| `ChurnStore.PrunedCountIff` | oompah/churn_magnet.py:608-627 | `clear_window` returns the number of records removed if and only if `keep_last` is not negative or the project is unknown |
| `SafeEvidence.Flattener.AddLeaf` | oompah/auditor.py:607-626 | a leaf is accepted if and only if it is fine beside those collected before |
| `SafeEvidence.Flattener.Walk` | oompah/auditor.py:628-677 | the recursive walk succeeds if and only if the value is admissible and its leaves are fine beside the earlier ones, and then has collected exactly its leaves |
| `SafeEvidence.RedactSafeEvidence` | oompah/auditor.py:593-680 | evidence is accepted if and only if its shape and leaves meet the rules, and the result is the redacted leaves |
| `SafeEvidence.Lossless` | oompah/auditor.py:607-626 | keys and leaves are in bijection, at most 20, every value at most 512 characters |
| `SafeEvidence.FlatKeyBound` | oompah/auditor.py:656-675 | a flattened key has at most 128 characters plus four per array level below its last object key, never more than 140 |
| `SafeEvidence.FlatKeyWithinIff` | oompah/auditor.py:656-675 | a flattened key keeps the limit of 128 if and only if its length up to the last object key leaves room for the indices after it, and four characters per level are enough room |
| `SafeEvidence.FlatKeyRoomSharp` | oompah/auditor.py:656-675 | at one, two and three array levels one character less is not enough |
| `SafeEvidence.FlatKeyLimitExceeded` | oompah/auditor.py:656-675 | evidence with a key of 140 characters is accepted |
| `SafeEvidence.AmbiguousPathsRefused` | oompah/auditor.py:623-625 | two places that flatten to one path are refused whatever they hold |
| `ArchiveGate.CollectTaskState` | oompah/archived_evidence_collector.py:637-683 | records the state and flag failures in order |
| `ArchiveGate.ValidateDisposition` | oompah/archived_evidence_collector.py:685-748 | records at most one disposition failure |
| `ArchiveGate.SelectPriorAudit` | oompah/archived_evidence_collector.py:750-870 | selects the audit that has to back the archive and records its failures |
| `ArchiveGate.CheckEvidenceChanges` | oompah/archived_evidence_collector.py:872-903 | records changes after that audit |
| `ArchiveGate.CheckRetentionPeriod` | oompah/archived_evidence_collector.py:905-938 | records a retention that is too short or not known |
| `ArchiveGate.BuildGuidance` | oompah/archived_evidence_collector.py:940-1036 | explains every recorded mode and never answers "Unknown" |
| `ArchiveGate.Collect` | oompah/archived_evidence_collector.py:474-613 | the snapshot holds exactly the recorded modes, with guidance if and only if there are any |
| `ArchiveGate.NoModeIffSafe` | oompah/archived_evidence_collector.py:637-938 | no failure mode is recorded if and only if archiving is safe, stated as conditions on the inputs that use only the collector's choice of audit, parsing of the disposition and comparison of verdicts |
| `ArchiveGate.HasFailuresIff` | oompah/archived_evidence_collector.py:426-443 | `has_failures` is false if and only if the task is safe and has an id |
| `ArchiveGate.PassedIff` | oompah/archived_evidence_collector.py:351-424 | `passed` holds if and only if the task is safe, has an id, and its verdict is not accepted by case folding alone |
| `ArchiveGate.GatesAgreeIff` | oompah/archived_evidence_collector.py:351-443 | the two gates agree if and only if the task is not one that is safe but for such a verdict |
| `ArchiveGate.GatesAgreeOnPlainVerdicts` | oompah/archived_evidence_collector.py:351-443 | for verdicts in plain letters the gates agree on every input |
| `ArchiveGate.GapIffSpecial` | oompah/archived_evidence_collector.py:393-396 | an accepted verdict is accepted twice if and only if it has no character that only case folding turns into "s" |
| `ArchiveGate.SharpVerdictSplitsGates` | oompah/archived_evidence_collector.py:393-396 | a concrete input on which the gates disagree |
| `ArchiveGate.GuidanceMissingIff` | oompah/archived_evidence_collector.py:594-601 | an unsafe snapshot goes without guidance if and only if nothing but a blank id or such a verdict stands against it |
| `ArchiveGate.NeverRestoredToArchived` | oompah/archived_evidence_collector.py:947-953 | guidance never restores a task to Archived nor to a nameless state |
| `ArchiveGate.BlockedModeNeverRecorded` | oompah/archived_evidence_collector.py:737-739 | the missing-explanation mode of a blocked disposition is never recorded |

## Left out

- CheckpointQueue.CheckpointQueue.EndFlush: the observability dictionary and the log calls are not modelled; times are whole milliseconds, and failing to start a timer thread is not modelled.
- CheckpointProtocol.FlushReturnMeans: relies on the documented contract of `flush_fn` (`oompah/checkpoint_queue.py:45-49`), that a successful call commits everything mutated so far.
- AuditorSelector.EligibleIff: health, budget, credential, whitelist and capability checks are one fixed predicate on candidates, and the diagnosis of why it failed is one reason.
- AuditLane.BudgetsHold: assumes that ids are fresh, that launches go through `recover` with an accurate registry, that verdicts apply to the current attempt, and that every finish of an ended attempt fits, which is exactly what keeps the budgets throughout (`PaidThroughoutIff`, `StaleFinishOverspends`). A verdict is an environment step with the effect of `oompah/terminal_transition_coordinator.py:4805-4893`.
- AuditChain.LiveOwnerOfNewestSource: outside the redirect of a Merged lane to its Done prerequisite, where the returned record belongs to the other lane.
- Branch keys, session ids, operator messages and the serialization of audit records do not influence any decision modelled here.
- ApiSession.ApiSession.RunTask: the provider is any function of the request number that never replies in the tool role, the token estimate is a quarter of the payload length computed from given message lengths, and token accounting, event callbacks and liveness bookkeeping are left out; whether a tool failed and the signature of its error come with its outcome.
- CommandOutput.PageBounded: the search by pattern in stored output and the wording of page headers are left out, as is the whole-file case of `read_file` that omits the header.
- AgentSession.PermitSettledOnce: `start` is called once per session; a spawn cancelled while it is in flight counts as a spawn that failed; the callbacks themselves are the environment's, and reading the identity of a process just created does not raise.
- AgentSession.StopsComplete: stopping a process tree is one step; the phase budgets, signals and transport joins inside it are wall-clock behaviour.
- ProviderPermit.AcpPermitSettledOnce: assumes that a backend asks at most once, marks or cancels only a permit it holds, and makes no call after `run_task` is over.
- ProcessCapture.TerminateCapturedProcesses: walking the descendants of one root is one instant whose report is taken to be real, polls are counted instead of timed, and a signal that cannot be delivered is not told apart.
- ChurnStore.RunAgrees: starts from an empty store; loading and saving the JSON file are left out, and with them loading under another window size, which prunes without recounting (`oompah/churn_magnet.py:444-446`). Timestamps are integers.
- SafeEvidence.RedactSafeEvidence: which keys and values hold credentials and how a value is redacted are given by rules; which of several violations is reported first, and the list of redactions, are left out.
- ArchiveGate.Collect: inputs have their declared types; the wording of guidance is reduced to the modes it speaks of, and audit ids, timestamps and explanations are not carried along.
- Text: `strip` knows ASCII white space, and the two case foldings are exact for ASCII and for the four other characters that can occur in a text folding to one of the words compared here.
- Git, subprocess, procfs, HTTP, tracker and SCM calls, secret and command heuristics, tool catalogs, alerts, profiles and dashboards would add environment steps or easy members only.
