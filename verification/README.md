# A verified model of SEGYR-BOT's state machines

SEGYR-BOT is an assistant for construction business: an agent loop that talks to a language model and
to tools, sessions that remember conversations, and a monitoring side that repairs the system's own
services. This Dafny project models the parts of it that keep state across calls and proves what they
promise, over all inputs, all runs and all interleavings.

| file | models |
|---|---|
| `Sessions.dfy`, `AgentLoop.dfy`, `Memory.dfy` | the session, one LLM turn, archiving and the consolidation policy |
| `Transcript.dfy` | the life of a conversation: overlapping turns and consolidation rounds, `/new`, and the archiving of what it hands over |
| `Conversation.dfy` | the same machine performed on the session, manager, store and agent objects |
| `CircuitBreaker.dfy`, `BreakerProtocol.dfy` | the circuit breaker, and concurrent calls on it |
| `FixedBucket.dfy`, `SlidingLogs.dfy` | the three rate limiters |
| `Policy.dfy`, `AutoRepair.dfy`, `Alerting.dfy` | rule merging and planning, the repair loop, its trigger |
| `SplitMessage.dfy`, `ContainsSequence.dfy` | the text chunker and the ordered matcher |
| `Common.dfy` | whitespace stripping and other shared functions |

How the source appears in the model: an object whose methods update its fields is a class whose methods
are proved against functions on the value of those fields; concurrency is a step relation over such
values, with one step per stretch of code between two suspension points. Clock readings, model replies,
tool results, health snapshots and token estimates are arbitrary inputs. `dafny verify dfyconfig.toml`
checks everything.

## Findings

Some promises hold only under a condition. The model keeps the code as it is and proves the condition.

- `/new` clears the session object, but turns and rounds in progress keep their hold on it, and the API
  runs turns of one session side by side. If such a turn ends, or such a round is archived, after
  another turn has been saved, it takes that turn's messages away. `/new` is safe, whatever follows up to
  the next untimely `/new`, exactly when no turn is in progress and no round is waiting (`NewIsSafeIff`,
  `QuietRunIsSafe`); the end of a turn loses nothing exactly when the key still finds the turn's object or an empty session
  (`TurnEndIsSafeIff`), the end of a round exactly when its chunk is refused or still in place
  (`RoundEndIsSafeIff`). Losing runs: `TurnCanLoseTurns`, `RoundCanLoseTurns`; on the session objects
  `OvertakenTurn`, `OvertakenRound`.
- Lists archived concurrently share one failure counter. Three tries archive a list, whatever the model
  answers, exactly when no other list's try comes in between (`ThreeTriesSufficeIff`). So what `/new`
  hands over can be lost (`HandedOverCanBeLost`), but only if the store took another list between its
  tries (`LostOnlyIfOvertaken`).
- Cancelling a call makes a half-open breaker refuse every later call exactly when it was the last call,
  running or backing off, and the half-open budget is used up; any other call's outcome frees the
  breaker (`CancelStrandsIff`, `StuckIffNeverAdmits`, `CancelCanDeadlock`).
- The global rate limiter keeps its quotas exactly when no request takes longer than two seconds from
  its clock reading to Redis (`DelayBoundIff`, `LateRequestIsAcceptedAgain`).
- The user's text of a turn that the model answers is stored unchanged exactly when it is not blank and
  neither the time string nor, if both are given, the channel and the chat id contain a blank line or end
  in a newline (`TurnRoundTripIff`).
- Repairs can be triggered again exactly as long as no repair thread failed to start
  (`TriggerUsableIff`, `SpawnCanFail`).
- A failure threshold below one is outside the breaker's guarantee (`TracksHistoryIffThresholdPositive`).
- Splitting a text into chunks of length 0 never ends, unless the text is blank (`LoopEndsIff`).
- With equal settings, the two sliding-window limiters accept the same requests of a stream exactly when
  each request with fewer than the maximum of earlier requests in its window finds a free slot, and each
  other request finds none or, with a positive maximum, has that many requests of the first kind in its
  window (`LimitersAgreeIff`).

## Model

| member | source | states |
|---|---|---|
| Sessions.FindLegalStart | core/session/manager.py:31-51 | the one-pass search returns the least start from which every tool result follows its call; every smaller start is illegal |
| Sessions.HistoryIsLegal | core/session/manager.py:53-65 | however the window cut the list, the history handed out contains no orphaned tool result |
| Sessions.HistoryKeepsFromFirstUser | core/session/manager.py:58-65 | if the protocol holds from the first user message of the window, the repair drops only what precedes that message |
| Sessions.Session.GetHistory | core/session/manager.py:53-74 | the history is the repaired window over the unconsolidated messages |
| Sessions.Session.AddMessage | core/session/manager.py:25-28 | one message is appended at the end, the offset stays |
| Sessions.Session.Clear | core/session/manager.py:76-79 | messages and offset start over together |
| Sessions.SessionManager.GetOrCreate | core/session/manager.py:94-99 | a cached key gives the same object again; otherwise a fresh object with the file's content, which the key finds from then on |
| Sessions.SessionManager.Save | core/session/manager.py:135-149 | the file gets the object's value, and the key finds this object, whichever it found before |
| Sessions.SessionManager.StartOver | core/agent/loop.py:376-386 | `/new`: the unconsolidated messages are handed over, session and file are empty, and the key finds no object |
| Sessions.SessionManager.FinishRound | core/agent/memory.py:267-270 | the end of a round saves the object the round began with |
| Sessions.SessionManager.OvertakenRound | core/session/manager.py:94-152 | counterexample on objects: for every turn saved after `/new`, the end of the overtaken round brings the cleared object back with a stale offset, and the turn is neither in memory nor in the file |
| Sessions.SessionManager.OvertakenTurn | core/session/manager.py:94-152 | counterexample on objects without a round: for all texts, the end of a turn that `/new` and another turn overtook leaves only the first turn's messages in memory and file |
| AgentLoops.AgentLoop.RunAgentLoop | core/agent/loop.py:218-288 | behind the prompt, in its place, stands for every reply that calls tools the announcement with its content and call ids and then every call's own result under its id; then the answer without its think blocks, or nothing for an error; the returned text is that answer, or for an error its text or a fixed sentence; exhaustion is reported exactly when all replies before the last permitted one call tools and that one, if there is one, brings no text |
| AgentLoops.AgentLoop.SaveTurn | core/agent/loop.py:492-509 | the session grows by the messages behind the skipped ones, in order, except assistant messages without calls and content and user texts that are only a runtime context; a tool result keeps its text up to the maximal length and is cut there and marked if longer; a user's text loses its runtime context; everything else is stored unchanged |
| AgentLoops.AgentLoop.ProcessLlmTurn | core/agent/loop.py:449-477 | from prompt to saved turn, for any history: the session grows by what is kept of the user's message and the loop's messages, and by nothing of the history; an answer of the model that is neither empty nor an error is the result and the session's last message |
| AgentLoops.PromptParts | core/agent/context.py:93-107 | the prompt is the system's text, the history, and the user's text behind the runtime context and a blank line |
| AgentLoops.RuntimeContextSays | core/agent/context.py:77-82 | the runtime context says the time behind its tag and, if both are known, channel and chat, each under its own label |
| AgentLoops.SkipSelectsTurn | core/agent/context.py:93-107 | skipping one plus the length of the history leaves the user's message and what the loop appended |
| AgentLoops.TurnRoundTripIff | core/agent/loop.py:498-507 | the turn starts with the user's exact text if and only if the text is not blank and time and, when both are present, channel and chat id have no blank line and no final newline |
| AgentLoops.ProgramTurnRoundTripIff | core/agent/context.py:15-15 | that holds with the program's own tag |
| AgentLoops.RuntimeContextClean | core/agent/context.py:77-82 | the runtime context is free of blank lines and final newlines exactly when the lines that make it up are |
| AgentLoops.TextBackIffClean | core/agent/loop.py:502-506 | splitting at the first blank line gives the user's text back exactly when the context before it is clean and the text is not blank |
| AgentLoops.RoundsAreLegal | core/agent/loop.py:229-279 | whatever the model answers, the appended messages obey the tool-call protocol among themselves and contain no user message |
| AgentLoops.StoredAllKeepsLegal | core/agent/loop.py:493-508 | dropping empty answers and truncating results never orphans a tool result |
| AgentLoops.SavedTurnIsBlock | core/agent/loop.py:492-509 | every saved LLM turn is a block: at most its first message is a user message, and every tool result follows its call inside it |
| Memories.MemoryStore.FailOrRawArchive | core/agent/memory.py:157-163 | the third failure in a row archives the raw messages and resets the counter; earlier ones only count |
| Memories.MemoryStore.Consolidate | core/agent/memory.py:96-155 | if the first reply is a proper save and no error, or else the second after an error that did not raise, its entry without the whitespace around it is appended to the history and its update becomes the memory; otherwise the memory stays and at most the raw messages are appended; true means that a non-empty list entered the history exactly once more |
| Memories.MemoryStore.ArchiveMessages | core/agent/memory.py:218-224 | without interleaving, three tries archive a non-empty list exactly once, from any counter value |
| Memories.NeverThreeRefusals | core/agent/memory.py:157-163 | in any run of tries, no three in a row are refused |
| Memories.ThreeTriesSufficeIff | core/agent/memory.py:218-224 | for every schedule: a list's three tries archive it, whatever the model answers anybody, if and only if they come directly one after the other |
| Memories.RefusedMeansOvertaken | core/agent/memory.py:157-163 | in any run, three refused tries of a list have another list's accepted try between them |
| Memories.InterleavedArchivingCanLose | core/agent/memory.py:218-224 | a schedule of that kind: three tries with another list's try in between are all refused |
| Memories.FindBoundary | core/agent/memory.py:241-256 | finds the shortest user-aligned prefix that frees enough tokens, or else the longest one; nothing exactly when there is no user message to cut at |
| Memories.BoundaryIsUnique | core/agent/memory.py:241-256 | the policy leaves no choice of cut |
| Memories.MemoryConsolidator.ConsolidateRound | core/agent/memory.py:241-269 | the offset moves to the round's boundary if and only if the chunk up to it was archived; it does not exactly when there is no cut or the chunk is refused |
| Memories.MemoryConsolidator.MaybeConsolidateByTokens | core/agent/memory.py:226-274 | at most five rounds; each frees at least what its estimate exceeds half of the window by, or everything up to the last user message, and no earlier user message would have been enough; exactly their chunks are archived; fewer than five only because the target is reached, there is no cut, or a chunk is refused |
| Memories.FreedAddsUp | core/agent/memory.py:245-254 | the tokens freed add up, one estimate per message |
| Memories.ChunksJoin | core/agent/memory.py:258-269 | policy-conforming rounds strictly advance the offset inside the list, and their chunks join to exactly the messages it moved over |
| Transcripts.EveryRunKeepsTranscript | core/agent/loop.py:362-490 | in every run of overlapping turns, rounds, tries and `/new` in which no save took messages away: the unconsolidated suffix is legal, the history drops only what precedes its first user message, and every saved message is either unconsolidated or in exactly one list handed over for archiving; the lists before the offset are archived |
| Transcripts.QuietRunIsSafe | core/agent/loop.py:362-490 | if every `/new` of a run comes while no turn is in progress and no round is waiting, no save ever takes messages away |
| Transcripts.EveryRunKeepsBooks | core/agent/memory.py:96-224 | in every run without exception: the history file holds exactly the archived lists, each once, besides those of other conversations; a pending list has been refused at most twice and a lost one three times, in all of its tries |
| Transcripts.LostOnlyIfOvertaken | core/agent/memory.py:218-224 | a list that `/new` handed over is lost only if the store took somebody else's list between its three tries |
| Transcripts.HandedOverCanBeLost | core/agent/loop.py:376-382 | such a run: a turn handed over by `/new` ends in no history entry |
| Transcripts.StepKeepsInv | core/agent/memory.py:226-274 | every step, also of a turn or round that `/new` overtook, keeps legality and conservation, unless it is a save that takes messages away |
| Transcripts.ShortTurnIsSaved | core/agent/loop.py:405-409 | a skill's or a cached answer is saved behind the user's text on the object that the turn holds |
| Transcripts.AppendKeepsUserCuts | core/agent/loop.py:492-509 | appending a block keeps every cut at a user message legal |
| Transcripts.WindowKeepsFromFirstUser | core/session/manager.py:53-65 | any window that contains a user message loses only what precedes it |
| Transcripts.RestartHandsOverAll | core/agent/loop.py:376-386 | after `/new` everything ever saved has been handed over for archiving, in order |
| Transcripts.TurnEndIsSafeIff | core/agent/loop.py:476-477 | the end of a turn keeps the invariant exactly when the key still finds the object that the turn holds, or finds a session without messages |
| Transcripts.RoundEndIsSafeIff | core/agent/memory.py:267-270 | the end of a round keeps the invariant exactly when its chunk is refused or its object is still the session and has the chunk behind its offset |
| Transcripts.NewIsSafeIff | core/agent/loop.py:376-386 | after `/new`, every continuation in which later `/new`s are quiet keeps the invariant if and only if no turn was in progress and no round was waiting |
| Transcripts.LateTurnTakesAway | core/agent/loop.py:476-477 | what an overtaken turn takes away: the unconsolidated messages are in no list handed over and no longer in the session |
| Transcripts.LateRoundTakesAway | core/agent/memory.py:267-270 | the same for an overtaken round, whose chunk is handed over again |
| Transcripts.TurnCanLoseTurns | core/agent/loop.py:372-477 | a run from the start without any round: a turn waits, `/new`, another turn, the end of the first; the second is nowhere |
| Transcripts.RoundCanLoseTurns | core/agent/loop.py:376-478 | a run from the start: two turns, a round, `/new`, a turn, the end of the round; the late turn is nowhere |
| Conversations.Conversation.Perform | core/agent/loop.py:362-490 | every step of the machine, performed by the methods of the real objects, leaves them exactly as the machine says |
| Conversations.Conversation.Run | core/agent/loop.py:362-490 | so does every run; what is proved about all runs holds of the objects |
| CircuitBreakers.CircuitBreaker.CanAttempt | core/utils/circuit_breaker.py:47-56 | the admission rule and the move from OPEN to HALF_OPEN it may cause |
| CircuitBreakers.CircuitBreaker.RecordSuccess | core/utils/circuit_breaker.py:58-62 | the breaker returns to its initial value unless it is CLOSED, which only forgets its failures |
| CircuitBreakers.CircuitBreaker.RecordFailure | core/utils/circuit_breaker.py:64-67 | one failure more; OPEN with the current time from HALF_OPEN or at the threshold |
| CircuitBreakers.CircuitBreaker.CallAsync | core/utils/circuit_breaker.py:69-121 | a refused call changes nothing; an admitted one replays exactly its own events between those of other tasks, and stops at the first attempt that succeeds |
| CircuitBreakers.StateTracksHistory | core/utils/circuit_breaker.py:29-67 | for every sequence of admissions, starts and outcomes: the failure count is the failures since the last success, CLOSED means below the threshold, and the opening time is that of the last failure |
| CircuitBreakers.TracksHistoryIffThresholdPositive | core/utils/circuit_breaker.py:19-27 | that holds for all sequences if and only if the threshold is at least one |
| CircuitBreakers.AdmissionIsByHistory | core/utils/circuit_breaker.py:47-56 | a fresh call is admitted exactly as a rule on the recorded history says, which does not mention the breaker's fields |
| CircuitBreakers.PhaseTracksEpisode | core/utils/circuit_breaker.py:35-38 | HALF_OPEN and its counter are the current episode of the history and the attempts started in it |
| CircuitBreakers.AdmissionWaitsForRecovery | core/utils/circuit_breaker.py:47-56 | while the last outcomes are all failures, up to the threshold, a fresh call is admitted only when the latest failure is as old as the recovery timeout |
| CircuitBreakers.FreshProbesAreBounded | core/utils/circuit_breaker.py:77-86 | between two outcomes of a failing breaker at most the half-open maximum (at least one) of fresh calls get an attempt, though retries use the same counter |
| CircuitBreakers.RemainingStep | core/utils/circuit_breaker.py:83-117 | one attempt of a call, with the events of others during it and during the back-off, leads to the next |
| BreakerProtocol.CallIsRun | core/utils/circuit_breaker.py:69-121 | an undisturbed admitted call is a run of the concurrent protocol: it arrives, each attempt ends with one recorded outcome and each further attempt begins with one start; breaker and log are those of its trace |
| BreakerProtocol.StateIsHistory | core/utils/circuit_breaker.py:83-112 | the history theorem in every reachable state of concurrent calls, cancelled ones included |
| BreakerProtocol.FreshCallWaitsForRecovery | core/utils/circuit_breaker.py:47-56 | in every interleaving of concurrent calls with a clock that goes forward: while the last outcomes are all failures, up to the threshold, a fresh call is admitted only when the latest failure is as old as the recovery timeout |
| BreakerProtocol.FreshCallsAreBounded | core/utils/circuit_breaker.py:77-86 | in every interleaving: at most the half-open maximum (at least one) of fresh calls get an attempt between two outcomes of a failing breaker |
| BreakerProtocol.ProbesAreRunning | core/utils/circuit_breaker.py:85-88 | without cancellation the half-open counter is exactly the number of this episode's attempts that still run, and the opening call is among them when calls make attempts |
| BreakerProtocol.NoHalfOpenDeadlock | core/utils/circuit_breaker.py:85-112 | when HALF_OPEN refuses a call, some attempt of the episode is running, and any recorded outcome leaves HALF_OPEN |
| BreakerProtocol.OpenerIsRunning | core/utils/circuit_breaker.py:50-52 | without cancellation and when calls make attempts, the attempt of the call that opened the episode is still in flight throughout it |
| BreakerProtocol.EpisodeEndsInTime | core/utils/circuit_breaker.py:85-101 | under the same conditions, and when no attempt outlives its timeout, a half-open episode never lasts longer than the timeout of the attempt that opened it |
| BreakerProtocol.StuckIffNeverAdmits | core/utils/circuit_breaker.py:47-67 | no continuation of a run ever admits a call again exactly when the breaker is half-open with its budget used up and no call is left; from every other state at most two steps without cancellation lead to an admission |
| BreakerProtocol.CancelStrandsIff | core/utils/circuit_breaker.py:87-112 | after a cancellation no continuation ever admits a call exactly when it took the last call, running or backing off, from a half-open breaker with its budget used up |
| BreakerProtocol.StuckForever | core/utils/circuit_breaker.py:54-55 | however the run goes on, a stuck breaker stays as it is |
| BreakerProtocol.CancelCanDeadlock | core/utils/circuit_breaker.py:87-112 | such a state is reachable: trip, probe, cancel; no continuation admits a call |
| FixedBuckets.IncrementRateLimit | api/middleware/security.py:43-53 | the counter of the request's bucket goes up by one and gets its time to live from the request that created it |
| FixedBuckets.EveryHitIsCounted | api/middleware/security.py:43-50 | in every interleaving of increments and expirations, if no increment takes longer than two seconds, the i-th request of a bucket sees the count i: no counter restarts |
| FixedBuckets.BucketBound | api/middleware/security.py:82-88 | a bucket accepts at most the limit of an identity's requests |
| FixedBuckets.SpanMeetsTwoBuckets | api/middleware/security.py:45-46 | clock readings within one window length fall into two adjacent buckets |
| FixedBuckets.SpanBound | api/middleware/security.py:43-88 | under that condition, any requests of one identity read within one window length contain at most twice the limit of accepted ones |
| FixedBuckets.DelayBoundIff | api/middleware/security.py:43-88 | for every window, limit and bound on the delay between clock reading and increment: counting on, the quota per bucket and the quota per span each hold in all runs if and only if the bound is at most two seconds |
| FixedBuckets.LateRequestIsAcceptedAgain | api/middleware/security.py:44-50 | for every window, limit and longer delay, a run in which a late increment restarts its bucket's counter: more than the limit is accepted in one bucket and more than twice the limit in one span |
| SlidingLogs.RateLimiter.Allow | core/utils/rate_limit.py:33-42 | the bucket keeps its recent entries plus this request, accepted or not, and its size decides |
| SlidingLogs.Gateway.PruneRecent | segyr_bot/gateway.py:478-482 | popping from the front equals filtering by age, because the log stays sorted |
| SlidingLogs.Gateway.AllowIp | segyr_bot/gateway.py:485-501 | accepted iff both limits permit; only then logged and counted as open, otherwise counted as rejected |
| SlidingLogs.FullAcceptsIff | core/utils/rate_limit.py:33-42 | a request passes exactly when at most the maximum of requests, rejected ones included, lie in the closed window ending with it |
| SlidingLogs.LogAcceptsIff | segyr_bot/gateway.py:485-501 | a connection passes exactly when a slot is free and fewer than the maximum of accepted ones lie in that window |
| SlidingLogs.FullWindowBound | core/utils/rate_limit.py:33-42 | accepted requests that fit into a closed window number at most the maximum |
| SlidingLogs.LogWindowBound | segyr_bot/gateway.py:478-501 | the same for accepted connections, unless the limit is switched off |
| SlidingLogs.FullRefinesLog | core/utils/rate_limit.py:33-42 | with equal window and limit, whatever the limiter that logs rejections accepts, the one that logs acceptances accepts too |
| SlidingLogs.LogDoesNotRefineFull | segyr_bot/gateway.py:485-501 | the converse fails on a concrete stream |
| SlidingLogs.LimitersAgreeIff | segyr_bot/gateway.py:485-501 | with equal window and limit the two accept the same requests of a stream if and only if a condition on its times and free slots holds at every request |
| SlidingLogs.ServeAll | core/utils/rate_limit.py:33-42 | a new limiter object decides every request of a stream as the stream theorems say |
| SlidingLogs.ServeAllConnections | segyr_bot/gateway.py:478-501 | the same for a new gateway object, with connections closing at will |
| Policies.MergeLookup | core/monitoring/policy_engine.py:57-65 | for every path into trees of any depth: a leaf of the override wins, an unmentioned path falls back to the base, two dictionaries merge |
| Policies.MergeTwice | core/monitoring/policy_engine.py:57-65 | merging the same override a second time changes nothing |
| Policies.ResolveTwice | core/monitoring/policy_engine.py:68-71 | resolving already resolved rules against the defaults, as the policy evaluation does, changes nothing |
| Policies.DecideActions | core/monitoring/policy_engine.py:296-323 | the plan lists, each once, exactly the actions that some issue's code is mapped to and that the rules permit; an action stands before another if an issue behind it is critical, degraded, warning, info or unknown, in this order, before every issue behind the other, or equally severe and reported earlier |
| Policies.Sorted | core/monitoring/policy_engine.py:300-303 | the stable sort visits every issue, strictly by severity and then by position |
| Policies.PlanIsUnique | core/monitoring/policy_engine.py:300-323 | issues and rules determine the plan |
| Policies.NormalisedPlan | core/monitoring/policy_engine.py:288-291 | deciding again on a report with a plan in it returns that plan |
| AutoRepair.RetryAction | core/monitoring/auto_repair.py:717-745 | the inner loop makes attempts up to the first that fixes the system or raises, or all |
| AutoRepair.RunActions | core/monitoring/auto_repair.py:716-750 | the nested loops with two breaks equal the flat list of attempts taken up to the first stop; log, counts and last snapshot agree with it |
| AutoRepair.RepairLogMeaning | core/monitoring/auto_repair.py:716-782 | nothing runs after the first snapshot with a sufficient score and no critical issue; a completed run without such a snapshot has made every attempt, each planned action exactly as often as the cap; a failed run ends at the first exception; the attempt counts add up to the log |
| AutoRepair.ScheduleMembers | core/monitoring/auto_repair.py:716-728 | the flat list holds attempts one to the cap of every planned action and nothing else |
| AutoRepair.ScheduleAt | core/monitoring/auto_repair.py:716-728 | in the order of the plan, the attempts of each action one after the other |
| AutoRepair.Cap | core/monitoring/auto_repair.py:559-559 | every action gets the number of attempts in 1 to 2 that is nearest to the requested one |
| AutoRepair.RunAutoRepairLoop | core/monitoring/auto_repair.py:601-787 | when the run is skipped, disabled or waits for approval, with nothing executed; otherwise the flat run of the selected plan, and when it counts as repaired |
| AutoRepair.PlannedIsSubplan | core/monitoring/auto_repair.py:601-610 | selecting requested actions keeps the plan duplicate-free and within the recommendation |
| AutoRepair.PlannedTakes | core/monitoring/auto_repair.py:601-610 | for every recommendation and request: the plan takes, in the recommended order, all recommended actions if nothing non-blank is requested, else exactly the requested ones |
| AutoRepair.RepairIssues | core/monitoring/auto_repair.py:591-776 | planner, report and loop together: for every issue list and rules, a completed run's counts add up to its log, the last snapshot decides `repaired`, and if it is not, every planned action ran exactly cap times |
| Alerting.AlertState.TriggerAutoRepair | core/monitoring/alerting.py:329-349 | the locked decision: running, cooling down, or started with flag and timestamp set together |
| Alerting.RemainingIsExact | core/monitoring/alerting.py:338-346 | a trigger that is cooling down is accepted after exactly the remaining time it is told, and not before |
| Alerting.SingleFlightAndSpacing | core/monitoring/alerting.py:308-369 | in every interleaving at most one repair runs, and accepted triggers keep their cooldown apart although clocks are read before the lock |
| Alerting.SpanBound | core/monitoring/alerting.py:338-349 | a span that holds n + 1 triggers lasts at least n cooldowns |
| Alerting.BlockedIffSpawnFailed | core/monitoring/alerting.py:348-369 | in every reachable state the flag stands without a worker exactly when the worker of some accepted trigger failed to start |
| Alerting.FailedSpawnBlocksForever | core/monitoring/alerting.py:329-369 | from then on no continuation of the run accepts a trigger |
| Alerting.TriggerStaysUsable | core/monitoring/alerting.py:329-369 | otherwise any clock reading one cooldown behind the last trigger can be accepted within three steps |
| Alerting.TriggerUsableIff | core/monitoring/alerting.py:308-369 | a repair can be triggered again exactly when no worker of the run failed to start |
| Alerting.SpawnCanFail | core/monitoring/alerting.py:348-369 | such a run: the first trigger is accepted and its worker does not start |
| SplitMessages.SplitMessage | core/utils/helpers.py:52-71 | for every text and positive length the loop ends with the chunks of a complete split: cut at the last usable newline, else the last usable space, else hard, until the rest fits |
| SplitMessages.ChunksMeaning | core/utils/helpers.py:52-71 | such chunks have length one to the maximum, and with only whitespace between and behind them they are the text, in order |
| SplitMessages.CompleteSplitIsUnique | core/utils/helpers.py:59-70 | text and length determine every piece |
| SplitMessages.LoopEndsIff | core/utils/helpers.py:52-71 | for every text and every length from 0 the rounds of the loop use the text up if and only if the length is positive or the text is blank |
| ContainsSequences.ContainsSequence | run_redis_e2e.py:248-265 | greedy matching succeeds exactly when some strictly increasing embedding of the expected messages exists |
| ContainsSequences.NextEndsLater | run_redis_e2e.py:250-264 | exchange argument: no embedding ends before the greedy one |

## Left out

- LLM providers, Redis and tiktoken internals, HTTP routes, WebSocket pushing, the frontend, channels, SQL, subprocesses: foreign calls or plumbing.
- Message timestamps, tool names, reasoning blocks and session metadata: they take no part in the properties above.
- Session files: they are modelled by session key, although file names merge keys such as `a:b` and `a_b`; a saved session is assumed to load unchanged, and file writes to succeed; an exception between the two writes of `consolidate` could repeat an entry.
- `_merge_histories` (core/agent/loop.py:194-216): the prompt may contain anything; the transcript theorem is about the session.
- Sessions.Session.GetHistory: messages have only the keys the protocol depends on, so the projection to selected keys changes nothing here.
- Sessions.Session.AddMessage: extra keyword fields are not modelled, because no modelled caller passes any.
- AgentLoops.AgentLoop.ProcessLlmTurn: the consolidation before the turn, the wait for the model and the file save are steps of the conversation model; the fallback text for an empty answer goes to the user only.
- The end of the process, which forgets turns, rounds, pending lists and the failure counter: runs begin with an empty session.
- The conversation model lets a round cut at any user message behind the offset, which covers the policy's choice.
- Memories.MemoryStore.ArchiveMessages: states the guarantee for calls that do not interleave, because interleaved calls do not have it.
- FixedBuckets.EveryHitIsCounted: requires increments to reach Redis within two seconds of their clock reading, because `DelayBoundIff` shows that it fails with any longer delay.
- FixedBuckets.IncrementRateLimit: the time-to-live reading for the `retry_after` hint and the branches for Redis errors, which let requests pass uncounted or refuse them, are not modelled.
- SlidingLogs.RateLimiter.Allow: models the local bucket; the Redis branch of the same method is a plain counter.
- SlidingLogs.Gateway.AllowIp: models admission only; the function that releases a connection is not part of this model. Clock readings are assumed not to go back.
- SplitMessages.SplitMessage: requires a positive length, because with length 0 the source ends on blank texts only (`LoopEndsIff`); negative lengths are not modelled.
- ContainsSequences.ContainsSequence: case folding is an arbitrary function, and non-string contents are not modelled.
- Policies.DecideActions: severities are lowered as ASCII, which decides every comparison with the known names; values that are not strings are not modelled.
- The issue detection of `evaluate_policy` and `analyze_health`: thresholds on single fields; its repair cooldown and rate limit read keys that the repair loop's own records do not carry.
- Alerting.SingleFlightAndSpacing: timestamps that are not positive disarm the cooldown in the source, so spacing is stated after positive ones.
- Business scoring, cash flow, risk formulas and intent keywords: straight-line formulas.
