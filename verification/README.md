# Verified model of the agent turn runtime and the ResolveForge fix pipeline

The project models four parts of the repository and proves what they keep over every run.

* **Agent turns** (`TurnStream`, `TurnForest`, `ContextAppends`, `GetOrCreate`). `TurnHandle.stream()` is a
  sequential method whose every `await` lets a freeze or an abort in and whose every `yield` lets the consumer leave.
  `SessionHandle.createTurn` is a transition system in which any number of calls interleave over one session; it grows
  a forest of turns with a bounded window of ancestors. Get-or-create is a race of callers over a store with unique
  external ids.
* **Request-reply over Redis** (`RedisClient`, `RedisCrowd`, `RedisExecutor`). The client's poll loop runs in integer
  time against keys that expire, alone and in a crowd of other requests; the executor's heartbeat, intake, close and drain run in every order of their events.
* **The fix pipeline** (`Policy`, `JobManager`, `Verifier`, `Review`, `Service`, `ReviewRace`, with `PathScope`,
  `Integrity`, `PatchParts` and `NulFields` beneath them). The job manager reserves attempts across awaits; the service composes triage, evidence,
  jobs, verification, fingerprint and review. Its two main theorems speak of whole runs of the service from an empty
  store.
* **Small algorithms** (`EventDelta`, `Wrap`, `Splice`): reassembly of streamed messages, greedy line wrapping,
  right-to-left splicing.

Where the source changes state, the model is a class (or a loop) proved against a function of the old state, and the
theorems are about that function. Where calls interleave, one step of the transition system is the code between two
awaits; a class method stands for each step, and its contract says that the object moves by exactly that step.

## What the proofs show about the code

* The comment of `createTurn` (SessionHandle.ts:167) says the resolver is closed on any failure. A failing freeze or
  `custom` callback (lines 192-200) is outside the `try`, so then it is not. `ResolverLeftOpenOverRuns` gives the exact
  inputs: a selected parent that the store does not have or whose freeze it rejects, before or after freezing it, or a
  throwing `custom`. `UnknownParentLeavesResolverOpen` and `RejectedFreezeLeavesResolverOpen` are such calls.
* The text that `hashDirectory` hashes (integrity.ts:24-29) does not mark where a content ends, so one file can spell a
  second one out inside its content: `HashCollision` gives two trees with the same hash. `HashPinsTree` is the exact
  condition, for every tree: it has no file, or one file whose content does not spell, between two of its NULs, a path
  that can be listed after its own. So a tree of text files is pinned if and only if it has at most one file
  (`TextTreePinned`), as the repository's acceptance directory does.
* The patch text (verifier.ts:52-61) joins untracked contents without their lengths: in `UntrackedCollision` one
  fingerprint stands for two worktrees. `FingerprintPinsWorktree` gives the exact condition under which a fingerprint
  fixes the tracked diff and the content of every untracked file.
* The review reads the patch a second time after comparing the fingerprint (service.ts:144-154).
  `DestructivePatchApproved` is a run in which the verified, fingerprinted patch is destructive and is approved because
  the second reading differs; `ApprovalReadsAgain` says that only the second reading decides, so that this cannot happen
  when both readings agree.
* Merging two consecutive fragments of one tool call equals merging their concatenation, except when the first one
  should open the call and is incomplete: it is dropped whole (events.ts:97-102). `FragmentsJoin` gives the exact
  condition and `IncompleteOpeningIsLost` a pair of fragments that shows it.
* A cancel that lands while a job is queued is overwritten when the worker starts (job-manager.ts:109).
  `CancelSurvives` says that this is the only step that leaves `cancelled`, and that it never happens to a job whose
  run had already been registered. `CancelWhileQueuedIsLost` is a run from queued through cancelled to running.
* A scope with a trailing slash admits only itself (worktree.ts:51). `IsAllowedChangeMeaning` covers those scopes
  too, and `TrailingSlashShutsOut` shows one.
* In live mode evidence is never reproduced, so no fix job can exist there (`EvidenceSafety`), and every approval is
  the demo client's.
* The remote review client may approve with `scope_expanded` or `tests_weakened` answered yes; only the destructive
  answer is overruled (semantic-review.ts:172-174). `ApprovalMeaning` states the exact condition and
  `ExpandedScopeCanBeApproved` such an answer.

## Model

| member | source | states |
|---|---|---|
| TurnStream.TurnHandle.Stream | packages/trueforge-core/src/agent-session/TurnHandle.ts:197-379 | For every engine script and interleaving: runs once; each durable yield was in the log when it was yielded, in order; the terminal record is final; engine and resolver closed exactly once, the resolver when the stored turn is already terminal and before its turn.done is yielded; exactly one turn.done, last, agreeing with the store; on completion log, yields and snapshot writes are exactly what the script owes. Unless the store froze the turn first, its end is the abort's known reason, or client_cancelled for any other reason; without an abort the error that was caught or the root error, client_cancelled when the consumer left, and otherwise done with the engine's own output and required actions. A caught message is one that a store call or the engine threw, or that of an undefined capability state |
| TurnStream.TurnHandle.Execute | packages/trueforge-core/src/agent-session/TurnHandle.ts:215-274 | The try block logs and shows a prefix of what the script owes, all of it when the engine returns, and ends in one turn.done of the frozen state when the store froze the turn |
| TurnStream.TurnHandle.HandleEvent | packages/trueforge-core/src/agent-session/TurnHandle.ts:235-271 | One engine event is logged in full before its yield, or the store's frozen state is adopted and the engine returned, or the failure is caught |
| TurnStream.TurnHandle.Finish | packages/trueforge-core/src/agent-session/TurnHandle.ts:275-378 | The terminal write decides: the store's state wins a lost race, otherwise the turn ends as abort, error and result say (see WhatDecides), with the engine's metrics; the resolver is closed once and after the write, the turn.done comes last |
| TurnStream.TurnHandle.PersistExecutionEvent | packages/trueforge-core/src/agent-session/TurnHandle.ts:403-559 | Each kind of event reaches the snapshot and then the log exactly as owed (see OwedForEvent) before it is handed out for yielding; a non-running turn hands back the store's state |
| TurnStream.TurnHandle.Announce | packages/trueforge-core/src/agent-session/TurnHandle.ts:216-231 | turn.created is the first thing logged and the first thing shown |
| TurnStream.ShownIsLogged | packages/trueforge-core/src/agent-session/TurnHandle.ts:403-559 | For every script, what is shown apart from streamed model content is a subsequence of what is logged |
| TurnStream.WhatIsDurable | packages/trueforge-core/src/agent-session/TurnHandle.ts:410-413 | What the stream promises to have persisted first is every yielded event except streamed model messages and their deltas |
| TurnStream.OwedForEvent | packages/trueforge-core/src/agent-session/TurnHandle.ts:403-559 | For any event of any script: what it adds to the log, to the events shown and to the snapshot writes, kind by kind, and that it stands right after what the events before it add |
| TurnStream.WhatDecides | packages/trueforge-core/src/agent-session/TurnHandle.ts:34-45 | An abort decides before an error, an error before the result, a missing result is a client cancellation; only known abort reasons are kept |
| TurnStream.TurnStore.AppendToEvents | packages/trueforge-core/src/agent-session/store/InMemorySessionStore.ts:477-486 | Appends only to a running turn; otherwise reports the authoritative state and changes nothing |
| TurnStream.TurnStore.PatchSnapshot | packages/trueforge-core/src/agent-session/store/InMemorySessionStore.ts:510-516 | Every guarded snapshot write is refused exactly on a terminal turn |
| TurnStream.TurnStore.UpdateTurnState | packages/trueforge-core/src/agent-session/store/InMemorySessionStore.ts:461-475 | The first terminal write wins and closes the log with its turn.done |
| TurnStream.TurnStore.FreezeAndGetTurn | packages/trueforge-core/src/agent-session/store/InMemorySessionStore.ts:415-435 | Cancels a running turn, leaves a terminal one alone, and returns the now immutable state |
| TurnForest.ForestHoldsOverRuns | packages/trueforge-core/src/agent-session/SessionHandle.ts:175-339 | Over every run of interleaved createTurn calls: ancestor_ids is exactly the last 20 ids of the path to the parent, first_turn_id is the root, and no running turn has a child |
| TurnForest.NextPreservesInv | packages/trueforge-core/src/agent-session/SessionHandle.ts:192-322 | Every step keeps the forest and what the calls in flight know about their frozen parent |
| TurnForest.FailureLeavesNoTurn | packages/trueforge-core/src/agent-session/SessionHandle.ts:192-338 | Over the whole life of a call that fails up to the commit, no step of it changes the store except its first one, which may freeze the parent it selected, also when the freeze is then rejected |
| TurnForest.TurnsComeFromReturns | packages/trueforge-core/src/agent-session/SessionHandle.ts:261-330 | Over every run, each turn in the store is the turn of a call that returned |
| TurnForest.ReturnedTurn | packages/trueforge-core/src/agent-session/SessionHandle.ts:192-296 | Over every run, the turn a call returns continues the given turn, none for `none`, and for `auto` or an omitted id the handle's tip; without a parent it is the root of a new tree with an empty window |
| TurnForest.ReturnedTurnParent | packages/trueforge-core/src/agent-session/SessionHandle.ts:192-296 | Such a root froze nothing; any other call froze just its parent, which is ended from then on, and took over its root and threads with a window that ends in it |
| TurnForest.FailureClosesResolver | packages/trueforge-core/src/agent-session/SessionHandle.ts:261-338 | A failure in the try block, or a refused commit, closes the resolver and changes no turn |
| TurnForest.OutsideOfCalls | packages/trueforge-core/src/agent-session/store/InMemorySessionStore.ts:415-475 | Outside of createTurn a running turn may end or change its threads, and an ended one does not change |
| TurnForest.RemembersOverRuns | packages/trueforge-core/src/agent-session/SessionHandle.ts:192-296 | Whatever other calls do meanwhile, a call commits the turn it computed from its parent as it froze it |
| TurnForest.WhoEndsTurns | packages/trueforge-core/src/agent-session/SessionHandle.ts:192-198 | A running turn is ended by its own end, or by a new call that freezes it as its parent, and by nothing else |
| TurnForest.ResolverLeftOpen | packages/trueforge-core/src/agent-session/SessionHandle.ts:192-200 | A new call fails without closing its resolver exactly when the selected parent is missing, the store rejects freezing it, or the custom callback throws |
| TurnForest.RejectedFreezeLeavesResolverOpen | packages/trueforge-core/src/agent-session/SessionHandle.ts:193-198 | A freeze rejected after it took effect leaves the parent frozen and the resolver open |
| TurnForest.ResolverLeftOpenOverRuns | packages/trueforge-core/src/agent-session/SessionHandle.ts:192-338 | Over every run, a call has left its resolver open exactly when it began with such an input; every other failure closes it |
| TurnForest.UnknownParentLeavesResolverOpen | packages/trueforge-core/src/agent-session/SessionHandle.ts:192-198 | Forking from a missing turn fails with the resolver open |
| TurnForest.CommitRejectsOnlyReusedIds | packages/trueforge-core/src/agent-session/store/InMemorySessionStore.ts:361-396 | The commit of a prepared call is refused exactly when its turn id is already used, whatever the other calls did |
| TurnForest.StoreAccepts | packages/trueforge-core/src/agent-session/store/InMemorySessionStore.ts:361-413 | A turn is accepted exactly when its stored parent is not running, its id is unused and its threads are the parent's and new ones that the parent does not have; the first that fails names the rejection |
| TurnForest.PathOfChild | packages/trueforge-core/src/agent-session/SessionHandle.ts:282-294 | The path of a turn is its parent's path and itself |
| TurnForest.PathPrefix | packages/trueforge-core/src/agent-session/SessionHandle.ts:282-294 | Every turn on a path has the path up to itself as its own |
| TurnForest.PathDistinct | packages/trueforge-core/src/agent-session/SessionHandle.ts:282-294 | No turn occurs twice on a path |
| TurnForest.AncestorOnPath | packages/trueforge-core/src/agent-session/SessionHandle.ts:287 | Following previous_turn_id n times walks the path backwards and ends at the root |
| TurnForest.NoCycles | packages/trueforge-core/src/agent-session/SessionHandle.ts:287 | No turn is its own ancestor |
| TurnForest.WindowBefore | packages/trueforge-core/src/agent-session/SessionHandle.ts:286 | The window of any turn on a path is the stretch of that path just before it |
| TurnForest.SessionStore.CreateTurn | packages/trueforge-core/src/agent-session/store/InMemorySessionStore.ts:361-413 | Rejects a running parent, a reused id and repeated threads, changing nothing; otherwise inserts the turn and moves the tip |
| TurnForest.SessionStore.FreezeAndGetTurn | packages/trueforge-core/src/agent-session/store/InMemorySessionStore.ts:415-435 | Freezes at most that turn and returns it ended; a missing turn is an error |
| TurnForest.SessionStore.UpdateTurnState | packages/trueforge-core/src/agent-session/store/InMemorySessionStore.ts:461-475 | Ends exactly a running turn |
| TurnForest.SessionStore.ResolveAncestorChain | packages/trueforge-core/src/agent-session/store/InMemorySessionStore.ts:665-685 | Spilling through the bounded windows recovers the whole path from the root to the anchor |
| TurnForest.SessionHandle.Prepare | packages/trueforge-core/src/agent-session/SessionHandle.ts:192-200 | The call up to the commit is exactly the begin step, on the turn that auto, none or an explicit id selects |
| TurnForest.SessionHandle.Complete | packages/trueforge-core/src/agent-session/SessionHandle.ts:305-338 | The commit is exactly the commit step |
| TurnForest.SessionHandle.Refresh | packages/trueforge-core/src/agent-session/SessionHandle.ts:316-322 | The handle's tip becomes the session's, which may be another call's turn by then |
| ContextAppends.CollectContextAppends | packages/trueforge-core/src/agent-session/SessionHandle.ts:70-92 | The grouped batch has the same effect on every set of threads as the events in arrival order, names each thread once and misses none |
| ContextAppends.MergeIntoSlot | packages/trueforge-core/src/agent-session/SessionHandle.ts:77-81 | Merging an append into an earlier slot equals applying it last |
| ContextAppends.ApplyMerged | packages/trueforge-core/src/agent-session/store/InMemorySessionStore.ts:99-110 | A merged append equals its two parts, with the last defined usage |
| ContextAppends.AppendsTakenIn | packages/trueforge-core/src/agent-session/store/InMemorySessionStore.ts:99-110 | A batch is taken in exactly when it names known threads only; each thread then ends in its messages, in order, with the last usage given |
| ContextAppends.Commute | packages/trueforge-core/src/agent-session/store/InMemorySessionStore.ts:99-110 | Appends to different threads commute, also in failing |
| ContextAppends.NoAppendsMissed | packages/trueforge-core/src/agent-session/SessionHandle.ts:75-88 | A thread has a merged append exactly when some event named it |
| GetOrCreate.AllCallersAgree | packages/trueforge-core/src/agent-session/Sessions.ts:95-122 | Over every interleaving, all callers that return get the one session with the key, and at most one reports created, only when the key was free |
| GetOrCreate.ExactlyOneCreates | packages/trueforge-core/src/agent-session/Sessions.ts:95-122 | Without faults, once all callers have returned one of them created the session, unless it existed before |
| GetOrCreate.ThrowsOnlyByFault | packages/trueforge-core/src/agent-session/Sessions.ts:105-121 | A caller throws only by a store fault or a reused fresh id; the conflict path always finds the winner |
| GetOrCreate.FaultThrows | packages/trueforge-core/src/agent-session/Sessions.ts:95-122 | Every rejected store call makes its caller throw; a create that was rejected after it took effect leaves the session behind |
| GetOrCreate.CallersFinish | packages/trueforge-core/src/agent-session/Sessions.ts:95-122 | Over every run a caller has returned or thrown after at most three segments |
| GetOrCreate.OtherCreates | packages/trueforge-core/src/agent-session/store/InMemorySessionStore.ts:174-209 | A create by anyone else takes effect exactly when its id and key are free |
| GetOrCreate.NextPreservesInv | packages/trueforge-core/src/agent-session/Sessions.ts:95-122 | External ids stay unique and there is never a second creator |
| GetOrCreate.SessionStore.CreateSession | packages/trueforge-core/src/agent-session/store/InMemorySessionStore.ts:174-209 | Creates exactly when both the id and the external id are free, and reports which one was not |
| GetOrCreate.SessionStore.GetSessionByExternalId | packages/trueforge-core/src/agent-session/store/InMemorySessionStore.ts:248-255 | Finds an owner of the key, or there is none |
| GetOrCreate.GetOrCreateCall.Resume | packages/trueforge-core/src/agent-session/Sessions.ts:95-122 | Each segment between awaits moves store and caller by exactly one step |
| RedisClient.RedisRequest | packages/trueforge-core/src/request-reply/client.ts:57-95 | Ends at the first poll that decides, with reply before dead executor before timeout; apart from what other requests removed meanwhile, the only key it changes is its own, exactly when that reply is the outcome |
| RedisClient.TimelyReplyIsDelivered | packages/trueforge-core/src/request-reply/client.ts:77-94 | A reply written by the deadline, with a TTL above the poll interval and the initial delay and the executor alive until then, is the outcome |
| RedisClient.RequestIsBounded | packages/trueforge-core/src/request-reply/client.ts:77-94 | The last poll is before the timeout plus one poll interval |
| RedisClient.DeadExecutorIsNoticed | packages/trueforge-core/src/request-reply/client.ts:87-89 | After the last beat the wait ends within the heartbeat TTL plus one poll interval, or at the first poll |
| RedisClient.DeadExecutorIsNoticedInTime | packages/trueforge-core/src/request-reply/executor.ts:96-182 | With the executor's TTL that is within one and a half heartbeat intervals and one poll |
| RedisClient.OutcomeMeaning | packages/trueforge-core/src/request-reply/client.ts:77-94 | Each outcome says exactly what was true at the last poll: a live reply, no live beat, or the deadline; and none of it at any earlier poll |
| RedisClient.PollSchedule | packages/trueforge-core/src/request-reply/client.ts:77-94 | Polls come at the smaller of 200 ms and the time-out, then every interval |
| RedisClient.OddDelaysFireAtOnce | packages/trueforge-core/src/request-reply/client.ts:77-94 | A delay a timer cannot hold fires after one millisecond |
| RedisClient.IntervalBeatsStayAlive | packages/trueforge-core/src/request-reply/executor.ts:96-173 | Beats at the interval keep the key alive from the first beat to 1.5 intervals after the last |
| RedisClient.SteadyBeatsStayAlive | packages/trueforge-core/src/request-reply/executor.ts:150-173 | Beats no further apart than the TTL leave no gap |
| RedisClient.Redis.GetDel | packages/trueforge-core/src/request-reply/client.ts:31-37 | Reads and removes: a key is delivered once, only while it is visible |
| RedisCrowd.RepliesGoToTheirOwners | packages/trueforge-core/src/request-reply/client.ts:63-84 | Over every interleaving of requests with distinct keys, each reply is consumed at most once, by the request that owns its key, whose outcome it is |
| RedisCrowd.OutcomeMeansDelivery | packages/trueforge-core/src/request-reply/client.ts:80-84 | A request has its reply as outcome exactly when one delivery to it took place |
| RedisCrowd.EveryRequestEndsAsAlone | packages/trueforge-core/src/request-reply/client.ts:57-95 | Among any number of others, every request ends at the one poll and with the one outcome that its own key, options and start determine |
| RedisCrowd.NoRequestWaitsLonger | packages/trueforge-core/src/request-reply/client.ts:77-94 | At no time of any run is a request still waiting one poll interval after its timeout |
| RedisCrowd.RequestIsItsSend | packages/trueforge-core/src/request-reply/client.ts:57-76 | Over every run a request keeps the key, options and time of its send, and went out exactly if the executor's heartbeat was alive then and somebody subscribed |
| RedisCrowd.PollsAreCounted | packages/trueforge-core/src/request-reply/client.ts:77-94 | Every poll of a request ends it or is one more that kept waiting |
| RedisCrowd.TimeGoesOn | packages/trueforge-core/src/request-reply/client.ts:77-94 | The crowd is never stuck: time can pass, or a poll that is due can happen |
| RedisCrowd.RequestsStayOk | packages/trueforge-core/src/request-reply/client.ts:80-94 | Every Redis call of any request keeps every other request where it would stand alone |
| RedisExecutor.AtMostOneHeartbeat | packages/trueforge-core/src/request-reply/executor.ts:162-182 | Over every order of events at most one interval is live, it is the one stopHeartbeat would clear, and while open it runs exactly when subscribed |
| RedisExecutor.IntakeOverRuns | packages/trueforge-core/src/request-reply/executor.ts:247-281 | Over every run there are as many requests as non-empty messages came before the first close() or drain(), and the running ones are those that have not settled |
| RedisExecutor.MessageTakenIn | packages/trueforge-core/src/request-reply/executor.ts:247-264 | After any run, a non-empty message before any close becomes exactly one new request, accepted and running; an empty or later one changes nothing |
| RedisExecutor.ConnectionOverRuns | packages/trueforge-core/src/request-reply/executor.ts:99-182 | Over every run: initialised by the first init() before a close, one SUBSCRIBE per init on a ready connection and per ready event until then, and the heartbeat on exactly since the last subscription that was neither lost, nor failed, nor after a close |
| RedisExecutor.DrainsOverRuns | packages/trueforge-core/src/request-reply/executor.ts:269-288 | Where close() and each drain() stand follows from the steps taken, and the drain that closes does not go on before its UNSUBSCRIBE settled |
| RedisExecutor.RunsAreOrders | packages/trueforge-core/src/request-reply/executor.ts:99-288 | The runs are all orders of events in which each answer follows its question |
| RedisExecutor.DrainCanReturn | packages/trueforge-core/src/request-reply/executor.ts:285-288 | No drain() is stuck: every run can be carried on until it returns |
| RedisExecutor.ClosedIsFinalOverRuns | packages/trueforge-core/src/request-reply/executor.ts:247-281 | Once closed no request is ever accepted again, and after the first close() returned no interval is ever live |
| RedisExecutor.ClosedIsFinal | packages/trueforge-core/src/request-reply/executor.ts:247-281 | No single step undoes a close or a finished drain |
| RedisExecutor.DrainedMeansFinished | packages/trueforge-core/src/request-reply/executor.ts:285-288 | When a drain() has returned, the running set is empty and every request ever accepted has settled |
| RedisExecutor.GoneMeansSettled | packages/trueforge-core/src/request-reply/executor.ts:259-263 | An accepted request leaves the running set only by settling |
| RedisExecutor.NextPreservesInv | packages/trueforge-core/src/request-reply/executor.ts:99-288 | Timer, closing, intake and drain facts survive every event |
| RedisExecutor.RequestReplyExecutor.Init | packages/trueforge-core/src/request-reply/executor.ts:99-128 | Initialises once and never after close |
| RedisExecutor.RequestReplyExecutor.SubscribeSettled | packages/trueforge-core/src/request-reply/executor.ts:130-148 | Restarts the heartbeat after a SUBSCRIBE, stops it after a failed one, and starts none once closed |
| RedisExecutor.RequestReplyExecutor.SetupSubscriber | packages/trueforge-core/src/request-reply/executor.ts:130-135 | Begins a SUBSCRIBE unless closed |
| RedisExecutor.RequestReplyExecutor.OnError | packages/trueforge-core/src/request-reply/executor.ts:105-116 | An error or end of the subscriber stops the heartbeat and nothing else |
| RedisExecutor.RequestReplyExecutor.StartHeartbeat | packages/trueforge-core/src/request-reply/executor.ts:163-173 | Replaces the interval, unless closed |
| RedisExecutor.RequestReplyExecutor.StopHeartbeat | packages/trueforge-core/src/request-reply/executor.ts:176-182 | Clears exactly the recorded interval |
| RedisExecutor.RequestReplyExecutor.OnMessage | packages/trueforge-core/src/request-reply/executor.ts:247-264 | Takes in one new request, none when the payload is empty or the executor closed |
| RedisExecutor.RequestReplyExecutor.RequestSettled | packages/trueforge-core/src/request-reply/executor.ts:260-262 | Removes exactly the settled request |
| RedisExecutor.RequestReplyExecutor.Close | packages/trueforge-core/src/request-reply/executor.ts:269-276 | Closes intake at once; a second call changes nothing |
| RedisExecutor.RequestReplyExecutor.UnsubscribeSettled | packages/trueforge-core/src/request-reply/executor.ts:275-281 | Stops the heartbeat when the first close returns |
| RedisExecutor.RequestReplyExecutor.DrainCall | packages/trueforge-core/src/request-reply/executor.ts:285-286 | Closes, and records whether this drain waits for the unsubscribe |
| RedisExecutor.RequestReplyExecutor.DrainAfterClose | packages/trueforge-core/src/request-reply/executor.ts:287 | Waits for exactly the requests running then |
| JobManager.AttemptLimit | packages/resolution-tools/src/job-manager.ts:35-98 | Over every run: registered jobs plus unregistered starts never exceed the limit, attempts are numbered 1 to n in registration order, pendingAttempts counts the starts in flight and is absent at zero |
| JobManager.BeginIsAdmitted | packages/resolution-tools/src/job-manager.ts:42-64 | After any run a start is admitted exactly while its case has fewer jobs and starts in flight than the limit, and otherwise changes nothing |
| JobManager.StartCanFail | packages/resolution-tools/src/job-manager.ts:53-63 | No reservation is stuck: whatever a start awaits, it may throw and gives its reservation back |
| JobManager.AttemptsGrow | packages/resolution-tools/src/job-manager.ts:94-98 | Only a registration adds an attempt to a case, numbered next |
| JobManager.LimitStaysOk | packages/resolution-tools/src/job-manager.ts:42-64 | Reserving before the first await keeps the limit at every later step |
| JobManager.PendingStaysOk | packages/resolution-tools/src/job-manager.ts:53-63 | Every way out of start() gives its reservation back, exactly once |
| JobManager.IdsAreDistinct | packages/resolution-tools/src/job-manager.ts:73-98 | Ids differ by their ordinal alone, and every registered job is listed exactly once |
| JobManager.JobsComeFromStarts | packages/resolution-tools/src/job-manager.ts:81-98 | Only a finished worktree registers a job: queued, with the hashes of both acceptance trees and the case, issue, scope and evidence of its own start |
| JobManager.RegistersFresh | packages/resolution-tools/src/job-manager.ts:98 | A registration never overwrites a job |
| JobManager.RunningMeansRunning | packages/resolution-tools/src/job-manager.ts:108-138 | The manager holds a worker for a job exactly while its state is running |
| JobManager.JobsMove | packages/resolution-tools/src/job-manager.ts:98-148 | Each step keeps a job's identity and evidence, moves its state along the state machine and appends exactly the recorded event |
| JobManager.LaunchedJobsSettleOnce | packages/resolution-tools/src/job-manager.ts:108-138 | From any point after running was set: cancelled stays cancelled, completed and failed keep their value or become cancelled, and queued never returns |
| JobManager.WhatBecomesOf | packages/resolution-tools/src/job-manager.ts:108-148 | After any step a job is completed or failed by the report of its held worker, cancelled by a cancel that lands, running when its worker is registered, and otherwise as it was |
| JobManager.StateIsLastDecision | packages/resolution-tools/src/job-manager.ts:95-148 | Over every run, a job's state is that of the last such step, and queued when there was none |
| JobManager.OutcomeWasReported | packages/resolution-tools/src/job-manager.ts:110-126 | Over every run, a job is completed with a summary, or failed with a message, only if its worker reported just that |
| JobManager.HeldWorkerSettles | packages/resolution-tools/src/job-manager.ts:110-126 | The report of a held worker settles the job exactly as reported and lets the worker go |
| JobManager.HeldWorkerCancels | packages/resolution-tools/src/job-manager.ts:130-138 | Cancelling a held worker ends in cancelled and the worker let go when it confirms, and in no change when it does not |
| JobManager.CancelsChange | packages/resolution-tools/src/job-manager.ts:130-138 | A cancel() waits exactly when it found a held worker, until that worker answers |
| JobManager.CancelSurvives | packages/resolution-tools/src/job-manager.ts:108-138 | A cancelled job leaves that state exactly by its own worker being registered later, which never happens to a job already launched |
| JobManager.CancelWhileQueuedIsLost | packages/resolution-tools/src/job-manager.ts:95-138 | A run in which a queued job is cancelled and then runs |
| JobManager.BaselinesStayOk | packages/resolution-tools/src/job-manager.ts:81-93 | Every job's two hashes stay those of the acceptance trees seen at its start |
| JobManager.EventLogIsComplete | packages/resolution-tools/src/job-manager.ts:140-148 | A job's log is every event recorded for it over the run, in order; no state change loses one |
| JobManager.NextPreservesInv | packages/resolution-tools/src/job-manager.ts:35-148 | Every step keeps ids, order, states, reservations, numbering and limit together |
| JobManager.Manager.Start | packages/resolution-tools/src/job-manager.ts:42-75 | Up to the first await: refuses at the limit without a trace, otherwise reserves and draws an ordinal |
| JobManager.Manager.AfterWorktree | packages/resolution-tools/src/job-manager.ts:75-99 | Registers the queued job with the next attempt number |
| JobManager.Manager.AfterEvidenceSaved | packages/resolution-tools/src/job-manager.ts:99-100 | Goes on to the worker and changes no job |
| JobManager.Manager.StartThrows | packages/resolution-tools/src/job-manager.ts:54-56 | A failed await leaves the job, if any, as it is and goes to the finally block |
| JobManager.Manager.AfterWorkerStarted | packages/resolution-tools/src/job-manager.ts:108-127 | Holds the worker and sets running, whatever the state was |
| JobManager.Manager.Release | packages/resolution-tools/src/job-manager.ts:56-63 | Gives back one reservation and removes the entry at zero |
| JobManager.Manager.OnCompleted | packages/resolution-tools/src/job-manager.ts:111-117 | Completes the job unless it was cancelled, and lets the worker go |
| JobManager.Manager.OnFailed | packages/resolution-tools/src/job-manager.ts:118-125 | Fails the job unless it was cancelled, and lets the worker go |
| JobManager.Manager.Cancel | packages/resolution-tools/src/job-manager.ts:130-138 | Waits for a held worker, and cancels any other known job at once |
| JobManager.Manager.AfterCancel | packages/resolution-tools/src/job-manager.ts:133-137 | A confirmed cancel releases the worker and marks the job; a rejected one changes no job |
| JobManager.Manager.AppendEvent | packages/resolution-tools/src/job-manager.ts:140-143 | Appends one event and keeps everything else |
| JobManager.Manager.SetState | packages/resolution-tools/src/job-manager.ts:145-148 | Replaces the state and keeps everything else |
| Policy.GateMeaning | packages/resolution-tools/src/policy.ts:6-23 | Open exactly when every route was reproduced with an assertion; blocked exactly when some route is blocked |
| Policy.ReproduceCovers | packages/resolution-tools/src/reproduction.ts:102-135 | A reproduction speaks about exactly the requested routes |
| Policy.GateOfReproduction | packages/resolution-tools/src/reproduction.ts:3-135 | In demo mode the gate opens exactly for React and backend routes, in live mode for no route |
| Policy.GateOnUnreproduced | packages/resolution-tools/src/reproduction.ts:3-135 | In demo mode the database route, and only it, blocks; any other route but React and backend asks for clarification, as the first route does in live mode |
| Policy.GateNamesFirst | packages/resolution-tools/src/policy.ts:6-23 | A closed gate names the first blocked route, else the first unreproduced one, else the first without an assertion |
| Verifier.StatusRoundTrip | packages/resolution-tools/src/verifier.ts:52-133 | Parsing `status -z` gives back every changed path, and for the patch exactly the untracked ones |
| Verifier.PatchShowsUntracked | packages/resolution-tools/src/verifier.ts:33-62 | The patch text is the tracked diff followed by every untracked file that git listed, in order |
| Verifier.FingerprintDeterminesPatch | packages/resolution-tools/src/verifier.ts:130-134 | Under an injective hash, equal fingerprints mean the same entries and the same patch, and conversely |
| Verifier.FingerprintPinsWorktree | packages/resolution-tools/src/verifier.ts:33-62 | Under an injective hash, a fingerprint fixes diff and untracked contents exactly when no line announcing an untracked file recurs after its leftmost place with the later ones still to come |
| Verifier.UntrackedCollision | packages/resolution-tools/src/verifier.ts:52-61 | Two worktrees with different untracked contents and one fingerprint |
| PatchParts.PinnedMeansUnambiguous | packages/resolution-tools/src/verifier.ts:52-61 | Parts joined by known separators can be read back from the text exactly when the leftmost cut is the only one |
| Verifier.FieldsAndPatchAreUnique | packages/resolution-tools/src/verifier.ts:134 | The fingerprint's preimage can be cut in one way only |
| Verifier.VerdictMeaning | packages/resolution-tools/src/verifier.ts:64-92 | Tests passed exactly when the script exited 0, every listed change is in scope and both acceptance trees hash as recorded; the report names its job and lists exactly the changed paths |
| Verifier.UnchangedHashMeaning | packages/resolution-tools/src/verifier.ts:67-75 | Under an injective digest an equal hash means the same tree exactly for start trees that cannot be imitated, and for any two trees without NULs |
| Review.ApprovalMeaning | packages/resolution-tools/src/semantic-review.ts:20-184 | For any verification of the job, exactly when each of the three clients approves |
| Review.ExpandedScopeCanBeApproved | packages/resolution-tools/src/semantic-review.ts:172-181 | The remote client approves although it answers that scope expanded and tests were weakened |
| Review.RevisionIsExplained | packages/resolution-tools/src/semantic-review.ts:20-34 | A failed verification is always sent back with at least one stated reason, and a passed one never is |
| Review.FailureIsRevised | packages/resolution-tools/src/semantic-review.ts:20-34 | A failed report is revised by every client, with exactly its scope, test and destructive flags |
| Review.DemoHandsOff | packages/resolution-tools/src/semantic-review.ts:36-69 | On a passed report the demo client hands off exactly when a changed file is out of scope or the patch is destructive, with just these flags, and approves otherwise; it never revises |
| Review.UnavailableHandsOff | packages/resolution-tools/src/semantic-review.ts:71-88 | On a passed report the unavailable client always hands off |
| Review.RemoteAnswersStand | packages/resolution-tools/src/semantic-review.ts:90-184 | On a passed report the remote answers stand, except that an approval of anything destructive becomes a hand-off; a failed request throws |
| Review.WhoDecidesNext | packages/resolution-tools/src/semantic-review.ts:20-184 | For any verification of the job and each client: exactly when the patch goes back to the worker, and exactly when to a human |
| PathScope.IsAllowedChangeMeaning | packages/resolution-tools/src/worktree.ts:36-52 | For every scope and file, the string test accepts exactly when both are relative, neither climbs above the root and the scope's segments are a prefix of the file's; a scope with a trailing slash admits only itself |
| PathScope.TrailingSlashShutsOut | packages/resolution-tools/src/worktree.ts:51 | `src/a` is allowed in scope `src` and not in scope `src/` |
| PathScope.NormalizeRelative | packages/resolution-tools/src/worktree.ts:37-38 | The normal form of a relative path spells its walk, or starts with `..` when the walk leaves the root |
| PathScope.PrefixTest | packages/resolution-tools/src/worktree.ts:51 | On normal forms, the string prefix test is the segment prefix test |
| Integrity.ListingExact | packages/resolution-tools/src/integrity.ts:8-20 | The listing is strictly sorted and holds exactly the paths of the regular files |
| Integrity.ListingIsCanonical | packages/resolution-tools/src/integrity.ts:8-20 | Two enumerations of the same files, in any order and under any root, are listed alike |
| Integrity.HashDirectory | packages/resolution-tools/src/integrity.ts:22-31 | The loop feeds the hash exactly the NUL-terminated path and content fields of the listing |
| Integrity.HashDependsOnlyOnTree | packages/resolution-tools/src/integrity.ts:22-31 | The hashed text depends only on which files there are and what they hold |
| Integrity.HashDeterminesTree | packages/resolution-tools/src/integrity.ts:22-31 | For NUL-free contents the hashed text is equal exactly when the files are the same |
| Integrity.HashPinsTree | packages/resolution-tools/src/integrity.ts:22-31 | A tree shares its hash input with no other tree exactly when it has no file, or one file whose content does not spell, between two NULs, a path listable after its own |
| Integrity.TextTreePinned | packages/resolution-tools/src/integrity.ts:22-31 | Without NULs in its contents, a tree is pinned by its hash exactly when it has at most one regular file |
| Integrity.SpellingIsForgeable | packages/resolution-tools/src/integrity.ts:24-29 | A file whose content spells a further path has the hash input of a tree of two files |
| Integrity.TwoFilesAreForgeable | packages/resolution-tools/src/integrity.ts:24-29 | Any tree of two or more files, NULs or not, has the hash input of some other tree |
| Integrity.HashCollision | packages/resolution-tools/src/integrity.ts:24-29 | Two concrete trees with one hash input |
| NulFields.EncodeIsInjective | packages/resolution-tools/src/integrity.ts:25-28 | NUL-terminated fields can be read back in one way only |
| Service.EvidenceSafety | packages/resolution-tools/src/service.ts:57-105 | Over every run from an empty store: each job was started with evidence of its own case and issue that covers every triaged route, each reproduced with an assertion; none exists in live mode or for any route but React and backend |
| Service.ApprovalIsSound | packages/resolution-tools/src/service.ts:115-155 | An approval speaks of a completed job and names the step of the run that verified it: exit 0, every change below the demo directory, both acceptance trees hashing as at the job's start, and so unchanged under the exact condition for that; the fingerprinted entries and patch are the verified ones and the reviewed text is not destructive |
| Service.ApprovalReadsAgain | packages/resolution-tools/src/service.ts:144-154 | Once the fingerprint matched, the demo answer is an approval exactly when the report passed and the text as read again is not destructive |
| Service.EveryAnswerIsExplained | packages/resolution-tools/src/service.ts:115-155 | Every answered review rests on a verification step of the run: revised exactly when that did not pass, handed off exactly when it passed and the text as read again is destructive, approved otherwise |
| Service.AnsweringClient | packages/resolution-tools/src/service.ts:154 | For a passed report: in demo mode never a revision; in live mode the remote model's answer with a key, and a hand-off without one |
| Service.SentBackIsRevised | packages/resolution-tools/src/service.ts:134-153 | What the service answers by itself is always a revision |
| ReviewRace.DestructivePatchApproved | packages/resolution-tools/src/service.ts:46-154 | A whole run from the empty store in which the verified and fingerprinted patch is destructive and is approved |
| Service.ReportsComeFromVerifications | packages/resolution-tools/src/service.ts:115-155 | Every stored report, and every review under way or answered, rests on a verification that ended in the run |
| Service.IdentityOverRuns | packages/resolution-tools/src/service.ts:115-155 | A job keeps its case, issue, scope, hashes and attempt to the end of the run |
| Service.ReviewBelongsToCase | packages/resolution-tools/src/service.ts:128-143 | A review starts exactly for a verified job of the given case, and is sent back at once, with no flag set, exactly when that job is no longer completed |
| Service.FingerprintGate | packages/resolution-tools/src/service.ts:144-154 | The review goes on exactly when the worktree shows the verified entries and patch; otherwise it is sent back with the scope flag set |
| Service.AttemptsAreLimited | packages/resolution-tools/src/service.ts:85-105 | No interleaving of startFix calls exceeds the attempt limit of a case |
| Service.NextPreservesInv | packages/resolution-tools/src/service.ts:46-155 | Genuine evidence, permitted jobs, verified reports and the job manager's invariant survive every step together |
| Service.PermittedMeans | packages/resolution-tools/src/service.ts:62-96 | Passing reproduce and the gate establishes every triaged route of the case |
| Service.CaseOfTriage | packages/resolution-tools/src/service.ts:46-55 | Over every run, the n-th triage decides case n for good: its issue and routes, or no case when they are not valid |
| Service.ReproduceSaves | packages/resolution-tools/src/service.ts:57-71 | Evidence is produced exactly for a triaged case, its own issue and all of its routes, and speaks about exactly the routes given |
| Service.SavesLand | packages/resolution-tools/src/service.ts:69-70 | A save lands at any time before its call goes on, and puts just its evidence into the file of its own case |
| Service.FixBeginsInScope | packages/resolution-tools/src/service.ts:85-92 | startFix goes on exactly in the demo scope and with a repository |
| Service.FixSeesFile | packages/resolution-tools/src/service.ts:93 | The start sees the evidence file of its case as it is when the read lands |
| Service.FixStartsExactly | packages/resolution-tools/src/service.ts:93-105 | A job is started exactly when every route of the evidence read is reproduced with an assertion and the attempt limit admits it, with that evidence, its issue, the case and the scope |
| Service.VerifyStartsExactly | packages/resolution-tools/src/service.ts:115-122 | A verification starts exactly for a completed job of the given case, on the record as it then is |
| Service.ThrownCallsLeaveNothing | packages/resolution-tools/src/service.ts:123-155 | A verification or review that throws leaves no report and no answer |
| Service.DemoScopeMeaning | packages/resolution-tools/src/service.ts:30-88 | In the one accepted scope a change is allowed exactly when it resolves below packages/resolveforge-demo/src |
| Service.ResolveForgeService.AfterTriage | packages/resolution-tools/src/service.ts:46-55 | Stores a valid triage under a fresh case id; an invalid one only uses up the ordinal |
| Service.ResolveForgeService.Reproduce | packages/resolution-tools/src/service.ts:57-71 | Saves evidence exactly for a triaged case, all of its routes and its own issue |
| Service.ResolveForgeService.SaveLands | packages/resolution-tools/src/service.ts:69 | The evidence file of the case becomes the saved evidence, whenever the write lands |
| Service.ResolveForgeService.AfterSave | packages/resolution-tools/src/service.ts:69-70 | The reproduce call ends and changes no file |
| Service.ResolveForgeService.StartFix | packages/resolution-tools/src/service.ts:85-92 | Goes on exactly for the demo scope with a configured repository |
| Service.ResolveForgeService.ReadLands | packages/resolution-tools/src/service.ts:93 | The call sees the evidence file as it is when the read lands |
| Service.ResolveForgeService.JobSaveLands | packages/resolution-tools/src/job-manager.ts:99 | The job manager's save puts the evidence the job was started with back into the file |
| Service.ResolveForgeService.AfterRead | packages/resolution-tools/src/service.ts:93-105 | Starts a job exactly when the evidence was read, the gate is open and the attempt limit admits it |
| Service.ResolveForgeService.CancelFix | packages/resolution-tools/src/service.ts:111-113 | Is the job manager's cancel |
| Service.ResolveForgeService.VerifyFix | packages/resolution-tools/src/service.ts:115-122 | Verifies exactly a completed job of the given case |
| Service.ResolveForgeService.AfterVerify | packages/resolution-tools/src/service.ts:123-125 | Stores the report under the verified job |
| Service.ResolveForgeService.ReviewPatch | packages/resolution-tools/src/service.ts:128-143 | Throws without a report for the case, sends back a job that is no longer completed, and otherwise takes the fingerprint |
| Service.ResolveForgeService.AfterFingerprint | packages/resolution-tools/src/service.ts:144-153 | Sends back a changed worktree |
| Service.ResolveForgeService.AfterPatchText | packages/resolution-tools/src/service.ts:154 | Answers with the configured client's review of the captured job and report |
| EventDelta.Reassembly | packages/trueforge-sdk/src/events.ts:20-117 | Folding any cutting of a message that opens its tool calls in order over the empty base rebuilds the message |
| EventDelta.FoldGathers | packages/trueforge-sdk/src/events.ts:31-60 | Any delta sequence accumulates to its concatenated texts, its last overwriting values and its merged fragments |
| EventDelta.OtherMessagesIgnored | packages/trueforge-sdk/src/events.ts:20-29 | Deltas of other messages leave no trace |
| EventDelta.LastWins | packages/trueforge-sdk/src/events.ts:31-56 | Refusal, finish reason and usage are those of the last delta that has them, null included |
| EventDelta.CallsAreTheirFragments | packages/trueforge-sdk/src/events.ts:63-117 | A rebuilt call has the last id, name, tool info and extra content among its own fragments, and all their arguments in order |
| EventDelta.FragmentsReassemble | packages/trueforge-sdk/src/events.ts:63-117 | Fragments that open in index order rebuild each call from its own fragments, however they interleave |
| EventDelta.DeltasConcat | packages/trueforge-sdk/src/events.ts:20-61 | Merging two deltas in turn equals merging their concatenation |
| EventDelta.FragmentsJoin | packages/trueforge-sdk/src/events.ts:63-117 | Exactly when merging two fragments of one call equals merging them as one |
| EventDelta.IncompleteOpeningIsLost | packages/trueforge-sdk/src/events.ts:97-102 | Two halves of an opening fragment are both dropped although together they open a call |
| EventDelta.CallsOnlyGrow | packages/trueforge-sdk/src/events.ts:63-117 | For any fragments at all the calls stay dense, never shrink and only extend their arguments |
| EventDelta.ModelMessage.MergeEventDelta | packages/trueforge-sdk/src/events.ts:20-61 | The in-place merge is the merge function on the message's value |
| EventDelta.ModelMessage.MergeToolCallDelta | packages/trueforge-sdk/src/events.ts:63-117 | The in-place merge of one fragment is the fragment function on the calls |
| EventDelta.ModelMessage.MergeToolCalls | packages/trueforge-sdk/src/events.ts:57-59 | The loop merges the fragments in order |
| Wrap.WrapText | packages/trueforge/src/startupBanner.ts:64-92 | The loop produces exactly the lines of the greedy layout |
| Wrap.WrapIsOptimal | packages/trueforge/src/startupBanner.ts:64-92 | No layout of the words in order, with lines that fit or hold one oversized word, has fewer lines |
| Wrap.GreedyIsOptimal | packages/trueforge/src/startupBanner.ts:68-91 | Greedy breaking is optimal among all layouts |
| Wrap.GreedyIsLayout | packages/trueforge/src/startupBanner.ts:68-91 | The greedy lines keep the words in order and each fits or is one word |
| Wrap.WrapKeepsWords | packages/trueforge/src/startupBanner.ts:64-92 | Splitting the wrapped lines again gives the words of the text, and each line fits or is one word |
| Wrap.SpacesAreListed | packages/trueforge/src/startupBanner.ts:65 | Words are cut at exactly the 25 characters that \s matches |
| Wrap.BoxIsRectangle | packages/trueforge/src/startupBanner.ts:101-110 | Every row of the box has length width + 4 and the body rows hold the lines |
| Wrap.BoxIsDrawn | packages/trueforge/src/startupBanner.ts:101-110 | Corners, label, borders and blanks stand where the template puts them, in every row |
| Wrap.BoxIsTight | packages/trueforge/src/startupBanner.ts:101-110 | The inner width is 72, unless one word of the message is longer, and then that word fills a row |
| Wrap.WarningBox | packages/trueforge/src/startupBanner.ts:101-110 | The box is built over the message wrapped at the inner width |
| Splice.SpliceAll | packages/trueforge-sdk/scripts/rename-to-esm-files.js:107-109 | Splicing from right to left equals replacing all spans at once in the original text |
| Splice.Collect | packages/trueforge-sdk/scripts/rename-to-esm-files.js:95-106 | Collects exactly the matches that are extensionless and resolve, in order |
| Splice.ReplacedMatches | packages/trueforge-sdk/scripts/rename-to-esm-files.js:95-106 | In order, exactly the matches without an extension that resolve are replaced, each span by its own text |
| Splice.UpdateContents | packages/trueforge-sdk/scripts/rename-to-esm-files.js:71-135 | After the extension loop, static and dynamic imports are replaced in two passes over each pass's own text, and a change against the file's text is reported exactly when there is one |
| Splice.SpliceStep | packages/trueforge-sdk/scripts/rename-to-esm-files.js:107-109 | One splice turns the text with the later spans replaced into the text with one span more |
| Splice.OutsideIsKept | packages/trueforge-sdk/scripts/rename-to-esm-files.js:107-128 | Every character outside the spans survives at its shifted place |
| Splice.OutsideKeepsOrder | packages/trueforge-sdk/scripts/rename-to-esm-files.js:107-128 | Characters outside the spans stay in order |
| Splice.ReplacementIsPlaced | packages/trueforge-sdk/scripts/rename-to-esm-files.js:107-128 | Every replacement text stands where its span was |
| Splice.ReplacedLength | packages/trueforge-sdk/scripts/rename-to-esm-files.js:107-128 | Nothing else is added: the length is the text's, less the spans, plus the replacements |

## Left out

- ApprovalIsSound: says of the text handed to the review client only that it is not destructive, because it is read again after the fingerprint (see ApprovalReadsAgain); the fingerprinted entries and patch are the verified ones.
- FingerprintDeterminesPatch: takes SHA-256 as an injective function and git's status output as printed entries with an empty error stream.
- VerdictMeaning: takes what git and the acceptance script answer, and the acceptance trees read, as arbitrary values; the worktree may change between the reads and the script.
- Stream: leaves out a consumer that throws into the generator, and an engine whose return() throws; timestamps and metrics are erased or compared up to equality of the outcome.
- PersistExecutionEvent: the message for an undefined capability state and that of a turn that is not running are constants, without the key and the turn id.
- CommitRejectsOnlyReusedIds: takes the context appends and capability states of createTurn as well formed, since they are drawn from the same threads; the other rejections of the store are in SessionStore.CreateTurn.
- RequestIsBounded: Redis calls take no time and timers fire exactly when due; a zero delay counts as one millisecond.
- Reassembly: message content is a string; structured content and the difference between null and the empty string of content and reasoning are not modelled; a null refusal or finish reason is.
- MergeToolCallDelta: tool calls are values in a sequence, so two references to one call object are not modelled.
- Empty turn ids, which createTurn treats like a missing previous turn, and failures once the commit took effect, when the turn is already durable and running.
- Store faults that split one atomic store call, deletion of sessions, and the SQL backends of the store.
- Two handles executing the same turn at once: one handle streams, everything else that can touch the turn freezes or aborts it.
- The agent engine, its threads, tools and MCP servers: any finite script of execution events ending in a result or an error.
- What a request handler computes, and malformed request messages: an accepted request settles at some time.
- The onError hook of the executor is assumed not to throw.
- Regular expressions: the matches of rename-to-esm-files.js are given spans, sorted and disjoint, and the destructive-command pattern is an arbitrary predicate; what the first loop of updateFileContents (lines 77-88) makes of a text is an arbitrary function.
- UTF-16 code units are single characters; strings are not normalised.
- Triage classification, the remote triage and review services, git worktrees, the fix workers: their answers are arbitrary inputs.
- Times in ids: a job id is a time and an ordinal, a case id its ordinal.
- profileReact, get and list operations, wordmark rendering, colours, configuration, HTTP routes, authentication, database code and all user interface code: outside the scope of this model.
