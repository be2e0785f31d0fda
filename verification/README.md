# Verified model of the durable request, pipeline and selection core

The application drives job searches with several worker processes, a model broker and one shared
database. This project states what that core guarantees and proves it in Dafny.

- **Request protocol** (`Records`, `Totals`, `RequestRows`, `SiteRotation`, `ModelBroker`, `BrokerGateway`,
  `ModelProtocol`, `ModelInvariants`, `ModelTheorems`, `CallBudgets`, `SharedKeys`). Brokers, clients and gateway
  workers share rows, a response cache and one operation for each call and generation. The classes carry out single
  transactions; `ModelProtocol` interleaves them, with crashes, timeouts, claim theft and takeovers at any point, and
  splits the gateway's recovery into its read and its conditional update. A failed transaction changes nothing, so every
  step is atomic. A gateway knows a call by its own key (`Call`), the broker counts attempts by another (`OpKey`): the
  protocol keeps both apart.
- **Pipeline** (`Pipeline`, `Backlog`, `Takeover`, `PipelineInvariants`, `QueueBound`, `PipelineStore`). A bounded queue
  for each site with a durable backlog, stages that only move forward, and the merge of all older generations. An
  enqueue commits twice; the second commit may come late or never.
- **System** (`SystemProtocol`, `SystemTheorems`, `Conservation`, `SlotLimit`). Both parts as one state machine over the
  same execution rows, and what a cancellation (`Cancellation`) holds back.
- **Search** (`SearchScheduler`, `HireHiScheduler`, `HireHiSearch`). Source selection without starvation or deadlock, and
  the fate of every discovered vacancy: handed out once, waiting, or ruled out by the profile.
- **Decisions** (`ApplyGate`, `Sanitizer`, `SpecialConditions`). The gate between "apply" and "skip", the copy that
  neutralises instruction fragments, and the check of employer conditions in a letter.

Time is an integer number of seconds, UUIDs are fresh numbers, different texts have different hashes, the attempt budget
is the same for all calls, an execution row exists for every session, and a session works on one site. Scores, text
patterns and provider results are arbitrary: functions passed in, or steps that may go either way.

Five statements one might expect are not true of the code.

- *The gateway and the broker hash the same input.* The broker redacts credential-shaped content first
  (`backend/intelligence/model_broker.py:86-111`), the gateway does not (`backend/intelligence/broker_gateway.py:71-84`).
  `Sanitizer.HashInputs` gives the exact condition, `Sanitizer.TwoCallsOneKey` the inputs that collide.
- *A broker key is called at most as often as its budget says.* Calls that collide share a key, and the second is admitted
  while the first may still spend: `SharedKeys.SharedKeyExceedsBudget`. What holds: the budget for each call under a key;
  the reserve of a key, spent or still to spend, stays within the budget exactly under the condition of
  `CallBudgets.KeyBudgetHoldsExactly`, and then so do the calls made, which never exceed the reserve
  (`CallBudgets.ClaimsWithinReserve`); and a bound on the calls that nothing can break (`CallBudgets.SharedKeyIsBounded`).
- *One call of the gateway is made at most as often as its budget says.* An evaluation can start before the vacancy has an
  id and be submitted again with one (`backend/orchestrator/workflow.py:2503-2508` and `3735-3740`), under a key without
  history: `SharedKeys.SecondKeyExceedsBudget`. `CallBudgets.CallBudgetHoldsExactly` gives the exact condition for the
  reserve of a call, `CallBudgets.CallSpendsOneBudgetPerKey` what holds without it.
- *A site holds at most ten queued vacancies.* An ended session keeps its active rows and can return through the login
  check (`backend/api/router.py:1303-1321`): `SlotLimit` gives such a history, and proves the limit under exactly the
  condition that returning rows fit.
- *A ready HH source waits at most 10 * (k+1) selections.* The `related` source enters without `add`
  (`backend/orchestrator/adaptive_search.py:101`), older than any waiting source: `SearchScheduler.RelatedCostsOnePeriod`
  gives such a run, and `SearchScheduler.ReadySourceIsServed` the bound with one more period for recommendation sources.

## Model

| member | source | states |
|---|---|---|
| CallBudgets.ProviderCallsWithinBudget | backend/intelligence/model_broker.py:598-636 | Over every run of any number of brokers, clients and workers, the provider claims of one gateway call under one broker key, summed over all its rows, never exceed the attempt budget, whatever other calls share the key |
| CallBudgets.CallBudgetHoldsExactly | backend/intelligence/model_broker.py:327-360 | What the rows of one gateway call have spent or may still spend, under whatever keys, stays within one budget in every state if and only if each row admitted for it finds the earlier attempts of the call counted under its own key |
| CallBudgets.OneKeyIsCovered | backend/intelligence/model_broker.py:327-332 | The condition is met as long as the call was only submitted under one key |
| CallBudgets.CallSpendsOneBudgetPerKey | backend/intelligence/model_broker.py:236-252 | Without any condition, the claims of one gateway call never exceed one budget for each key it was submitted under |
| CallBudgets.KeyBudgetHoldsExactly | backend/intelligence/model_broker.py:327-360 | What the rows of a broker key have spent or may still spend stays within the budget in every state if and only if each live row was admitted while that sum was covered by the attempts counted for the key |
| CallBudgets.ClaimsWithinReserve | backend/intelligence/model_broker.py:598-636 | The provider claims of any set of keys and calls never exceed what its rows have spent or may still spend, so under either condition they keep to the budget |
| CallBudgets.IdleKeyIsCovered | backend/intelligence/model_broker.py:327-332 | The condition for a key is met whenever no live row is under it |
| CallBudgets.UnsharedKeyWithinBudget | backend/intelligence/model_broker.py:327-332 | A broker key whose rows all come from one gateway call keeps to the budget M |
| CallBudgets.SharedKeyIsBounded | backend/intelligence/model_broker.py:255-257 | However many calls share a broker key, its provider claims never exceed M + (M - 1) + ... + 1, as every earlier row costs a later one an attempt |
| SharedKeys.SharedKeyExceedsBudget | backend/intelligence/model_broker.py:86-111 | A concrete run: two vacancies are evaluated ahead, with inputs that differ only inside a credential, and share a key; three calls are made under a budget of two, which is the bound |
| SharedKeys.SecondKeyExceedsBudget | backend/orchestrator/workflow.py:2503-2508 | A concrete run: a call is made before its vacancy has an id and again, after a takeover, with one; two calls are made for it under a budget of one |
| ModelTheorems.ClaimsAreAttempts | backend/intelligence/model_broker.py:598-636 | The claims a run makes for any set of keys and calls are exactly the attempts its rows record |
| CallBudgets.ExhaustionTestsAgree | backend/intelligence/broker_gateway.py:322-356 | The gateway's test (sum of attempts against the largest budget of any row of the key) is true exactly when the broker computes no remaining attempts |
| ModelTheorems.OneLiveRequestPerOperation | backend/intelligence/broker_gateway.py:281-459 | Two live rows of one gateway call, in whatever generations and under whatever keys, are the same row, and the operation of the call links to it |
| ModelTheorems.ClaimHolderIsAlone | backend/intelligence/broker_gateway.py:461-511 | While a worker still holds the claim token of an operation, no live request of that operation exists |
| ModelTheorems.TokenCreatesOneRequest | backend/intelligence/broker_gateway.py:513-526 | Every row came from a claim token, no two rows from the same one, and tokens are never request ids |
| ModelTheorems.LiveRequestsAreCurrent | backend/intelligence/broker_gateway.py:471-498 | Every live request carries its session's current generation |
| ModelTheorems.TerminalRowsNeverChange | backend/intelligence/model_broker.py:848-952 | A row that is completed, failed or cancelled is the same in every later state, so an output is written at most once |
| ModelTheorems.TableConstraintsHold | backend/persistence/model_request_models.py:44-64 | Every row of every reachable state meets the CHECK constraints; a lease owner exists exactly while running; a retry row has attempts left and wakes before its deadline |
| ModelTheorems.StatusTransitionsAreBounded | backend/intelligence/model_broker.py:848-952 | A row is never deleted and changes status at most 2 * max_attempts times in its life |
| ModelTheorems.ClaimsMeetDeadlines | backend/intelligence/model_broker.py:612-633 | The first claim happens before created_at + 6600 s and sets the deadline to now + window; every claim happens before created_at + 6600 + 180 s |
| ModelTheorems.DeadlineIsSetOnce | backend/intelligence/model_broker.py:885-952 | After the first claim the deadline is the same in every later state |
| ModelTheorems.QueuedRowsKeepTheirWindow | backend/intelligence/model_broker.py:322-325 | A queued row expires at created_at + 6600 s, so it never meets the condition under which old-format rows are extended |
| ModelTheorems.LimitsHold | backend/intelligence/model_broker.py:341-353 | In every reachable state at most 3 rows run and 30 are outstanding, at most 2 and 10 per session |
| ModelTheorems.CacheEntriesAreWriteOnce | backend/intelligence/model_broker.py:848-874 | A cache entry, once there, is the same in every later state |
| ModelTheorems.CacheEntriesAreCompletedOutputs | backend/intelligence/model_broker.py:848-874 | Each entry is the output of a completed request of the same session and the same stored input, role, schema and versions |
| ModelTheorems.CachedAnswersAgree | backend/intelligence/model_broker.py:334-382 | A request answered from the cache is never claimed and carries the output of its entry for ever |
| ModelInvariants.StepKeepsInv | backend/intelligence/broker_gateway.py:211-540 | Every transaction of brokers, clients, gateways, cancellation and takeover keeps the joint invariant of rows, links, tokens, workers, cache and budgets |
| ModelInvariants.RunKeepsInv | backend/intelligence/broker_gateway.py:211-540 | The joint invariant holds in every reachable state |
| ModelInvariants.RelinkOnlyBorrows | backend/intelligence/broker_gateway.py:387-430 | The branch that re-links an operation never finds a request of its own call: what it links to was made by another call and has this call's hash as its stored hash |
| ModelInvariants.HolderHasNoLiveRequest | backend/intelligence/broker_gateway.py:513-526 | A standing claim excludes every live or completed request of the call, from the invariant alone |
| ModelInvariants.TakeoverEndsRequests | backend/orchestrator/pipeline.py:112-128 | After a takeover the session has no live request, whatever late workers hold |
| ModelInvariants.SubmittedRow | backend/intelligence/model_broker.py:282-393 | What a submission inserts: the budget left by all earlier rows of the key, admission only under both limits, and the cached output if there is one |
| ModelInvariants.DurableCountsRows | backend/intelligence/model_broker.py:255-257 | Every earlier row of a key costs at least one attempt, claimed or not |
| RequestRows.ClaimKeepsRow | backend/intelligence/model_broker.py:612-633 | Claiming an eligible row keeps its constraints and its deadline bounds |
| RequestRows.BackoffBounds | backend/intelligence/model_broker.py:885-914 | A backoff lies between the base delay and 300 s for every attempt |
| RequestRows.FailOrRetryKeeps | backend/intelligence/model_broker.py:885-914 | A failure gives up the lease and either ends the row or leaves it room for another attempt |
| RequestRows.RecoverKeeps | backend/intelligence/model_broker.py:916-952 | Recovering a stale row consumes nothing and keeps its constraints |
| RequestRows.StatusChangesSpendPotential | backend/intelligence/model_broker.py:612-633 | Every change of status strictly lowers the number of changes still possible |
| RequestRows.NewRowOk | backend/intelligence/model_broker.py:341-393 | A new row meets the table constraints whatever was spent before |
| SiteRotation.RotationMovesForward | backend/intelligence/model_broker.py:558-596 | Moving from the last site to the next one never passes a waiting site |
| SiteRotation.NoSiteServedTwiceWhileAnotherWaits | backend/intelligence/model_broker.py:558-596 | While a site has a runnable row at every claim and is not served, no other site is served twice, even as sites appear and vanish |
| SiteRotation.WaitIsBoundedByOtherSites | backend/intelligence/model_broker.py:558-596 | So a waiting site is served after at most one claim of each other site |
| ModelBroker.SelectEligible | backend/intelligence/model_broker.py:507-516 | The eligible rows, each once, oldest first with ids breaking ties |
| ModelBroker.GroupBySite | backend/intelligence/model_broker.py:563-570 | The eligible rows split by site, in order, nothing lost |
| ModelBroker.ModelRequestClient.SubmitInTransaction | backend/intelligence/model_broker.py:282-393 | Inserts exactly the specified row, or refuses on invalid input or overload and changes nothing |
| ModelBroker.ModelRequestClient.WaitExpired | backend/intelligence/model_broker.py:416-453 | A client timeout fails the row only if it is still in the status that was read |
| ModelBroker.ModelRequestClient.Cancel | backend/intelligence/model_broker.py:455-475 | Cancels a live row and tells whether it did |
| ModelBroker.ModelRequestBroker.ExpireWaiting | backend/intelligence/model_broker.py:540-555 | Every waiting row past its deadline fails, no other row changes |
| ModelBroker.ModelRequestBroker.NextCandidate | backend/intelligence/model_broker.py:558-596 | Returns none exactly when nothing is runnable; otherwise the first site in rotation with a runnable row and its oldest row with session capacity |
| ModelBroker.ModelRequestBroker.ClaimOne | backend/intelligence/model_broker.py:598-636 | Expires, then claims the next candidate under the global limit, and no other row |
| ModelBroker.ModelRequestBroker.Complete | backend/intelligence/model_broker.py:848-883 | Only the lease holder completes a running row; the cache gains the output if the key is new |
| ModelBroker.ModelRequestBroker.FailOrRetry | backend/intelligence/model_broker.py:885-914 | Only the lease holder fails a running row, to retry or for good |
| ModelBroker.ModelRequestBroker.Heartbeat | backend/intelligence/model_broker.py:693-708 | Only the lease holder renews a running row, and nothing but its heartbeat changes |
| ModelBroker.ModelRequestBroker.RecoverStale | backend/intelligence/model_broker.py:916-952 | Every running row with a stale heartbeat is released or ended; the count is exact |
| BrokerGateway.BrokeredModelGateway.Operation | backend/intelligence/broker_gateway.py:211-265 | Finds the operation, or inserts it with a fresh claim token |
| BrokerGateway.BrokeredModelGateway.RetryBudgetSpent | backend/intelligence/broker_gateway.py:322-356 | Computes the exhaustion test over all rows of the key |
| BrokerGateway.BrokeredModelGateway.FindOldestReusable | backend/intelligence/broker_gateway.py:387-408 | Finds the oldest live or completed request whose stored hash is the hash of the call, if there is one |
| BrokerGateway.BrokeredModelGateway.ReadForRecovery | backend/intelligence/broker_gateway.py:281-436 | What one read of the tables may decide: follow, cancel, retarget, re-link, take the claim over, or wait |
| BrokerGateway.BrokeredModelGateway.RunPlan | backend/intelligence/broker_gateway.py:310-459 | The conditional update changes the operation only if it is as it was read, and says so |
| BrokerGateway.BrokeredModelGateway.SubmitAndLink | backend/intelligence/broker_gateway.py:461-526 | The request row and its link appear together, only under the claim and only for the current generation of a running session |
| BrokerGateway.BrokeredModelGateway.FinishOperation | backend/intelligence/broker_gateway.py:528-540 | Mirrors the end of a request only while the operation still links to it |
| PipelineInvariants.EnqueueConserves | backend/orchestrator/pipeline.py:353-417 | After an enqueue rows and backlog together hold exactly the earlier ids and the ids given, and no id is in both |
| QueueBound.EnqueueFillsFreeSlots | backend/orchestrator/pipeline.py:373-406 | An enqueue takes min(free slots, waiting) new slots at its site and none elsewhere |
| QueueBound.AdoptionOccupiesNoMore | backend/orchestrator/pipeline.py:147-185 | A takeover never takes another evaluation slot at any site |
| QueueBound.RevivalTakesParkedSlots | backend/orchestrator/pipeline.py:373-386 | A session that ends frees exactly its active capacity rows, and takes exactly them back when it returns |
| PipelineInvariants.EnqueueKeepsTables | backend/orchestrator/pipeline.py:333-417 | The first transaction of an enqueue keeps the pipeline invariant; a worker of another generation changes nothing |
| PipelineInvariants.NothingIsUnlocated | backend/orchestrator/pipeline.py:419-453 | With a link for every active row, the second transaction changes nothing |
| PipelineInvariants.EnqueueIsQueueing | backend/orchestrator/pipeline.py:333-453 | Both transactions in one go leave what the first alone leaves |
| PipelineInvariants.ReconcileProceeds | backend/orchestrator/pipeline.py:279-316 | Reconciling a row with its vacancy never moves its stage back nor revives it |
| PipelineInvariants.AdvanceKeepsTables | backend/orchestrator/pipeline.py:455-486 | Advancing keeps uniqueness, generations, links and the backlog apart from the rows |
| PipelineInvariants.CancelKeepsTables | backend/orchestrator/pipeline.py:488-513 | Cancelling a session keeps them too |
| PipelineInvariants.AdoptionKeepsTables | backend/orchestrator/pipeline.py:70-253 | A takeover keeps them and moves every active row to the new generation |
| PipelineInvariants.AdoptedIdsHaveLinks | backend/orchestrator/pipeline.py:226-240 | Every adopted id already has a link in the merged checkpoint |
| Backlog.MergeListsAll | backend/orchestrator/pipeline.py:203-224 | The merged backlog lists exactly the ids some generation of the checkpoint lists |
| Backlog.MergeKeeps | backend/orchestrator/pipeline.py:203-224 | The merge holds every id and every link of every generation, without repeats |
| Backlog.PutKeepsOrder | backend/orchestrator/pipeline.py:357-365 | A reference stored again keeps its place in the backlog; a new one goes to the end |
| Takeover.OldestFirstSelects | backend/orchestrator/pipeline.py:129-133 | The older rows are visited once each, oldest first |
| Takeover.AdoptionConserves | backend/orchestrator/pipeline.py:147-185 | For any tables with unique rows: each active older row goes on in exactly one row of the new generation, no less advanced than any of its older rows, unless it had already ended there; everything else is untouched |
| Takeover.BacklogAfterTakeover | backend/orchestrator/pipeline.py:203-253 | The new backlog lists exactly what any checkpoint listed, minus adopted and ended ids, however stale the checkpoints |
| PipelineStores.PipelineStore.Reconcile | backend/orchestrator/pipeline.py:279-316 | Updates in place exactly the rows of the place and generation |
| PipelineStores.PipelineStore.Promote | backend/orchestrator/pipeline.py:387-406 | Queues the first unqueued backlog entries while slots are free, keeps the rest in order |
| PipelineStores.PipelineStore.QueueRefs | backend/orchestrator/pipeline.py:346-417 | Up to the first commit: the tables become what the specification says, and all links known so far are returned |
| PipelineStores.PipelineStore.Enqueue | backend/orchestrator/pipeline.py:333-453 | Two transactions: after the queueing the worker is handed a reference for exactly the active rows of its place and generation that have a link, oldest first; a refused worker gets nothing and changes nothing |
| PipelineStores.DeliversExactly | backend/orchestrator/pipeline.py:419-453 | A reference is delivered if and only if an active row of the place and generation has that id and that link, from the call, the checkpoint or the vacancy |
| PipelineStores.PipelineStore.Advance | backend/orchestrator/pipeline.py:455-486 | Advances the one row of the caller, forward only, and says whether it did |
| PipelineStores.PipelineStore.CancelSession | backend/orchestrator/pipeline.py:488-513 | Cancels the active rows and the open operations of the generation |
| PipelineStores.PipelineStore.AdoptRows | backend/orchestrator/pipeline.py:147-185 | The in-place loop over older rows equals the specified merge, and collects exactly the adopted ids |
| PipelineStores.PipelineStore.MergeRows | backend/orchestrator/pipeline.py:201-224 | Merges the checkpoints of all generations, older first |
| PipelineStores.PipelineStore.AdoptGeneration | backend/orchestrator/pipeline.py:70-253 | Refuses a session that is over, cancelled or on another generation and changes nothing; otherwise adopts items, checkpoints, requests and operations together |
| PipelineStores.RuntimeSupervisor.NextGeneration | backend/runtime/supervisor.py:103-128 | The generation rises above both the cached and the stored one together with the adoption, or nothing changes |
| SystemTheorems.HistoryIsRun | backend/runtime/supervisor.py:103-128 | Every history of the whole system is a run of the request protocol, so its theorems hold there |
| SystemTheorems.HistoryKeepsTables | backend/orchestrator/pipeline.py:51-513 | The pipeline invariant holds in every reachable state |
| SystemTheorems.WorkIsCurrent | backend/orchestrator/pipeline.py:51-60 | In every reachable state live requests and active rows carry the current generation, and no row ever failed as missing_source_url, whatever second transactions of enqueues came late |
| SystemTheorems.LateWorkerCannotQueueOrAdvance | backend/orchestrator/pipeline.py:346-352 | After a takeover a worker of the replaced generation can neither queue nor advance, at any later time |
| SystemTheorems.LateWorkerCannotCreateRequest | backend/intelligence/broker_gateway.py:471-498 | After a takeover a worker of the replaced generation can create no request, whatever claim it holds |
| SystemTheorems.GenerationsOnlyGrow | backend/runtime/supervisor.py:113-121 | No action ever lowers a generation |
| SystemTheorems.TakeoverHandsOnEveryRow | backend/orchestrator/pipeline.py:147-185 | In every history a takeover leaves each active row as the new generation's only row for its vacancy, no less advanced, unless the vacancy was closed |
| SystemTheorems.SecondCommitChangesNothing | backend/orchestrator/pipeline.py:417-453 | In every history the second transaction of an enqueue changes nothing, however late it comes: after any commits of other workers, after takeovers, and after enqueues of the generation that took over; only a later enqueue of the same worker replaces it |
| Conservation.WaitingIsNeverDropped | backend/orchestrator/pipeline.py:353-417 | In every history a vacancy that waits in the current backlog and has no row goes on waiting until it has an active row of the generation then current |
| Conservation.WorkGoesOn | backend/orchestrator/pipeline.py:70-513 | In every history a vacancy that waits or has an active current row stays so until a worker of the current generation reports it done or finds it closed, a takeover finds it closed, or its session is cancelled; a late worker cannot end work |
| Conservation.EnqueuedStaysInHand | backend/orchestrator/pipeline.py:333-453 | Every new reference an accepted enqueue was given waits or has an active current row from then on, until it ends |
| SlotLimit.LimitHoldsExactly | backend/orchestrator/pipeline.py:373-386 | At most ten capacity rows per site in every state of a history if and only if each session that returns fits its parked rows into the free slots |
| SlotLimit.RevivalCanOverfill | backend/api/router.py:1303-1321 | A concrete history: a session fails with one row queued, another of its site starts, fills the ten slots and is paused, and the login check brings the first back, which makes eleven |
| Cancellation.CancelFencesOff | backend/runtime/lifecycle.py:88-107 | Cancelling sets the flag, and the status unless the session had ended; the fence is then up for every generation |
| Cancellation.FenceHoldsBack | backend/runtime/lifecycle.py:110-134 | Behind the fence no action adds a request row, and none queues or advances a pipeline row of the session; no takeover of it is possible |
| Cancellation.CancelledSessionIsHeldBack | backend/runtime/lifecycle.py:88-134 | In every history a cancelled session stays held back until its status is set anew, also from the second transaction of an enqueue |
| SearchScheduler.Scheduler.Add | backend/orchestrator/search_scheduler.py:43-47 | A source enters once, no older than the turn before |
| SearchScheduler.Scheduler.Choose | backend/orchestrator/search_scheduler.py:49-84 | Serves the first best candidate of the turn's lane, jumping to the first retry only when nothing is ready; returns none exactly when every source is exhausted or waits for the clock |
| SearchScheduler.Scheduler.Batch | backend/orchestrator/search_scheduler.py:86-92 | Discounts and adds the yields of one source, keeping new within all references, relevant within judged and the standing of every source |
| SearchScheduler.Scheduler.EnterRelated | backend/orchestrator/adaptive_search.py:100-102 | The related source is found and woken, or appended as the oldest; it is there only once |
| SearchScheduler.RoundShrinksOvertakers | backend/orchestrator/search_scheduler.py:66-84 | A selection never adds a source that can be served before a waiting one, and a turn of its lane removes one |
| SearchScheduler.OneSelectionSettles | backend/orchestrator/search_scheduler.py:81-83 | After one other selection no newcomer can tie with a waiting source |
| SearchScheduler.ReadySourceIsServed | backend/orchestrator/search_scheduler.py:66-84 | For every score function, a source that stays ready is served within 5 * (k+1) selections in the search lane and 10 * (k+1) in the recommendation lane, k its rivals; with the related source still to enter beside add, within 5 * (k+1) and 10 * (k+2) |
| SearchScheduler.RelatedCostsOnePeriod | backend/orchestrator/adaptive_search.py:100-102 | A concrete run: the related source enters, and a ready recommendation source without rivals is not picked in ten selections |
| HireHiScheduler.HireHiSearchScheduler.WakeSources | backend/orchestrator/hirehi_search_scheduler.py:135-148 | Ends exactly the cooldowns and refreshes that are due |
| HireHiScheduler.HireHiSearchScheduler.Choose | backend/orchestrator/hirehi_search_scheduler.py:150-171 | Serves the first best source that is neither exhausted nor cooling down, uncalibrated ones first outside exploration; none exactly when there is none |
| HireHiScheduler.HireHiSearchScheduler.AdvanceToWakeup | backend/orchestrator/hirehi_search_scheduler.py:173-180 | Moves to the earliest wakeup ahead, or reports that there is none |
| HireHiScheduler.HireHiSearchScheduler.Update | backend/orchestrator/hirehi_search_scheduler.py:193-210 | Adds the counts and starts a cooldown after 25 weak analyses |
| HireHiScheduler.UpdateCounts | backend/orchestrator/hirehi_search_scheduler.py:193-210 | Relevant vacancies never outnumber analyzed ones |
| HireHiScheduler.BatchSize | backend/orchestrator/hirehi_search_scheduler.py:182-191 | Between 1 and 15, and exactly what calibration lacks |
| HireHiScheduler.StuckCanAdvance | backend/orchestrator/hirehi_search_scheduler.py:173-180 | When no source can be served, advancing succeeds |
| HireHiScheduler.NoDeadlock | backend/orchestrator/hirehi_search_scheduler.py:150-180 | At most two advances per source pass before a source can be served, and each moves the clock forward |
| HireHiSearch.HireHiAdaptiveSearch.PreRank | backend/orchestrator/hirehi_adaptive_search.py:226-250 | Ranks exactly the deliverable cards, each once, by priority, ties in page order with audit samples behind; adds exactly the rejected ids to the eligible list and the drawn ones among them to the selected list; counts the rejections |
| HireHiSearch.HireHiAdaptiveSearch.NoteCards | backend/orchestrator/hirehi_adaptive_search.py:263-281 | The unseen cards are the first cards of unknown ids in page order and get this source as first origin; known ids gain it at most once, and unseen plus duplicates count every named card |
| HireHiSearch.HireHiAdaptiveSearch.RecordDiscovery | backend/orchestrator/hirehi_adaptive_search.py:263-288 | Every new vacancy of the page is queued, best first, or has a rejected card that audit did not draw; nothing else changes in what is handed out, queued, known or ruled out |
| HireHiSearch.HireHiAdaptiveSearch.MakeRoom | backend/orchestrator/hirehi_adaptive_search.py:182-195 | Evicts the source least worth keeping that the rule allows, never a protected one; refuses exactly when the rule allows none |
| HireHiSearch.HireHiAdaptiveSearch.DiscoverRelated | backend/orchestrator/hirehi_adaptive_search.py:370-394 | Linked vacancies are queued or ruled out like those of a page; nothing happens exactly when their source is not active, all places are taken and no source may be evicted |
| HireHiSearch.HireHiAdaptiveSearch.FinishPage | backend/orchestrator/hirehi_adaptive_search.py:337-352 | What a page visit leaves in its source: repeats, cursor, exhaustion, refresh time and backoff |
| HireHiSearch.HireHiAdaptiveSearch.CollectCardRefs | backend/orchestrator/hirehi_adaptive_search.py:290-368 | What one page visit yields: the best new references up to one batch are handed out, the others wait in order behind the older ones, the remaining new vacancies are ruled out; nothing at all happens to them before the deadline, when no source can be served, or when the page cannot be read |
| HireHiSearch.HireHiAdaptiveSearch.CollectMore | backend/orchestrator/hirehi_adaptive_search.py:400-407 | Hands out the oldest queued reference and nothing else, or with an empty queue exactly what a page visit yields, none of it known before |
| HireHiSearch.HireHiAdaptiveSearch.NextRef | backend/orchestrator/hirehi_adaptive_search.py:416-417 | Hands out the head of the queue |
| HireHiSearch.HireHiAdaptiveSearch.Attribute | backend/orchestrator/hirehi_adaptive_search.py:451-458 | Books a verdict on the first origin only, once, if that source is still active |
| HireHiSearch.HireHiAdaptiveSearch.Observe | backend/orchestrator/hirehi_adaptive_search.py:419-460 | Counts only the first verdict on a vacancy, books it on its first origin, also after the discovery of linked vacancies, which are queued or ruled out; keeps the sums within the analyzed ids |
| HireHiSearch.DeliveredOnce | backend/orchestrator/hirehi_adaptive_search.py:226-288 | An id is discovered if and only if it was handed out once, or is queued once, or was rejected and not drawn for audit: exactly one of the three |
| HireHiSearch.OnlyRuledOutAreLost | backend/orchestrator/hirehi_adaptive_search.py:263-288 | The new vacancies missing from the ranking are exactly those with a rejected card that audit did not draw |
| HireHiSearch.AuditKeeps | backend/orchestrator/hirehi_adaptive_search.py:226-250 | A page lets go exactly its rejected, undrawn ids, and the selected list stays the drawn part of the eligible one |
| HireHiSearch.HandingOutKeepsPartition | backend/orchestrator/hirehi_adaptive_search.py:364-368 | Removing the returned ids from the queue removes exactly the returned references |
| ApplyGate.Evaluate | backend/intelligence/evaluator.py:336-616 | Apply exactly when nothing else blocks, every red flag has one complete confident unmatched row and no row is unknown, and every required flag is confirmed by both models |
| ApplyGate.RedFlagSafetyIssue | backend/intelligence/evaluator.py:175-206 | Reports an issue exactly when some red-flag row is missing, doubled, unknown, weak, incomplete or ungrounded |
| ApplyGate.BuildMatches | backend/intelligence/evaluator.py:390-405 | One match for every flag id, from the first row of the analyst |
| ApplyGate.CheckRequired | backend/intelligence/evaluator.py:410-483 | Asks the verifier exactly when every required flag passed with the analyst, and denies whatever it does not confirm |
| ApplyGate.GateIsExact | backend/intelligence/evaluator.py:522-575 | The code's three tests hold together exactly for the raw answers described |
| ApplyGate.AmbiguousFlagBlocks | backend/intelligence/evaluator.py:410-426 | An id that is both required and a red flag can never be recommended |
| Sanitizer.SanitizeText | backend/intelligence/security.py:203-224 | The cleaned text is not flagged and no longer than the text |
| Sanitizer.SanitizeCopy | backend/intelligence/security.py:227-294 | Succeeds exactly within depth, node and character budgets, with the cleaned value and the exact cost |
| Sanitizer.CopyCostsNoMore | backend/intelligence/security.py:227-294 | The copy is acceptable wherever the value was and costs no more |
| Sanitizer.SanitizingIsIdempotent | backend/intelligence/security.py:297-315 | What was accepted once is accepted again, unchanged, at no greater cost, with nothing flagged in it |
| Sanitizer.HashInputs | backend/intelligence/broker_gateway.py:543-546 | The gateway and the broker accept the same payloads, and hash the same text if and only if the sanitised copy holds nothing to redact |
| Sanitizer.TwoCallsOneKey | backend/intelligence/model_broker.py:86-111 | Two payloads that differ only in what is redacted are hashed differently by the gateway and alike by the broker |
| SpecialConditions.Uncovered | backend/intelligence/letter_writer.py:397-405 | Text is left over exactly when some non-blank character lies in no interval |
| SpecialConditions.PlaceAll | backend/intelligence/letter_writer.py:374-390 | Places every claim at its first occurrence, or none fits: ids known and distinct, spans apart, literals exact |
| SpecialConditions.PlacementIsUnique | backend/intelligence/letter_writer.py:374-390 | The claims determine the placement |
| SpecialConditions.ValidateSpecialConditions | backend/intelligence/letter_writer.py:366-418 | Accepts exactly when a placement meets every condition, and exempts exactly the words of its spans |

## Left out

- Provider calls, HTTP, browser automation, process control and metrics: a provider call is a step with any outcome.
- Crash points inside one transaction and the locking of SQLite and PostgreSQL: transactions are atomic, also the
  completion of a request, which reads and then updates its row in one transaction.
- ModelBroker.ModelRequestBroker.ExpireWaiting: does not extend queued rows of the old format, because
  `ModelTheorems.QueuedRowsKeepTheirWindow` shows that no row written today meets the condition.
- Requests whose payload was removed by the retention service (`payload_retained_metadata`).
- Direct broker submits beside a gateway: budget and link theorems are about requests that all come from gateways.
- Overlapping enqueues of one worker: within a generation one batch is enqueued after another
  (`backend/orchestrator/workflow.py:1776`), so a new enqueue leaves no older one to commit. Workers of different
  generations may overlap.
- What a provider is sent and answers: a cached answer repeats the output for the same stored input, which may come from
  a call whose input differed in what was redacted.
- Session leases on sites and the other one-line ownership checks of `backend/runtime/lifecycle.py`.
- Links between pipeline rows and vacancy or request ids, diagnostic ids and update times; malformed checkpoint entries;
  checkpoint keys other than backlog, links and high-water mark.
- References without a link: in the system workers hand over references with links and name their own site, as the
  adapters do. `PipelineStores.PipelineStore.Enqueue` and its specification also cover a reference without one.
- The HH score, recent clusters beyond their number, and result statistics beyond their update; the HireHi random draw,
  novelty, availability and cost.
- Planning, validation and expansion of HireHi sources: `HireHiSearch.HireHiAdaptiveSearch.AddSource` starts from a valid
  key; sources seen on a page enter through it as separate calls; archived statistics and semantic clusters are not kept.
- ApplyGate.Evaluate: minimum scores, salary and ungrounded positive scores are one arbitrary test of the final matches.
- Sanitizer.SanitizeCopy: values are trees, so the guard against cyclic input never fires; a schema object stands for its
  dump, and the re-validation of a sanitised schema object is not modelled.
- Sanitizer.HashInputs: compares the hashed texts up to the order of fields. Both sides sort them, the gateway integer keys
  by number and the broker by spelling; payloads have text keys. Boolean keys are taken for numbers.
- SpecialConditions.ValidateSpecialConditions: the message of a refusal is not part of the result.
- Letter generation, prompts, grading intervals, paging and the user interface.
