# Verified kernels of the CCC contact centre

The control plane of the contact centre has a few small stateful kernels whose correctness spans functions,
loops and interleavings. Each module below models one of them and proves what it keeps.

- **Routing, Interpolation, IvrEngine, IvrTrace, IvrNesting**: the IVR flow validator, variable interpolation,
  the interpreter with its recursive sub-flows, its runs turn by turn, and when their nesting ends. Node
  handlers are an oracle that returns any exit, rewrites the variables in any way or fails; so are the orders
  in which Go iterates a map.
- **EslPool, CircuitBreaker**: the telephony connection pool, with every compare-and-swap and channel
  operation of any number of goroutines as one step, and its circuit breaker against a history rule.
- **AcdQueue, AcdDispatch, AcdDispatchCalls, AcdFairness, AcdDispatchClaims, AcdDispatchRoom, AcdDispatchLimit,
  AcdDispatcher**: the call distributor. `AcdQueue` holds scores, members and overflow; `AcdDispatch` is the
  machine of interleaved Redis commands, any of which may fail; the next five prove where calls are, which is
  served first, who holds an agent and how long queues get; `AcdDispatcher` is the dispatch and expiry code
  itself, run among any schedule of other workers' steps.
- **CampaignLedger, Dialer**: campaign counters with retries and automatic completion, and the dial loop's
  slots and call counters.
- **CallRecord**: a call's status machine, its event log and the durations folded from the log.
- **Cdr**: exactly-once daily aggregation under redelivery, rollback and a competing reconciler.
- **ErlangC**: the staffing search, over the reals, for any positive and monotone exponential.
- **Presence**: agent presence, its time-accounting log and its after-call-work timers.

`Sums`, `Text`, `Clock` and `Options` are shared helpers: sums over sets, decimal text, whole seconds, and an
option type.

Every state machine is a pure step function over all of the state, and a run is any list of steps; a step
that is not possible changes nothing. The classes keep the source's fields, and each method's contract ties
its new fields to the step function, so what is proved of runs holds of them. Beside each step function stands
what its steps mean, in terms of the case records, the call records, the log or the exits themselves.
Interleaving is explicit: a method that another goroutine can interrupt takes a schedule of the others' steps
and returns, as a ghost log, the run that its execution was. Repositories return copies and a service method of a repository-backed
service is one atomic step. A method reads the clock once.

Where the code differs from what its comments promise, the model follows the code:

- The score is commented as sorting higher priority always first; it does so only within 10^10 ms per
  priority point (`AcdQueue.PriorityWinsIff`, `AcdQueue.AlwaysFairIff`).
- Shrink decrements before it pops, so maxPool bounds the connections only without shrinking
  (`EslPool.MaxPoolBoundsIff`); NewClient does not compare MinPool with PoolSize (`EslPool.MinimumHoldsIff`).
- A group's queue limit holds only for one worker at a time (`AcdDispatchLimit.LimitHoldsIff`), and its overflow
  ends only off full rings (`AcdQueue.OverflowEndsIff`).
- Recording an outcome on a finished case falsifies the counters (`CampaignLedger.StepKeepsLedgersIff`).
- Throttling raises a slot count that is not positive to one (`Dialer.LimitBoundsIff`).
- A sub-flow may run itself, and nothing stops the nesting (`IvrNesting.SelfCallNeverEnds`).
- An agent's claim lapses while its holder is still at work (`AcdDispatchClaims.AlwaysExclusiveIff`).
- TransitionToActive computes ring time before queue time is known (`CallRecord.DurationsPartitionIff`).
- Worker and reconciler date a call by different clocks (`Cdr.ProducersAgreeIff`).

## Model

| member | source | states |
|---|---|---|
| Routing.ValidateGraph | internal/domain/routing/validator.go:15-92 | Accepts a decoded graph, unchanged, exactly when its node types are known, it has one start and at least one end, ids are pairwise distinct, exit targets exist and every node is reachable along exits; otherwise it names the first requirement that fails |
| Routing.CardinalityTestDecides | internal/domain/routing/validator.go:70-91 | Comparing the number of visited ids with the number of nodes succeeds exactly when ids are distinct and all nodes are reachable: the check for repeated ids that the code never makes directly |
| Routing.SearchIsComplete | internal/domain/routing/validator.go:57-89 | On a graph with distinct ids the search, which follows the first node carrying an id, visits the end of every path |
| Routing.DistinctIdsByCounting | internal/domain/routing/validator.go:26-31 | There are as many distinct ids as nodes exactly when no id repeats |
| Routing.CountDecidesTypes | internal/domain/routing/validator.go:33-46 | The counters decide one start and at least one end |
| Routing.Search | internal/domain/routing/validator.go:57-85 | The breadth-first search ends, visits only reachable ids, and the visited set is closed under the exits it follows |
| Routing.CheckExits | internal/domain/routing/validator.go:48-55 | The exit loop, in any iteration order, succeeds exactly when every exit target is a node id |
| Routing.Tally | internal/domain/routing/validator.go:25-39 | The first loop stops exactly at an unknown type and otherwise counts starts and ends and collects the ids |
| Interpolation.InterpolateVars | internal/application/ivr/nodes_integration.go:366-371 | The loop over the variables replaces each variable's placeholder in iteration order |
| Interpolation.InterpolationIsOrderIndependent | internal/application/ivr/nodes_integration.go:366-371 | For templates of '$'-free text and placeholders, brace- and '$'-free keys and '$'-free values, every iteration order gives the simultaneous substitution |
| Interpolation.OrderFreeIff | internal/application/ivr/nodes_integration.go:366-371 | For brace- and '$'-free keys: all orders agree on every clean template, and agree with the simultaneous substitution, exactly when no value has a '$' from which it could, alone or with text behind it, start another variable's placeholder (a variable whose value is its own placeholder counts for nothing) |
| Interpolation.HarmShows | internal/application/ivr/nodes_integration.go:366-371 | Any value that breaks the condition has a clean template and two orders whose results differ |
| Interpolation.ReplaceFillsHoles | internal/application/ivr/nodes_integration.go:366-371 | One ReplaceAll on such a template fills exactly the holes of its key |
| IvrEngine.Execute | internal/application/ivr/engine.go:97-151 | A run that ends leaves the session with the variables and the history, appended to the old one, of the recursive meaning of the flow, and returns its error |
| IvrEngine.RunFrom | internal/application/ivr/engine.go:111-151 | A run that ends: the loop of at most 1000 turns computes the walk's outcome |
| IvrEngine.DoTurn | internal/application/ivr/engine.go:112-149 | One turn whose handler ends either ends the run or moves to the next node, with the same visit, variables and error as the meaning of a turn |
| IvrEngine.HandleSubFlow | internal/application/ivr/nodes_integration.go:294-339 | When the nested run ends, the sub-flow handler has the meaning RunSubFlow, on a copy of the variables and with the parent's history untouched |
| IvrEngine.AcceptedFlowRunsSoundly | internal/application/ivr/engine.go:97-151 | Every run that ends, of any graph the validator accepts, sub-flow cycles included, with a handler for every valid type and any handler outcomes: no failure for a missing start, handler or exit target, a history that walks from the start along the recorded exits, or "default" where the node lacks them, at most 1000 visits, and success exactly when the last visit is an end node |
| IvrEngine.WalkIsGoodRun | internal/application/ivr/engine.go:111-151 | On any graph at all the history of a run that ends is a walk, bounded by the turns, ends at an end node exactly on success, and is full when the step limit is the error |
| IvrEngine.WalkMeetsNoStructuralError | internal/application/ivr/engine.go:112-149 | From a node of a closed, fully typed map no turn meets a missing handler or target |
| IvrEngine.Engine.DefaultEngine | internal/application/ivr/engine.go:187-222 | The handler table registered by default covers exactly the types the validator admits |
| IvrEngine.SubFlowFramesParent | internal/application/ivr/nodes_integration.go:294-339 | A sub-flow node changes the parent's variables only at subflow_* keys and, on success, at declared outputs, and always takes "default" or "error" |
| IvrEngine.SubFlowDeliversOutputs | internal/application/ivr/nodes_integration.go:329-338 | It takes "default" exactly when the nested run succeeds, and then every declared output the run holds arrives in the parent |
| IvrEngine.IndexNodes | internal/application/ivr/engine.go:98-110 | The node index and the start node; later nodes win |
| IvrTrace.RunIsTraced | internal/application/ivr/engine.go:97-151 | Every run that ends, of any graph: it begins at the start node with the session's variables, each turn calls the node's handler with the variables the turn before left, records the exit the handler answers and goes where the node's exit of that name leads, or "default" when it has none; and it stops at an end node, a node without handler, a handler's failure, a node with neither exit, a missing target, or after 1000 turns and no sooner, with the matching error, variables and last visit |
| IvrTrace.ExitsAreFollowed | internal/application/ivr/engine.go:131-149 | In the history of any run each next visit has the id that the visited node's exit of the recorded name leads to, or its "default" only when it lacks that exit; a run fails for want of an exit only where both are missing |
| IvrTrace.VisitsAreOfTheGraph | internal/application/ivr/engine.go:98-106 | With distinct ids the node visited is the graph's own node of that id |
| IvrTrace.LaterNodesWin | internal/application/ivr/engine.go:98-106 | The last node with an id is the one indexed, and the last start node the one started at |
| IvrTrace.SubFlowExits | internal/application/ivr/nodes_integration.go:313-339 | A sub-flow node answers "default" without a loader or after a nested success, "error" when the flow cannot be loaded or the nested run fails, and keeps its own variables on an error |
| IvrTrace.InputsAreEvaluated | internal/application/ivr/nodes_integration.go:294-312 | The nested run starts with the parent's variables, the flow's id, and a subflow_* variable for each input that holds its template over the parent's variables, in any iteration orders |
| IvrNesting.ExecVisitsBounded | internal/application/ivr/nodes_integration.go:294-339 | A run that nests sub-flows at most d deep makes at most 1000 + 1000^2 + ... + 1000^(d+1) node visits in all |
| IvrNesting.EndsIff | internal/application/ivr/nodes_integration.go:313-339 | Nesting is the only way not to end: an execution ends exactly when every sub-flow execution it comes to does |
| IvrNesting.NeverEndsIff | internal/application/ivr/nodes_integration.go:313-339 | An execution never ends exactly when it belongs to executions each of which runs a sub-flow whose execution is among them |
| IvrNesting.SelfCallNeverEnds | internal/application/ivr/nodes_integration.go:294-339 | The handler has no depth guard: a flow the validator accepts that runs itself never ends, with any variables and at any time, unless its start node fails |
| IvrNesting.CallerIsAccepted | internal/domain/routing/validator.go:15-92 | The validator accepts that flow |
| IvrNesting.DepthLetsRunsEnd | internal/application/ivr/nodes_integration.go:313-339 | References that nest at most d deep let every execution end, nested at most d deep |
| IvrNesting.MoreFuel | internal/application/ivr/nodes_integration.go:294-339 | The outcome of a run that ends does not depend on how deep nesting was allowed to go |
| IvrNesting.RankedFlowsHaveDepth | internal/application/ivr/nodes_integration.go:313-339 | References along which a rank decreases nest at most as deep as the rank |
| IvrNesting.CyclicFlowsHaveNoDepth | internal/application/ivr/nodes_integration.go:313-339 | The references from a flow of a cycle nest beyond every bound (whether a run follows them is EndsIff) |
| IvrNesting.BoundedIff | internal/application/ivr/nodes_integration.go:313-339 | The references from a flow nest within some bound exactly when no group of flows that refer to each other contains it |
| IvrNesting.GraphBoundedIff | internal/application/ivr/nodes_integration.go:313-339 | So do those from a graph, stored or not, exactly when none of its sub-flow nodes refers to a flow of a cycle |
| EslPool.RunKeepsInv | internal/infrastructure/esl/client.go:102-248 | Over every interleaving from a fresh client of any configuration, before Close: idle, checked-out and growing connections together are the pool size plus the shrinks in flight, live ids are distinct, the size falls below neither the minimum nor, when that is less, the initial size, and connections never exceed the maximum plus the concurrent shrinkers |
| EslPool.StepConserves | internal/infrastructure/esl/client.go:102-248 | No atomic step creates or loses a connection unaccounted for |
| EslPool.StepKeepsIdsDistinct | internal/infrastructure/esl/client.go:113-114 | No step gives two live connections the same id |
| EslPool.StepKeepsBounds | internal/infrastructure/esl/client.go:165-186 | No step breaks the size bounds |
| EslPool.OvershootIsReachable | internal/infrastructure/esl/client.go:165-186 | For every configuration whose maximum is above its minimum, and every number k of shrinkers, some run from a fresh client ends with k connections more than the maximum |
| EslPool.MaxPoolBoundsIff | internal/infrastructure/esl/client.go:102-186 | The maximum bounds the connections over every run of a fresh client exactly when nobody shrinks or the effective minimum is not below the maximum |
| EslPool.MinimumHoldsIff | internal/infrastructure/esl/client.go:63-192 | The size stays at or above the minimum over every run exactly when a client does not start below it, which the constructor does not check and a defaulted minimum guarantees |
| EslPool.Client.NewClient | internal/infrastructure/esl/client.go:63-100 | The constructor's defaults and its numbered, idle connections |
| EslPool.DefaultsApply | internal/infrastructure/esl/client.go:63-100 | Configured sizes hold where positive; otherwise five connections, a minimum of the size and a maximum of four times the size, never below the size |
| EslPool.ChannelIsFifo | internal/infrastructure/esl/client.go:102-248 | Every step takes the oldest idle connection or adds one behind the others; callers get the one taken and give back the one they had |
| EslPool.Client.Atomic | internal/infrastructure/esl/client.go:102-248 | Each atomic or channel operation does what its step says to all fields |
| EslPool.Client.Grow | internal/infrastructure/esl/client.go:102-121 | Among any steps of other goroutines, Grow's effect is a run of its own steps and theirs, and its count, at most n, is that of the connections the run pushes for it; alone it adds as many as fit, with fresh consecutive ids at the tail, and never blocks |
| EslPool.Client.Shrink | internal/infrastructure/esl/client.go:164-192 | Among any steps of other goroutines, Shrink's effect is a run of its own steps and theirs, and its count, at most n, is that of the connections the run pops for it; alone it removes the oldest idle ones down to the minimum |
| EslPool.Client.Acquire | internal/infrastructure/esl/client.go:199-238 | For a caller alone: refused exactly by the breaker, ended exactly by an ended context or an empty pool, a failed connect returns the connection to the tail and is recorded, and Grow(2) is started exactly when less than a fifth of the pool is left |
| CircuitBreaker.BreakerRefinesHistory | internal/infrastructure/esl/client.go:571-603 | With a monotone clock the breaker refuses exactly when the failures since the last success reach the threshold and the last one is no more than the timeout ago, and is closed exactly when they are below the threshold |
| CircuitBreaker.MachineFollowsHistory | internal/infrastructure/esl/client.go:571-603 | The three fields always summarise the history of calls |
| CircuitBreaker.FailureRunCounts | internal/infrastructure/esl/client.go:588-603 | The run of failures counts exactly the failures that no success follows |
| CircuitBreaker.LastFailureIsLast | internal/infrastructure/esl/client.go:588-596 | The last failure's time is that of the failure behind all others |
| CircuitBreaker.Breaker.Allow | internal/infrastructure/esl/client.go:572-586 | Refuses exactly when five failures have followed the last success and the last of them is at most 30 s ago, with a monotone clock, and keeps summarising the history |
| CircuitBreaker.Breaker.RecordFailure | internal/infrastructure/esl/client.go:588-596 | A failure is added to the history the fields summarise |
| CircuitBreaker.Breaker.RecordSuccess | internal/infrastructure/esl/client.go:598-603 | A success is added to the history the fields summarise |
| AcdQueue.HeadIsFairest | internal/application/acd/service.go:488-497 | While a group's calls were queued within 10^10 ms of each other, the sorted set's head has the highest priority and among those the earliest enqueue time |
| AcdQueue.AlwaysFairIff | internal/application/acd/service.go:488-497 | Whichever of a set of calls are queued, the head has the highest priority and among those the earliest time, exactly when each call of higher priority was queued in time to win |
| AcdQueue.PriorityWinsIff | internal/application/acd/service.go:488-497 | A higher priority sorts first exactly while it was queued less than 10^10 ms per priority point later |
| AcdQueue.OldCallBeatsPriority | internal/application/acd/service.go:488-497 | Past that window an old call without priority is served before one with priority, against the comment that higher priority always sorts first |
| AcdQueue.ZRangeHead | internal/application/acd/service.go:257-260 | Every group with entries has a head: least score, ties by member string |
| AcdQueue.OneHead | internal/application/acd/service.go:257-260 | A group has one head |
| AcdQueue.ParseUndoesMember | internal/application/acd/service.go:499-531 | parseMember returns what memberFor was given, for every 64-bit call id and time |
| AcdQueue.ParseLegacyMember | internal/application/acd/service.go:514-520 | A member without ':' parses as a call of unknown age |
| AcdQueue.ParseMemberIff | internal/application/acd/service.go:507-531 | A member is read exactly when what stands before its first ':' is a 64-bit number and what follows, if it has a ':', is another |
| AcdQueue.LexBeforeIff | internal/application/acd/service.go:257-260 | Equal scores are ordered by the members' first difference, a beginning before the whole |
| AcdQueue.TooOldIff | internal/application/acd/service.go:226-240 | A queued call counts as overdue exactly when it waited the group's maximum, and its member is never malformed |
| AcdQueue.AcdService.Enqueue | internal/application/acd/service.go:133-165 | Off every ring of full groups, the call is queued, with its score, in the first group along the chain that is not full, and refused only when the chain ends with every group full |
| AcdQueue.FullRingNeverEnds | internal/application/acd/service.go:144-147 | On a ring of full groups every overflow walk, however long, is at a full group that overflows again: there is no cycle guard |
| AcdQueue.OverflowEndsIff | internal/application/acd/service.go:144-147 | Overflow from a group ends, at a group with room or at the end of the chain, exactly when the group is on no ring of full groups |
| AcdDispatchCalls.EveryCallIsInOnePlace | internal/application/acd/service.go:218-297 | Over every interleaving of enqueuers, dispatchers and expirers, from any stored queues: each member queued once is in exactly one of the queue, one worker's hands, dispatched, expired, dropped or lost, and whenever it is in the queue, also after a failed ring, it has its original score |
| AcdDispatchCalls.StepKeepsPlaced | internal/application/acd/service.go:218-297 | Each Redis command moves at most one entry from one place to one other |
| AcdDispatchCalls.StepKeepsScores | internal/application/acd/service.go:283-290 | A call that is put back goes back with the score it was queued with |
| AcdDispatchCalls.CallsLeaveForCause | internal/application/acd/service.go:218-297 | Only members that do not parse are dropped and none of them is dispatched, a call expires only when its group has a limit and its member's time lies at least that many seconds back, and none is lost while requeuing succeeds and no worker dies |
| AcdDispatchClaims.NoAgentIsClaimedTwice | internal/application/acd/service.go:273-286 | While every claim holder is done inside the claim's 30 s, no two workers hold the same agent, and an agent whose call rang is not claimed again within that claim's 30 s |
| AcdDispatchClaims.SharedIffLate | internal/application/acd/service.go:477-484 | The time to live is the exact limit for one agent: a worker waiting for a held agent gets it too exactly when the holder is not done in time |
| AcdDispatchClaims.AlwaysExclusiveIff | internal/application/acd/service.go:253-286 | Without that condition on the holders, no agent is held by two workers over any run of any stored queues exactly when at most one worker is inside an operation at a time |
| AcdDispatchClaims.StepKeepsClaims | internal/application/acd/service.go:477-484 | Each Redis command keeps claims exclusive and standing |
| AcdDispatchRoom.QueuesStayBounded | internal/application/acd/service.go:140-165 | With check and add as separate steps, a bounded group that starts within its limit never exceeds it by more than the workers less one: with one enqueuer at a time and k dispatchers, the limit plus k |
| AcdDispatchRoom.OnlyCheckAddsLoad | internal/application/acd/service.go:218-297 | No step but finding room raises the number of calls in a group's queue or on their way into it |
| AcdDispatchLimit.LimitIsExceeded | internal/application/acd/service.go:283-291 | The bound is met for every limit and every number k of workers besides one (up to 2^63 - 1): k failed dispatches can leave k calls more than the limit, even when every enqueuer checks and adds without a break |
| AcdDispatchLimit.LimitHoldsIff | internal/application/acd/service.go:140-165 | A group's limit holds over every run from empty queues, and over every run whose checks and adds are unbroken, exactly when at most one worker is inside an operation at a time |
| AcdDispatcher.Dispatcher.Atomic | internal/application/acd/service.go:133-297 | Each Redis command does what its step says to all fields |
| AcdDispatcher.Dispatcher.DispatchOne | internal/application/acd/service.go:253-297 | Among any steps of other workers and with any of its commands failing: its effect is a run of its own steps and theirs, the result tells exactly which steps it took and in which order (no claim; claim, failed or late ZREM, release; ring; failed ring, release, write back), on the call that was the head when it began, and where that call is; alone it also fixes the whole state, the claim that a failed release leaves included |
| AcdDispatcher.Dispatcher.ExpireQueued | internal/application/acd/service.go:218-251 | Among any steps of other workers its effect is a run of its own steps and theirs, which takes a readable member of the group it read, whose ZREM does not fail, exactly when it was enqueued MaxWaitSec seconds ago or earlier, and drops the malformed ones; alone exactly the former leave the queue and expire, the latter are dropped, and all others keep their scores |
| AcdFairness.PickedCallIsFairest | internal/application/acd/service.go:253-297 | Over every interleaving, a dispatcher that picks a call picks one of the highest priority in its group and, among those, the one queued first, by the priorities and times the calls were queued with, provided the waiting calls were queued in time (the condition of AlwaysFairIff) |
| AcdFairness.RunKeepsTickets | internal/application/acd/service.go:133-165 | Over every run each queued call's score is that of the priority and time it was queued with |
| AcdFairness.WindowIsInTime | internal/application/acd/service.go:488-497 | Calls queued within 10^10 ms of each other were queued in time |
| CampaignLedger.RunKeepsLedgers | internal/domain/campaign/service.go:35-353 | Over every run from empty tables that records outcomes on unfinished cases only: total is the number of the campaign's cases, completed of those completed, failed or skipped, success of the completed ones with a duration, failed of the failed and skipped ones; a running campaign has a pending or dialing case; Completed and Aborted are final |
| CampaignLedger.StepKeepsLedgersIff | internal/domain/campaign/service.go:96-353 | A step keeps every campaign's counters true exactly when it is not an outcome, or a redial, of an already finished case (completing a completed case again is harmless) |
| CampaignLedger.CaseStepKeepsLedgersIff | internal/domain/campaign/service.go:233-353 | The same for the steps on one case, in both directions |
| CampaignLedger.ImportKeepsLedgers | internal/domain/campaign/service.go:159-215 | Importing cases keeps the counters true, whatever the campaign's status |
| CampaignLedger.TerminalStays | internal/domain/campaign/service.go:96-157 | No step leaves Completed or Aborted |
| CampaignLedger.CompletesWithLastCase | internal/domain/campaign/service.go:307-312 | A running campaign completes by a step exactly when that step leaves none of its cases unfinished |
| CampaignLedger.RetriesRunOut | internal/domain/campaign/service.go:267-305 | Without further imports, n fresh cases absorb at most n * max(1, MaxRetries) outcomes, and when they absorbed that many all are finished |
| CampaignLedger.FailedCaseIsRetried | internal/domain/campaign/service.go:267-305 | A recorded failure adds an attempt; the case is failed exactly when its attempts have reached what its campaign tolerates (3 without a campaign) and pending otherwise, and only the last failure is counted in the campaign |
| CampaignLedger.RetriesAreMade | internal/domain/campaign/service.go:267-305 | Over every run a fresh case on which only failures are recorded is pending after k of them exactly while k is below max(1, MaxRetries), and failed from then on |
| CampaignLedger.CaseMovesIff | internal/domain/campaign/service.go:217-353 | What one step can make of a stored case: the outcomes, the skip and the redial on it, and nothing else |
| CampaignLedger.StatusMovesIff | internal/domain/campaign/service.go:96-157 | How one step can change a campaign's status, with the exact condition for starting, pausing, aborting and completing |
| CampaignLedger.RefusedIff | internal/domain/campaign/service.go:96-353 | Each error is returned exactly for its reason, and then nothing changes |
| CampaignLedger.ImportAdds | internal/domain/campaign/service.go:159-215 | An import adds for each number a pending case without attempts under its own id, and nothing else |
| CampaignLedger.DialableIff | internal/domain/campaign/service.go:170-190 | Every number that is neither empty nor blocked becomes as many cases as it has rows |
| CampaignLedger.StepSpendsBudget | internal/domain/campaign/service.go:233-353 | Each recorded outcome takes at least one from the sum over unfinished cases of max(1, MaxRetries - attempts), and no step gives any back |
| CampaignLedger.CampaignService.CreateCampaign | internal/domain/campaign/service.go:35-77 | Creates a draft with empty counters, or refuses an unknown dialing mode |
| CampaignLedger.CampaignService.StartCampaign | internal/domain/campaign/service.go:96-121 | Starts, or names the error, exactly as the step says, on both tables |
| CampaignLedger.CampaignService.PauseCampaign | internal/domain/campaign/service.go:123-138 | Pauses a running campaign only |
| CampaignLedger.CampaignService.AbortCampaign | internal/domain/campaign/service.go:140-157 | Aborts a running or paused campaign only |
| CampaignLedger.CampaignService.ImportCases | internal/domain/campaign/service.go:159-215 | Creates one pending case for each number that is neither empty nor blocked and raises the total by as many |
| CampaignLedger.CampaignService.MarkCaseCompleted | internal/domain/campaign/service.go:233-265 | Completes the case; counts it unless it was completed before |
| CampaignLedger.CampaignService.MarkCaseFailed | internal/domain/campaign/service.go:267-305 | Spends an attempt; fails and counts the case when none is left, and sets it pending otherwise |
| CampaignLedger.CampaignService.SkipCase | internal/domain/campaign/service.go:328-353 | Skips the case and counts it as completed and failed, under the campaign the case belongs to |
| CampaignLedger.CampaignService.DialCase | internal/domain/campaign/service.go:314-326 | Marks the case as dialing |
| Dialer.SessionAccounts | internal/application/dialer/service.go:192-339 | In every interleaving of the dial loop with finishing calls: active calls are the dial tasks in flight, every dialed call is active or finished, abandoned calls are among the finished, progressive dialing has at most one active call, power and predictive dialing respect a positive limit |
| Dialer.CountersFollowRun | internal/application/dialer/service.go:244-390 | Over every interleaving dialed counts the calls placed, abandoned the results recorded without a connection, active the calls whose result is still out |
| Dialer.PlannedSlots | internal/application/dialer/service.go:219-243 | Below its limit a predictive batch goes up to the ratio or the limit; at twice the tolerated abandon rate it plans nothing, between once and twice at least one call and otherwise no more than were due |
| Dialer.ThrottledExactly | internal/application/dialer/service.go:231-240 | Between once and twice the tolerated rate the plan is the due calls divided by the overshoot, in whole calls, but at least one |
| Dialer.OtherModesPlan | internal/application/dialer/service.go:259-294 | Power dialing goes exactly up to the ratio, or the limit if that is less, progressive dialing has one call when none is active, preview dials nothing by itself |
| Dialer.SlotsFitLimit | internal/application/dialer/service.go:219-308 | A batch's slots fit a positive limit, even when throttling raises them to one |
| Dialer.ThrottlingWithoutLimitIsUnbounded | internal/application/dialer/service.go:231-240 | Without a positive limit throttling alone leads every campaign that dials at all, and tolerates more than none and less than all of its calls to be abandoned, past any number of active calls |
| Dialer.LimitBoundsIff | internal/application/dialer/service.go:219-243 | Predictive dialing keeps a campaign's active calls below some bound exactly when the limit is positive, the tolerated abandon rate is not strictly between 0 and 100 percent, or the ratio is below one; the bound is the limit, the truncated ratio, or zero |
| Dialer.StatsAddUp | internal/application/dialer/service.go:124-154 | Within a session the clamp at zero never applies, and the abandon and connect rates are percentages that sum to 100 |
| Dialer.DialerState.DialBatch | internal/application/dialer/service.go:192-308 | With any results recorded between its locked sections, a batch is exactly the run of its plan, those results, and a placed call for each planned slot up to the first missing case |
| Dialer.DialerState.PlanPredictive | internal/application/dialer/service.go:219-243 | The predictive plan: ratio, limit, throttling by the abandon rate, at least one when throttled to nothing |
| Dialer.DialerState.PlanPower | internal/application/dialer/service.go:280-294 | The power plan: ratio and limit |
| Dialer.DialerState.RecordCallResult | internal/application/dialer/service.go:374-387 | A finishing task leaves the active calls and adds an abandoned call unless it connected |
| Cdr.RunIsExact | internal/application/postcall/cdr_repo.go:47-87 | Under every schedule of deliveries, redeliveries, rollbacks and reconciler passes with one entry per call, each daily summary is the sum over the processed calls of its bucket, and only buckets with a call have a row |
| Cdr.SameCallsSameTables | internal/application/postcall/cdr_repo.go:47-87 | Schedules that cover the same calls leave the same tables, and exactly those calls are processed |
| Cdr.RunProcessesCovered | internal/application/postcall/cdr_repo.go:47-87 | A call is processed exactly when some delivery of it meets no fault |
| Cdr.DeliveriesCommuteIff | internal/application/postcall/cdr_repo.go:47-87 | The order of two deliveries does not show exactly when one meets a fault, they are of different calls, the call is processed already or has no id, or both add the same counters to the same bucket (or nothing to rows that exist) |
| Cdr.BucketsBalance | internal/application/postcall/worker.go:61-84 | In every summary the produced entries lead to, inbound + outbound = answered + abandoned = calls processed |
| Cdr.ProducersAgreeIff | internal/application/postcall/reconcile.go:52-105 | Whichever of worker and reconciler delivers a call, schedules that cover the same calls leave the same tables, exactly when every ended call with a positive id started on the same day in its message's time zone and in the database |
| Cdr.ProducedSummaries | internal/application/postcall/reconcile.go:52-105 | With equal days, whatever the two producers deliver in any order and with any faults: every row tells of the tenant's processed calls of that day how many had direction inbound or another, how many were answered or not, and the sums of their talk, ring and queue seconds; a row exists exactly where there is such a call |
| Cdr.CDRStore.UpsertDailyCDR | internal/application/postcall/cdr_repo.go:47-87 | The transaction adds the entry once or leaves both tables as they were, and reports success exactly when it committed or found a duplicate |
| Cdr.CDRStore.HandleCallEnded | internal/application/postcall/worker.go:50-99 | A message that cannot be decoded or has no id is done with; any other is upserted and done with exactly when the upsert succeeds |
| Cdr.CDRStore.ReconcileYesterday | internal/application/postcall/reconcile.go:52-113 | Selects the ended, unprocessed calls of the day; among other producers' deliveries its effect is the schedule of its rows' upserts, the count returned is that of the upserts that succeed, and every selected call that scans and meets no fault ends up processed |
| Cdr.PassIsProduced | internal/application/postcall/reconcile.go:52-113 | With no one else delivering, a pass is a schedule of the reconciler's productions for that day, one of each row that scans |
| Cdr.RepairsCount | internal/application/postcall/reconcile.go:66-113 | The number of repairs is that of the rows that scan and whose upsert succeeds |
| Cdr.MissingIff | internal/application/postcall/reconcile.go:59-65 | The query selects exactly the ended calls of the day that are not processed |
| ErlangC.ComputeStaffing | internal/domain/report/service.go:178-206 | A recommendation is the least staffing from the minimum on that meets the target; with a target answer time that is not negative every larger staffing meets it too; without one no staffing in the searched range meets it |
| ErlangC.ErlangCProb | internal/domain/report/service.go:208-227 | The loop computes the closed Erlang C formula |
| ErlangC.QueuedIsErlangC | internal/domain/report/service.go:208-227 | The closed formula: the last weight a^n / n!, stretched by n / (n - a), as a share of the sum of all weights |
| ErlangC.LevelOfInput | internal/domain/report/service.go:178-196 | The service level in terms of calls per hour, handle time and target answer time |
| ErlangC.ReportIsRounded | internal/domain/report/service.go:197-202 | The reported level is within half of a hundredth of a percent |
| ErlangC.QueuedIsMonotoneProbability | internal/domain/report/service.go:208-227 | The queuing probability lies in [0, 1] and does not rise with one more agent |
| ErlangC.QueuedNeverRises | internal/domain/report/service.go:208-227 | Nor with any number of further agents |
| ErlangC.WeightStep | internal/domain/report/service.go:215-221 | Each term of the formula is the previous one times a/k, as the loop computes it |
| ErlangC.ServiceLevelNeverFalls | internal/domain/report/service.go:190-201 | The service level does not fall with more agents, for any positive, monotone exp |
| ErlangC.EnoughStaysEnough | internal/domain/report/service.go:190-201 | A staffing that meets the target is met by every larger one |
| ErlangC.NeverRevokedIff | internal/domain/report/service.go:190-201 | For a given handle time and target answer time: adding agents from the minimum on never revokes a met target, for any traffic and any service level, exactly when the target answer time is not negative |
| ErlangC.HeavyStillQueues | internal/domain/report/service.go:208-227 | For any u > 0 there is traffic so heavy that one spare agent still leaves a queuing probability of at least 1/(1+u) |
| CallRecord.DurationsAreSpans | internal/application/lifecycle/service.go:211-265 | For every run, with any events lost: stored duration, waiting, queue and, unless bridged, ring time are the whole seconds between the milestones, and zero where the log lacks one |
| CallRecord.DurationsPartitionIff | internal/application/lifecycle/service.go:211-265 | None of them is negative, queue time fits in the waiting time and that in the call, and IVR + queue + ring fit in the waiting time exactly when the call was not bridged by TransitionToActive or its log shows no whole second between entering the queue and ringing |
| CallRecord.LogIsOrdered | internal/domain/call/service.go:272-375 | For every run the log has queue_entered, agent_ringing and call_answered at most once each, in that order and in time order, and the end time is set exactly when the call is completed |
| CallRecord.CompletedIsFinal | internal/domain/call/service.go:127-165 | No request changes a completed call |
| CallRecord.AnsweredIffConnected | internal/domain/call/service.go:272-375 | For every run, until it ends a call has an answer time exactly when it is past the IVR, the queue and ringing |
| CallRecord.StatusFollowsLog | internal/domain/call/service.go:272-697 | Over every run whose events are all stored, the status is the one the last status event stands for: active after an answer, a bridge, a retrieval or the end of a consultation, held after a hold alone, and so on |
| CallRecord.CountersFollowLog | internal/domain/call/service.go:407-643 | For every run, hold and transfer counts equal what the log tells, and are never less when events are lost |
| CallRecord.DetoursReturn | internal/domain/call/service.go:407-669 | Hold then retrieve, and consult then cancel, leave the call as it was, but for the hold's count |
| CallRecord.FoldMeasuresSpans | internal/domain/call/service.go:885-911 | On an ordered log the fold measures the spans between milestones, and a span with a missing end keeps the value the call had |
| CallRecord.CalculateDurations | internal/domain/call/service.go:885-911 | The loop over the events computes the fold |
| CallRecord.BridgedCallCountsQueueTwice | internal/domain/call/service.go:321-348 | A bridged call of twelve seconds gets ten of queue and ten of ringing |
| CallRecord.RunKeepsInv | internal/domain/call/service.go:127-697 | Status, timestamps and log fit together after every request |
| CallRecord.StoredCall.ToQueue | internal/domain/call/service.go:272-294 | Accepted exactly from IVR; the call and its log change as the step says |
| CallRecord.StoredCall.ToRinging | internal/domain/call/service.go:297-319 | Accepted exactly from Queue or IVR |
| CallRecord.StoredCall.ToActive | internal/domain/call/service.go:321-348 | Accepted exactly from Ringing or Queue; ring time is computed from the start of the call less the queue time known then |
| CallRecord.StoredCall.Answer | internal/domain/call/service.go:351-375 | Accepted exactly before an answer |
| CallRecord.StoredCall.Hold | internal/domain/call/service.go:407-430 | Accepted exactly from Active when the media command succeeds |
| CallRecord.StoredCall.Retrieve | internal/domain/call/service.go:433-455 | Accepted exactly from Held when the media command succeeds |
| CallRecord.StoredCall.Transfer | internal/domain/call/service.go:458-590 | Counts a transfer and keeps the status; rejected without a target, in the wrong status or when the media command fails |
| CallRecord.StoredCall.Consult | internal/domain/call/service.go:593-621 | Accepted exactly from Active with a target and a working media command |
| CallRecord.StoredCall.CompleteConsult | internal/domain/call/service.go:624-643 | Accepted exactly while consulting |
| CallRecord.StoredCall.AbandonConsult | internal/domain/call/service.go:646-669 | Accepted exactly while consulting |
| CallRecord.StoredCall.Confer | internal/domain/call/service.go:672-697 | Accepted exactly from Active or Consulting when the media command succeeds |
| CallRecord.StoredCall.End | internal/domain/call/service.go:127-165 | Accepted exactly once; sets the end and the elapsed seconds |
| CallRecord.StoredCall.Finish | internal/application/lifecycle/service.go:211-265 | Ends the call, then folds the events stored by then into it; a completed call is left alone |
| Clock.SecsTruncate | internal/domain/call/service.go:140-165 | Durations are cut to whole seconds, toward zero |
| Presence.StepFollowsTable | internal/domain/identity/service.go:416-515 | Every operation but check-in, ghost resets included, logs exactly when it moves the status along the transition table or checks out an offline agent, and otherwise leaves the status alone |
| Presence.TableIs | internal/domain/identity/service.go:416-434 | The table read backwards: from where each status can be reached |
| Presence.GhostResetIff | internal/domain/identity/service.go:613-657 | A reset idles who talks or dials beyond the limit, takes offline who is online, idle or in after-call work and silent for more than three times the limit, and leaves all others alone |
| Presence.TransitionClears | internal/domain/identity/service.go:485-515 | What a transition leaves in the row: a sub-state only while talking, no call, disposition or break reason when idle or offline |
| Presence.LogIsThePath | internal/domain/identity/service.go:416-515 | Over every run the log of a shift holds the statuses the agent had, in order, from online to the one before the present, each following by the table (or a repeated check-out) |
| Presence.TimeIsAccountedFor | internal/domain/identity/service.go:667-680 | Over every run: Idle, Dialing, Talking and ACW carry no break reason, and logged spans since check-in plus the current span make up the elapsed time, short by less than one second per entry |
| Presence.SpansTelescope | internal/domain/identity/service.go:667-680 | The spans of a shift's log telescope from check-in |
| Presence.StepKeepsReason | internal/domain/identity/service.go:485-557 | No operation gives a status a break reason it may not carry |
| Presence.CheckOutKeepsBreakReason | internal/domain/identity/service.go:464-483 | Checking out during a break keeps the reason while offline and online again, until the agent is idle |
| Presence.OnlyCheckOutKeepsReasons | internal/domain/identity/service.go:436-557 | Over every run an agent who is not on a break carries a break reason only when the last break ended with a check-out |
| Presence.RunKeepsInv | internal/domain/identity/service.go:436-680 | Row and log stay consistent over every run |
| Presence.AgentPresenceService.CheckInAgent | internal/domain/identity/service.go:436-462 | Check-in always succeeds and starts a new shift for that agent only |
| Presence.AgentPresenceService.CheckOutAgent | internal/domain/identity/service.go:464-483 | Check-out from any status, for that agent only |
| Presence.AgentPresenceService.ChangeStatus | internal/domain/identity/service.go:485-515 | Succeeds exactly along the table, changes that agent only and cancels its timer; no stop channel is closed twice |
| Presence.AgentPresenceService.StartBreak | internal/domain/identity/service.go:546-557 | A break along the table, with its reason |
| Presence.AgentPresenceService.StartACW | internal/domain/identity/service.go:559-579 | After-call work along the table with its disposition and seconds; the old timer is stopped and one runs afterwards exactly when the agent has a positive number of seconds |
| Presence.AgentPresenceService.ScheduleACWTimeout | internal/domain/identity/service.go:590-611 | The agent's old stop channel is closed once and a new one stored |
| Presence.AgentPresenceService.CancelACWTimer | internal/domain/identity/service.go:581-588 | The agent's stop channel, if it has one, is closed once and forgotten |
| Presence.AgentPresenceService.TimerEnds | internal/domain/identity/service.go:598-610 | A timer that fires makes the agent idle if the table allows it, and forgets whatever timer the agent has by then |
| Presence.AgentPresenceService.ResetGhostAgents | internal/domain/identity/service.go:613-657 | Exactly the stale rows of the listed agents get the status and log entry of a reset, and the count returned is theirs |

## Left out

- Transport and storage: HTTP, WebSockets, FreeSWITCH sockets, MySQL, Redis and NATS appear only as maps, sorted
  sets and parameters that say whether an operation fails.
- IvrEngine.Execute, IvrEngine.RunFrom, IvrEngine.DoTurn, IvrEngine.HandleSubFlow: have no contract for a run
  that never ends; IvrNesting says which those are. Exhausting the stack is not modelled.
- JSON decoding: the validator and the sub-flow handler take the decoder's result.
- Floating point: scores are integers, rates and Erlang C are reals; rounding is not modelled.
- ErlangC.ErlangCProb: tests n <= a before the quotient that the program computes first, because real division
  needs a divisor that is not zero; the program's infinity is discarded by the same test.
- Integer widths: counters, connection ids and pool sizes are unbounded integers.
- EslPool.Client.Acquire: one caller before Close, without other goroutines inside it; in RunKeepsInv its take
  and the release are single steps that interleave freely. The Grow(2) it starts is a goroutine of its own.
  Close and the health check are not modelled.
- AutoScale: its utilisation heuristic; it acts only through Grow(1) and Shrink(1), which are covered.
- AcdQueue.AcdService.Enqueue: one process alone, with a readable queue length; its interleaved form is the pair
  of steps Check and Add.
- AcdDispatcher.Dispatcher.DispatchOne: a command either fails and does nothing or succeeds; one that is carried
  out and whose reply is lost is not modelled. A failed read of the queue is a dispatch that does not happen.
- pickAgent and the routing policies: any agent may be picked.
- AcdDispatchCalls.EveryCallIsInOnePlace: assumes that no member is queued twice, that is, the same call in the
  same group and millisecond.
- The set of active skill groups is a field of AcdQueue.AcdService only; the poll loop around it is left out.
- CampaignLedger: a repository write that fails between the case's table and the campaign's, scheduling fields,
  dispositions, and the reservation of cases, which GetNextCase does not make.
- Dialer: one session with one concurrency limit; PreviewAccept, restarts that meet tasks of an earlier session,
  the schedule check and the frequency limit.
- CallRecord: supervisor monitoring, coaching and DTMF, which change no status; copies of a call stored late over
  a newer one.
- CallRecord.StoredCall.Finish: recordings, presence, notifications and the other effects of ending a call.
- Cdr: time zones; a call carries the day its message shows and the day the database gives it. A call record
  that changes after its message was sent.
- Presence: presence-change hooks, shift records and sub-states' meaning; a cancelled timer's goroutine that
  removes a newer timer is modelled (TimerEnds) but nothing is claimed about which timer survives.
- The per-tenant concurrency guard: its implementation is not part of this model.
- Language, speech and message providers, CRM, tickets, training, dashboards and exports: calls outside or
  small folds.
