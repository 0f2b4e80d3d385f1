# Verified model of the devlore-cli execution framework

This project models the parts of devlore-cli in which a mistake would be hardest to see from reading one function, and
proves what they are for: the broker's console streams, the graph executor with its recovery stack, the stable
topological sort, the integer conversion guard, the gitignore stack, the evaluator of deferred defaults, argument
binding, retry backoff, ledger restoration and the control plane.

A statement quantified over every world, run, tree, input or interleaving is proved for all of them; where the code does
not keep a promise its documentation makes, the exact condition under which it does is proved together with a concrete
input on which it fails.

## How the model is laid out

| file | what it holds |
|---|---|
| Subscription.dfy | one subscription as a transition system: unbounded queue, drain, one-slot wakeup, `done`, stop |
| BrokerStream.dfy | the same code as objects updated in place; each locked section is tied to its transition |
| BrokerSystem.dfy | one run's console, its children, its subscribers and any number of concurrent calls of `Run` |
| BrokerRun.dfy | the collector loop of `Run` |
| Options.dfy, Modular.dfy | an option type; remainders and 64-bit wrap-around |
| RunStatus.dfy, Failure.dfy | conditions, reactions, policies; Go error chains as the executor inspects them |
| Recovery.dfy | the recovery stack, its look-ups, superseding and unwinding |
| Executor.dfy | dispatch, retry, handlers, nodes, scopes and walks as a big-step semantics over an arbitrary outside world |
| ExecutorStatus, ExecutorHalts, ExecutorReasons, ExecutorDepth, ExecutorRetry, ExecutorStack (.dfy) | what every dispatch keeps |
| ExecutorAttempts.dfy | one attempt at a unit: what stops it at its door, when it replays, when an action runs, which children a scope dispatches |
| ExecutorReactions.dfy | which policy decides, what the pending reaction is, which reason a policy stop carries, what a scope tells its parent |
| ExecutorHandlers.dfy | what comes between a handler's question and its answer, and which compensators are called there |
| ExecutorVerdicts.dfy | which reason a failed dispatch carries, and with what a dispatch succeeds |
| ExecutorCalm.dfy | what a run is for when nothing goes wrong, and exact replay |
| ExecutorStops.dfy | where it does not: stops that are answered, scopes entered again, boundaries that crash, pauses that are lost |
| ExecutorPlans.dfy | the analysis: from a tree, its policies, how its drivers can conduct themselves and what is on the stack, which marks a run can reach and where an assertion can fail |
| ExecutorTame.dfy | plans for which the analysis finds nothing, among them every plan of the repository's own drivers under policies that do not continue past a failed execution |
| ExecutorCrash.dfy | the analysis covers every run |
| ExecutorLocality.dfy, ExecutorWitness.dfy | worlds cut and put together at a tick; a world for everything the analysis foresees, and so the exact conditions |
| ExecutorOnce.dfy | when nothing that succeeded is done again, from what is known before a run; and an input on which it is |
| ExecutorSuccess.dfy | with what a dispatch can succeed, read off the tree |
| ExecutorTreeStops.dfy | exactly which trees honour every operator stop |
| ExecutorRun.dfy | whole runs, failure and stop unwinds, and the resumed unwind |
| GraphExecutor.dfy | the executor, its stack and the shared history as objects, each method proved equal to the semantics |
| Kahn.dfy, IntegerGuard.dfy, Gitignore.dfy, Pipeline.dfy, ArgumentBinding.dfy, Backoff.dfy, LedgerRestore.dfy, ControlPlane.dfy | one module for each of the remaining parts |

Everything outside the executor (what an action returns and which conditions it submits, a drained command, a cancelled
context, whether claims hold, whether a compensation works) is answered by a `World`, indexed by a tick that every
question advances.  A run's `log` is history: nothing in the model reads it.  It tells
attempts, actions, halts, stamped reasons, what handlers were asked and what they answered, and every call of a
compensator, so what an operation does can be stated without naming the function that does it.  Handlers run one depth deeper than the
dispatch that asked them, so "outside any handler" is a statement about depth.  After every failed attempt the context is
asked at a tick of its own, and the wait before the next attempt (`cut`) and the handler's entry at later ones, so a
context may be cancelled in between (`WaitIsCut`).  Statements over all worlds let every answer differ from tick to tick;
where a condition is called exact, its counterexamples are worlds in which a context stays cancelled once it is.

## Where the code and its documentation differ

- `pkg/op/graph_executor.go:423-426` says that no condition flip escapes the journal.  The flips made when a run fails or
  its unwind is dirty are assigned directly (`:627-630`, `:665-684`) and do escape: `JournalTellsExactly`,
  `OrdinaryFailureIsNotJournaled`, and the run of `FailedRunTellsNothing`.
- `ErrStopped` is described as ending the run, but unlike `ErrPaused` it is not exempt from retry and OnError
  (`pkg/op/graph_executor.go:747-767`): `DoorStopHonouredExactly`, `NodeStopsExactly`, `TreeStopsExactly`,
  `StoppedRunCompletes`.
- A policy that continues past `execution_failed` is valid, yet a later scope that merely degrades makes the boundary
  assertion at `pkg/op/subgraph.go:266-270` fail: `ContinuedRunCrashes`.  A run of a plan can meet a failed assertion if
  and only if the predicate `CanCrash` holds of its tree, its policies, the conducts of its drivers and its stack:
  `CrashFreeExactly`.  With the repository's own drivers, `flow.degraded` and `flow.failed`, and policies that do not
  continue past a failed execution, as the builtin ones do not, it never holds: `ShippedPlansNeverFall`.
- `pkg/op/graph_executor.go:609-617` parks the run on a pause raised anywhere in the dispatch chain, even in a nested
  executor.  When the boundary assertion fails behind a pause inside a handler, `:894-897` recovers it and the pause
  becomes an ordinary handler failure.  A valid policy that continues past `execution_failed` and those two drivers
  suffice: `PauseSwallowed`; without such a policy they do not (`ShippedPlansNeverFall`).  Pauses always come out if
  and only if `CanLosePause` does not hold of the plan: `HaltReachesTheRoot`.
- The comment of `failAndUnwind` (`pkg/op/graph_executor.go:655-658`) promises that a stop driven by `degraded` lands
  stopped at `degraded`.  It does (`PolicyStopLands`, `DegradedStopLands`), unless the executor drained an operator stop
  after that flip and another attempt answered it: then the policy stop carries the operator's reason, which stands for
  `execution_failed`: `PolicyStopCarries`, `AnsweredStopMisleads`.
- The comment at `pkg/op/convert.go:328` says that an unsigned value above the signed range is refused.  The check
  compares with the largest 64-bit integer whatever the target, so narrower wraps pass: `GuardExactly`, `TwoHundredSlips`.
- `pkg/op/subgraph.go:893-905` promises to reject cyclic edges; a single child that depends on itself is accepted:
  `CyclesAcceptedExactly`, `LoopOnOneChildAccepted`.
- `pkg/op/retry_policy.go:50-88` documents a capped exponential; the doubling wraps, with a cap or without: `CapExactly`,
  `LateAttemptsNeverWait`, `ThirtySecondsWraps`.
- `pkg/op/control_plane.go:41-43` offers a sequence gap as the sign of a dropped event.  That is so if and only if events
  are fanned out in the order they were stamped, as one emitter does; with two, the numbers can go down:
  `GapsCountExactly`, `OneEmitterInOrder`, `TwoEmittersInvert`.
- `pkg/op/broker.go:28` and `pkg/op/broker_stub.go:37` speak of frames that a slow subscriber misses.  The streams queue
  without bound and miss nothing: `DeliveryIsExact`, `StampsAreContiguous`.
- `pkg/op/provider/flow/provider.go:578` and `:606` say that a rejected submission is discarded; it is asserted, so the
  dispatch panics: `CrashExactly`.
- `pkg/op/subgraph.go:395-403` says that a fresh run has no prior stack to adopt.  A retried scope finds the stack of its
  own failed attempt and adopts it, which is what makes `NothingSucceedsTwice` hold where claims hold and actions
  resolve; a scope whose claims fail in one attempt forgets what the attempts before did, and repeats it:
  `FickleClaimsRepeat`.
- A failed scope that is entered again loses the compensators it had if and only if its action does not resolve, its
  claims do not hold, or its walk or its boundary crashes: `ReentryExactly`.
- A ledger row carrying the largest 64-bit id wraps the counter, and a later mint can repeat an id: `LargestIdCollides`;
  exactly when, `FreshExactly`.

## Model

| member | source | states |
|---|---|---|
| Subscription.DeliveryIsExact | pkg/op/broker_stream.go:69-199 | in every reachable state received ++ discarded ++ value in hand ++ queue is exactly what was published; before a cancel nothing is discarded; the consumer always has a prefix |
| Subscription.CloseOnce | pkg/op/broker_stream.go:139-199 | `out`, `done` and `finished` are each closed at most once, no send or second close of `out` is possible afterwards, and when stop returned the queue is empty |
| Subscription.NothingAfterClose | pkg/op/broker_stream.go:139-199 | once the drain is leaving, no continuation changes what was received, published or dropped |
| Subscription.NoLostWakeup | pkg/op/broker_stream.go:139-185 | a drain parked over a non-empty queue has a token pending, an enqueuer about to signal, or a closed `done` |
| Subscription.OutstandingMoves | pkg/op/broker_stream.go:139-185 | while values are outstanding some block that moves them is enabled, and every such block lowers a measure |
| Subscription.QuietMeansDelivered | pkg/op/broker_stream.go:139-185 | a live subscription with nothing left to do has delivered everything published |
| Subscription.BacklogBoundsDelivery | pkg/op/broker_stream.go:139-185 | any run of moving blocks as long as the backlog has delivered everything |
| Subscription.StopDescends | pkg/op/broker_stream.go:139-199 | after `done` is closed the drain can always go on without the consumer, and each of its blocks lowers its rank |
| Subscription.StopIsBounded | pkg/op/broker_stream.go:192-199 | at most four drain blocks run after `done` is closed, whatever enqueuers and consumer do |
| Subscription.RunKeepsInv | pkg/op/broker_stream.go:109-199 | the protocol's invariant holds in every run |
| BrokerStream.NextSeq | pkg/op/broker_stream.go:41-45 | the stamp is the successor in 64 bits |
| BrokerStream.Sub.Enqueue | pkg/op/broker_stream.go:177-185 | the object's new state is the Append and Signal transitions of the protocol |
| BrokerStream.Sub.TakeLocked | pkg/op/broker_stream.go:139-160 | the drain's locked section is the Take transition |
| BrokerStream.Sub.Stop | pkg/op/broker_stream.go:192-199 | the object's new state is that of a completed stop |
| BrokerStream.Stream.Publish | pkg/op/broker_stream.go:52-58 | every current subscriber's queue gains exactly the value, whatever the iteration order; nothing else changes |
| BrokerStream.Stream.Subscribe | pkg/op/broker_stream.go:69-105 | a new empty subscription joins the set |
| BrokerStream.Stream.Cancel | pkg/op/broker_stream.go:69-105 | the subscription leaves the set and is stopped |
| BrokerSystem.RunCollectsEverything | pkg/op/broker_run.go:41-75 | whenever `Run` has returned a nil error, its output, narration, status and error are exactly those of its exec's child, whatever other execs interleave |
| BrokerSystem.ConsoleNeverClosesEarly | pkg/op/broker_run.go:41-75 | no call of `Run` ever sees its console closed under it |
| BrokerSystem.ControlComesLast | pkg/op/broker_stub.go:329-357 | when a call meets its control frame it has collected everything the child wrote |
| BrokerSystem.StampsAreContiguous | pkg/op/broker_stub.go:294-301 | every subscriber sees consecutive stamps from where it subscribed |
| BrokerSystem.RunNeverStuck | pkg/op/broker_run.go:41-75 | a call waiting for an exec that has ended always has an enabled block that brings its control frame closer, and each that is lowers one measure of the whole system |
| BrokerSystem.RunFinishes | pkg/op/broker_run.go:41-75 | so the call returns without an error after at most that many of these blocks, in any order |
| BrokerSystem.StepKeepsSysInv | pkg/op/broker_stub.go:119-301 | every block of broker, children, subscriptions and calls keeps the system's invariant |
| BrokerSystem.RunsKeepSysInv | pkg/op/broker_stub.go:119-301 | so it holds in every interleaving |
| BrokerRun.Run | pkg/op/broker_run.go:30-75 | for any frames and any ending: what is collected is what the exec's frames said, the narrator got exactly the narration, and the call ends without error at the first control frame of its exec and nowhere else |
| Failure.StandingFailure | pkg/op/graph_executor.go:1510-1518 | a cause that carries a reason keeps it, and stays a pause or stop; only a cause without one is stamped |
| Failure.HandlerError | pkg/op/graph_executor.go:814-834 | a failed handler is handler_failed and never hard, but stays a pause or stop |
| Failure.BubbleKeepsReason | pkg/op/graph_executor.go:1486-1518 | of the error constructors alone: any number of wrappings and standing failures around an error keep the reason given first (what dispatches do is `ReasonIsStampedOnce`) |
| Failure.AsExactly | pkg/op/graph_executor.go:1486-1500 | the reason read off an error is that of the first dispatch failure in its chain |
| Failure.IsExactly | pkg/op/graph_executor.go:1486-1518 | a sentinel is seen if and only if it is in the chain |
| Recovery.UnwindCallsEverything | pkg/op/recovery_stack.go:431-475 | an unwind calls every compensator of the tree exactly once, last pushed first, whatever fails, and is clean exactly when every call worked |
| Recovery.FailuresAreRetained | pkg/op/recovery_stack.go:431-475 | after a dirty unwind every receipt whose compensation failed is still on the stack, and nothing new is |
| Recovery.DirtyKeeps | pkg/op/recovery_stack.go:431-475 | a dirty unwind keeps every entry in its place; only nested scopes that were undone cleanly lose theirs |
| Recovery.SupersedeRemoves | pkg/op/recovery_stack.go:717-735 | superseding a scope removes exactly that scope's receipts |
| Recovery.AboutSupersede | pkg/op/recovery_stack.go:717-735 | superseding a unit drops its last entry and touches no other unit's |
| Recovery.FindsAbout | pkg/op/recovery_stack.go:224-245 | a unit's look-ups depend on that unit's entries only |
| Recovery.FindsLatest | pkg/op/recovery_stack.go:608-620 | the receipt found is the latest of the unit, and none is found only when there is none |
| Recovery.NestsLatest | pkg/op/recovery_stack.go:224-238 | the same for scopes |
| Recovery.SupersedesLatest | pkg/op/recovery_stack.go:717-735 | superseding takes out exactly the unit's latest entry, and moves nothing else |
| ExecutorStatus.TransitionKeeps | pkg/op/graph_executor.go:443-472 | a flip is rejected exactly when it is below the current condition; an accepted one keeps journal, condition and pending reaction in step |
| ExecutorReactions.FlipReacts | pkg/op/graph_executor.go:443-472 | a flip that worsens is entered with its reason, journaled with phase and unit, and answered by the unit's own policy if it has one, else by the root's, else by continue/stop/stop; the pending reaction is the harsher one |
| ExecutorReactions.DispatchReacts | pkg/op/graph_executor.go:989-1002 | after any dispatch the executor is to stop if and only if it already was or the policy in force for some journaled flip says so, and to pause likewise; said from the journal and the policies alone |
| ExecutorStatus.DispatchOnlyWorsens | pkg/op/graph_executor.go:443-472 | over any dispatch the condition never improves, the journal is exactly the strictly climbing worsenings (so at most three), and the pending reaction is the worst the policies gave to them |
| ExecutorStatus.ScopeOnlyWorsens | pkg/op/graph_executor.go:159-172 | the same for every child executor, from healthy and an empty journal |
| ExecutorStatus.StopIsSticky | pkg/op/graph_executor.go:969-978 | once the reaction is stop it stays, and every later success is a hard failure |
| ExecutorReactions.PolicyStopCarries | pkg/op/graph_executor.go:969-978 | a hard failure raised by a pending stop carries the reason of the executor's last journaled flip as long as the executor is running; after a drained command, if no flip came later, it carries the command's |
| ExecutorReactions.AnsweredStopMisleads | pkg/op/graph_executor.go:969-978 | a run in which an operator stop is answered by a retry and the policy stop on a degraded flip carries the operator's reason |
| ExecutorReactions.ScopeTells | pkg/op/subgraph.go:259-292 | a walked scope hands its parent the child executor's last flip, as one flip of its own, if and only if the walk succeeded or was parked; it crashes if and only if that would improve the parent; and it nests exactly the child's stack |
| ExecutorReactions.UnresolvedBypasses | pkg/op/graph_executor.go:1051-1056 | an action that does not resolve ends its unit in one attempt without any handler: a hard failure with framework_failed, an audit entry and a flip to execution_failed |
| ExecutorStatus.DirtyUnwindNeverContinues | pkg/op/policies_config.go:160-189 | if every policy validates, a flip to compensation_failed never leaves the executor at continue |
| ExecutorReactions.ValidExactly | pkg/op/policies_config.go:182-189 | a unit's policy validates if and only if a node under it that flips to compensation_failed cannot succeed |
| ExecutorStatus.CrashExactly | pkg/op/graph_executor.go:443-448 | a driver's flips crash exactly when one is below the starting condition or an earlier one of them |
| ExecutorHalts.DispatchedTells | pkg/op/graph_executor.go:716-770 | as long as no assertion failed behind a pause, the error a dispatch returns agrees with the history it leaves, at every depth |
| ExecutorHalts.UnlostHaltsComeOut | pkg/op/graph_executor.go:747-767 | then a pause raised anywhere, even in a handler, and a hard failure raised outside handlers come out as such with no work after them, and nothing else looks like one |
| ExecutorHalts.StopReachesTheRoot | pkg/op/graph_executor.go:1304-1333 | in a tree of one-attempt, OnError-free units every drained stop comes out as a stop and ends the work, from any state and also when an assertion fails |
| ExecutorReasons.ReasonIsStampedOnce | pkg/op/graph_executor.go:930-953 | since the last attempt that began, or failure that was absorbed or replaced, a failed dispatch's reason was stamped exactly once unless a handler failed; each failed handler adds its own stamp and the last one is what the error carries; an error without a reason was not stamped, and is a pause or came when the context was cancelled or cut a wait |
| ExecutorVerdicts.VerdictsDecide | pkg/op/graph_executor.go:814-834 | of a dispatch that fails by its own budget, gate or handlers: handler_failed if and only if one of its handlers failed, else retry_vetoed if and only if its OnRetry answered falsy, else action_failed, and then every attempt was spent; the budget is one attempt and the retries, with three retries for nested scopes; a success is an attempt's or what OnError answered |
| ExecutorVerdicts.NothingAnswersIt | pkg/op/graph_executor.go:747-767 | a pause, a hard failure or a cancelled context ends the dispatch as it is: no gate, no handler, no further attempt |
| ExecutorCrash.ScopeCrashesExactly | pkg/op/subgraph.go:259-270 | a scope's execution crashes if and only if it is not replayed and its walk crashes or tells less trouble than its parent is in, or, where its action does not resolve, its parent is past execution_failed |
| ExecutorCrash.DispatchedForeseen | pkg/op/graph_executor.go:716-770 | every dispatch in every world of a plan, on any stack on which a scope is nested at most once and last, ends as the analysis foresees of its mark and of what the stack knows, and every failed assertion in it is foreseen |
| ExecutorTame.ShippedPlansNeverFall | pkg/op/provider/flow/provider.go:589-628 | where drivers that flip do so once, to degraded or execution_failed, and then succeed, handlers are scopes and no policy in force continues past execution_failed, no assertion can fail and no pause can be lost, whatever is retried, replayed or resumed |
| ExecutorTame.OneConditionNeverFalls | pkg/op/subgraph.go:259-270 | when all drivers submit one condition, short of compensation_failed, no policy, retry or handler can make an assertion fail or lose a pause |
| ExecutorLocality.DispatchedLocal | pkg/op/graph_executor.go:716-770 | a dispatch depends on the world's answers at the ticks it spends and on no others |
| ExecutorWitness.RealizeLoop | pkg/op/graph_executor.go:716-770 | for every way the analysis says a retry loop can go there is a world of the plan in which it goes so |
| ExecutorWitness.CrashFreeExactly | pkg/op/subgraph.go:259-270 | from any mark and any such stack, no dispatch meets a failed assertion in any world of the plan (in which each driver conducts itself in one of its ways) if and only if the analysis finds none |
| ExecutorWitness.ClearedNeverCrashes | pkg/op/graph_executor.go:1051-1056 | a dispatch the analysis clears neither panics nor logs a failed assertion, in any world of the plan |
| ExecutorWitness.HaltReachesTheRoot | pkg/op/graph_executor.go:747-767 | from any mark and any such stack, in every world of the plan pauses (raised anywhere) and hard failures (raised outside handlers) come out of the dispatch as such, with no work after them, if and only if the analysis finds no assertion that can fail behind a pause |
| ExecutorWitness.HaltsSurvive | pkg/op/graph_executor.go:609-617 | a dispatch the analysis clears lets every halt come out, in any world of the plan, fresh or resumed |
| ExecutorSuccess.DispatchedSucceeds | pkg/op/graph_executor.go:716-770 | in every world, a dispatch succeeds only with a truthiness that the tree allows, and leaves only such results on the stack |
| ExecutorSuccess.LoopFound | pkg/op/graph_executor.go:716-770 | and with each truthiness the tree allows it can succeed, even if no driver ever flips |
| ExecutorDepth.ExecuteDeep | pkg/op/graph_executor.go:885-909 | everything a dispatch does is at its own handler depth or deeper |
| ExecutorHandlers.HandlersSettle | pkg/op/graph_executor.go:885-909 | of every dispatch, at every depth: each handler asked answers; if it failed, each compensator its actions left, and that was not dropped with a scope's stack, was called exactly once in between, after everything else; if it succeeded, none was; outside handlers a dispatch calls none |
| ExecutorHandlers.HandlerUnwinds | pkg/op/graph_executor.go:893-901 | a failed handler's compensators are called last pushed first, one tick each, and its answer comes last |
| ExecutorHandlers.HandlerEnds | pkg/op/graph_executor.go:885-909 | a handler succeeds if and only if its execution did, a panic becomes a failure, and its caller's stack is untouched |
| ExecutorAttempts.DoorExactly | pkg/op/node.go:124-133 | a cancelled context, a drained pause or a drained stop ends an attempt at its door and runs nothing; what is left behind in each case |
| ExecutorAttempts.NodeRunsExactly | pkg/op/node.go:115-215 | a node's action runs, once, if and only if nothing stops the attempt at its door, its latest receipt is not of a success and the action resolves; what it returned comes out and is on the receipt; any other success is that of the latest receipt |
| ExecutorAttempts.ScopeRunsExactly | pkg/op/subgraph.go:168-292 | a scope's children are dispatched if and only if nothing stops the attempt, the scope has not finished on this stack, its action resolves and its claims hold: then on a healthy executor of their own with the stack of the last failed walk, in order up to the first that fails or completes the scope, and the scope ends as that one; failing claims are preflight_failed |
| ExecutorCalm.FairWeather | pkg/op/provider/flow/helpers.go:119-149 | when nothing fails, a dispatch succeeds with the value of its last child or of the one that completes its scope, runs exactly the nodes up to it, each once and in order, leaves one entry for the unit and moves no status |
| ExecutorCalm.ReplayIsExact | pkg/op/node.go:135-139 | a unit that succeeded, executed again on its entries in any world, at any depth and in any state that lets it past its door, gives the same value, runs nothing and changes nothing |
| ExecutorRetry.BudgetIsKept | pkg/op/graph_executor.go:716-770 | attempts stay within the budget and there is one exactly when the budget allows it, OnRetry is asked once per failure that leaves an attempt, OnError at most once and only when the budget is spent or OnRetry ended the loop, and success is a success under continue or a truthy OnError; a negative MaxAttempts means no attempt |
| ExecutorRetry.WaitIsCut | pkg/op/graph_executor.go:781-798 | a node with attempts left and no OnRetry whose context is cancelled during the wait ends with the context's error after one attempt, and its OnError is not asked |
| ExecutorRetry.HandleSpends | pkg/op/graph_executor.go:885-909 | a handler costs its unit exactly one question, whatever it runs |
| ExecutorStack.NothingIsForgotten | pkg/op/graph_executor.go:1361-1404 | every compensator an action left is on the caller's stack, unless it was dropped together with a scope's stack |
| ExecutorStack.UnwindCompensatesEverything | pkg/op/recovery_stack.go:431-475 | unwinding after a fresh dispatch calls each compensator left exactly once, except the dropped ones |
| ExecutorOnce.NothingSucceedsTwice | pkg/op/node.go:133-150 | where every action resolves, claims hold and the analysis finds no assertion that can fail, no node succeeds twice however often it is retried, a settled one does not succeed again, and what succeeded is settled |
| ExecutorOnce.ResumeRepeatsNothing | pkg/op/graph_executor.go:190-213 | then a paused run and its resumption in any other such world together let each node succeed at most once, and leave on the stack exactly what both left |
| ExecutorOnce.FickleClaimsRepeat | pkg/op/subgraph.go:192-292 | claims that fail in a scope's second attempt only let a node of it succeed twice |
| ExecutorStops.DoorStopHonouredExactly | pkg/op/graph_executor.go:747-767 | a stop waiting for a unit is honoured if and only if the unit has one attempt and no OnError |
| ExecutorStops.NodeStopsExactly | pkg/op/graph_executor.go:747-767 | over all worlds and states, exactly which nodes honour every stop |
| ExecutorStops.StopSwallowed | pkg/op/graph_executor.go:747-767 | a node with a retry and no OnRetry can drain a stop and succeed |
| ExecutorStops.ReentryExactly | pkg/op/subgraph.go:192-292 | a scope entered again stays nested on its caller's stack if and only if its action resolves, its claims hold and neither walk nor boundary crashes, and then holds its old compensators and the new ones less what the walk dropped; otherwise exactly the old ones have left the stack |
| ExecutorStops.ContinuedRunCrashes | pkg/op/subgraph.go:266-270 | a plan under a valid policy in which every unit succeeds, and the run crashes |
| ExecutorStops.PauseSwallowed | pkg/op/graph_executor.go:885-897 | under a valid policy, with drivers that flip once and then succeed, a pause drained in an OnError scope ends as an ordinary handler failure |
| ExecutorTreeStops.TreeStopsExactly | pkg/op/graph_executor.go:747-767 | over all worlds, a tree honours every stop drained outside its handlers if and only if no unit that can be reached has a second attempt, or an attempt and an OnError |
| ExecutorRun.RunOnlyWorsens | pkg/op/graph_executor.go:543-684 | Run lowers the condition if and only if a preflight fails on an executor already at compensation_failed |
| ExecutorRun.RunLands | pkg/op/graph_executor.go:543-684 | phase, condition and reason of every run, in terms of how its dispatch ended and whether its unwind was clean; which preflight steps a fresh and a resumed run need; an executor that is neither prepared nor paused is left alone |
| ExecutorRun.PolicyStopLands | pkg/op/graph_executor.go:654-684 | a run its own policy stopped, with a clean unwind and no drained command, ends stopped with the reason of the journal's last flip, and at its condition if and only if that reason does not stand for a worse one |
| ExecutorRun.DegradedStopLands | pkg/op/graph_executor.go:654-684 | such a run: a policy that stops on degraded ends it stopped at degraded |
| ExecutorRun.ResumeUnwindExactly | pkg/op/graph_executor.go:299-356 | the resumed unwind improves the condition if and only if it is allowed and every compensation works, by one journaled step, with an empty stack; otherwise nothing is journaled |
| ExecutorRun.JournalTellsExactly | pkg/op/graph_executor.go:604-684 | the journal's last flip is the final condition if and only if the run's end did not worsen it: no compensation failed for the first time, and no failure short of a stop implies worse than was recorded |
| ExecutorRun.OrdinaryFailureIsNotJournaled | pkg/op/graph_executor.go:665-684 | a healthy run that fails ordinarily ends failed with an empty journal |
| ExecutorRun.FailedRunTellsNothing | pkg/op/graph_executor.go:665-684 | a graph of one failing node is such a run: it ends stopped at execution_failed with an empty journal |
| ExecutorRun.RunEnds | pkg/op/graph_executor.go:543-645 | a run past its preflight ends completed if and only if it succeeded, paused if and only if its error is a pause, and stopped otherwise; a terminal executor is never run again |
| ExecutorRun.PendingBlocksRun | pkg/op/graph_executor.go:969-978 | an executor with a pending reaction and no OnError at its root never completes a run |
| ExecutorRun.FailedRunCompensates | pkg/op/graph_executor.go:604-684 | a failed fresh run calls every compensator left exactly once, is clean exactly when all work, and otherwise keeps the failed ones |
| ExecutorRun.RunCompensates | pkg/op/graph_executor.go:604-684 | over the whole history of a fresh run: outside handlers compensators are called only when it fails or is stopped, and then each one left and not dropped exactly once; every handler settled its own |
| ExecutorRun.StoppedRunCompletes | pkg/op/graph_executor.go:543-645 | a run that drains an operator stop and ends completed |
| GraphExecutors.GraphExecutor.Transition | pkg/op/graph_executor.go:443-472 | updates status, journal and pending reaction as the semantics says, of which `FlipReacts` and `DispatchReacts` say which policy decides |
| GraphExecutors.GraphExecutor.ControlPoint | pkg/op/graph_executor.go:1304-1333 | moves the phase and returns the sentinel |
| GraphExecutors.GraphExecutor.ApplyPendingReaction | pkg/op/graph_executor.go:969-978 | turns the pending reaction into the dispatch's outcome as the semantics does, of which `PolicyStopCarries` says which reason a stop carries |
| GraphExecutors.GraphExecutor.FrameworkFailure | pkg/op/graph_executor.go:1051-1056 | audits, flips and returns a hard failure |
| GraphExecutors.GraphExecutor.DispatchWithPolicy | pkg/op/graph_executor.go:716-770 | the retry loop equals the recursive semantics about which the theorems are |
| GraphExecutors.GraphExecutor.GateRetry | pkg/op/graph_executor.go:814-834 | continues the loop or ends it exactly as the semantics, of which `VerdictsDecide` says which reason an end carries |
| GraphExecutors.GraphExecutor.ResolveFailure | pkg/op/graph_executor.go:930-953 | absorbs, lets stand or fails as the semantics |
| GraphExecutors.GraphExecutor.DispatchHandler | pkg/op/graph_executor.go:885-909 | runs the handler on a stack of its own and unwinds it on failure, as the semantics does, of which `HandlersSettle` says which compensators are called; the caller's stack object is not even in its frame |
| GraphExecutors.GraphExecutor.UnwindStack | pkg/op/recovery_stack.go:431-475 | the loop from the top is the unwind of the semantics |
| GraphExecutors.GraphExecutor.Execute | pkg/op/node.go:115-133 | cancellation and control point, then node or scope |
| GraphExecutors.GraphExecutor.ExecuteNode | pkg/op/node.go:115-215 | replay, binding, action and receipt |
| GraphExecutors.GraphExecutor.ExecuteSubgraph | pkg/op/subgraph.go:168-292 | replay or adopt the prior stack, verify claims, walk on a child executor |
| GraphExecutors.GraphExecutor.LeaveScope | pkg/op/subgraph.go:259-292 | bubble up, stamp and nest the child's stack |
| GraphExecutors.GraphExecutor.WalkChildren | pkg/op/provider/flow/helpers.go:119-149 | children in order, early return at flow.complete, first failure ends |
| GraphExecutors.GraphExecutor.Run | pkg/op/graph_executor.go:543-645 | the whole run equals its semantics |
| GraphExecutors.GraphExecutor.FailAndUnwind | pkg/op/graph_executor.go:665-684 | the failure terminal |
| GraphExecutors.GraphExecutor.ResumeUnwind | pkg/op/graph_executor.go:299-356 | the resumed unwind |
| GraphExecutors.RecoveryStack.ReceiptByUnitID | pkg/op/recovery_stack.go:608-620 | the scan from the top finds the latest receipt |
| GraphExecutors.RecoveryStack.NestedStackByUnitID | pkg/op/recovery_stack.go:224-238 | the scan from the top finds the latest stamped scope |
| GraphExecutors.RecoveryStack.SupersedeUnit | pkg/op/recovery_stack.go:717-735 | splices out the top-most entry of the unit |
| Kahn.TopologicallySorted | pkg/op/helpers.go:344-408 | the loops over maps and queue return a permutation of the units in the order of the specification |
| Kahn.SortMeans | pkg/op/helpers.go:344-408 | for distinct ids and any edges: a prefix in which every edge's source is earlier, then exactly the units with a cycle at or upstream of them, in input order; no tail if and only if the edges are acyclic |
| Kahn.SortsInTurn | pkg/op/helpers.go:366-393 | the order of the prefix, completely: by the position of the last source, then by the last edge from it, and units without sources in input order |
| Kahn.TailExactly | pkg/op/helpers.go:395-405 | a unit is in the tail if and only if some walk into it meets a unit twice |
| Kahn.StepKeepsInv | pkg/op/helpers.go:380-393 | one turn of the queue keeps the invariant that exactly the units without unfinished sources are queued or sorted |
| Kahn.CountDown | pkg/op/helpers.go:387-392 | the inner loop leaves every in-degree equal to the edges from units not dequeued and queues exactly the freed units, in order |
| Kahn.SortIsStable | pkg/op/subgraph.go:640-676 | sorting a sorted document changes nothing |
| Kahn.CyclesAcceptedExactly | pkg/op/subgraph.go:901-949 | the cycle check accepts exactly the acyclic subgraphs and those with one child |
| Kahn.LoopOnOneChildAccepted | pkg/op/subgraph.go:901-905 | a child that depends on itself is a cycle, and is accepted when it is alone |
| IntegerGuard.GuardExactly | pkg/op/convert.go:319-334 | a conversion is accepted if and only if the target holds the value or it slips through the hole, and then it is the number itself or the number less the source's span; what a kind holds is `KindsHold` |
| IntegerGuard.KindsHold | pkg/op/convert.go:203-231 | the range of each of the eight kinds, in numbers |
| IntegerGuard.FromInt64 | pkg/op/convert.go:319-334 | an int64 is accepted by each kind exactly within its range, in numbers, and unchanged |
| IntegerGuard.HolesExactly | pkg/op/convert.go:319-334 | the six pairs of kinds between which numbers slip through, and from which number on |
| IntegerGuard.FaithfulPairs | pkg/op/convert.go:319-334 | exactly for which pairs of kinds every accepted conversion preserves the number |
| IntegerGuard.NeverMerges | pkg/op/convert.go:319-334 | accepted conversions are injective |
| IntegerGuard.BackAgain | pkg/op/convert.go:319-334 | converting back restores a preserved number and refuses one that slipped through |
| IntegerGuard.TwoHundredSlips | pkg/op/convert.go:319-334 | uint8 200 becomes int8 -56 |
| IntegerGuard.WrapsCongruent | pkg/op/convert.go:203-231 | Go's conversion keeps the value modulo the target's span |
| Gitignore.StringTestIsComponentPrefix | pkg/gitignore/tracker.go:163-165 | the string test is the prefix order on path components, for all strings |
| Gitignore.StackExactly | pkg/gitignore/tracker.go:151-188 | after any pushes the stack is the base, then a strictly descending chain; a directory is on it if and only if its file has rules, it was pushed, and every later push was at or below it |
| Gitignore.StackIsRecomputed | pkg/gitignore/tracker.go:151-188 | on a walk the stack is the base, then the rule files of the last directory's ancestors and its own, shallowest first |
| Gitignore.AgreesExactly | pkg/gitignore/tracker.go:151-188 | for any pushes, the stack agrees with recomputation whatever the files hold if and only if every ancestor is live |
| Gitignore.VerdictIsRecomputed | pkg/gitignore/tracker.go:119-141 | for every path a walk visits the verdict is the last match among the base and the files of the path's own ancestors |
| Gitignore.VerdictMeans | pkg/gitignore/tracker.go:119-141 | an exclusion by the last rule that matches ignores, an inclusion by it or no match does not |
| Gitignore.FlatIs | pkg/gitignore/tracker.go:119-141 | the rules stand in the order of their layers, and in file order within one |
| Gitignore.Tracker.Push | pkg/gitignore/tracker.go:151-188 | pops, skip, load error and push on the two parallel slices |
| Gitignore.Tracker.IsIgnored | pkg/gitignore/tracker.go:119-141 | the nested loops return the last match of the flat rule list and its file |
| Gitignore.Tracker.constructor | pkg/gitignore/tracker.go:50-101 | the non-empty base files, in order |
| Pipeline.PipelineMeansNesting | pkg/op/default_eval.go:69-177 | a default succeeds with a value if and only if its fully nested form does, and the nested form has no pipes |
| Pipeline.PipesAgree | pkg/op/default_eval.go:69-96 | the same for every pipe, at every depth |
| Pipeline.PipeMeans | pkg/op/default_eval.go:69-96 | a pipe succeeds with the value of its last stage, each stage fed the value of the one before |
| Pipeline.CommandMeans | pkg/op/default_eval.go:110-142 | a command calls the function it names on its arguments' values in order and the previous stage's value last; every way it fails |
| Pipeline.ArgsFail | pkg/op/default_eval.go:124-134 | the first argument that fails decides the failure |
| Pipeline.NodesMean | pkg/op/default_eval.go:155-177 | a number means the first representation that fits, a field its filled slot |
| Pipeline.FailuresDiffer | pkg/op/default_eval.go:110-142 | the reported failures need not agree |
| Pipeline.RunPipe | pkg/op/default_eval.go:69-96 | the loop over stages is the meaning of the pipe |
| Pipeline.RunCommand | pkg/op/default_eval.go:110-142 | the loop over arguments is the meaning of the command |
| Pipeline.RunArg | pkg/op/default_eval.go:155-177 | an argument's value by its kind |
| ArgumentBinding.BindMeans | pkg/op/planner.go:262-313 | a binding succeeds if and only if every named parameter fits, and then each slot and both sinks hold exactly what they should |
| ArgumentBinding.FailureIsFirst | pkg/op/planner.go:262-313 | a binding fails at the first parameter that does not fit: missing if nothing was given for it, refused otherwise |
| ArgumentBinding.BindParameterSlots | pkg/op/planner.go:262-313 | the loop over parameters is the specification |
| ArgumentBinding.PositionalRest | pkg/op/planner.go:324-332 | the overflow from the index on, and the advanced index |
| ArgumentBinding.RemainingKwargs | pkg/op/planner.go:342-352 | the keywords not consumed, whatever the iteration order |
| ArgumentBinding.ArgsAreConserved | pkg/op/planner.go:262-332 | the positional slots in order, then the variadic slot, are the arguments |
| ArgumentBinding.KeywordsAreConserved | pkg/op/planner.go:262-352 | every keyword is taken by the parameter of its name or passed on, never both |
| ArgumentBinding.PositionShadowsKeyword | pkg/op/planner.go:286-295 | a keyword for a parameter filled by position is never an error |
| ArgumentBinding.SurplusIsDropped | pkg/op/planner.go:262-313 | without a variadic sink surplus arguments change nothing |
| ArgumentBinding.UnknownKeywordIsDropped | pkg/op/planner.go:262-313 | without a keyword sink unknown keywords change nothing |
| ArgumentBinding.ShapeOf | pkg/op/method.go:997-1015 | parameters whose positions validate are named ones, then at most a variadic and a keyword sink |
| Backoff.ComputeDelay | pkg/op/retry_policy.go:50-88 | the doubling loop, the cap and the jitter equal the wrapped, capped ideal and the draw from it |
| Backoff.CapExactly | pkg/op/retry_policy.go:50-88 | under a cap the wait is the capped ideal if and only if the ideal fits in 64 bits or what wrapping leaves of a larger one still reaches the cap; without a cap it is the ideal if and only if the ideal fits |
| Backoff.CurvesAre | pkg/op/retry_policy.go:50-72 | the ideal wait is the delay at first, then constant, growing by the delay, or doubling |
| Backoff.CapHolds | pkg/op/retry_policy.go:74-76 | no wait exceeds MaxDelay, wrapped or not |
| Backoff.WaitsGrow | pkg/op/retry_policy.go:50-88 | as long as the ideal fits, later attempts never wait less |
| Backoff.LateAttemptsNeverWait | pkg/op/retry_policy.go:66-70 | from attempt 63 on an exponential policy never waits |
| Backoff.JitterExactly | pkg/op/retry_policy.go:78-85 | jitter only shortens a wait, and panics exactly at the longest representable one |
| Backoff.JitterDraws | pkg/op/retry_policy.go:78-85 | jitter can draw every wait up to the capped delay, and no other |
| Backoff.TotalIsBounded | pkg/op/graph_executor.go:781-798 | one dispatch waits at most MaxAttempts times MaxDelay |
| Backoff.ThirtySecondsWraps | pkg/op/retry_policy.go:50-88 | one second doubled under a cap of thirty: attempt 33 waits thirty seconds, attempt 34 not at all |
| LedgerRestore.RestoreExactly | pkg/op/graph.go:529-577 | loading succeeds if and only if every row can be rebuilt and every content URI is named; each blob goes to the first row with its URI only |
| LedgerRestore.RestoreFailsFirst | pkg/op/graph.go:545-570 | a load whose rows cannot all be rebuilt fails at the first that cannot, with its complaint |
| LedgerRestore.LastBlobWins | pkg/op/graph.go:531-534 | of blobs for one URI the last is used |
| LedgerRestore.UnpackCatalog | pkg/op/graph.go:529-577 | ids kept in order, every entry pending, the first failing row's error, or the orphans |
| LedgerRestore.ResourceCatalog.RestoreEntry | pkg/op/resource_catalog.go:977-987 | the entry is appended under its saved id |
| LedgerRestore.ResourceCatalog.Catalog | pkg/op/resource_catalog.go:866-884 | the counter advances and names the new entry |
| LedgerRestore.MintedParses | pkg/op/graph.go:632-645 | every minted id parses back to its number |
| LedgerRestore.MintedIsCanonical | pkg/op/resource_catalog.go:866-884 | a minted id is the prefix and the canonical decimal numeral |
| LedgerRestore.IdsRead | pkg/op/graph.go:632-645 | the prefix, at most one sign and digits are read as their number exactly when it fits in 64 bits |
| LedgerRestore.OnlyIdsRead | pkg/op/graph.go:632-645 | and nothing else is read |
| LedgerRestore.CounterExactly | pkg/op/graph.go:554-556 | the restored counter is above every restored id if and only if no row carries the largest one |
| LedgerRestore.MintedIdsAreFresh | pkg/op/graph.go:554-576 | then no later minted id equals a restored or another minted one |
| LedgerRestore.CounterIs | pkg/op/graph.go:545-576 | the counter is decided by the rows after the last one with the largest id: above all of those and one more than one of them, or where it starts |
| LedgerRestore.FreshExactly | pkg/op/graph.go:545-576 | every later minted id differs from every restored one if and only if no row up to the last one with the largest id carries the very id of a number the counter has yet to reach |
| LedgerRestore.LargestIdCollides | pkg/op/graph.go:554-556 | three rows after which the next mint repeats the first row's id |
| ControlPlane.Plane.Ask | pkg/op/control_plane.go:72-83 | queued, or answered at once when sixteen are pending |
| ControlPlane.Plane.Poll | pkg/op/control_plane.go:128-138 | the oldest pending request, still unanswered |
| ControlPlane.Plane.Emit | pkg/op/control_plane.go:147-161 | every open channel with room gets the stamped event, a full one is unchanged |
| ControlPlane.Plane.Cancel | pkg/op/control_plane.go:103-110 | idempotent; the channel is closed once and its buffer kept |
| ControlPlane.FanOutMeans | pkg/op/control_plane.go:147-161 | a fan-out reaches every live subscriber with room among its 64 and costs every other live one a drop |
| ControlPlane.MakeMeans | pkg/op/control_plane.go:72-83 | a request is queued behind at most fifteen others, or else rejected and answered at once |
| ControlPlane.SubscriberSees | pkg/op/control_plane.go:95-161 | under every interleaving a subscriber gets, without repetition, a subsequence of the fan-outs of its lifetime, and what it missed is counted |
| ControlPlane.NothingAfterCancel | pkg/op/control_plane.go:103-110 | nothing is sent to a cancelled subscription |
| ControlPlane.GapsCountExactly | pkg/op/control_plane.go:147-161 | in every run in which the emitters do the same, every subscriber's numbers are fan-out positions, if and only if they fan out in stamp order; and when no emit is under way, in every such run every subscriber's gaps count its drops, if and only if they do |
| ControlPlane.GapsCountDrops | pkg/op/control_plane.go:147-161 | then a gap is exactly the events dropped in between |
| ControlPlane.OneEmitterInOrder | pkg/op/control_plane.go:147-161 | with one emit at a time events are fanned out in stamp order |
| ControlPlane.TwoEmittersInvert | pkg/op/control_plane.go:147-161 | two emitters, and a subscriber that receives 2 before 1 |
| ControlPlane.RequestsAreServedInOrder | pkg/op/control_plane.go:72-138 | requests are drained in the order made, answered at most once, and exactly the queued or drained-but-unserved ones have no answer |

## Left out

- Guarded decision trees, `gather`, `choose` and `wait_until`: scopes walk their children in order.
- Promise resolution, slots, variables, messages and timestamps, and the parent pointers of recovery stacks; a value is a tag and its truthiness.
- The audit receipt's commit failure (it can only fail to mint an id), trace serialization, hooks and the environment's construction beyond whether it succeeds.
- Recovery stacks nested inside an entry are values; only the stacks dispatched onto are objects, so aliasing between a parent's entry and a live child stack is not captured.
- When the same executor is run again after a pause, its cleared variable frame is not modelled.
- The broker's other runs, `Post`, `Command`, `Track` and the events stream; frames without a payload; process launching. Another run's execs appear only as id mints.
- `losesMeaning` beyond integers: string targets and floats are decided by kind alone, and float overflow rests on rounding.
- Loading and parsing of ignore files, Windows separators, `filepath.Join`'s cleaning, and `NewTracker`'s load errors; that a pattern matches only strictly below its directory is assumed of go-git in `VerdictIsRecomputed`.
- Default functions with effects; the live environment they are passed.
- `bindPresentValue` beyond whether it accepts; a parameter that is both variadic and keyword catch-all, which the grammar excludes.
- Parsing of durations; the random source beyond its range.
- The URI namespace of the catalog and everything about URIs except equality; minting more than 2^63 ids.
- The wrap of the control plane's sequence number at 2^64.
- `GraphExecutors.GraphExecutor.ControlPoint`: does not answer the request on its response channel; `ControlPlane` models that side.
- Backoff.JitterExactly: does not speak about the distribution of the draw, only its range.
- Worlds are not restricted to physical ones: claims may come and go, and the exact conditions of `ExecutorWitness` and `ExecutorTreeStops` count such worlds; only contexts stay cancelled. Where a plan says that a unit's action may not resolve, it may resolve at one time and not at another. The conditions are about trees whose ids are distinct, handlers apart.
- ExecutorOnce.NothingSucceedsTwice: asks that claims hold throughout, and does not say for which trees claims that come and go matter.
- An action without an error result panics when its arguments do not coerce; the only panics of the model are rejected flips.
- That the process runner's `Stream` returns only after everything was written is built into the broker's blocks: a child ends by its control frame, and delivers nothing after it.
