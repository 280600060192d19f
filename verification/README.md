# Power-managed cluster control plane: model and proofs

This project models the cluster extension of tinyFaaS: a leader that schedules function calls over worker
nodes and switches the workers' power through Tinkerforge relays. It covers the node registry and its
activation protocol, the scale-down controller, the relay controller, the scheduler, topology validation,
the request path, the function store and the hot swap of function handlers.

`dafny verify dfyconfig.toml` checks everything.

## How it is organised

Two forms stand side by side and share their definitions.

**State machines, for what goroutines do to each other.** `Protocol` is the control plane at the granularity
of its locks: the entry block of `ActivateNode`, the PowerOn call, each readiness poll, the listing of
functions, each deploy, PowerOff, the final `SetStatus`, the delete, the error and the close are separate
steps of a leader; a follower waits on a record; `RecoverDead` decides and writes in separate steps; the sweep
looks a node up, powers it off and records it in separate steps; startup, function updates, the clock and
the traffic's effect on load and last use run beside them. An event carries everything the environment may
choose (replies, failures, orders of a snapshot), and a run is any sequence of enabled events. The theorems
quantify over all runs. `Requests` and `HotSwap` are machines of the same kind for the request path and for
uploads and deletes. A relay command is one step because the relay controller serialises it under its mutex.

**Classes and loops, for what one goroutine does alone.** `TinkerforgeController.Controller`,
`Registry.Registry`, `FunctionStore.Store`, `RouteProxy.RProxy`, `Manager.ManagementService`,
`Controller.Sweep`, `Frontend.Handle`, `Scheduler.PickNode` and `Topology.ValidateNodes` update their state in
place. Their contracts are stated with the functions the machines step with (`RegistrySpec`, `Relay`,
`Wake.WakeOutcome`, `Protocol.MayScaleDown`), which ties the two forms together.

| file | contents |
|---|---|
| Types, RegistrySpec | nodes, statuses, the critical sections of the registry as functions |
| Relay, TinkerforgeController | one relay command on values; the same in place |
| Protocol, Frames | the control plane as a transition system; what each event leaves alone |
| SingleFlight, Followers, Wake | one wake at a time; what followers learn; what a wake computes and that it ends |
| Recovery, Floor, Pacing, Baseline, LeaderNode | recovery, the capacity floor, retry pacing, the always-on baseline, the leader |
| PowerState, Cooldown | recorded state against physical power, the exact conditions, and how to tell them from results |
| Deployment, ColdBoot | deployed functions against the store, and the exact condition; why wakes start from nothing |
| Runs, Witness | building concrete runs; one that meets all hypotheses at once |
| Gaps, UpdateGaps, DeployGaps, ColdGaps | runs in which a guarantee fails without its hypothesis |
| Scheduler, Controller, Topology | the pick, the sweep, loading and validating a topology |
| SweepLoad | the sweep against the requests that come in meanwhile |
| Decisions | single steps of the transition system in the nodes' own fields |
| FunctionStore, Registry, Frontend | the function store, the registry and the request handler in place |
| Requests | load accounting under interleaving |
| RouteProxy, HotSwap, Manager | routes, hot swap under interleaving, one upload alone |

## What the results assume, and why

Every hypothesis is a named predicate on a state and the event taken in it; none is built into the machines.
Function updates too are handled by any number of handlers at once, one per request, as in main.go:165-239.

- *No recovery write over a waking node* (`RecoverOverWaking`). `RecoverDead` decides on a snapshot
  (registry.go:229) and writes unconditionally (236, 242), while `ActivateNode` also accepts dead nodes
  (276-289). `SingleFlightExactly` shows this is exactly what single flight needs, and
  `Gaps.RecoveryBreaksSingleFlight` gives the run that breaks it.
- *No late delete* (`LateDelete`). The final `SetStatus` and the delete are separate critical sections
  (297-301), so a delete can remove the next leader's record, and the next caller waits on nil.
  `TabledExactly` is the equivalence, `NoEntryInGapNoLateDelete` a condition on callers that implies it,
  `Gaps.LateDeleteCrashes` the crash. What followers are told needs no hypothesis at all.
- *Recorded against physical state* (`PowerAssumed`): failed relay writes leave the bricklet as it was, only
  powered nodes answer, `EnforceSleeping` comes first and without failures, recovery does not overwrite a wake,
  and outlets are distinct. Under these, `Cooldown.PowerMatchesExactly` shows agreement to be equivalent to two
  conditions on recovery writes: one that restores a worker as active finds its outlet closed
  (`RestoresPowered`), and one that puts a worker to sleep finds it open (`CoolsUnpowered`). "Still dead at the
  write" is not enough for the first: between a health check and its write a node can be woken, powered off and
  die again (`Gaps.DeadAtWriteIsNotEnough`). It follows from a condition on callers, `NoPendingEntry`: no wake
  starts on a node a recovery pass still has pending. The second fails after any wake that gets no answer
  (`Gaps.CooldownLeavesPowerOn`), and `Cooldown.PowerMatchesByResults` tells from the results of the wakes when:
  a node is left on by one that returned not ready or stuck on, also through later ones that could not power it
  on. A failed write that moves the bricklet breaks agreement (`Relay.AgreeExactly`); `EnforceSleeping` really
  runs beside the endpoints (main.go:140); distinct outlets follow from validation exactly as
  `Topology.OutletsDistinctExactly` says.
- *Deployment* (`UpdateAssumed`): no update between a wake's listing of functions and its final `SetStatus`,
  one update of each function at a time (`OnePerName`), a push reaches a worker that is active, relay writes clean
  and no recovery write over a wake. Under these, `StoreMatchesExactly` shows agreement to be equivalent to
  `ActivatesCurrent`, a condition on the moments at which a worker is recorded active.
  `UpdateGaps.OverlappingUpdatesDiverge`, `DeployGaps.UpdateInWindowIsMissed` and
  `DeployGaps.LostPushIsNotRepeated` show what happens without `OnePerName`, `NoOverlap` and `PushReachesActive`.
- *Cold wakes* (`ColdAssumed`): every caller that has to wake a worker finds it blank (`EntersBlank`), a push
  lands on no other than an active worker (`PushSparesOthers`) and recovery does not take its healthy shortcut
  (`NoShortcut`). These imply `ActivatesCurrent`. `ColdGaps.FailedPowerOffLeavesStale` is a run that meets all of
  them but the first.
  `UpdateGaps.PushIntoBootLeavesStale` and `DeployGaps.ShortcutSkipsDeploy` show what happens without the last two.
  `ColdBoot.DeployedMatchesStore` derives cold wakes from power management (`PowerCycled`): power-offs after
  failed deploys work, which the same run shows to be needed, and recovery writes only on dead nodes.
- *Pacing* (`Unhurried`): nobody enters the silent worker while it is dead. `Gaps.StalePickRetriesAtOnce` is the
  run without that.
- *Concrete runs* start from a table `Topology.ValidateNodes` accepts (`Runs.StartIsAccepted`): an active,
  dispatch-only leader and one worker.
- *Initial state*: no node starts waking, and where a result says so the local node starts active, no worker
  starts active, and loads start at zero. A topology file may preset status and load;
  `Topology.DefaultedFileStartsRight` covers the files that do not.
- `Witness.HypothesesAreMet` is a run that meets all of the power and deployment hypotheses at once and in which
  both results say something.
- *Busy nodes* (`LeavesIdle`): the controller's tests for load and idleness are on a snapshot (controller.go:31).
  `SweepLoad.CutsUnloadedExactly` needs no hypothesis: it says when a node switched off is unloaded.

## Where the code and its comments differ

The model follows the code.

- registry.go:336-343 explains that a node without its functions must not be marked active; the healthy
  branch of `RecoverDead` (234-237) marks one active without deploying anything (`DeployGaps.ShortcutSkipsDeploy`).
- registry.go:318-320 says a wake ends in active or dead; it can also end in sleeping (362).
- registry.go:276-283 relies on every waking node having a record; 299-301 can remove it.
- controller.go:56 promises never to kill busy nodes; busy is judged on a snapshot taken before the sweep, and a
  request counted since does not stop the power-off (`SweepLoad.BusyNodeIsSwitchedOff`).
- registry.go:349-351 says that leaving an unusable node powered on is what this system avoids; the cooldown branch
  records one as sleeping that is on (`Gaps.CooldownLeavesPowerOn`), until it is woken again.
- registry.go:225-227 says the cooldown bounds how often a broken node is retried; a caller that picked the node
  earlier retries it at once (`Gaps.StalePickRetriesAtOnce`).
- tinkerforgefunc/main.go:37-38 says hardware is never read to build the state; the first command on a relay
  does read it (71-81).
- tinyFaaS-ext/README.md promises that two nodes sharing a relay and channel are rejected at startup;
  config.go:210 compares relay texts as written, so an empty text and the default's own name are not
  recognised as one relay (`Topology.AcceptedYetShared`).
- The same file says that in baseline mode every node starts active; nodes start as the file says and are
  then woken (registry.go:372-376).
- manager.go:183 tolerates a route update cut off by EOF and then reads the missing response, which kills the
  upload there; the deferred unlock still runs. In the model this is a route update that failed and may have
  been applied.

## Model

| member | source | states |
|---|---|---|
| SingleFlight.SingleFlightExactly | tinyFaaS-ext/pkg/cluster/registry.go:267-297 | over every interleaving of any number of callers with the controller, a node is waking if and only if exactly one goroutine stands between its transition to waking and its final SetStatus, in all states of the run, exactly when no recovery write lands on a waking node |
| SingleFlight.NoSecondPowerOn | tinyFaaS-ext/pkg/cluster/registry.go:321-327 | while one goroutine is past PowerOn and before its final SetStatus, no other goroutine can be about to complete a PowerOn of that node |
| SingleFlight.PowerOnsPerEntry | tinyFaaS-ext/pkg/cluster/registry.go:286-293 | PowerOn calls so far, plus leaders still about to call it, equal the transitions to waking: one call per transition, never more |
| SingleFlight.OnlyEntryMarksWaking | tinyFaaS-ext/pkg/cluster/registry.go:286-290 | a node becomes waking only by the entry block of ActivateNode, and exactly when that finds it neither active nor waking |
| SingleFlight.RecoverOverWakingBreaks | tinyFaaS-ext/pkg/cluster/registry.go:240-243 | the other direction of the equivalence: a recovery write on a waking node leaves a leader in flight on a node not recorded as waking |
| Frames.StatusAfter | tinyFaaS-ext/pkg/cluster/registry.go:200-212 | status and time of death change only by the entry block and by SetStatus; the time of death is set on dead and cleared otherwise |
| Frames.PcMoves | tinyFaaS-ext/pkg/cluster/registry.go:267-316 | inside ActivateNode only the entry block starts a wake and only the final SetStatus ends one, and no leader ever records waking |
| Followers.FollowersTellTheTruth | tinyFaaS-ext/pkg/cluster/registry.go:94-110 | with no assumption on the interleaving: every record is closed at most once, only by its creator and only after its error is the creator's final result, and a follower that returns a result other than a timeout returns that leader's |
| Followers.RecordLifecycle | tinyFaaS-ext/pkg/cluster/registry.go:303-304 | a record changes only while unclosed and only by its creator: the error first, as the creator publishes its result, then one close, by the creator past that publication and with its result in the record |
| Followers.TabledExactly | tinyFaaS-ext/pkg/cluster/registry.go:299-301 | in all states every waking node has an unclosed record in the table, exactly when no leader's delete comes while its node is waking again |
| Followers.NoEntryInGapNoLateDelete | tinyFaaS-ext/pkg/cluster/registry.go:297-301 | if no caller starts a wake between a leader's final SetStatus and its delete, no delete is ever late |
| Followers.NobodyCrashes | tinyFaaS-ext/pkg/cluster/registry.go:280-283 | without late deletes no caller ever waits on a missing record, so none crashes |
| Gaps.LateDeleteCrashes | tinyFaaS-ext/pkg/cluster/registry.go:280-301 | a run of seven steps, from a topology loading accepts, in which a late delete removes the next leader's record and a third caller waits on nil |
| Gaps.RecoveryBreaksSingleFlight | tinyFaaS-ext/pkg/cluster/registry.go:228-244 | a run, from a topology loading accepts, in which a recovery write on a waking node lets two goroutines stand before PowerOn of one node |
| Floor.CountIsCapacity | tinyFaaS-ext/pkg/cluster/controller.go:31-42 | on a fresh snapshot the controller's counter is the number of active nodes that execute functions |
| Floor.DropsExactlyWhenStale | tinyFaaS-ext/pkg/cluster/controller.go:61-78 | an event takes the capacity below MinActiveNodes if and only if it is a cooldown write on a serving node while there is nothing to spare; in particular the stale, over-decremented counter never does |
| Floor.FloorExactly | tinyFaaS-ext/pkg/cluster/controller.go:29-79 | over whole runs no step lowers the capacity below the floor exactly when no such cooldown write happens |
| Floor.CapacityKept | tinyFaaS-ext/pkg/cluster/controller.go:61-78 | if recovery writes only on dead nodes, the capacity at any later time is at least the smaller of the capacity now and the floor |
| Gaps.StaleCooldownBreaksFloor | tinyFaaS-ext/pkg/cluster/registry.go:240-243 | a run, from a topology with a dispatch-only leader that loading accepts, in which a cooldown write puts the only serving node back to sleep, below a floor of one |
| Recovery.RecoveryFreshHolds | tinyFaaS-ext/pkg/cluster/registry.go:228-244 | if no wake starts on a node a recovery pass has seen dead and not yet dealt with, every recovery write finds its node still dead |
| Wake.NilMeansReady | tinyFaaS-ext/pkg/cluster/registry.go:321-368 | the outcome of a wake is nil if and only if PowerOn worked, some poll within the attempt budget answered and every listed function deployed; and nil exactly when the status recorded is active |
| Wake.LeadersReturnTheOutcome | tinyFaaS-ext/pkg/cluster/registry.go:295-315 | however leader steps interleave with everything else, a returned leader has received the replies of one sequential wake and returns that wake's result |
| Wake.LeadersRecordTheOutcome | tinyFaaS-ext/pkg/cluster/registry.go:324-366 | the final status a leader records is the one the sequential wake computes from its replies |
| Wake.LeaderDescends | tinyFaaS-ext/pkg/cluster/registry.go:468-516 | every step of a leader strictly decreases phase, polls left and functions undecided, in this order |
| Wake.LeaderCanMove | tinyFaaS-ext/pkg/cluster/registry.go:321-368 | whatever the external calls reply, a leader that has not returned has an enabled step |
| Wake.WakeEnds | tinyFaaS-ext/pkg/cluster/registry.go:295-315 | in every infinite run in which the leader keeps getting turns until it has returned, and whatever the replies, the wake ends: the leader returns, its record is closed once with its result, and every follower still waiting on it may return that result |
| Wake.LeadersRun | tinyFaaS-ext/pkg/cluster/registry.go:286-315 | every leader of every state of every run is one the termination result speaks of |
| Wake.FairRunExists | tinyFaaS-ext/pkg/cluster/registry.go:267-316 | from every state with an unfinished wake, and for any replies, there is an infinite run that keeps giving its leader turns: every unfinished state is answered by the leader's next step with exactly those replies |
| LeaderNode.LeaderNeverPowerCycled | tinyFaaS-ext/pkg/cluster/registry.go:276-290 | from a topology whose local node starts active it stays active in every run, and every relay command is aimed at the outlet of some non-local node |
| Baseline.ActiveForever | tinyFaaS-ext/pkg/cluster/controller.go:13-17 | with power management disabled a node that is active once is active in every later state |
| Baseline.OnlyFailedDeploysPowerOff | tinyFaaS-ext/pkg/cluster/registry.go:338-364 | with power management disabled every power-off is that of a wake in which a function failed to deploy |
| Baseline.PrewarmBringsAllUp | tinyFaaS-ext/pkg/cluster/registry.go:387-404 | if every goroutine PrewarmAll spawned returned nil, every non-local node is active when it returns, and ever after |
| Pacing.AttemptsSpaced | tinyFaaS-ext/pkg/cluster/registry.go:206-210 | each PowerOn of a worker that never answers comes at least the cooldown after the one before it, in runs in which nobody enters that worker while it is dead and recovery overwrites no wake; other dead nodes may be entered |
| Pacing.AttemptsTakeTime | tinyFaaS-ext/pkg/cluster/registry.go:228-244 | k PowerOn attempts on such a worker take at least (k - 1) cooldowns of clock time |
| Pacing.NoDeadEntryIsUnhurried | tinyFaaS-ext/pkg/cluster/registry.go:217-227 | if nobody enters any dead node, recovery overwrites no wake either, so the runs of the pacing results include those |
| Gaps.StalePickRetriesAtOnce | tinyFaaS-ext/pkg/cluster/registry.go:276-293 | a run in which a caller that picked the worker before it died wakes it again at once: two PowerOn calls of a silent worker at the same time, with a cooldown of ten |
| Cooldown.PowerMatchesExactly | tinyFaaS-ext/pkg/cluster/registry.go:228-244 | over the same runs, with no worker left out: every active worker not in the middle of DeactivateNode is on and every sleeping worker is off, in every state after startup, if and only if every recovery write finds the outlet as it records it, closed for active and open for sleeping |
| Cooldown.PowerMatchesByResults | tinyFaaS-ext/pkg/cluster/registry.go:321-366 | the condition told from what ActivateNode returned: if no wake starts on a node recovery has pending, the agreement holds throughout if and only if no cooldown puts a worker to sleep that was left on: one of its wakes returned not ready or stuck on (or it started dead and powered), and since then it has been recorded neither active nor switched off |
| PowerState.MatchesUnlessCooledExactly | tinyFaaS-ext/pkg/cluster/registry.go:228-244 | over whole runs in which recovery does not overwrite a wake: active workers are on, and workers asleep by any other way than the cooldown branch are off, in every state after startup, if and only if every recovery write that restores a worker as active finds its outlet closed |
| PowerState.RecordedStateMatchesPower | tinyFaaS-ext/pkg/cluster/registry.go:415-464 | in every reachable state after startup an active worker not in the middle of DeactivateNode has its outlet closed, and a sleeping one has it open unless it last went to sleep through the cooldown branch, if no wake starts on a node a recovery pass still has pending |
| PowerState.IssueMovesOne | tinyFaaS-ext/tinkerforgefunc/main.go:57-92 | over distinct outlets one clean relay command moves exactly the outlet of the node it was meant for, and only if it succeeds |
| PowerState.CommandElsewhere | tinyFaaS-ext/pkg/cluster/registry.go:443-464 | no relay command ever concerns the outlet of a node that another goroutine is waking |
| Gaps.CooldownLeavesPowerOn | tinyFaaS-ext/pkg/cluster/registry.go:328-333 | a run after EnforceSleeping that meets every hypothesis of the power and deployment results together: an unanswered wake leaves the relay closed, and the cooldown then records the node asleep while it is on; the exact condition is that of Cooldown.PowerMatchesExactly |
| Gaps.DeadAtWriteIsNotEnough | tinyFaaS-ext/pkg/cluster/registry.go:228-244 | recovery writing only on dead nodes does not suffice for the power result: a run from an accepted topology, clean in every other respect, that ends with an active node whose outlet is open; the exact condition is that of PowerState.PowerMatchesExactly |
| Deployment.StoreMatchesExactly | tinyFaaS-ext/pkg/cluster/registry.go:336-366 | over whole runs with one update of each function at a time, clear of the deploy windows and reaching the active workers: every active worker holds under every name what the store holds, or is still to be pushed it by a handler under way, in all states, if and only if no wake is recorded active over a function the store does not have and no recovery write restores a worker that is behind |
| ColdBoot.ColdWakesMatchStore | tinyFaaS-ext/pkg/cluster/registry.go:321-368 | one half of that condition from the callers' side: if every caller that has to wake a worker finds it blank (powered off or holding nothing), pushes reach no worker that is not active, and recovery does not restore a node as active, the active workers match the store in every state, whatever becomes of failed deploys elsewhere |
| ColdBoot.DeployedMatchesStore | tinyFaaS-ext/pkg/cluster/registry.go:336-366 | when power management is what makes wakes cold (failed deploys powered off, only powered nodes answer, recovery writes on dead nodes only): whenever no update is under way, every active worker not in the middle of DeactivateNode holds exactly the store's names and definitions |
| Witness.HypothesesAreMet | tinyFaaS-ext/pkg/cluster/registry.go:321-368 | the hypotheses of all run-wide power and deployment results can hold at once: a run from an accepted topology, with a powered but sleeping worker, to an active one that holds the store, which is not empty |
| Deployment.RecordCurrent | tinyFaaS-ext/pkg/cluster/registry.go:362-366 | at a final SetStatus to active no update is in flight, and what the node holds is the store exactly when it holds no function the store does not have: nothing listed is ever missing |
| Deployment.UpdateCurrent | tinyFaaS-ext/cmd/rproxy/main.go:201-238 | each step of any number of function updates of different names, from the store through the pushes, keeps every active worker at the store except for the names still to be pushed to it |
| UpdateGaps.OverlappingUpdatesDiverge | tinyFaaS-ext/cmd/rproxy/main.go:165-239 | a run that meets every other hypothesis in which two handlers update one function, their pushes arrive in the opposite order, and the worker is left with the older definition after both have ended |
| UpdateGaps.PushIntoBootLeavesStale | tinyFaaS-ext/pkg/cluster/registry.go:523-543 | a run that meets every other hypothesis in which a push lands on a worker that has been put to sleep and is booting again, the function is then removed, and the worker ends up active with a function the store does not have |
| ColdGaps.FailedPowerOffLeavesStale | tinyFaaS-ext/pkg/cluster/registry.go:354-359 | a run that meets every other hypothesis in which the power-off after a half failed deploy fails, the deployed function is removed while the node is dead, and after the cooldown the next wake finds the node on: it ends up active with a function the store does not have |
| DeployGaps.UpdateInWindowIsMissed | tinyFaaS-ext/pkg/cluster/registry.go:336-346 | a run that meets every other hypothesis in which a function is stored and broadcast between a wake's listing of functions and its final SetStatus; it is neither deployed nor pushed to the node, which ends up active without it |
| DeployGaps.ShortcutSkipsDeploy | tinyFaaS-ext/pkg/cluster/registry.go:234-237 | a run that meets every other hypothesis in which a node too slow for its wake answers recovery's health check later and is restored as active with nothing deployed |
| DeployGaps.LostPushIsNotRepeated | tinyFaaS-ext/pkg/cluster/registry.go:535-538 | a run that meets every other hypothesis in which the push of a new function to an active worker fails, and the worker stays active without it after the update has ended |
| Relay.CommandSetsOneOutlet | tinyFaaS-ext/tinkerforgefunc/main.go:83-91 | a successful command sets its own outlet, a failed one sets none, and the sibling channel keeps its position |
| Relay.SuccessSyncs | tinyFaaS-ext/tinkerforgefunc/main.go:83-91 | after any successful call the relay's hardware pair equals its shadow, whatever earlier failed writes had left there |
| Relay.SetsTheChannel | tinyFaaS-ext/tinkerforgefunc/main.go:57-92 | a command succeeds exactly on channel 0 or 1 of a relay that is known or can be read, if the write works; it then sets that channel and keeps the sibling as last set, a failed write leaves the adopted pair in the shadow, and anything else changes nothing |
| Relay.AgreeExactly | tinyFaaS-ext/tinkerforgefunc/main.go:70-91 | shadow and hardware, once in agreement, stay so exactly when the command does not fail half way and move the hardware |
| Relay.CommandsCommute | tinyFaaS-ext/tinkerforgefunc/main.go:57-92 | two successful commands on different outlets commute, on the shadow and on the hardware |
| Relay.RunRefinesFlatMap | tinyFaaS-ext/tinkerforgefunc/main.go:57-92 | any sequence of serialised calls refines a flat map from outlet to position in which the last successful command wins |
| Relay.LastSuccessfulWins | tinyFaaS-ext/tinkerforgefunc/main.go:57-92 | an outlet is where its last successful command put it, however many other commands came after |
| TinkerforgeController.Controller.constructor | tinyFaaS-ext/tinkerforgefunc/main.go:43-50 | a new controller knows no relay yet |
| TinkerforgeController.Controller.SetOneChannel | tinyFaaS-ext/tinkerforgefunc/main.go:57-92 | in place on the per-relay pairs: the same new shadow, hardware and verdict as the value-level step; success exactly on channel 0 or 1 of a known or readable relay with a working write, the named channel then as commanded and no other relay's outputs changed |
| TinkerforgeController.Controller.Adopt | tinyFaaS-ext/tinkerforgefunc/main.go:70-81 | the first touch adopts the hardware's pair into the shadow, also when the following write fails; a failed read changes nothing |
| TinkerforgeController.Controller.Record | tinyFaaS-ext/tinkerforgefunc/main.go:90-91 | recording one relay's pair changes no other relay's |
| TinkerforgeController.Controller.ReadState | tinyFaaS-ext/tinkerforgefunc/main.go:119-132 | a read returns the pair the bricklet has, or fails and adopts nothing |
| TinkerforgeController.Controller.WriteState | tinyFaaS-ext/tinkerforgefunc/main.go:134-141 | a write sets both channels of one bricklet at once, or fails and leaves them anywhere |
| TinkerforgeController.Controller.PowerOn | tinyFaaS-ext/tinkerforgefunc/main.go:143-146 | sets the named channel, empty relay text meaning the default relay |
| TinkerforgeController.Controller.PowerOff | tinyFaaS-ext/tinkerforgefunc/main.go:148-151 | clears the named channel, empty relay text meaning the default relay |
| Scheduler.PickNode | tinyFaaS-ext/pkg/cluster/scheduler.go:14-97 | returns the earliest node that is lexicographically best by class and, between active nodes, by load; the node is never dead nor dispatch-only, and none is found if and only if every node is one of these |
| Scheduler.PickInFields | tinyFaaS-ext/pkg/cluster/scheduler.go:26-97 | against every node that is neither dead nor dispatch-only: one active with room is passed over only for an active one with room at most as loaded, a sleeping one only for an active one with room or an earlier sleeping one, a saturated one for a sleeping or an at most as loaded active one, any other for an active, a sleeping or an earlier one; ties go to the earlier |
| Scheduler.PickIsUnique | tinyFaaS-ext/pkg/cluster/scheduler.go:63-96 | there is at most one such position, so the loop's result is determined |
| Scheduler.OrderDoesNotMatter | tinyFaaS-ext/pkg/cluster/registry.go:146-156 | for two orders of the same nodes: found or not found alike, the same class, and the same load when active |
| Scheduler.WakesBeforeSaturating | tinyFaaS-ext/pkg/cluster/scheduler.go:63-89 | a node with room beats everything; a sleeping node is chosen before any saturated one; anything else only when nothing is active or asleep |
| Topology.FillStatuses | tinyFaaS-ext/pkg/cluster/config.go:135-144 | in place: a missing status becomes active for the local node and sleeping for a worker, a given one is kept |
| Topology.ValidateNodes | tinyFaaS-ext/pkg/cluster/config.go:158-234 | accepts exactly the well-formed topologies; a rejection names the first node at fault and what is wrong with it |
| Topology.WellFormedMeans | tinyFaaS-ext/pkg/cluster/config.go:158-234 | well-formed, in node fields: not empty, names present and distinct, workers with both addresses on channel 0 or 1, no two workers with the same relay text and channel, exactly one local node, and one that executes functions |
| Topology.ErrorMeans | tinyFaaS-ext/pkg/cluster/config.go:175-231 | each error, in the fields of the node at fault or of the whole list |
| Topology.BothChannelsAccepted | tinyFaaS-ext/pkg/cluster/config.go:197-216 | a dispatching leader with workers on both channels of one relay and on channel 0 of another is accepted, whatever the names |
| Topology.ErrorIsUnique | tinyFaaS-ext/pkg/cluster/config.go:175-231 | a topology has at most one error in the order of the checks, so the rejection reported is determined |
| Topology.FaultIsFault | tinyFaaS-ext/pkg/cluster/config.go:175-231 | an error that describes the topology correctly is never raised for a well-formed one |
| Topology.TwoWorkersPerRelay | tinyFaaS-ext/pkg/cluster/config.go:202-216 | an accepted topology has at most two workers per distinct relay text |
| Topology.KeysCountWorkers | tinyFaaS-ext/pkg/cluster/config.go:210-216 | the relay-and-channel keys of an accepted topology are as many as its workers: no two workers share one |
| Topology.OutletsDistinctExactly | tinyFaaS-ext/pkg/cluster/config.go:210-216 | resolved outlets of an accepted topology are distinct exactly when no worker left to the default relay shares its channel with one that names that relay |
| Topology.AcceptedYetShared | tinyFaaS-ext/tinkerforgefunc/main.go:57-60 | a topology that validation accepts although one channel feeds both its workers |
| Topology.DefaultedFileStartsRight | tinyFaaS-ext/pkg/cluster/config.go:122-148 | an accepted file that presets no status and has no such clash starts the cluster as the power and deployment results assume |
| Topology.RegisteredIsList | tinyFaaS-ext/pkg/cluster/registry.go:130-134 | adding the nodes of an accepted topology one by one registers each under its own name, and nothing else |
| Runs.StartIsAccepted | tinyFaaS-ext/pkg/cluster/config.go:158-234 | the node table that every concrete run of the control plane starts from is the one loading builds from a well-formed topology, whatever status the file presets for the worker |
| FunctionStore.Store.Set | tinyFaaS-ext/pkg/cluster/functions.go:31-36 | binds the name to the definition and nothing else |
| FunctionStore.Store.Remove | tinyFaaS-ext/pkg/cluster/functions.go:38-43 | unbinds the name and nothing else |
| FunctionStore.Store.All | tinyFaaS-ext/pkg/cluster/functions.go:46-56 | the copy made entry by entry equals the store |
| FunctionStore.LastChangeWins | tinyFaaS-ext/pkg/cluster/functions.go:31-43 | after any sequence of changes a name is bound as its last change left it |
| Registry.ActivationRecord.Wait | tinyFaaS-ext/pkg/cluster/registry.go:103-110 | a record closed before yields its own error; an open one yields the result it is closed with while the caller waits, or else times out |
| Registry.WaitForNodeReady | tinyFaaS-ext/pkg/cluster/registry.go:468-480 | ready exactly when some attempt within the budget answers; polling stops at the first answer and otherwise uses every attempt |
| Registry.DeployFunctions | tinyFaaS-ext/pkg/cluster/registry.go:491-516 | every listed function is tried whatever happens to the others, and the result is the number that failed |
| Registry.Registry.constructor | tinyFaaS-ext/pkg/cluster/registry.go:121-128 | a registry starts with no nodes and no activations |
| Registry.Registry.AddNode | tinyFaaS-ext/pkg/cluster/registry.go:130-134 | stores the node under its own name |
| Registry.Registry.ListNodes | tinyFaaS-ext/pkg/cluster/registry.go:146-156 | the snapshot lists every node exactly once, as it is |
| Registry.Registry.AddLoad | tinyFaaS-ext/pkg/cluster/registry.go:170-177 | adds one to the node's load if the node exists |
| Registry.Registry.DropLoad | tinyFaaS-ext/pkg/cluster/registry.go:179-188 | takes one off a positive load, otherwise nothing |
| Registry.Registry.TouchNode | tinyFaaS-ext/pkg/cluster/registry.go:190-197 | records the time of last use if the node exists |
| Registry.Registry.SetNodeStatus | tinyFaaS-ext/pkg/cluster/registry.go:200-212 | sets the status, and the time of death exactly for dead nodes |
| Registry.Registry.RecoverDead | tinyFaaS-ext/pkg/cluster/registry.go:228-245 | one uninterrupted pass: a dead node with a manager address that answers becomes active, any other dead node sleeps if it has been dead for the cooldown or since no known time and stays dead otherwise, and no other node changes |
| Registry.Registry.BeginActivation | tinyFaaS-ext/pkg/cluster/registry.go:268-293 | the entry block: who returns at once, who follows which record, who leads with a fresh record in the table |
| Registry.Registry.WakeNode | tinyFaaS-ext/pkg/cluster/registry.go:321-368 | records the status and returns the result: dead without power or without an answer within the attempts, active if every function of the store deploys, and otherwise asleep with the number of failures if it can be powered off again, else dead and stuck; the relays get exactly those commands |
| Registry.WakeByReplies | tinyFaaS-ext/pkg/cluster/registry.go:321-368 | the outcome that leaders of the transition system compute is that one, reply by reply: power, answer within the attempts, deploys, power-off |
| Registry.Registry.DeployOrPowerOff | tinyFaaS-ext/pkg/cluster/registry.go:336-368 | active with every function deployed, or powered off and asleep, or dead when even that fails |
| Registry.Registry.ActivateNode | tinyFaaS-ext/pkg/cluster/registry.go:267-316 | one caller alone, the leader it may follow finishing or not while it waits: unknown and active nodes return at once, a follower gets the record's result or a timeout, the leader's fresh record ends up closed with the result it returns and out of the table; a waking node without a record is a crash |
| Registry.Registry.DeactivateNode | tinyFaaS-ext/pkg/cluster/registry.go:443-464 | refuses unknown and local nodes without a relay command; otherwise powers off, and records sleep only if that worked |
| Registry.Registry.EnforceSleeping | tinyFaaS-ext/pkg/cluster/registry.go:427-439 | issues exactly one power-off per non-local sleeping node of a snapshot, addressed to that node's relay and channel, in the order of the snapshot, failures passed over |
| Registry.Registry.BroadcastTargets | tinyFaaS-ext/pkg/cluster/registry.go:523-543 | a push goes to every active non-local node, once, and to nobody else |
| Decisions.EntryDecides | tinyFaaS-ext/pkg/cluster/registry.go:268-293 | in the transition system too the entry block returns at once for unknown and active nodes, follows the tabled record of a waking node, and otherwise marks the node waking and leads with a fresh open record |
| Decisions.CheckDecides | tinyFaaS-ext/pkg/cluster/registry.go:228-244 | a step of a recovery pass decides in node fields: a dead copy that answers is to become active, one that does not and is past the cooldown is to sleep, anything else is passed over |
| Decisions.RecoverIsCheck | tinyFaaS-ext/pkg/cluster/registry.go:228-244 | check and write of one node in the transition system leave what the pass of one goroutine alone leaves |
| Decisions.ConsiderDecides | tinyFaaS-ext/pkg/cluster/controller.go:44-73 | a step of the sweep decides in node fields: a worker's copy that is active, unloaded and idle for the timeout above the floor is to be switched off, anything else is passed over |
| Controller.Sweep | tinyFaaS-ext/pkg/cluster/controller.go:31-79 | one uninterrupted sweep: only workers active, unloaded and idle for the timeout are tried; each of those not off and not failed is spared because the count of active executing nodes is down to the floor; no switch-off takes it below; those off are recorded asleep, no other node changes, and the relays get one power-off for each node tried |
| Controller.SweepMeans | tinyFaaS-ext/pkg/cluster/controller.go:31-79 | the same of the recursive description of the sweep that the order and exactness results are about |
| Controller.SweepIsExact | tinyFaaS-ext/pkg/cluster/controller.go:44-79 | the number powered off is the smaller of the candidates whose power-off works and the count above the floor; with failures it ends at the floor by its own count or every candidate left had failed |
| Controller.SweepIgnoresOrder | tinyFaaS-ext/pkg/cluster/controller.go:31-79 | that number is the same for every order of the snapshot |
| SweepLoad.CutsUnloadedExactly | tinyFaaS-ext/pkg/cluster/controller.go:31-73 | in any run of the control plane whatever: a power-off of the sweep finds its node without a request if and only if the last count of that node's requests since the sweep listed the nodes, if there has been one, was none |
| SweepLoad.SweepSparesBusy | tinyFaaS-ext/pkg/cluster/controller.go:56-59 | if no request is counted on a node the sweep still has listed as idle, no power-off of the sweep hits a node with a request on it |
| SweepLoad.BusyNodeIsSwitchedOff | tinyFaaS-ext/pkg/cluster/controller.go:31-73 | a run that meets every hypothesis of the power and deployment results in which a request is counted on a node between the sweep's listing and its power-off, and the node is switched off with the request on it |
| Frontend.Handle | tinyFaaS-ext/pkg/http/http.go:42-130 | one request alone: refused exactly when every node is dead or dispatch-only, otherwise sent to a pick of the snapshot and answered if and only if the activation of that pick returned nil (active; or the record waited on closed, before or meanwhile, with nil; or the wake led ended well by its replies); the code is the node's, 502 or 500; no load changes in the end unless it was preset negative, last use is recorded only on 200 or 202, and the handler dies exactly on a waking pick without a record |
| Frontend.Serve | tinyFaaS-ext/pkg/http/http.go:55-115 | count up, serve, touch on 200 or 202, answer with the node's code, 502 or 500, count down: the net effect on the node |
| Requests.LoadIsConserved | tinyFaaS-ext/pkg/cluster/registry.go:170-188 | in every reachable state a node's load is its initial load plus the requests between IncLoad and DecLoad on it, if no initial load is negative |
| Requests.ClampNeverActs | tinyFaaS-ext/pkg/cluster/registry.go:179-188 | with loads starting at zero a node on which a request is being served has positive load, so the clamp never hides a decrement |
| Requests.NegativePresetLeaks | tinyFaaS-ext/pkg/cluster/registry.go:179-188 | a negative initial load does break conservation: one served request changes it for good |
| Requests.OvershootIsBounded | tinyFaaS-ext/pkg/http/http.go:42-56 | load plus pending picks of a node never exceeds threshold - 1 + p when at most p picks are pending and picks are below the threshold in their snapshot |
| Requests.BoundIsReached | tinyFaaS-ext/pkg/http/http.go:42-56 | the bound is met: picks at threshold - 1 are possible until p of them are pending |
| Requests.RoomMeansBelow | tinyFaaS-ext/pkg/cluster/scheduler.go:33-39 | whenever some active node has room, the node picked is below the threshold in its snapshot |
| RouteProxy.RProxy.Add | tinyFaaS-ext/pkg/rproxy/rproxy.go:38-53 | rejects an empty address list, otherwise adds or replaces the route |
| RouteProxy.RProxy.Del | tinyFaaS-ext/pkg/rproxy/rproxy.go:55-65 | removes the route, failing exactly on an unknown name |
| RouteProxy.RProxy.Choose | tinyFaaS-ext/pkg/rproxy/rproxy.go:69-79 | finds a handler exactly for a routed name, and one of that function's |
| RouteProxy.Configure | tinyFaaS-ext/cmd/rproxy/main.go:173-238 | routes and store keep the same names; with addresses the name, less one leading slash, is bound in both, without it is unbound in both and must have been routed; each accepted request tells exactly the active workers, and a failed one changes nothing |
| HotSwap.HotSwapKeepsRoutesLive | tinyFaaS-ext/pkg/manager/manager.go:130-209 | over any interleaving of uploads, any step failing, a failed route update applied or not: every route points at a started, undestroyed handler |
| HotSwap.RoutesLiveExactly | tinyFaaS-ext/pkg/manager/manager.go:130-314 | with deletes and late route updates allowed, routes stay live exactly as long as no event destroys a routed handler or applies late an update to a destroyed one |
| HotSwap.UploadsSpareRoutes | tinyFaaS-ext/pkg/manager/manager.go:201-207 | the handler an upload destroys is not routed, although it was looked up outside the mutex |
| HotSwap.LateUpdateBreaks | tinyFaaS-ext/pkg/manager/manager.go:182-186 | a run in which a route update applied after its upload gave up routes the function to a destroyed handler |
| HotSwap.DeleteLosesRouteBriefly | tinyFaaS-ext/pkg/manager/manager.go:272-311 | a delete of a routed function leaves the route dead between its destroy and its route update, and live again after |
| HotSwap.EveryEndFreesTheMutex | tinyFaaS-ext/pkg/manager/manager.go:130-314 | however an upload or a delete ends, at any failing step or in success, the mutex is free again |
| Manager.ManagementService.CreateFunction | tinyFaaS-ext/pkg/manager/manager.go:69-210 | one upload alone: it succeeds exactly when the name is letters and digits, the archive unpacks, the handler is created and started, the route update is accepted and a previous handler is destroyed; the table, the routes and the handlers are determined on every path: a created handler stays in the table even if it never starts, a route update applied but not confirmed stays, and only a success destroys the previous handler |
| Manager.ManagementService.TellProxy | tinyFaaS-ext/pkg/manager/manager.go:182-190 | the route update is accepted, refused or lost, and a lost one may still have been applied |

## Left out

- HTTP, JSON, base64, zip and the Docker client: health checks, deploys, relay transfers and route updates are replies an event or a parameter chooses.
- The CoAP and gRPC front ends: they call the proxy directly, past the scheduler and the load counters.
- The hardware diagnostic cmd/verify-wiring, environment and duration parsing, the function idle reaper, logs and process lifecycle.
- RemoveNode and adding nodes at runtime: nothing calls them after startup.
- Real time: the clock is an abstract nondecreasing integer, the follower timeout may fire at any moment, and the saturation of Go durations is not modelled.
- Data races: the unlocked reads of functionHandlers (manager.go:132, 262) and of hosts (rproxy.go:69) are modelled as atomic.
- Registry.Registry.ActivateNode: the class shows each method run by one goroutine alone, the closing of a record it waits on being a parameter; all other interleavings are those of the Protocol module.
- Registry.DeployFunctions: the concurrent deploys of one wake are taken one after another, in any order; the Protocol module interleaves their completions.
- Registry: the node table holds values in a map instead of pointers to nodes; the code never shares those pointers outside the lock.
- Frontend.Handle: headers, bodies and the text of the forwarded URL are not modelled.
- RouteProxy.RProxy.Choose: the call itself and the time of last use kept per function are not modelled.
- Manager.ManagementService.CreateFunction: the temporary files of an upload are not modelled beyond failing to unpack.
- ColdBoot.DeployedMatchesStore: a deploy or push replaces one function's definition; partial failures inside a worker are a reply that says failed but may have landed.
- Wake.WakeEnds: termination is for infinite runs that keep giving the leader turns; an external call that never returns is outside it.
- The single-node fallback of the topology loader and the ports, banners and usage messages of main.
