# Verified model of the operations platform

The repository is a multi-service platform that perceives events, keeps a world model of entities and
anomalies, reasons about situations, turns decisions into plans, executes them, and learns from the
outcome. This project models its stateful cores in Dafny and proves what they keep over whole runs.
`dafny verify dfyconfig.toml` checks everything.

**Plan execution** is modelled twice. `Protocol` is a transition system with one event per stretch of
code between two `await`s of `PlanRunner.execute`, of each `_run_step` coroutine, of the monitor and of
the polling human handler, and with the operator's approve and delete requests split into their read and
their write of the stored plan. A run is any sequence of enabled events, so a lemma about all runs covers
every interleaving, including stale writes. `PlanRunner` is the object with the loop, proved to take only
steps of that system. The properties live in `DependencySafety`, `Rounds`, `Layers`, `FatalBatch`,
`Termination` and `Approval`; `GatedRuns` shows that undisturbed runs exist, `Survival` when a plan outlives
a failure that should stop it, `OneApproval` how many approvals it needs, `Outcomes` what a run can end in,
and `RulePlans` how plans made without a template end.

**The other cores**, one module each:

- plan endpoints and templates: `PlanApi`, `Generator`, `Templates`
- delegation tasks and their conflicts: `TaskMirror`, `Conflicts`
- world model: `AnomalyRegistry` and `AnomalyLaws`, `EntityRegistry`, `SituationAssessor`
- memory: `MemoryRouter` (a log consumer with crashes and redelivery), `WorkingMemory`
- feedback loop: `GraphUpdater`, `Playbooks`, `FastPath` with its `RuleTable`
- edges of the system: `BrowserSdk`, `MonitorAgent`, `ChaosController`

`Wrappers`, `Events` and `Sorting` (Python's stable `sorted`) are shared.

Code that mutates fields is a class whose methods are proved equal to a specification function or to an
event of a transition system; what the program promises is then proved about that function or about all
runs. Time, fresh ids, HTTP and store outcomes, and the order in which a database returns equal rows are
parameters or events. Numbers that the program keeps as floats are reals.

## What turned out false, and what holds instead

- *A failure with on_failure rollback or abort stops the plan.* The success of an approval gate writes
  RUNNING over it. In any batch with such a failure the next batch starts if and only if the last write of
  the plan status was a gate's success and something is ready (`Survival.SurvivesIff`). If the other steps of
  a plan, down to the depth of step f, have handlers and ask a human only at gates that can be polled, then
  some run goes on after the failure of f if and only if a gate shares the dependency depth of f and some
  step one deeper does not depend on f (`Survival.OutlivedIff`).
- *Each gate needs its own approval.* The handler accepts any succeeded gate of the stored plan. For plans
  with handlers for all steps, human ones only at gates that can be polled, this holds in all runs exactly
  when no gate is handled by a service and there are no two gates (`OneApproval.OwnApprovalIff`); any number
  of gates can pass on one approval (`GatedRuns.GatedRunExists`).
- *A human-handled step needs an approval.* So it is when no gate is handled by a service
  (`Approval.HumanStepNeedsApproval`). A gate that a service handles passes by itself and stands in for the
  approval: an alert marked as a gate lets the hand-over beside it pass (`OneApproval.AlertOpensHandoff`). In
  every run without an approval, of any plan, a human-handled step has succeeded only if such a gate, no
  deeper than it, has (`OneApproval.UnapprovedNeedsServiceGate`). And a plan as in the last point can be
  completed with no approval if and only if each human-handled step has a service-handled gate at no
  greater dependency depth (`OneApproval.UnapprovedRunIff`).
- *The escalation plan can be approved.* Its step is named in `approval_gates` but not marked as a gate, so
  no operator action lets it succeed (`Approval.EscalationNeverSucceeds`).
- *Deleting a plan stops it.* An operator's request changes only the stored copy, never the runner's plan, its
  coroutines or its control (`Outcomes.OperatorLeavesRunnerAlone`).
- *A plan ends when its success criteria are met.* Only a world-model criterion with the word "resolved" is ever
  found met. A plan of two layers whose steps can be run has a run that ends SUCCEEDED with steps still
  PENDING if and only if it has such a criterion (`Outcomes.EarlySuccessIff`). A rule-based plan has none; if
  just its notification fails, it stays RUNNING for good (`RulePlans.RulePlanEnds`).
- *Appending keeps a plan well formed.* The new id is the number of steps. It repeats an id exactly when it
  is taken (`PlanApi.PushUniqueIff`), as for rule-based plans (`PlanApi.AppendCollides`). With a free name the
  dependencies stay free of cycles exactly when they were and the last step does not need a step of that
  name (`PlanApi.PushCycleFreeIff`); free of cycles means that no step needs one of its own name
  (`PlanApi.CycleFreeIff`).
- *Rendering is substitution.* For two parameters it is, on all templates, exactly when the second value is
  its own hole or the first neither contains the second hole nor ends with the beginning of it
  (`Templates.TwoParametersIff`).
- *Resolving conflicts converges.* Exactly when none of those reported is merged, because a merge leaves the
  losers' tasks pending (`Conflicts.ConvergesIff`); tasks made by `create_task` carry no risk and are never
  merged. They carry no plan id either, so the plans of cancelled tasks go on
  (`Conflicts.CancelledTasksKeepTheirPlans`). A merge of tasks of one plan aborts that plan
  (`Conflicts.MergeExtends`).
- *The two copies of a task agree.* Exactly when its entity can be found (`TaskMirror.CreateAgreesIff`).
- *A resolution closes the anomalies of its entity.* It closes more exactly when another entity's key begins
  with the resolved name (`AnomalyLaws.ResolvesExactlyIff`). An unknown severity breaks the mirror exactly
  when the time had changed (`AnomalyLaws.UnknownSeverityBreaksStep`), and makes `get_open` raise
  (`AnomalyRegistry.GetOpenSpec`).
- *Health is never upgraded silently* (world_model/entity_registry.py:80). `EntityRegistry.SilentUpgrade` is one.
  An unresolved event improves the health held if and only if its own verdict is better and it does not score
  below the entity's last event, or names the entity twice (`EntityRegistry.SilentUpgradeIff`).
- *No event is lost* (memory/router.py:6). While the key of an event is set and no dispatch of it is under way,
  no continuation at all puts it into a layer (`MemoryRouter.SetKeyFreezesLayers`). So it is lost, and the
  commit passes it, when the process dies between setting the key and the end of gather
  (`MemoryRouter.CrashLosesEvent`), when it loses the reply that set the key
  (`MemoryRouter.LostReplyLosesEvent`), and when the dispatch fails
  (`MemoryRouter.LaterCommitPassesFailure`). There is no other way, but for a dedup call that raises without
  effect and a message without an id (`MemoryRouter.CommittedMessages`).
- *More successes never mean less confidence.* From no edge this holds exactly when the better history is ahead
  at the moment the other edge is created (`GraphUpdater.BetterFromScratchIff`,
  `GraphUpdater.EarlySuccessCanCost`).
- *A gated playbook stays gated under failures.* Exactly when its counts with one more failure round below the
  gate (`Playbooks.StaysGatedIff`); a hand-set rate need not (`Playbooks.SeededRateEscapes`). Each
  playbook whose request is applied takes the listed counts with the outcome, so an update made since the
  listing is lost (`Playbooks.StaleRowLosesUpdate`).
- *Restarts need approval* (actions.yaml:37-41). The fast path does not consult the registry: it recommends a
  restart unattended exactly when the top anomaly asks for one, no lag comes first, and the rate seen is at
  least 0.65 (`RuleTable.RestartUnattendedIff`).
- *Events are delivered in call order.* If none is queued twice, exactly when each success is of the oldest batch
  in flight and each failure of the newest (`BrowserSdk.OrderKeptIff`). Batches answered with an error status
  count as sent (`lost` in `BrowserSdk.QueueConserved`).
- *Three clicks within 2 seconds are a rage click* (sdk/cognitive_sdk.js:241). The code asks for gaps below 800 ms
  (`BrowserSdk.SlowTriplesAreMissed`).
- *A signal is sent once per anomaly.* Exactly when each anomaly was observed in one unbroken stretch among those
  of its entity (`MonitorAgent.SignalledOnceIff`). While two stay open, every poll repeats both
  (`MonitorAgent.TwoAnomaliesSignalEveryPoll`).
- *The emergency reset leaves nothing active.* Exactly when no listed injector raises and no pending activation
  succeeds (`ChaosController.ResetAndPendingIff`); with calls that overlap it, exactly when nothing remained or
  came back (`ChaosController.OverlappedResetClearsIff`).

## Model

| member | source | states |
|---|---|---|
| PlanSchema.ReadyStepsSpec | planning/schema.py:80-87 | the ready steps are exactly the pending ones whose dependencies have all succeeded, each once, in plan order |
| PlanSchema.ReadyIff | planning/schema.py:80-87 | in plan order: listed exactly if pending and each id it depends on is that of a succeeded step |
| DependencySafety.ApplyKeepsInv | execution/runner.py:32-106 | every event of any party keeps: started steps have succeeded dependencies, statuses only evolve forward |
| DependencySafety.StartedHasDependencies | planning/schema.py:80-87 | in every interleaving a step leaves PENDING only when each id it depends on belongs to a succeeded step |
| DependencySafety.SuccessIsFinal | execution/runner.py:90-106 | success is never revoked and PENDING never returns, in any continuation |
| DependencySafety.BlockedNeverStarts | execution/runner.py:35-47 | steps on a cycle, or downstream of a failure, a cycle or a missing id, never start |
| Rounds.RoundsAndCallsBounded | execution/runner.py:35-54 | at most as many rounds as steps, no empty round, no step in two rounds, no handler invoked twice |
| Rounds.PendingBetweenRounds | execution/runner.py:35-47 | between rounds the pending steps are exactly those in no round so far, so each round strictly shrinks them |
| Rounds.PendingHasReadyAncestor | planning/schema.py:80-87 | with acyclic, fully named dependencies and no failed step, a pending step implies a ready one |
| Rounds.StuckReturn | execution/runner.py:35-54 | `execute` returns RUNNING only for an incomplete plan with nothing ready, which for acyclic named dependencies means a step failed |
| Layers.ReadyIsLayer | planning/schema.py:80-87 | with all shallower layers done and the rest untouched, the ready steps are exactly the next dependency layer |
| Layers.RoundsAreLayers | execution/runner.py:35-54 | in undisturbed runs round k runs exactly depth k; on return all steps and the plan are SUCCEEDED and the round count is the longest chain |
| Layers.ChainBelowDepth | planning/schema.py:80-87 | no dependency chain is longer than the depth of its last step plus one |
| Layers.ChainOfDepth | planning/schema.py:80-87 | every step ends a chain of exactly its depth plus one |
| Layers.AcyclicHasDepth | planning/schema.py:80-87 | every acyclic, fully named plan has a dependency depth |
| GatedRuns.GatedRunExists | execution/runner.py:26-106 | a plan whose human-handled steps are gates that can be polled has an undisturbed run in which all steps succeed, on one approval at most, given for a human-handled gate that no gate precedes and no service-handled gate accompanies |
| FatalBatch.NoBatchAfterFatalFailure | planning/monitor.py:39-51 | after a failure with on_failure rollback or abort no later batch starts unless a gate of the same batch succeeded, in any order of siblings and criteria |
| Survival.RunningByLastWriter | execution/runner.py:57-106 | in every interleaving of a batch the plan is RUNNING at its end exactly if the last write of its status was a gate's success, or there was none and it was RUNNING |
| Survival.StatusByLastWriter | planning/monitor.py:35-76 | over every run, whole or in part, the plan's status is exactly what its last write left: SUCCEEDED by a fired criterion or completion, ROLLED_BACK or ABORTED by a recorded failure, RUNNING by a gate's success, AWAITING_APPROVAL by a saved gate |
| Survival.ReturnedStatus | execution/runner.py:35-54 | when `execute` returns the plan has that status and the store holds exactly that plan; after a fired criterion it is SUCCEEDED |
| Outcomes.SuccessNeedsCall | execution/runner.py:66-92 | in every run a step has succeeded only if its handler was called; without a handler it is never called and never succeeds |
| Outcomes.PollsUntilTimeout | execution/handlers/human.py:26-46 | a waiting step has been polled every ten seconds and can be polled again exactly while its timeout is not used up |
| Outcomes.PollEndsIff | execution/handlers/human.py:29-46 | a poll ends the waiting exactly if the store answers and its copy has a decided gate; otherwise only ten more seconds have gone |
| Outcomes.FirstGateDecidesPoll | execution/handlers/human.py:33-40 | the first decided gate of the stored copy decides a poll; after a failed one the step never succeeds in any continuation |
| Outcomes.EarlySuccessIff | planning/monitor.py:53-71 | a plan of at least two layers whose steps can be run has a run that returns SUCCEEDED, stored so, with steps still PENDING if and only if it has a world-model criterion with the word "resolved" |
| Outcomes.NothingToDoIff | execution/runner.py:32-54 | `execute` returns SUCCEEDED without a batch exactly if each step had succeeded or been skipped |
| Outcomes.OperatorLeavesRunnerAlone | planning/api.py:78-108 | no sequence of operator requests changes the runner's plan, coroutines or control |
| RulePlans.RulePlanEnds | planning/generator.py:100-141 | in every run a returned rule-based plan is SUCCEEDED with all steps, RUNNING with a failed notification, ROLLED_BACK with a failed action and no notification, or ABORTED at its gate with nothing else run |
| Survival.SurvivesIff | execution/runner.py:102-104 | in every interleaving of a batch with a fatal failure, a further batch starts if and only if the last status write was a gate's success and a step is ready |
| Survival.GateRevivesIff | execution/runner.py:102-104 | a gate answered after the failure was recorded starts a further batch if and only if something is ready once it has succeeded |
| Survival.FailureLastStops | planning/monitor.py:39-45 | a failure recorded after everything else stops the plan |
| Survival.RoundsWithinLayers | execution/runner.py:35-47 | in every run, whatever fails, a step only ever runs in the round of its dependency depth |
| Survival.OutlivedIff | execution/runner.py:102-104 | for every plan and step f such that the other steps down to its depth have handlers and ask humans only at gates that can be polled: some run goes on after a failure of f that should stop it if and only if a gate shares its depth and some step one deeper does not depend on it |
| Termination.RunnerEventLowers | execution/handlers/human.py:27-46 | each event of the runner lowers a measure that operator requests leave alone |
| Termination.RunnerEventsBounded | execution/runner.py:26-106 | in any interleaving the runner takes at most the initial measure of steps |
| Termination.Progress | execution/runner.py:35-106 | until `execute` returns or raises the runner has an enabled event |
| Termination.RunCanEnd | execution/runner.py:26-54 | from every reachable state some continuation ends the run |
| Approval.ApplyKeepsGated | planning/api.py:78-108 | in the runner's plan, the stored copy, pending requests and pending saves, a passed gate always means an approval |
| Approval.HumanStepNeedsApproval | execution/handlers/human.py:27-46 | in a plan no gate of which is handled by a service, a human-handled step succeeds only after an approve call found some gate stored waiting |
| Approval.EscalationNeverSucceeds | plan_templates.yaml:83-96 | no sequence of operator calls lets the escalation plan succeed |
| Approval.MainStepNeedsApproval | planning/generator.py:104-131 | s1 of a rule-based plan starts only if an approve call read the stored plan while s0 was stored waiting |
| Approval.UnapprovedPlanAborts | execution/handlers/human.py:27-46 | without approval the runner takes at most 257 steps and a return leaves the plan ABORTED with s1 and s2 PENDING |
| OneApproval.OnlyGateNeedsItsApproval | execution/handlers/human.py:35-38 | in every interleaving the only gate of a plan passes only after an approve call found that very gate stored waiting |
| OneApproval.ApprovedCopyOpens | execution/handlers/human.py:29-38 | whenever the stored plan shows an approved gate, a step being polled can pass on it with no approval of its own |
| OneApproval.OwnApprovalIff | execution/handlers/human.py:35-38 | for every plan whose steps have handlers and whose human-handled steps are gates that can be polled: each gate needs its own approval in all runs exactly when no gate is handled by a service and there are no two gates |
| OneApproval.UnapprovedNeedsServiceGate | execution/handlers/human.py:29-38 | in every run of any plan without an approval, a human-handled step has succeeded only if a service-handled gate at no greater depth has |
| OneApproval.UnapprovedRunIff | execution/handlers/human.py:35-38 | such a plan has a run that completes it with no approval if and only if every human-handled step has a service-handled gate at no greater depth |
| OneApproval.AlertOpensHandoff | execution/action_registry.py:21-34 | an alert marked as a gate lets the human gate beside it pass by itself |
| PlanRunner.ReadVerdict | execution/handlers/human.py:35-40 | the scan returns the verdict of the first decided gate, and none exactly when no gate is decided |
| PlanRunner.Runner.RunSegment | execution/runner.py:56-106 | every stretch of a step's coroutine, the monitor's and the handler's included, is its event of the protocol |
| PlanRunner.Runner.Operator | planning/api.py:78-108 | the two halves of approve and delete are their events |
| PlanRunner.Runner.AwaitBatch | execution/runner.py:45-47 | whatever happens during gather is a run of the protocol |
| PlanRunner.Runner.Execute | execution/runner.py:26-54 | the loop under an arbitrary schedule refines the transition system: its events form a run ending in this object's state |
| Sorting.SortSpec | world_model/anomaly_registry.py:129-133 | Python's sort as every ranking uses it: a sorted, stable permutation; items of one key keep their order |
| PlanApi.Api.Append | planning/api.py:111-139 | the loop finds the first step with the action; exactly the named plan changes, by the append specified; 404 changes nothing |
| PlanApi.AppendSpec | planning/api.py:118-138 | nothing changes if the source lacks the action; else one step more, named by position and chained to the last, a copy of the first source step with the action or a plain step of 60 seconds, rollback, no gate, pending |
| PlanApi.Api.Delete | planning/api.py:100-108 | only the status becomes ABORTED; 404 exactly for an unknown plan |
| PlanApi.Api.Approve | planning/api.py:78-97 | the loop marks exactly the waiting gates, and an awaiting plan runs again |
| PlanApi.ApproveSpec | planning/api.py:85-96 | after an approval no gate waits, exactly those that did have succeeded, a plan that awaited approval is RUNNING, and nothing else has changed |
| PlanApi.PushUniqueIff | planning/api.py:124-127 | appending keeps ids unique exactly when the new name is not taken |
| PlanApi.PushCycleFreeIff | planning/api.py:124-127 | for every plan whose next name is free, the dependencies stay free of cycles if and only if they were and the last step does not need a step of that name |
| PlanApi.CycleFreeIff | planning/schema.py:80-87 | some rank falls along all named dependencies if and only if no step needs one of its own name |
| PlanApi.DanglingBecomesCycle | planning/api.py:125-126 | the smallest case in which an append closes a cycle |
| PlanApi.AppendsKeepPlan | planning/api.py:118-138 | from ids s0..s(n-1) and acyclic named dependencies any sequence of appends keeps ids unique, dependencies acyclic and, for unstarted copies, all steps PENDING |
| PlanApi.AppendCollides | planning/api.py:125-125 | the first append to a rule-based plan without approval repeats an id |
| Templates.Render | planning/generator.py:42-47 | the loop is the fold of single replacements in parameter order |
| Templates.ReplaceFills | planning/generator.py:46-46 | one replacement fills exactly the holes of its key, wherever they stand, in text that neither holds nor begins its pattern |
| Templates.RenderIsSubstitution | planning/generator.py:42-47 | the sequential loop is simultaneous substitution when braces only open holes and values open none |
| Templates.RenderIgnoresOrder | planning/generator.py:42-47 | then the order of the parameters does not matter |
| Templates.RenderTwice | planning/generator.py:51-58 | and rendering a rendered string changes nothing |
| Templates.TwoParametersIff | planning/generator.py:42-47 | for two parameters with any values the loop is substitution on all templates if and only if the second value is its own hole or the first neither contains nor ends with the beginning of the second hole |
| Templates.ValueWithHoleDependsOnOrder | planning/generator.py:42-47 | with a hole inside a value the order of the parameters shows |
| TaskMirror.CreateAgreesIff | world_model/core.py:217-236 | a new task keeps relational and graph copies in agreement exactly when its entity can be found |
| TaskMirror.CreatedIs | world_model/core.py:217-236 | what a creation leaves in the row and the node; other tasks stay as they are |
| TaskMirror.CopiesAgree | world_model/causal_engine.py:138-164 | over any history of such creations and updates both copies of each status agree |
| TaskMirror.StatusIsLastWord | world_model/core.py:217-232 | over any history a task has a row exactly if created, with the last status set, pending until then |
| TaskMirror.TargetEntityIs | world_model/causal_engine.py:143-147 | which entity a task is linked to, and exactly when the lookup raises |
| Conflicts.RankedSpec | coordinator/conflict_resolver.py:25-32 | the ranking has the same tasks, by descending confidence over risk |
| Conflicts.RankedIsStable | coordinator/conflict_resolver.py:30-30 | tasks of equal score are ranked in the order in which they were reported |
| Conflicts.WinnerIsFirst | coordinator/conflict_resolver.py:30-32 | the winner is the first reported task of maximal score |
| Conflicts.ScoreSpec | coordinator/conflict_resolver.py:8-28 | a task scores its confidence at low risk, half of it at medium, a third otherwise |
| Conflicts.MergeIff | coordinator/conflict_resolver.py:34-38 | a conflict is merged if and only if the first task of maximal score has low or medium risk and all others low |
| Conflicts.PriorityAborts | coordinator/conflict_resolver.py:49-59 | PRIORITY aborts exactly the plans a losing task names |
| Conflicts.Resolver.ResolveConflict | coordinator/conflict_resolver.py:16-59 | the merge and cancel loops change tasks and plans as specified |
| Conflicts.ResolveEffect | coordinator/conflict_resolver.py:49-59 | PRIORITY leaves exactly the winner pending on the entity, MERGE leaves all, other entities are untouched |
| Conflicts.ResolveAllEffect | world_model/causal_engine.py:166-184 | which tasks stay pending after a whole report has been resolved, for every task and entity |
| Conflicts.ConvergesIff | coordinator/conflict_resolver.py:34-59 | after resolving everything reported the next detection is empty if and only if nothing could be merged |
| Conflicts.CreatedTasksConverge | world_model/causal_engine.py:138-184 | for tasks of `create_task`, which all score alike, one resolution leaves exactly one pending task per conflicted entity, the one reported first; the copies agree and the next detection is empty |
| Conflicts.CancelledTasksKeepTheirPlans | world_model/causal_engine.py:150-156 | and it touches no plan but "plan_unknown", so the plans of cancelled tasks go on |
| Conflicts.MergeExtends | coordinator/conflict_resolver.py:40-48 | a merge appends one renamed copy per loser in score order, each chained to the step before, and aborts the losers' plans, the winner's too exactly if a loser shares it |
| AnomalyRegistry.Tracker.ProcessEvent | world_model/anomaly_registry.py:61-103 | opens, refreshes, escalates or resolves as specified, both copies, and says whether it raises |
| AnomalyRegistry.Tracker.CloseAll | world_model/anomaly_registry.py:113-124 | exactly the selected entries are popped, marked resolved and written |
| AnomalyRegistry.Tracker.CountBySeverity | world_model/anomaly_registry.py:135-139 | the loop counts each severity that occurs, and only those |
| AnomalyRegistry.CountsSum | world_model/anomaly_registry.py:135-139 | the severity counts add up to the number open |
| AnomalyRegistry.GetOpenSpec | world_model/anomaly_registry.py:129-133 | raises exactly if an open severity is unknown; otherwise the open anomalies, worst first, stable within a severity |
| AnomalyLaws.ReloadIsSame | world_model/anomaly_registry.py:50-59 | when the copies are in step a restart rebuilds the same open entries |
| AnomalyLaws.RegistryFollowsEvents | world_model/anomaly_registry.py:50-127 | over any operations and restarts with known severities the open map is what is stored open and each key lives the life its events prescribe |
| AnomalyLaws.OpenSeverityIsWorst | world_model/anomaly_registry.py:78-103 | one open anomaly per key, with the id, time and details it was opened with, the latest time and confidence, and the worst severity since it opened, critical before high before medium before low |
| AnomalyLaws.ClosedIsStored | world_model/anomaly_registry.py:105-124 | a closed anomaly stays stored as it was, resolved at the time of the resolution or sweep; all others stay as they are |
| AnomalyLaws.SweepClosesIff | world_model/anomaly_registry.py:105-117 | a sweep closes exactly what was last seen more than 600 seconds ago |
| AnomalyLaws.OpensAtTheEnd | world_model/anomaly_registry.py:73-103 | opening and refreshing keep the order of the open anomalies, new ones come last; info events do nothing |
| AnomalyLaws.RaisesIff | world_model/anomaly_registry.py:76-86 | a reference raises exactly if its anomaly is open and a severity of the two is unknown |
| Events.RankOrder | world_model/anomaly_registry.py:19-19 | critical before high before medium before low before info |
| Events.ResolutionIff | world_model/anomaly_registry.py:69-69 | a resolution is an event type that ends in _resolved or _restored |
| AnomalyLaws.UnknownSeverityBreaksStep | world_model/anomaly_registry.py:79-111 | a call that raises has set one time and stored nothing more, and leaves the copies in step exactly when that time had not changed |
| AnomalyLaws.ResolvesExactlyIff | world_model/anomaly_registry.py:119-124 | a resolution closes exactly the entity's anomalies if and only if no open key of another entity begins with its name |
| AnomalyLaws.PrefixClosesTooMuch | world_model/anomaly_registry.py:119-124 | resolving svc:api also closes an anomaly of svc:api-gateway |
| EntityRegistry.Registry.UpsertFromEvent | world_model/entity_registry.py:64-103 | the loop over references updates both copies as specified |
| EntityRegistry.Registry.UpdateTemporal | world_model/entity_registry.py:105-116 | only the temporal fields of a known entity change, in both copies |
| EntityRegistry.HealthLaw | world_model/entity_registry.py:64-137 | health is the verdict of the first event of the maximal strictly falling unresolved suffix, so it outlives its event by at most four; all other fields are determined too |
| EntityRegistry.ResolvedIsHealthy | world_model/entity_registry.py:132-134 | after any history whose last event for an entity is resolved or restored it is healthy |
| EntityRegistry.HealthTellsSeverity | world_model/entity_registry.py:135-137 | otherwise it is critical exactly for a critical event, degraded for high or medium, healthy for low or info, unknown for an unknown severity of the event it dates from |
| Events.ScoreOrder | world_model/entity_registry.py:17-17 | severities score 5 to 1 from critical to info, unknown ones as info |
| EntityRegistry.SilentUpgradeIff | world_model/entity_registry.py:64-103 | after any history, an unresolved event improves the held health if and only if its verdict is better and it does not fall below the entity's last event, or names the entity twice |
| EntityRegistry.SilentUpgrade | world_model/entity_registry.py:80-83 | critical, high, high upgrades health without a resolution |
| SituationAssessor.Assess | world_model/situation_assessor.py:45-69 | the scoring loop and cut return the prefix of the specified ranking |
| SituationAssessor.SeverityCounts | world_model/situation_assessor.py:19-25 | all else equal a critical anomaly scores 2, 5, 20, 100 and 10 times a high, medium, low, info and unknown one |
| SituationAssessor.DependantsCount | world_model/situation_assessor.py:60-65 | a fresh critical anomaly scores ten times its confidence, and each dependant adds a fifth of that |
| SituationAssessor.AgeCounts | world_model/situation_assessor.py:55-65 | five minutes multiply the score by exp(-0.693) |
| SituationAssessor.PrefixIs | world_model/situation_assessor.py:69-69 | the cut keeps the first n, or all; a negative n drops as many at the end |
| SituationAssessor.RankingIgnoresTime | world_model/situation_assessor.py:48-69 | for fixed anomalies and blast counts the ranking and every top-n cut are the same at any time |
| SituationAssessor.ScoresAtLeastIff | world_model/situation_assessor.py:55-68 | which of two anomalies scores higher depends only on their bases and on how far apart they were opened |
| SituationAssessor.RankedSpec | world_model/situation_assessor.py:66-69 | a permutation of the open anomalies, best score first, stable among equal scores |
| MemoryRouter.ApplyKeepsInv | memory/router.py:99-174 | every event, crash and partial failure keeps positions, claims, spacing and layer contents consistent |
| MemoryRouter.FanOutOncePerLifetime | memory/router.py:119-125 | two dispatches of one event id are more than 86400 seconds apart, over all crashes and redeliveries |
| MemoryRouter.DuplicateIff | memory/router.py:119-125 | over any run a message is taken for a duplicate exactly if its id was claimed at most 86400 seconds ago; else an answered call claims it |
| MemoryRouter.FinishedReachesAll | memory/router.py:127-174 | a claim whose gather ended without failure has put its event into every layer to which its message was due when the gather began |
| MemoryRouter.CommittedMessages | memory/router.py:99-107 | the commit never passes a message not handed over; a committed id has a claim unless its dedup call raised without effect, and every claim of it is in all layers it wanted unless its own dispatch failed, was cut off or never began |
| MemoryRouter.LayersHoldTheirOwn | memory/router.py:127-158 | over any run a layer holds an event only if a message with its id that was handed over qualifies for the layer |
| MemoryRouter.SetKeyFreezesLayers | memory/router.py:119-125 | while the key of an id is set and no claim of it is being served, every continuation leaves which layers hold it exactly as it is |
| MemoryRouter.CrashLosesEvent | memory/router.py:99-125 | a process that dies between setting the key and the end of gather: the redelivered message is committed as a duplicate, and until the key expires no continuation changes its layers; before gather that is none, if the claim was the first |
| MemoryRouter.LostReplyLosesEvent | memory/router.py:99-125 | the same when the reply of the call that set the key is lost, once the next message is handled |
| MemoryRouter.LaterCommitPassesFailure | memory/router.py:99-107 | the same after a failed dispatch whose key is still set, whatever the next message is |
| MemoryRouter.Router.BuildTasks | memory/router.py:127-158 | the conditional appends list exactly the layers to which the message is due: working memory for high or critical events under 120 seconds old or without a readable time, semantic with references, vector above low, episodic and procedural always |
| MemoryRouter.Router.ClaimKey | memory/router.py:111-125 | the dedup check with its early returns, answered or raising before or after its effect, is its event |
| MemoryRouter.Router.Gather | memory/router.py:160-161 | all writes run to their ends in any order, landing or not, failing or not, as a run of the system |
| MemoryRouter.Router.Route | memory/router.py:111-174 | `_route` as a whole is a run of the system; it fails exactly if a message with an id meets a raising dedup call, or is new and a write it is due to fails |
| MemoryRouter.Router.Handle | memory/router.py:99-107 | one turn of the consume loop, with every exception it can meet, is a run; it counts the message as routed exactly if neither the route nor the commit fails, else as an error, and an error moves the commit only if the commit raised after its effect |
| WorkingMemory.Memory.Store | memory/working.py:29-66 | hash, index entry and both lifetimes are written as specified |
| WorkingMemory.Memory.FlushExpired | memory/working.py:110-114 | removes exactly the index entries out of the window and counts them |
| WorkingMemory.FlushIsInvisible | memory/working.py:110-114 | a flush anywhere in a history changes nothing a strictly later read depends on |
| WorkingMemory.FlushShowsAtOnce | memory/working.py:70-76 | at the very moment of the flush it is visible |
| WorkingMemory.LimitedReads | memory/working.py:70-99 | a later read returns exactly the events last stored at most 15 minutes ago that have fewer later ones among these than its limit |
| WorkingMemory.FoundFor | memory/working.py:33-50 | an event is found for 1800 seconds after it was last stored as critical, else for 900, whatever was flushed |
| GraphUpdater.Updater.Record | feedback/graph_updater.py:38-93 | after any reports the edges are those the log of all reported outcomes describes |
| GraphUpdater.HistoryFromCreation | feedback/graph_updater.py:59-92 | the first success creates the edge and failures before it leave no trace |
| GraphUpdater.EdgeTellsItsHistory | feedback/graph_updater.py:60-87 | from creation on confidence stays within its limits and the counters are the outcome counts |
| GraphUpdater.BetterNeverLower | feedback/graph_updater.py:67-85 | on existing edges a pointwise better history never ends with less confidence |
| GraphUpdater.BetterFromScratchIff | feedback/graph_updater.py:50-92 | from no edge it stays ahead exactly when it is ahead at the moment the other edge is created |
| GraphUpdater.EarlySuccessCanCost | feedback/graph_updater.py:59-85 | with the defaults one extra early success ends at 0.59 instead of 0.60 |
| GraphUpdater.SuccessesInARow | feedback/graph_updater.py:67-69 | n successes in a row add n increments, cut at the maximum |
| GraphUpdater.EnoughSuccessesReachMax | feedback/graph_updater.py:50-78 | from any history enough successes in a row reach the maximum |
| GraphUpdater.FailuresInARow | feedback/graph_updater.py:81-84 | n failures in a row take n decrements, cut at the minimum |
| GraphUpdater.DefaultsReachLimits | feedback/graph_updater.py:24-27 | with the defaults 24 successes reach 0.99 from any history and 18 failures 0.10 from any edge |
| GraphUpdater.AnomalyTypeIs | feedback/graph_updater.py:41-45 | the anomaly type is its own field, else the event type, else unknown |
| GraphUpdater.EdgesAreIndependent | feedback/graph_updater.py:73-76 | each edge is the history of the outcomes reported for it alone |
| Playbooks.GateUnderRounding | feedback/playbook_updater.py:49-49 | rounding to four decimals moves the 0.40 gate to 0.39995, ties included |
| Playbooks.StaysGatedIff | feedback/playbook_updater.py:43-57 | a gated playbook stays gated through all further failures exactly when its counts with one more round below the gate |
| Playbooks.ConsistentStaysGated | feedback/playbook_updater.py:43-57 | a record kept by the loop stays gated |
| Playbooks.OutcomeIsCounted | feedback/playbook_updater.py:43-57 | an outcome adds one on its own side and the new rate is within 0.00005 of the quotient of the new counts |
| Playbooks.SuccessesLift | feedback/playbook_updater.py:43-57 | from any record as many successes in a row as it counts failures, at least one, lift it out of the gate |
| Playbooks.SuccessesNeverGate | feedback/playbook_updater.py:43-57 | and successes never put a consistent record back |
| Playbooks.SeededRateEscapes | feedback/playbook_updater.py:43-57 | a hand-set rate can leave the gate through a failure |
| Playbooks.RateSeenIsWorst | memory/api.py:193-193 | since the listing is sorted best first, the rate seen is the minimum over the action's playbooks |
| Playbooks.UpdateEffect | feedback/playbook_updater.py:38-67 | each listed playbook is updated at most once, no other is, and all are when every request is applied |
| Playbooks.Updater.Update | feedback/playbook_updater.py:23-71 | the loop with refused, applied and raising requests writes the listed statistics with the outcome, over rows that may have changed; for an up-to-date listing each playbook learns the outcome |
| Playbooks.StaleRowLosesUpdate | feedback/playbook_updater.py:38-58 | for every reply: a playbook whose request is applied takes the listed counts with one more success or failure as reported, and their rate, so it has learned exactly if its counts were still those listed; all others stay |
| FastPath.EvaluateSpec | reasoning/fast_path.py:160-197 | an answer exactly when some rule evaluates without error, matches and passes the gate; it is a firing rule of the highest priority, with confidence at most the rule's and the rate |
| FastPath.TiesGoToTheEarlierRule | reasoning/fast_path.py:155-155 | among equal priorities the rule listed first wins |
| FastPath.GatedActionStaysSilent | reasoning/fast_path.py:170-174 | once a playbook is gated, no feedback without a success for its action lets any rule recommend that action again, whatever else is learned, however ties are listed or rounded |
| FastPath.PraiseReopens | feedback/playbook_updater.py:38-67 | after at least as many applied successes for an action as its listed playbooks count failures its rate passes the gate and a matching rule is recommended again |
| FastPath.ApprovalByPath | reasoning/engine.py:110-155 | nothing is decided exactly without critical, high and medium anomalies; what each path answers and when it asks for approval |
| FastPath.UnreadableRatesOpenTheGate | reasoning/engine.py:68-70 | when the rates cannot be read, any matching rule that evaluates gives an answer |
| RuleTable.RestartRecommendedIff | reasoning/fast_path.py:39-150 | with the ten rules, for all situations and rates: a restart is recommended exactly if the top anomaly asks for one, its rate passes the gate and no lag comes first |
| RuleTable.RestartUnattendedIff | reasoning/fast_path.py:175-187 | and without asking for approval exactly if besides the rate seen is at least 0.65 |
| RuleTable.UnapprovedRestartIff | reasoning/engine.py:118-155 | a reasoner's answer breaks the registry's demand of approval for restarts exactly then |
| RuleTable.TableIsTree | reasoning/fast_path.py:39-197 | for all situations and rates, trying the ten rules in priority order is a decision tree, with action, parameters, confidence and approval |
| RuleTable.LagScales | reasoning/fast_path.py:50-63 | a lag anywhere in the ranking decides unless a full disk is on top: the best ranked one is scaled by three once the rate is at least 0.40, unattended from 0.65 on |
| RuleTable.RecommendedHasHandler | execution/action_registry.py:21-34 | every recommended action has a handler, a human one exactly for an escalation |
| BrowserSdk.QueueConserved | sdk/cognitive_sdk.js:80-116 | in every interleaving queued events are those sent, in flight and waiting, as multisets; the server differs exactly by error answers and late rejections |
| BrowserSdk.SentInCallOrder | sdk/cognitive_sdk.js:92-116 | with at most one flush in flight the sent events are a prefix of the calls |
| BrowserSdk.OrderKeptIff | sdk/cognitive_sdk.js:92-116 | for distinct events call order is kept throughout a run if and only if successes are of the oldest batch in flight and failures of the newest |
| BrowserSdk.CounterIsRunModThree | sdk/cognitive_sdk.js:238-256 | the counter is the length of the current rapid run modulo three, and a rage click is reported exactly at its multiples |
| BrowserSdk.RunReportsThirds | sdk/cognitive_sdk.js:238-256 | a run of m rapid clicks reports m / 3 rage clicks, whatever came before |
| BrowserSdk.SlowTriplesAreMissed | sdk/cognitive_sdk.js:241-242 | three clicks within two seconds need not be reported |
| BrowserSdk.Sdk.BeginFlush | sdk/cognitive_sdk.js:92-101 | the first half of a flush is its event, on queue, flights and ledgers, and conserves |
| BrowserSdk.Sdk.EndFlush | sdk/cognitive_sdk.js:104-115 | the second half is its event, on queue, flights and ledgers, and conserves |
| BrowserSdk.Sdk.QueueUserEvent | sdk/cognitive_sdk.js:80-89 | queueing is its event: the call is recorded and conservation holds over all requests in flight |
| BrowserSdk.Sdk.OnClick | sdk/cognitive_sdk.js:234-266 | the listener updates the counter as specified and queues a rage click before the plain one |
| MonitorAgent.SignalsAreSqueezed | agents/monitor_agent.py:38-66 | the signals for an entity are the ids observed for it with consecutive repeats removed |
| MonitorAgent.SignalledOnceIff | agents/monitor_agent.py:38-66 | over any polls no anomaly of an entity is signalled twice if and only if each was observed in one unbroken stretch |
| MonitorAgent.SqueezeSpec | agents/monitor_agent.py:47-51 | no id twice in a row, every observed id, and the same last one |
| MonitorAgent.TriggerAdmits | agents/monitor_agent.py:40-42 | which severities each trigger admits |
| MonitorAgent.TwoAnomaliesSignalEveryPoll | agents/monitor_agent.py:47-51 | two open anomalies of one entity are both signalled on each of n polls |
| MonitorAgent.Monitor.EvaluateAndSignal | agents/monitor_agent.py:38-69 | one poll handles its anomalies up to the first emission that raises, whose id stays remembered |
| ChaosController.ActiveListFollowsCalls | chaos_lab/chaos_engine/controller.py:173-226 | in every interleaving the list has no duplicates and holds exactly the scenarios whose last completed call was an activation; ACTIVE means nothing has begun to undo that |
| ChaosController.ActiveIsListed | chaos_lab/chaos_engine/controller.py:184-204 | every ACTIVE scenario is listed, even when injectors raise |
| ChaosController.PhaseFollowsEvents | chaos_lab/chaos_engine/controller.py:173-226 | the phase of a scenario is told by the last event that concerns it |
| ChaosController.CallsInFlight | chaos_lab/chaos_engine/controller.py:173-204 | how many calls wait for their injector; activating an active scenario does nothing |
| ChaosController.ResetClearsIff | chaos_lab/chaos_engine/controller.py:206-209 | run alone, the reset empties the list exactly when no listed injector raises |
| ChaosController.ResetAndPendingIff | chaos_lab/chaos_engine/controller.py:184-209 | from every state, after the reset and the ends of all pending activations nothing is active exactly when no listed injector raised and none of them succeeded |
| ChaosController.OverlappedReset | chaos_lab/chaos_engine/controller.py:193-209 | whatever other calls do at the awaits of the reset, which scenarios are listed when it is over |
| ChaosController.OverlappedResetClearsIff | chaos_lab/chaos_engine/controller.py:193-209 | such a reset leaves nothing active exactly if nothing it missed remained and nothing came back |
| ChaosController.Controller.DeactivateAll | chaos_lab/chaos_engine/controller.py:206-209 | the loop over a copy of the list, with other calls at each await, is a run whose own ends are those of the names in order up to one that raised |

## Left out

- Clients of Kafka, Redis, Postgres, Neo4j, Qdrant and HTTP: each is a map, a log or a relation here, and its failures are events.
- The language model, prompts, embeddings and vector search: their results are inputs.
- Statistics delegated to numeric libraries, dashboards, the demo shop, container and traffic injectors.
- Normalizers and adapters: threshold ladders and field copying that only give single-branch claims.
- Float rounding: scores and confidences are reals, except for the success rate, whose four decimals and ties are modelled.
- Plan fields that no decision reads: goals, descriptions, parameters, results, timestamps.
- Appends to a plan while it runs: the interleavings cover approve and delete; appends are proved on plans that are not running.
- HTTP and store errors in the middle of a conflict resolution, and two resolutions interleaving.
- `priority` order of `get_agent_tasks`, and `get_degraded` of the entity registry: sorted queries over the same state.
- Entity types, which are the part of the id before its colon, and entity hashes of working memory.
- Redis failures between the in-memory change and its copy, for anomalies and entities; interleaved calls of those registries.
- The step timeout of the runner's `wait_for` is an event that may come at any time, not a clock.
- `PlanApi.Api.Append`: a request body without an action is not modelled; every request names one.
- The reasoner's filter by domain, which only shortens the list of anomalies before the counts are taken.
- Whitespace in action names, which a decision object strips; the rules' actions have none.
- Playbook rows that change while the loop over them runs; changes before it starts are covered.
- Edges whose failure count is missing: the model starts from edges this code has created.
- `SituationAssessor.Assess`: causal insights, predictions and the text summary are not part of this model, nor are blast radius queries, whose counts are inputs.
