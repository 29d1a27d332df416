# Verified model of the pipeline control plane

This project models the control plane for ML pipelines and proves what it is for: drafts edited by several people merge
without losing or breaking anything, undo and redo only touch what they should, a run of a pipeline never deadlocks,
never starts work twice and keeps its inputs and outputs, node builds are dispatched once, published node contracts never
change, and canonical JSON decides equality of values.

| Files | Part of the system |
|---|---|
| `PipelineModel`, `Cycles`, `Inspection` | the pipeline graph, its checks, the ordering of its nodes |
| `Collaboration`, `MergeValidity`, `Documents`, `MergeConditions`, `MergeWitnesses`, `History` | the three-way merge of graphs and documents; rebasing a client's undo stack |
| `Arrangement`, `LayoutGaps` | the layout of a document around its fixed nodes |
| `PipelineStore`, `PipelineControl`, `Revisions`, `SaveEffects`, `StoreRuns`, `Replays`, `UndoTargets`, `UndoRedo`, `UndoRuns`, `UndoFrames` | the document store: commands, revisions, receipts, undo and redo |
| `RunModel`, `RunLoops`, `RunControl`, `RunInvariants`, `RunOutcomes`, `RunChanges`, `RunTransitions`, `RunLedger`, `RunMoves`, `RunHistory`, `RunCauses`, `RunMachine`, `RunSafety`, `RunTheorems`, `RunReasons` | the run coordinator |
| `Builds`, `BuildControl`, `BuildRuns`, `BuildFaults`, `BuildCancels` | the build coordinator |
| `NodePackages`, `Registry`, `RegistryService`, `RegistryEffects`, `RegistryRuns` | node packages and the node catalog |
| `StableJson`, `BoundedJson` | canonical JSON text and bounded JSON values |
| `Reconciliation`, `Wrappers` | retry delays; option and result types |

Code that changes state step by step is modelled by methods and classes (`PipelineService.PipelineControl`,
`RunService.RunControl`, `BuildService.BuildControl`, `RegistryService.NodeRegistry`, `BoundedJson.Budget`, and the loops of
the merge, the ordering, the layout, the rebase and the validation). Each is proved equal to a specification function. What
those functions mean is proved beside them, without their own definitions: when a command is accepted, what it changes and
what it leaves alone; and then what holds over every sequence of commands. The run coordinator and the build
coordinator are state machines whose steps are the transactions and the calls in between: any user command may land
between any two steps, the adapters may answer anything, clocks are arbitrary, and an advance may be abandoned at any
point. The theorems hold for all inputs, all catalogs and all runs of these machines.

Where the promise and the code differ, the code is modelled and the difference is a theorem:

- A conflict-free merge of valid drafts is not always valid. It is valid exactly when it fits, which can be checked on the
  three drafts: the schema it will have is version 2, or every node that a side added or changed passes its checks; and what
  the current draft has, less what the other side removed, plus what it added, is at most 200 nodes
  (`MergeValidity.MergeIsReadable`, `Documents.MergedDocumentIsAcceptable`). Both parts are needed: one side downgrades the
  schema while the other adds a node whose type is unavailable (`MergeWitnesses.DowngradeCanBreakAMerge`); both sides add
  50 nodes to a draft of 150, which also refuses an undo (`MergeWitnesses.NodeLimitCanBreakAMerge`). The limit on edges
  never matters, because a merge takes one side's list whole.
- Redo needs the id of the undone request to be unique in the history. Clients choose request ids, so a repeated id makes
  the redo impossible (`UndoRedo.RedoRefines`, `UndoRuns.RepeatedRequestIdBlocksRedo`).
- Terminal builds stay as they are with one coordinator. With several, exactly a late dispatch receipt reopens one
  (`BuildRuns.OnlyALateReceiptReopens`, `BuildRuns.TwoCoordinatorsCanReopen`).
- A final fault, that is a refused dispatch or an invalid result, does not always fail the build: nothing but the polling
  schedule changes when the message it would store is the one already stored (`BuildService.BuildControl.StoreFault`). One
  coordinator never meets this case, provided the builder's own messages differ from the service's
  (`BuildFaults.FinalFaultsFail`). Two can: the build fails over an invalid result, a late receipt reopens it with its
  message kept, and the next invalid result leaves it running (`BuildFaults.InvalidResultCanBeIgnored`).
- The layout aims at a gap of 30 units between a moved and a fixed node, but rounds positions afterwards, and measures the
  fixed node by the active version of its type while it is drawn by the version it is pinned to
  (`packages/pipeline-control/layout.ts:21` and `:33`). The distance every layout keeps to the fixed node as drawn is exactly
  30, less half a unit unless all coordinates are whole, less what it is drawn taller (`LayoutGaps.DrawnDistance`). So the two
  may even overlap, exactly when the pinned version is more than 29.5 units taller.

## Model

| member | source | states |
|---|---|---|
| Inspection.Inspect | packages/pipeline-model/index.ts:39-90 | a cycle is reported exactly when the accepted edges contain a directed cycle; no issue at all exactly for executable graphs; the remaining issues are the tolerated ones exactly for well-formed drafts; with no issue the order lists every node once, each edge's source before its target |
| Inspection.Sort | packages/pipeline-model/index.ts:79-88 | the queue loop emits every node exactly when there is no cycle, with parallel edges counted once each, sources first |
| Inspection.InspectNodes | packages/pipeline-model/index.ts:43-56 | node checks find nothing exactly for clean nodes with unique ids, and only tolerated issues exactly for tolerable ones |
| Inspection.ParsePipeline | packages/pipeline-model/index.ts:94-101 | a draft is read exactly when it has at most 200 nodes and 1000 edges, its graph is well formed, possibly incomplete or cyclic, and every node and nothing else has a position in range |
| Inspection.ChecksFindUnclean | packages/pipeline-model/index.ts:46-55 | the node checks find nothing exactly for a node whose type is installed, with the ports it was pinned to, accepts its configuration, and fits its settings binding |
| Inspection.ToleratedNodes | packages/pipeline-model/index.ts:96 | which nodes a draft of either schema version may hold, in terms of type, ports, configuration and binding |
| Inspection.DraftsOutliveTheCatalog | packages/pipeline-model/index.ts:92-96 | a draft of the second version with pinned ports stays valid under any other catalog exactly if the types still installed accept its configurations |
| Cycles.SourceFreeSetHasCycle | packages/pipeline-model/index.ts:88 | nodes that never reach indegree zero contain a cycle |
| Cycles.ForwardOrderIsAcyclic | packages/pipeline-model/index.ts:80-89 | an order with all edges pointing forward leaves no cycle |
| Collaboration.MergeIndependentGraph | packages/pipeline-control/collaboration.ts:10-37 | the merge with its conflict checks in the order of the code equals the specification `Merge` |
| MergeConditions.MergeSucceedsExactly | packages/pipeline-control/collaboration.ts:10-37 | two sides merge exactly when ids agree, whatever both changed they changed alike, no node that incoming changed has other edges in current than in base, and no edge that incoming added or removed ends at a node that current changed |
| MergeConditions.DocumentsMergeExactly | packages/pipeline-control/service.ts:26-38 | whole documents merge exactly when moreover no position that incoming changed was changed by current, except alike when rebasing |
| MergeConditions.IncidentIsFilter | packages/pipeline-control/collaboration.ts:23-24 | a node's wiring is its edges, in the order of the list |
| Collaboration.MergeIsThreeWay | packages/pipeline-control/collaboration.ts:14-35 | every component of a successful merge is incoming's value where incoming changed it and current's otherwise, and no remote change is lost |
| Collaboration.NoNodeConflict | packages/pipeline-control/collaboration.ts:18-24 | a successful merge had no node changed on both sides differently, and none whose edges changed under it |
| Collaboration.MergeOfUnchanged | packages/pipeline-control/collaboration.ts:20-36 | merging an unchanged side always succeeds and gives back the current graph exactly |
| Collaboration.MergeOntoBase | packages/pipeline-control/collaboration.ts:20-36 | merging onto an unchanged remote always succeeds and gives the incoming graph up to node order |
| Collaboration.MergeCommutes | packages/pipeline-control/collaboration.ts:10-37 | both argument orders agree up to node order whenever both succeed |
| Collaboration.AgreeIsPermutation | packages/pipeline-control/collaboration.ts:25-28 | agreement of graphs with unique ids is equality up to a permutation of the nodes |
| MergeValidity.MergeKeepsWellFormed | packages/pipeline-control/collaboration.ts:18-35 | a merge of well-formed graphs has unique ids, no dangling, mistyped or doubled connection, is acyclic if both sides are, and is well formed exactly when the schema version it will have suits the nodes either side added or changed |
| MergeValidity.MergeIsReadable | packages/pipeline-model/index.ts:24-35 | a merge of graphs within the limits is well formed and within them exactly when the schema version suits and the nodes it will have are at most 200, both stated on the three graphs; its edges always are |
| MergeValidity.CommonEdgeStaysWired | packages/pipeline-control/collaboration.ts:23-24 | an edge kept by all sides still joins existing ports of one kind even when its two ends were changed on different sides |
| Documents.MergePresentation | packages/pipeline-control/service.ts:30-36 | the loop over positions equals the position-wise merge, with a conflict exactly when a changed position was changed otherwise on the other side |
| Documents.MergedSlot | packages/pipeline-control/service.ts:28-38 | every node, position, name, schema and edge list of a merged document is the three-way choice, and a slot changed on both sides was changed alike |
| Documents.ReplayOntoBase | packages/pipeline-control/service.ts:26-38 | replaying a change onto content equal to its baseline never conflicts and yields the changed content |
| Documents.MergedDocumentIsAcceptable | packages/pipeline-control/service.ts:26-38 | a strictly merged document of acceptable ones has one position per node and is acceptable exactly when the merge fits, a condition on the three documents |
| MergeWitnesses.DowngradeCanBreakAMerge | packages/pipeline-model/index.ts:95-96 | three acceptable documents that merge without conflict and whose merge is refused, because one side downgrades the schema |
| MergeWitnesses.NodeLimitCanBreakAMerge | packages/pipeline-model/index.ts:29 | three acceptable documents that merge without conflict and whose merge is refused, because it has 250 nodes |
| History.RebaseHistory | apps/web/src/pipelines/history.ts:8-27 | the loop returns the rebased newest contiguous part of the stack |
| History.KeptUpToTheFirstConflict | apps/web/src/pipelines/history.ts:12-26 | the newest snapshots are kept, each with what lies between it and the next one applied to the entry kept before, up to the first that conflicts and no further |
| History.LocalSlotsRestored | apps/web/src/pipelines/history.ts:16-23 | where the remote left the document alone every kept entry has its own snapshot's value |
| History.RemoteSlotsSurvive | apps/web/src/pipelines/history.ts:16-23 | a remote value that differs from the shared one and from every kept snapshot survives in every kept entry |
| History.NothingDropped | apps/web/src/pipelines/history.ts:12-26 | nothing is dropped when the remote document equals the one the stack was built on |
| Arrangement.ClearObstacles | packages/pipeline-control/layout.ts:38-47 | the bounded loop always ends with the least downward shift at which no moved box is within 30 units of a fixed one, and that shift is zero or puts a moved box exactly below a fixed one |
| Arrangement.Progress | packages/pipeline-control/layout.ts:39-46 | every pass that moves the block retires at least one more pair of boxes for good |
| Arrangement.RoundingKeepsDistance | packages/pipeline-control/layout.ts:48 | rounding costs at most half a unit of the gap |
| Arrangement.MoveBlock | packages/pipeline-control/layout.ts:29-48 | unselected and pinned positions stay, the others are the engine's block moved by the anchor and the least clear shift, rounded, at least 29.5 units away from every fixed box |
| Arrangement.Arrange | packages/pipeline-control/layout.ts:10-50 | refuses invalid documents and unknown scopes, and otherwise returns that arrangement unless it leaves the allowed coordinates |
| LayoutGaps.WholeInputKeepsTheGap | packages/pipeline-control/layout.ts:38-48 | with whole positions and whole engine coordinates the full gap of 30 survives rounding |
| LayoutGaps.DrawnDistance | packages/pipeline-control/layout.ts:21-48 | the distance kept in every layout between moved nodes and a fixed node as drawn is exactly 30, less half a unit unless coordinates are whole, less what the pinned version is taller than the active one |
| LayoutGaps.BesideIsTight | packages/pipeline-control/layout.ts:48 | a layout of two nodes that keeps no more than 29.5 units, or 30 with whole coordinates |
| LayoutGaps.BelowIsTight | packages/pipeline-control/layout.ts:33 | a layout of two nodes in which the fixed one, drawn taller than it was measured, loses the difference |
| PipelineService.SaveDocument | packages/pipeline-control/service.ts:104-114 | saving, with a merge from the newest stored baseline of the expected revision, equals its specification |
| SaveEffects.SaveSucceedsExactly | packages/pipeline-control/service.ts:104-114 | in every run a save is permitted exactly when its revisions allow it, it keeps the id and what it leaves is acceptable; it leaves the submitted graph at the current revision, the three-way choice against the graph its revision named at an older one, the old graph if none is submitted, and the submitted layout, if any |
| PipelineService.PatchDocument | packages/pipeline-control/service.ts:115-143 | a patch applies all its edits or none |
| SaveEffects.EditIsDone | packages/pipeline-control/service.ts:119-141 | one edit is possible exactly when what it names exists, or does not for an addition, and changes just what it says, part by part |
| SaveEffects.PatchSucceedsExactly | packages/pipeline-control/service.ts:115-143 | a patch is permitted exactly when its revisions allow it, every edit is possible after the ones before it, and the end is acceptable, which is what it stores |
| SaveEffects.WritesAreRecorded | packages/pipeline-control/service.ts:174-184 | every write is signed; it has a history entry with the record before it exactly when it changed the document, and then an edit empties the redo stacks |
| PipelineService.UndoChange | packages/pipeline-control/service.ts:145-156 | undo equals its specification |
| UndoTargets.NothingToUndoExactly | packages/pipeline-control/service.ts:147-149 | whoever wrote the history, there is nothing to undo exactly when the actor has no edit that is not undone, or the newest such edit is the creation |
| UndoTargets.UndoReversesItsTarget | packages/pipeline-control/service.ts:148-156 | undo merges the reversal of the actor's newest live edit into the current document, exactly when what came after is independent of it, and flags that entry alone |
| UndoFrames.UndoSucceedsExactly | packages/pipeline-control/service.ts:145-156 | in every run an undo at the current revisions is permitted exactly when such an edit exists and can be reversed |
| UndoTargets.PushedRedo | packages/pipeline-control/service.ts:153-155 | an undo pushes onto its actor's redo stack, which forgets its oldest entry at 50, and changes nobody else's |
| PipelineService.RedoChange | packages/pipeline-control/service.ts:157-173 | redo equals its specification |
| UndoTargets.NothingToRedoExactly | packages/pipeline-control/service.ts:159-171 | there is nothing to redo exactly when the actor has no redo entry, or the newest one does not name exactly one entry, undone and of that actor |
| UndoTargets.RedoReplaysItsEntry | packages/pipeline-control/service.ts:166-173 | redo merges its entry's change into the current document exactly when that is independent, and takes that flag back |
| UndoFrames.RedoSucceedsExactly | packages/pipeline-control/service.ts:157-173 | in every run a redo at the current revisions is permitted exactly when such an entry exists and can be replayed |
| PipelineService.PipelineControl.Execute | packages/pipeline-control/service.ts:79-189 | one write is a replayed receipt, a refusal that leaves the stored state untouched, or one committed change with its receipt |
| Revisions.ChangeIsSound | packages/pipeline-control/service.ts:97-173 | every accepted change yields an acceptable document of the same pipeline |
| Revisions.CommitKeepsConsistency | packages/pipeline-control/service.ts:174-189 | every commit keeps the history consistent: each entry's baseline is the record it replaced and revisions step by content |
| Revisions.RevisionsNameContent | packages/pipeline-control/service.ts:174-184 | revision numbers only grow, and equal numbers mean equal graphs and layouts |
| Revisions.BaselinesAgree | packages/pipeline-control/service.ts:107-110 | two history baselines with one graph revision hold one graph, with one revision pair one document |
| Revisions.EveryOlderRevisionHasItsBaseline | packages/pipeline-control/service.ts:107-110 | a merge baseline exists for every older graph revision and is the one graph it ever named |
| Revisions.OnlyOlderRevisionsHaveABaseline | packages/pipeline-control/service.ts:108-109 | a revision beyond the current one, or zero, has none and the save is refused |
| StoreRuns.RunsAreInvariant | packages/pipeline-control/service.ts:94-189 | every store reachable by writes and layouts in flight is consistent |
| StoreRuns.LayoutCommitsOverItsSource | packages/pipeline-control/service.ts:88-93 | a layout computed outside the transaction commits only over the very document it was computed from, is stored as computed, and leaves pinned and unselected nodes where they are |
| StoreRuns.LayoutsCommitExactly | packages/pipeline-control/service.ts:144 | a layout in flight is committed exactly if both revisions are still those it was computed for |
| StoreRuns.CreatesExactly | packages/pipeline-control/service.ts:98-101 | a creation is permitted exactly if the document is acceptable and its id is free in the workspace; it starts at revisions 1 and 1 |
| StoreRuns.RunsStayWithinLimits | packages/pipeline-control/service.ts:96-186 | the store never exceeds its number of receipts or its size |
| Replays.RetryIsTransparent | packages/pipeline-control/service.ts:79-87 | a retry of a successful write returns its first result, whatever happened in between, and leaves no mark on any later state |
| Replays.RetriesLeaveNoTrace | packages/pipeline-control/service.ts:94-95 | any trace leaves the same records, history, redo and receipts as the trace without its retries |
| UndoRedo.EditRefines | packages/pipeline-control/service.ts:174-184 | with one writer an edit is an edit of a two-stack editor and empties its redo stack |
| UndoRedo.UndoRefines | packages/pipeline-control/service.ts:145-156 | with one writer undo is the editor's undo, failing exactly when nothing is left |
| UndoRedo.RedoRefines | packages/pipeline-control/service.ts:157-173 | with one writer redo is the editor's redo exactly when the undone request's id is unique in the history |
| UndoRuns.SoloRuns | packages/pipeline-control/service.ts:94-189 | every run of a single writer keeps the correspondence with the two-stack editor |
| UndoRuns.UndoNeverConflicts | packages/pipeline-control/service.ts:152 | in every run of a single writer an undo succeeds unless only the creation is left |
| UndoRuns.UndoRedoRoundTrip | packages/pipeline-control/service.ts:145-173 | k undos restore the content k edits back, and k redos, k at most 50, restore the content before them |
| UndoRuns.RepeatedRequestIdBlocksRedo | packages/pipeline-control/service.ts:168 | two edits under one request id: the undo of the second works, its redo is refused |
| UndoFrames.UndoTouchesOnlyItsTarget | packages/pipeline-control/service.ts:149-152 | with any number of actors an undo restores the old value where the actor's newest live edit changed something and leaves everything else alone |
| UndoFrames.RedoTouchesOnlyItsTarget | packages/pipeline-control/service.ts:166-173 | in every run of any number of actors a redo changes only what its own target edit changed |
| RunLoops.StopBlocked | packages/run-control/service.ts:399-409 | the fixpoint loop stops exactly the waiting steps downstream of an unsuccessful one through waiting steps |
| RunLoops.Aggregate | packages/run-control/service.ts:397-415 | stops what is blocked; then a run that is not stopping has succeeded if all its steps did, has failed if all ended otherwise, needs attention if one is unfinished and one failed or unclear, and runs in every other case; a stopping one is stopped once all its steps ended |
| RunLoops.Affected | packages/run-control/service.ts:216-218 | the affected loop ends, with exactly what the edited node leads to |
| RunLoops.PreviewChange | packages/run-control/service.ts:209-231 | a preview equals its specification, with its refusals |
| RunChanges.PreviewsExactly | packages/run-control/service.ts:209-231 | the affected steps are those reachable; a change is refused for references, for no difference, while another is pending or the run is stopping; it is online exactly if the step runs, all changed fields are mutable and nothing downstream has started; it resumes from a checkpoint exactly if there is one the executor can use; a step is reused exactly if it succeeded with the configuration it has and is not affected |
| RunChanges.ChangesExactly | packages/run-control/service.ts:103-130 | a change is accepted exactly if it is what the preview of the run as it is says; online it sets the step's configuration and pending change and nothing else; otherwise it adds a branch with every accepted configuration, the reused results and, if so previewed, the checkpoint |
| RunLoops.CollectInputs | packages/run-control/service.ts:268-274 | the input loop collects the predecessors' outputs on the connected ports |
| RunService.RunControl.StartRun | packages/run-control/service.ts:45-65 | only executable graphs start, and not while the same plan of the same actor is running |
| RunChanges.StartsExactly | packages/run-control/service.ts:54-64 | a start stores one fresh run of the graph, unless the same actor's run of the same revision and plan is unfinished |
| RunService.RunControl.StopRun | packages/run-control/service.ts:91-94 | a stop request, or nothing for a stale revision or a finished run |
| RunChanges.StopsExactly | packages/run-control/service.ts:91-94 | accepted exactly at the current revision of an unfinished run, which is stopping then, with all steps due |
| RunService.RunControl.ResumeRun | packages/run-control/service.ts:95-102 | a resume, or nothing unless all steps have ended and one of them unsuccessfully |
| RunChanges.ResumesExactly | packages/run-control/service.ts:95-102 | accepted exactly at the current revision of a run whose steps all ended, one of them unsuccessfully; succeeded steps stay and the others start over, from their checkpoint if the executor can |
| RunService.RunControl.ApplyChange | packages/run-control/service.ts:103-130 | exactly the previewed change, online or in a new branch, or nothing |
| RunService.RunControl.Prepare | packages/run-control/service.ts:260-280 | the first transaction of an advance and its snapshot |
| RunService.RunControl.RejectUnstarted | packages/run-control/service.ts:176-183 | a refused start stops the step of a stopping run and fails it in any other, unless the attempt is over, and the run draws the consequences |
| RunService.RunControl.RecordUnknown | packages/run-control/service.ts:327-337 | after an unclear outcome the attempt is still in flight, still dispatching if it was and unknown otherwise, never failed; nothing changes once the attempt is over |
| RunService.RunControl.CommitObservation | packages/run-control/service.ts:340-395 | an observation of the live attempt and generation is taken over as `RunCauses.CommitTaken` says, any other changes nothing |
| RunOutcomes.ObservedIsTaken | packages/run-control/service.ts:358-393 | an end is believed only from the authority and otherwise leaves the step unclear with its attempt and outputs; a step succeeds exactly for an authoritative success with every declared output, and goes back to pending exactly for an authoritative retryable failure of a step that is safe to retry, retried less than twice, in a run that is not stopping |
| RunCauses.CommitIsTaken | packages/run-control/service.ts:340-395 | the step takes the observation over, only steps never started are stopped besides, each behind one that ended unsuccessfully, the run's state says what its steps are, and a visible change has a new revision |
| RunInvariants.NoDeadlock | packages/run-control/service.ts:264-278 | an unfinished run that is not stopping has a step in flight or a pending step with succeeded predecessors |
| RunInvariants.AggregateRestores | packages/run-control/service.ts:397-415 | aggregation restores the run invariant after any sound step update |
| RunTransitions.SeenKeepsRun | packages/run-control/service.ts:357-394 | committing any reported observation keeps the run invariant and undoes nothing |
| RunTransitions.AbsentKeepsRun | packages/run-control/service.ts:343-356 | committing an absence keeps the run invariant and undoes nothing |
| RunTransitions.ResumeKeepsRun | packages/run-control/service.ts:95-102 | resuming keeps the run invariant, the succeeded steps and all generations |
| RunTransitions.DownstreamIsReachable | packages/run-control/service.ts:216-218 | the affected steps are exactly those reachable from the edited node |
| RunTransitions.BranchReusesOnlyUnaffected | packages/run-control/service.ts:113-126 | in a branch every step that starts succeeded and is no reference succeeded in the parent and is not reachable from the edited node; the parent run is unchanged |
| RunSafety.RunsAreSound | packages/run-control/service.ts:232-396 | every interleaving of commands with the advance in flight keeps the database, trace and flight invariants |
| RunTheorems.StartsFollowAbsence | packages/run-control/service.ts:286-314 | a start call follows a lookup of the same advance that said absent, and never follows a stop call or a committed sighting of the same attempt |
| RunReasons.AbsentDispatchIsStarted | packages/run-control/service.ts:296-314 | an attempt being dispatched that is absent is started by the steps that follow, unless a stop came in or its targets changed |
| RunReasons.StopOrLookup | packages/run-control/service.ts:287-290 | an advance of a stopping run asks the adapter to stop, any other looks the attempt up |
| RunTheorems.StoppingOnlyStops | packages/run-control/service.ts:264-278 | while a run is stopping no step gains an attempt, and stopping is left only for stopped |
| RunTheorems.SucceededOutputsLast | packages/run-control/service.ts:370-377 | the outputs of a succeeded step never change, across retries, stops, resumes and branches |
| RunTheorems.InputsAreOutputs | packages/run-control/service.ts:268-275 | in every later state a dispatched step's predecessors are succeeded and its recorded inputs are their outputs on the connected ports |
| RunTheorems.RunsEndOrMove | packages/run-control/service.ts:397-415 | in every reachable state a run is over exactly when all its steps are, and otherwise some step can move unless it is stopping |
| RunTheorems.AttemptsAreBounded | packages/run-control/service.ts:275-276 | at most two retries, at most 3·(resumes+1) generations, one recorded attempt per generation with the newest the live one, no attempt on a pending step |
| RunTheorems.AttemptIdsAreUnique | packages/run-control/service.ts:275-276 | no attempt id is recorded twice |
| RunReasons.CommitsAreTakenOver | packages/run-control/service.ts:340-395 | the same, in every reachable state |
| RunReasons.StepsChangeForReasons | packages/run-control/service.ts:232-396 | in every run a step changes state only by a report about its live attempt, an unclear outcome, a refused start, a stop, a failure before it, its dispatch or a resume |
| RunReasons.SuccessIsAuthoritative | packages/run-control/service.ts:369-376 | in every run a step becomes succeeded only by an authoritative report on its live attempt with every declared output, which become its outputs |
| RunReasons.RunsEndAsTheirSteps | packages/run-control/service.ts:397-415 | in every reachable state a run has succeeded exactly when all its steps did and no stop ended it, and has failed exactly when all its steps ended, one of them otherwise, and no stop ended it |
| RunReasons.OnlyStoppingEndsInStopped | packages/run-control/service.ts:398 | a run is stopped only where it was stopping before |
| RunReasons.DispatchesExactly | packages/run-control/service.ts:260-280 | in every run taking up a step dispatches it exactly when it is pending, due and fed in a run that is not stopping |
| RunReasons.ObservationsAreRecorded | packages/run-control/service.ts:359-360 | a committed sighting is recorded with its attempt and no other |
| RunReasons.ChangesAreSubmittedWhenDue | packages/run-control/service.ts:291-294 | a pending change is submitted exactly when it is due and the running attempt does not have it |
| BuildService.BuildControl.StartBuild | packages/build-control/service.ts:44-50 | a build is queued exactly when no unfinished build of the profile and source exists |
| BuildService.BuildControl.CancelBuild | packages/build-control/service.ts:81-82 | at the current revision of an unfinished build: cancelled if it was queued, otherwise to be cancelled |
| BuildService.BuildControl.StoreReceipt | packages/build-control/service.ts:116 | the receipt's run is stored and the build runs, unless it is to be cancelled |
| BuildService.BuildControl.Prepare | packages/build-control/service.ts:104-110 | a dispatch is decided exactly for a queued build that is due, and in that same transaction the build leaves queued; otherwise nothing changes |
| BuildService.BuildControl.ValidateResult | packages/build-control/service.ts:147-158 | a result is accepted exactly when identity, source, image and package checks pass for this build and run |
| BuildService.BuildControl.StoreSighting | packages/build-control/service.ts:124-132 | an ended build stays as it is, a build being cancelled is not set running again, and an end is stored only as reported |
| BuildService.BuildControl.StoreFault | packages/build-control/service.ts:133-144 | an open build fails exactly when the fault is a refused dispatch or an invalid result and its message is not the one stored already; any other fault leaves it as it is, cancelling or unknown |
| BuildRuns.RunsAreSound | packages/build-control/service.ts:18-146 | every interleaving of any number of coordinators and commands keeps the build invariants |
| BuildRuns.DispatchedAtMostOnce | packages/build-control/service.ts:107-115 | under any number of coordinators no build is dispatched twice |
| BuildRuns.HandedOutResultsAreGenuine | packages/build-control/service.ts:86-90 | a result handed out passed every check for its build and its confirmed workflow run |
| BuildRuns.SucceededBuildsHaveResults | packages/build-control/service.ts:123-130 | a succeeded build has such a result |
| BuildRuns.ReconcileCommitsOverWhatItRead | packages/build-control/service.ts:55-71 | a reconciliation commits only over the build it read, never replaces a confirmed run identity, and takes a claimed success only with a genuine result |
| BuildRuns.OnlyALateReceiptReopens | packages/build-control/service.ts:116 | for any number of coordinators, an action changes a build that ended exactly when it stores a dispatch receipt for it |
| BuildRuns.TerminalIsFinal | packages/build-control/service.ts:91-102 | with one coordinator a build that ended never changes again |
| BuildRuns.TwoCoordinatorsCanReopen | packages/build-control/service.ts:116 | a run of two coordinators in which a failed build runs again |
| BuildFaults.FinalFaultsFail | packages/build-control/service.ts:133-144 | in every run of one coordinator a fault fails an open build exactly when it is final, provided the builder's messages differ from the service's |
| BuildFaults.InvalidResultCanBeIgnored | packages/build-control/service.ts:141 | a run of two coordinators in which an invalid result leaves its build running |
| BuildCancels.CancelsReachTheBuilder | packages/build-control/service.ts:121-132 | in every run, who is about to store that a build to be cancelled still runs has asked the builder to cancel it |
| RegistryService.ValidatePackages | packages/node-registry/service.ts:57-74 | over a consistent store the loops accept exactly the admissible packages: releases immutable, built-ins untouched, one owner per type, one contract per type version, no version offered twice |
| RegistryService.NodeRegistry.Activate | packages/node-registry/service.ts:38-54 | accepted exactly when the preview still holds; stores the release and replaces its active siblings |
| RegistryService.NodeRegistry.Reload | packages/node-registry/service.ts:75-88 | accepted exactly when admissible; stores new releases and activates exactly the offered ones |
| RegistryService.NodeRegistry.Install | packages/node-registry/service.ts:89-94 | old versions stay, built-ins and active packages are offered |
| RegistryEffects.ActivatesExactly | packages/node-registry/service.ts:46-51 | the release is stored if new and becomes active, and its stored siblings are not active any more |
| RegistryEffects.ActivationReplaces | packages/node-registry/service.ts:46-51 | in every run, after an activation its release is the only active one of its package |
| RegistryEffects.ReloadsExactly | packages/node-registry/service.ts:75-86 | exactly the offered releases are active, all of them are stored, and nothing else is added |
| RegistryEffects.OffersExactly | packages/pipeline-model/catalog.ts:81-88 | a type is offered exactly when it is built in or an active package has it, whose definition comes first |
| RegistryEffects.KnowsExactly | packages/pipeline-model/catalog.ts:81-84 | a type version is known exactly when it was, or a stored package has it |
| RegistryRuns.RunsAreSound | packages/node-registry/service.ts:38-94 | every sequence of activations, reloads, late installs and restarts keeps the catalog justified by the store |
| RegistryRuns.ContractsNeverChange | packages/pipeline-model/catalog.ts:77-88 | a known type version stays known, with the same ports, fields, defaults, execution and owner |
| RegistryRuns.BuiltinsAreNeverReplaced | packages/node-registry/service.ts:67 | built-in definitions stay, by version and as the one offered for their type |
| RegistryRuns.OneOwnerPerType | packages/node-registry/service.ts:68-69 | all versions of a type belong to one package, or all are built in |
| StableJson.EqualTextIffSame | packages/workload-plan/contracts.ts:464-470 | two JSON values have equal texts exactly when they are equal with objects as maps |
| StableJson.ValueReadsBack | packages/workload-plan/contracts.ts:464-470 | the text of a value, followed by whatever may follow it, determines the value up to key order |
| StableJson.QuotedReadsBack | packages/workload-plan/contracts.ts:467 | quoted text up to its closing quote determines the string, lone surrogates included |
| StableJson.SortedKeysAgree | packages/workload-plan/contracts.ts:467 | objects have equal sorted keys exactly when they have the same keys |
| StableJson.LessByFirstDifference | packages/workload-plan/contracts.ts:467 | keys are ordered by their first different UTF-16 unit, a prefix first |
| BoundedJson.IsBoundedJson | packages/workload-plan/contracts.ts:60-70 | the check with a shared counter accepts exactly the values whose strings, arrays, objects and keys are short, whose nesting is at most 16 and whose total count of values is at most 10000 |
| BoundedJson.Check | packages/workload-plan/contracts.ts:72 | the whole check, as counts over the value |
| Reconciliation.DelaysGrow | packages/control-storage/reconciliation.ts:8-10 | a retry delay is at least the base and at most five minutes, and never shorter after more failures |

## Left out

- Authorization, scopes, workspaces' membership and the schema parsing of requests: checked before the modelled code runs.
- The schema's limits on single names, labels, ids, configuration values and port lists: a merge, an undo and a layout take these parts whole from documents that passed them. Its limits on the number of nodes and edges are modelled. Names arrive trimmed.
- Node configuration schemas: an opaque predicate per type in the pipeline graph, so a node has one configuration issue instead of one per field.
- Issue, event and history texts, event sequence numbers and provider log lines; events carry their run and kind only.
- Idempotency receipts of the run, build and catalog services; they work like those of the document store.
- Redo entries written by earlier versions, which the store repairs on first use (`packages/pipeline-control/service.ts:195-210`).
- History and redo are kept per pipeline and records, runs, steps and builds in maps by id; the source filters arrays of unique ids.
- The size limit of the document store is an abstract predicate on the stored state.
- The node catalog is fixed during a run of the document store and of the run coordinator.
- Fingerprints are represented by what they are computed from: commands, plans and previews are compared as values.
- Placements, compute bindings, targets and preflight of adapters: their outcome is a parameter of the start and of the advance.
- Order of the tick loops over runs, steps and builds: an advance of any step may begin at any time, as long as no other is in flight.
- The ELK layout engine returns arbitrary boxes; coordinates are reals, so floating-point rounding inside the shift loop is not captured.
- Fresh identifiers: new run, branch and attempt ids are arguments that must be unused.
- JSON numbers are their decimal texts; infinite numbers and values outside JSON, such as `undefined`, are not modelled.
- Checkpoint and log contents, artifact digests and sizes: artifacts have an address and a kind.
- HTTP, event streams, the MCP and proxy layers, the web interface, the file and database stores, the server registry, the monitoring projections and the release scripts.
