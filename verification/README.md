# A verified model of the workflow controller

The controller runs workflows on a cluster: a workflow is a set of named steps with dependencies, and
for each step whose dependencies are complete the controller creates a job, watches it, records its
end in the workflow's status and finally marks the workflow complete. This project models that
controller in Dafny, from the validator that admits a dependency graph to the interleaving of
controller passes with the informers that feed its caches, and proves what it guarantees. Run
`dafny verify dfyconfig.toml` here to check everything.

## How the project is laid out

| file | what it holds |
|---|---|
| `Graphs.dfy`, `TopologicalSort.dfy` | dependency graphs; the depth-first search with its shared marks and cycle recorder, as a class |
| `Api.dfy`, `Objects.dfy` | workflows as values, and as objects whose label, selector and status maps are shared by shallow copies |
| `Validation.dfy`, `Edits.dfy` | the validators, the update validator, and what accepted edits keep |
| `Jobs.dfy`, `Expectations.dfy`, `ManagerModel` in `Manager.dfy` | job labels and lookups, creation expectations, the informers' handlers |
| `Scheduling.dfy`, `Processing.dfy` | what one turn, one pass and many passes do, as functions |
| `TransitionerModel` in `Transitioner.dfy` | the transitioner's methods on objects, proved against those functions, with the failures of writes to a missing statuses map |
| `Replicas.dfy`, `FailedUpdates.dfy`, `Recovery.dfy` | one workflow on the server, on its way in a list or an update, in the name map of the polling watch and in the workflow store; when a failed update is sent again, and when a workflow recovers from one |
| `Protocol.dfy`, `ProtocolInvariants.dfy`, `ProtocolTheorems.dfy` | passes, updates, job creation, informers, clock, job ends and restarts as interleaved steps; invariants; what holds of all runs |
| `Timeliness.dfy`, `Race.dfy`, `Jams.dfy` | when no step gets two jobs, how one does, and what that does to the workflow |
| `CallRefinement.dfy` | the start of a call in the protocol is the call on the cached workflow; its expectations are those of the nested map |
| `Paths.dfy`, `PassRefinement.dfy` | stretches of runs; undisturbed passes are the step loop |
| `Progress.dfy`, `Completion.dfy` | the distance to completion; undisturbed runs complete a workflow within a linear bound |
| `Prospects.dfy`, `Rescue.dfy` | what a copy of a workflow is worth; when a workflow can still be completed, exactly, in every reachable world |
| `StatusUpdate.dfy`, `Watch.dfy`, `Dax.dfy` | retrying status updates, the polling watch, the DAX converter |

## Where the code does less than one might expect

Each of these is a property that does not hold of the code in general. The lemmas named give an input
or a run that shows it and say exactly when it does hold.

* **At most one job a step.** Expectations are meant to prevent a second job, but a pass lists the jobs
  of a step (`pkg/workflow/transitioner.go:279`) *before* it checks the expectation (line 303). If the
  informer stores the first job and clears its expectation between the two, the pass creates a second
  job, with no expectation expired and no restart (`Race.TwoJobsWithoutExpiryOrRestart`, for every
  accepted, unpaused workflow of a single job step). The check is safe exactly when, at that moment, the
  listing is still empty and no expectation is recorded, expired or not
  (`ProtocolTheorems.CleanIffNoJob`): if all checks that pass are clean no step ever has two jobs
  (`AtMostOneJob`), and any check that passes without being clean can be followed by a second job
  (`UncleanCheckDuplicates`). What that asks of the surroundings is that no job is delivered between a
  pass's listing for its step and its check, and that no check meets an expired expectation: then no step
  ever has two jobs, restarts included (`Timeliness.TimelyDeliveryMeansAtMostOneJob`). Two listed jobs are
  never reconciled, so a step that is not recorded by then stays incomplete for ever
  (`Jams.RaceLosesWorkflow`). A second job does no harm to a step that some copy of the workflow has
  recorded, as long as that copy can still come to be passed over or sent, nor while the informer has not
  delivered it: `Rescue.CompletesIff` says exactly which workflows with duplicates can be completed.
* **A failed update is not always sent again.** `workflowByKey` makes a shallow copy, so labels and
  statuses changed by a pass show in the workflow store even if the update fails. A poll puts the
  server's workflow back only if it differs from the entry of the name map, and that entry
  (`pkg/client/workflows.go:193`) holds the maps of the stored workflow only until the next poll, which
  replaces it whether or not it sends an event. So the difference is noticed exactly if the last poll had
  delivered the workflow (`FailedUpdates.PollNoticesIff`), or after a new watch, which starts with an
  empty name map. Until then a call sends only if it has something of its own to change
  (`FailedUpdates.FailedChangeSentAgainIff`, `NextCallSendsIff`): the first status of a running job that
  could not be sent is not sent by the next call (`FailedUpdates.FailedStatusIsNotSentAgain`).
* **A failed first update can lose a workflow.** A submission with labels, but without a selector or
  without statuses, leaves a stored workflow that looks defaulted and is not. The next call sends it as it
  is (`Recovery.StuckCopyIsSent`), unless a poll or a new watch comes first. Once that update has been
  accepted, the workflow never gets to record a step, exactly if no other copy is in the store by then and
  none has been listed that the poll will deliver (`Recovery.SentStuckCopyLosesIff`): a poll that falls
  into the update saves it (`Recovery.PollDuringUpdateSaves`). `Recovery.RecoversIff` and
  `FailedDefaultingRecoversIff` say exactly when it can still recover.
* **A pass without a statuses map fails** at its first report (line 329): the jobs it has launched remain,
  the failure is caught in the worker, and nothing is sent
  (`TransitionerModel.Transitioner.TransitionWorkflow`). A version that looks defaulted and lacks a
  statuses map or a selector is of no use, and the workflow can be completed exactly as long as another
  copy can come to be passed over or sent (`Rescue.CompletesIff`, `Prospects.HopelessForGood`).
* **The sorted list** starts with as many empty strings as there are steps, and a reported cycle is empty
  when its closing step is named `""` (`TopologicalSort.Sort`).
* **A key can be dropped while the job store becomes synced.** Whether the store is synced is asked
  twice; if the answers are no and then yes, the key is not queued again by the call
  (`TransitionerModel.Transitioner.TransitionWorkflow`).
* **A status update can cover newer writes.** A retry uses the newest resource version with the old
  contents. One write of another client before the first attempt is enough
  (`StatusUpdate.OneConflictIsCovered`); a successful call covers a newer write exactly if one had arrived
  (`StatusUpdate.CoversNewerIff`).
* **A polled list that repeats a name** with different contents causes events at every poll, although
  nothing changes (`Watch.RepollSendsNothingIff`). Deletions go by name, while the workflow store goes by
  namespace and name, so a workflow that is no longer listed can stay in the store because of a namesake
  (`Watch.NamesakeStaysStored`); the store holds the last list after every poll exactly if every workflow
  that disappears was the last of its name and takes its name with it (`Watch.StoreIsLastListIff`).
* **A finished job** may have failed; its step counts as complete and its dependents run
  (`pkg/job/control.go:148-158`). "Finished" below always includes failed.

## Assumptions of the protocol

One worker at a time owns a key; a job exists from the moment its creation is answered; jobs and
workflows are not deleted; a job's labels and a workflow's steps and UID do not change; UIDs are
distinct; users set neither the UID label nor the verdict label; no template sets the UID label; a
selector that is submitted selects nothing else than what defaulting puts there, so it is not the empty
selector, by which every job of the namespace would be taken for the workflow's until it is defaulted;
statuses that are submitted are empty; only the controller updates workflows; the job store is updated
before the handler of an event runs; "synced" means that all jobs of the initial listing are in the
store; the checks that are not part of the model give the same answer every time.

A refresh of the workflow store may bring any version that the server has held, and between two
refreshes the store shows what passes have changed in place. Only where a run is said to exist, or a
workflow to be lost, does the store move forward through the versions (`Protocol.Forward`); it may lag
behind them by any number. In `FailedUpdates` and `Recovery` an event of the watch is in the store before
the next poll lists, and what a call changes in place it changes at once: a poll that falls between two
such changes has the outcome of one before or after them.

## Model

| member | source | states |
|---|---|---|
| `TopologicalSort.Sort` | pkg/validation/validation.go:58-115 | succeeds if and only if every dependency names a step and no cycle exists; the appended half of the result is a topological order of all steps; an error names a really missing dependency or a real simple cycle; visits are at most steps plus dependency entries |
| `TopologicalSort.Search.constructor` | pkg/validation/validation.go:59-64 | the search starts with nothing marked, recorded or visited |
| `TopologicalSort.Search.Visit` | pkg/validation/validation.go:66-97 | marks only grow; a normal return leaves the step permanent and the open calls as they were; a cycle leaves the recorder at the right prefix of the open calls; visits are charged to the steps newly marked |
| `TopologicalSort.Search.VisitDependencies` | pkg/validation/validation.go:79-92 | the loop over dependencies keeps the search state or unwinds with a cycle or a missing name |
| `TopologicalSort.Search.CloseCycle` | pkg/validation/validation.go:71-74 | meeting a temporary step makes the open calls from it inwards a cycle |
| `TopologicalSort.Search.Record` | pkg/validation/validation.go:83-90 | unwinding by one call extends the recorded cycle by its step until the closing step is passed |
| `TopologicalSort.Search.Open` | pkg/validation/validation.go:78 | entering a step keeps the open calls a simple chain |
| `TopologicalSort.Search.Close` | pkg/validation/validation.go:93-95 | leaving a step whose dependencies are done keeps the appended list in dependency order |
| `TopologicalSort.Search.VisitRoots` | pkg/validation/validation.go:103-113 | the outer loop ends with every step permanent or with a witnessed error |
| `TopologicalSort.Search.VisitRoot` | pkg/validation/validation.go:104-112 | one turn of the outer loop makes the root permanent or returns a witnessed error |
| `TopologicalSort.FinishedIsOrdered` | pkg/validation/validation.go:114 | a finished search has found a topological order, so the graph is closed and acyclic |
| `TopologicalSort.CaughtIsCycle` | pkg/validation/validation.go:83-91 | a fully unwound cycle is a simple cycle of the graph, or empty when its closing step is named "" |
| `TopologicalSort.WitnessRejects` | pkg/validation/validation.go:107-112 | a graph with a witnessed error is not closed or not acyclic |
| `Graphs.TopoOrderAccepts` | pkg/validation/validation.go:57-115 | a graph with a topological order is closed and acyclic |
| `Graphs.MinimalStep` | pkg/validation/validation.go:57-115 | in an acyclic graph every non-empty set of steps has one that depends on none of the others |
| `Validation.ValidateWorkflowSteps` | pkg/validation/validation.go:118-129 | no error if and only if the graph is closed and acyclic and no step has both a template and a reference; every error is justified, every such step is reported, and so is a graph that is not closed and acyclic |
| `Validation.ReferenceErrors` | pkg/validation/validation.go:123-127 | reports exactly the steps with both a template and a reference |
| `Validation.ValidateWorkflowSpec` | pkg/validation/validation.go:42-55 | no error if and only if the deadline is not negative, a valid selector is present and the steps are valid; which error is reported for which fault, both ways |
| `Validation.ValidateWorkflow` | pkg/validation/validation.go:34-39 | no error if and only if the outside checks pass and the specification is valid; each fault of metadata, selector, deadline and steps has its error and each error its fault |
| `Validation.GetWorkflowRunningAndCompletedSteps` | pkg/validation/validation.go:144-160 | the steps with an incomplete and with a complete status, exactly |
| `Validation.RemovedStep` | pkg/validation/validation.go:202-212 | reports one started step that the edit deletes, as running or as completed, if and only if it deletes any |
| `Validation.ModifiedSteps` | pkg/validation/validation.go:213-222 | reports exactly the started steps that the edit changes, as running or as completed |
| `Validation.ValidateWorkflowSpecUpdate` | pkg/validation/validation.go:187-224 | no error if and only if the new specification is valid, the selector is unchanged and every started step is still there unchanged; a running or a completed step that is deleted or changed is reported as such, and changed ones only while none is deleted |
| `Validation.ValidateWorkflowUpdate` | pkg/validation/validation.go:164-183 | no error if and only if the old workflow is unfinished and the edit keeps selector and started steps and is valid; an edit of a completed workflow is reported as that and nothing else, any other with the error that belongs to each fault |
| `Edits.NoDeadlock` | pkg/validation/validation.go:58-129 | in an accepted graph an unfinished workflow has a step whose dependencies are complete |
| `Edits.TransitionKeepsSchedulable` | pkg/workflow/transitioner.go:208-263 | a call keeps the graph valid and statuses only for existing steps with complete dependencies |
| `Edits.EditKeepsSchedulable` | pkg/validation/validation.go:144-224 | an accepted edit with unchanged status keeps that too, and leaves started steps as they are |
| `Edits.EditedWorkflowNeverDeadlocks` | pkg/validation/validation.go:144-224 | over any history of calls and accepted edits an unfinished workflow has a step whose dependencies are complete, and if all steps run jobs, one that the controller can work on |
| `Objects.WorkflowObject.CopyOf` | pkg/workflow/transitioner.go:164 | a copy shares label, selector and status maps with its original |
| `Objects.WorkflowObject.Decoded` | pkg/client/workflows.go:133-148 | a workflow read from the server has maps of its own and shows what the server holds |
| `Objects.WorkflowObject.SetLabels` | pkg/api/types.go:155-162 | adds labels in place, making the map only if there is none |
| `Objects.WorkflowObject.SetUID` | pkg/api/types.go:173-184 | sets the UID in labels and selector, in place where the maps exist |
| `Objects.WorkflowObject.SetDefaults` | pkg/api/types.go:165-170 | a new status map, a start time and the UID |
| `Objects.WorkflowObject.AddCompleteCondition` | pkg/api/types.go:187-197 | appends the Complete condition and sets the completion time |
| `Api.DefaultingSetsOnly` | pkg/api/types.go:165-184 | defaulting sets the UID in labels and selector, the start time and empty statuses, and leaves every other label, selector entry and field as it was |
| `Api.WorkflowEnded` | pkg/api/types.go:200-210 | a workflow is finished if and only if some condition of type Complete or Failed has status True |
| `Api.Resolved` | pkg/api/types.go:213-221 | the dependencies of a step are resolved if and only if each of them has a status that is complete |
| `Processing.DefaultingIdentifiesIff` | pkg/api/types.go:165-184 | defaulting makes the jobs of a workflow identifiable if and only if the selector held nothing else and no template sets the UID label |
| `Jobs.GetWorkflowJobLabelSet` | pkg/job/control.go:92-102 | the step label overrides template labels, which override workflow labels; nothing else is added |
| `Jobs.List` | pkg/client/cache/listers.go:114-125 | a job occurs in the result as often as in the store if it is in the namespace and has every label of the selector with its value, and not at all otherwise |
| `Jobs.ListJobsCounts` | pkg/client/cache/listers.go:114-125 | a listing holds each selected job as often as the store, and no other |
| `Jobs.JobEnded` | pkg/job/control.go:149-158 | a job has finished if and only if some condition of type Complete or Failed has status True; False and Unknown ones and other types never count |
| `Jobs.OnlyLabelledJobsAreListed` | pkg/client/cache/listers.go:114-125 | a job without the UID label of the workflow or without the label of the step is never listed for the step |
| `Jobs.GetJobWorkflows` | pkg/client/cache/listers.go:54-78 | returns the stored workflows of the job's namespace whose selector is present and all of whose labels the job has, and no other; fails without labels or without such a workflow |
| `Jobs.FirstOwner` | pkg/client/cache/listers.go:62-73 | of several owners of a job the first one in the store comes first |
| `Jobs.OnlyLabelledJobsAreOwned` | pkg/client/cache/listers.go:54-78 | a job that carries the UID of no stored workflow has no owner |
| `Jobs.SelectedByItsPairOnly` | pkg/job/control.go:92-107 | a job is selected by the selector of the workflow and step it was made for and of no other pair |
| `Jobs.OwnsOnlyItsJobs` | pkg/client/cache/listers.go:62-73 | a workflow's selector matches a job if and only if the job was made for that workflow, whatever its status is now |
| `Jobs.OwnerIsCreator` | pkg/client/cache/listers.go:54-78 | looking up the workflow of a job finds the stored state of the one it was made for and nothing else |
| `ManagerModel.Manager.GetJobWorkflow` | pkg/workflow/manager.go:197-207 | the first workflow of the store that owns the job, or none if none does |
| `ManagerModel.ForeignJobHasNoOwner` | pkg/workflow/manager.go:197-224 | such a job ends no expectation and queues no workflow |
| `ManagerModel.Manager.AddJob` | pkg/workflow/manager.go:210-224 | for an owned job, records its observation under the owner's key and the job's step label, which reads as empty if it is missing, and queues the owner; otherwise changes nothing |
| `ManagerModel.Manager.UpdateJob` | pkg/workflow/manager.go:228-266 | queues the owner unless the job is unchanged, and touches no expectation |
| `ManagerModel.ObservationEndsItsExpectationOnly` | pkg/workflow/manager.go:197-224 | observing the job of a step ends the expectation of that workflow and step and no other, as long as the store holds some state of the workflow |
| `Expectations.WorkflowStepExpectations.ExpectCreation` | pkg/workflow/utils.go:32-41 | the store represents the operation history with the new expectation |
| `Expectations.WorkflowStepExpectations.ExpectationsForStepSatisfied` | pkg/workflow/utils.go:50-70 | for every operation history: false up to five minutes after the latest expectation of the pair was set, if nothing has ended it, and true otherwise |
| `Expectations.WorkflowStepExpectations.CreationObserved` | pkg/workflow/utils.go:74-84 | ends the expectation of the pair only; fails exactly when the key is unknown |
| `Expectations.WorkflowStepExpectations.DeleteExpectations` | pkg/workflow/utils.go:87-91 | ends all expectations of the key only |
| `Expectations.AwaitedIff` | pkg/workflow/utils.go:44-70 | a step is awaited if and only if its standing expectation was set no more than 300 000 000 000 ns ago |
| `Expectations.AwaitedAfter` | pkg/workflow/utils.go:32-91 | what each operation does to what is awaited for every pair: an expectation awaits its pair for five minutes, an observation ends that of its pair only, a deletion those of its key only |
| `Expectations.AppliedRepresents` | pkg/workflow/utils.go:28-91 | an operation that changes the nested map pair by pair keeps it a representation of the history |
| `Expectations.RecordedIffAwaited` | pkg/workflow/utils.go:50-70 | an unexpired record is there if and only if the history has a standing, unexpired expectation |
| `Scheduling.RunAdvances` | pkg/workflow/transitioner.go:245-296 | turns never remove a status, never change a complete one, and settle at least one step whenever they change anything |
| `Scheduling.RunReports` | pkg/workflow/transitioner.go:318-337 | every changed status is the report of the one job listed for the step |
| `Scheduling.ReportMeaning` | pkg/workflow/transitioner.go:318-337 | the status is recorded if it is new or differs, and recorded complete if and only if some condition of type Complete or Failed of the job has status True |
| `Scheduling.Confluence` | pkg/workflow/transitioner.go:241-296 | over a fixed job store, two sequences of turns that both end quietly end with the same statuses |
| `Scheduling.PassQuietOrAdvances` | pkg/workflow/transitioner.go:241-263 | a pass changes nothing if and only if no turn would; otherwise it settles a step more |
| `Scheduling.EnoughPasses` | pkg/workflow/transitioner.go:241-263 | as many passes as there are steps settle every status |
| `Scheduling.PassesSettle` | pkg/workflow/transitioner.go:241-263 | the settled statuses are the same for all orders in which the passes range over the step map |
| `Processing.WritesChange` | pkg/workflow/transitioner.go:241-263 | the step loop reports a change if and only if some status differs at its end |
| `Processing.ProceedsIff` | pkg/workflow/transitioner.go:130-151 | a call proceeds if and only if the job store is synced, no condition of type Complete or Failed has status True and the pause label is not "true" |
| `Processing.StepsMeaning` | pkg/workflow/transitioner.go:241-263 | the loop appends a condition of type Complete with status True, and sets the completion time to that of the call, if and only if all steps were complete; nothing but statuses, conditions and completion time changes |
| `Processing.ProcessMeaning` | pkg/workflow/transitioner.go:208-237 | which label a call sets, when it gets no further, and when it asks for an update: always after defaulting and after acceptance, after a rejection only the first time |
| `Processing.UpdateIffChanged` | pkg/workflow/transitioner.go:208-263 | an update is asked for if and only if labels, specification or status have changed, on every path |
| `Processing.TransitionProgresses` | pkg/workflow/transitioner.go:130-263 | a call moves the phase forward or keeps it, keeps complete steps, leaves finished workflows alone, and finishes a workflow only if it began with all steps complete |
| `Processing.RunProgresses` | pkg/workflow/transitioner.go:130-263 | the same over any number of calls with any job stores; the Complete condition is added at most once |
| `TransitionerModel.JobControl.CreateJob` | pkg/job/control.go:110-141 | an accepted job carries exactly the labels of its workflow, template and step |
| `TransitionerModel.Transitioner.CreateJobForStep` | pkg/workflow/transitioner.go:299-314 | creates the job and records its expectation if and only if none is awaited and the server accepts; otherwise changes nothing |
| `TransitionerModel.Transitioner.UpdateStepStatus` | pkg/workflow/transitioner.go:318-337 | the status becomes the report of the job, and the result says whether it changed; a status that is recorded is complete if and only if some condition of type Complete or Failed of the job has status True; without a statuses map a report that is due fails |
| `TransitionerModel.Transitioner.ProcessJobStep` | pkg/workflow/transitioner.go:268-296 | one turn: nothing, a job with its expectation, or the report of the single listed job, which fails without a statuses map |
| `TransitionerModel.Transitioner.ProcessStep` | pkg/workflow/transitioner.go:245-256 | the body of the loop does the turn that the scheduling function gives, skipping complete and external steps |
| `TransitionerModel.Transitioner.RangeOverSteps` | pkg/workflow/transitioner.go:242-256 | for some order of the step map, the loop reaches the statuses of that order and creates and expects exactly the jobs it launches; without a statuses map it fails at the first report |
| `TransitionerModel.Transitioner.ProcessSteps` | pkg/workflow/transitioner.go:241-263 | the loop plus the Complete condition when all steps were complete at the start, or its failure |
| `TransitionerModel.Transitioner.LabelValidity` | pkg/workflow/transitioner.go:222-223 | the verdict of the validator is recorded in the labels, in place |
| `TransitionerModel.Transitioner.ProcessDefaulted` | pkg/workflow/transitioner.go:218-237 | validation and steps of a workflow that has been defaulted give the result of the functional form, or the failure of its loop |
| `TransitionerModel.Transitioner.Process` | pkg/workflow/transitioner.go:208-237 | defaulting, validation and steps give the workflow, the result and the jobs of the functional form; jobs only after an accepted validation |
| `TransitionerModel.Transitioner.Preconditions` | pkg/workflow/transitioner.go:130-151 | on the objects: the store is synced, no condition of type Complete or Failed has status True, and the label map has no pause label "true" |
| `TransitionerModel.KeysDiffer` | pkg/workflow/transitioner.go:300 | two workflows have the same key if and only if they have the same namespace and name |
| `TransitionerModel.Transitioner.TransitionWorkflow` | pkg/workflow/transitioner.go:170-203 | what is sent and queued again, whether the call fails, which jobs are created and expected, and what the cached original shows afterwards, for every call; while the store is not synced nothing is sent, created, expected or changed and the key is queued again after 100 ms; after a failed update it is queued again after 500 ms |
| `TransitionerModel.PassEnds` | pkg/workflow/transitioner.go:241-263 | when the loop has been through all steps the workflow is complete exactly if it began so |
| `TransitionerModel.LongerLaunch` | pkg/workflow/transitioner.go:299-314 | each launched job adds its own expectation and leaves those of other steps alone |
| `TransitionerModel.OthersStayAwaited` | pkg/workflow/utils.go:32-41 | expecting other steps does not make a step awaited |
| `Replicas.Replica.Compare` | pkg/client/workflows.go:178-194 | on objects, the comparison of a listed workflow with the entry, and the informer after it, do what the functional form says: deliver if the entry differs, and always renew the entry |
| `Replicas.Replica.Deliver` | pkg/client/workflows.go:180-193 | an event puts the listed object into the workflow store, and the entry shares its maps |
| `Replicas.Replica.Renew` | pkg/client/workflows.go:186-193 | without an event only the entry takes the listed workflow, so that it no longer shares the maps |
| `Replicas.Replica.Rewatch` | pkg/client/workflows.go:73-79 | a new watch starts with an empty name map |
| `Replicas.Replica.Call` | pkg/workflow/transitioner.go:153-203 | a call on a shallow copy shows in the stored workflow, in the entry exactly if it shares the maps, and is about to send what the functional form says |
| `FailedUpdates.PollNoticesIff` | pkg/client/workflows.go:178-194 | after a failed update a poll delivers if and only if the entry shares the maps and something in them has changed |
| `FailedUpdates.NotSentNothingLeft` | pkg/workflow/transitioner.go:195-237 | a call that sends nothing leaves the stored workflow as it was, given a statuses map |
| `FailedUpdates.FailedChangeSentAgainIff` | pkg/workflow/transitioner.go:153-203 | over every history of calls, polls and new watches, a failed change is sent again if and only if some call would send what it finds: the server's workflow once a poll has noticed, what the failed call left until then |
| `FailedUpdates.FailedStatusIsNotSentAgain` | pkg/workflow/transitioner.go:316-337 | the input: a status that could not be sent stays in the stored workflow, and the next poll and the next call leave the server as it was |
| `FailedUpdates.NextCallSendsIff` | pkg/workflow/transitioner.go:195-263 | in every phase and over every job store, exactly when the next call sends what a failed one left |
| `Recovery.RecoversIff` | pkg/workflow/transitioner.go:153-237 | in every state that a submission can get into, with a call and a poll at any point of theirs, it can still get to its steps with statuses if and only if a copy that is not stuck is stored, about to be sent or about to be delivered, or is the server's and a poll will notice it or a new watch is to come |
| `Recovery.HistoryIsPossible` | pkg/workflow/transitioner.go:153-237 | every history of lists, comparisons, new watches, calls and updates stays within those states |
| `Recovery.ServerStuckIff` | pkg/workflow/transitioner.go:195-203 | the server comes to hold a stuck copy exactly by an accepted update with one |
| `Recovery.StuckCopyIsSent` | pkg/workflow/transitioner.go:208-237 | after a failed first update of a workflow with labels, the next call sends what is left, unless it fails for want of a statuses map |
| `Recovery.FailedDefaultingRecoversIff` | pkg/workflow/transitioner.go:153-237 | after a failed first update the workflow recovers without a new watch if and only if the entry shares the maps, or it came without labels, or with a selector and statuses |
| `Recovery.SentStuckCopyLosesIff` | pkg/workflow/transitioner.go:104-128 | an accepted update with a stuck copy loses the workflow for every continuation exactly if the stored copy is stuck too and no other has been listed that differs from the entry |
| `Recovery.PollDuringUpdateSaves` | pkg/client/workflows.go:171-194 | a poll between the call and the arrival of its stuck copy brings the first copy back, which can then be defaulted and sent over the stuck one |
| `ProtocolInvariants.StepKept` | pkg/workflow/transitioner.go:170-337 | every event of the protocol, from passes over copies of any age to restarts, keeps the invariant |
| `ProtocolInvariants.RunInv` | pkg/workflow/transitioner.go:170-337 | every reachable world satisfies the invariant |
| `ProtocolInvariants.ListedAreOfSlot` | pkg/workflow/transitioner.go:276-283 | a listing for a step returns exactly the stored jobs made for it |
| `ProtocolInvariants.OwnerOfSlot` | pkg/workflow/manager.go:197-224 | the workflow that matches a job, with the job's step label, is the pair it was made for |
| `ProtocolInvariants.ObserveJobKept` | pkg/workflow/manager.go:210-224 | clearing an expectation never uncovers a job: one of the step is in the store |
| `ProtocolInvariants.MarkSyncedKept` | pkg/workflow/transitioner.go:130-135 | once the initial listing is delivered every existing job is in the store |
| `ProtocolInvariants.CreateKept` | pkg/workflow/transitioner.go:299-312 | a job just created is covered by the gap before its expectation, and its dependencies have finished |
| `ProtocolInvariants.ExpectKept` | pkg/workflow/transitioner.go:312 | recording the expectation closes the gap without uncovering the job |
| `ProtocolInvariants.ReportIsSound` | pkg/workflow/transitioner.go:318-337 | a status is written complete only if a job of that step has really finished |
| `ProtocolInvariants.StartedIsAccepted` | pkg/workflow/transitioner.go:218-236 | a pass gets to the steps only of a workflow that is not paused and has a rightful positive verdict |
| `ProtocolInvariants.DefaultKept` | pkg/workflow/transitioner.go:211-216 | defaulting a copy, whether or not the update is accepted, keeps the invariant of server and store |
| `ProtocolInvariants.EndKept` | pkg/workflow/transitioner.go:257-262 | a pass that ends adds the Complete condition only to a workflow all of whose steps are complete |
| `ProtocolInvariants.RefreshKept` | pkg/client/workflows.go:171-194 | a refresh of the workflow store, at any moment of a pass, keeps the invariant |
| `ProtocolTheorems.CreatedAfterDependenciesFinished` | pkg/workflow/transitioner.go:268-337 | when a job is created, jobs of all steps it depends on, directly or not, have been created and have finished, however old the copies are |
| `ProtocolTheorems.OnlyValidWorkflowsGetJobs` | pkg/workflow/transitioner.go:208-237 | no job ever belongs to a workflow that is paused or that the validator rejects, for its steps, deadline, selector or metadata |
| `ProtocolTheorems.CompleteMeansFinished` | pkg/workflow/transitioner.go:318-337 | wherever the workflow is held and however old it is, a complete step has a job that has finished |
| `ProtocolTheorems.FinishedMeansAllFinished` | pkg/workflow/transitioner.go:257-262 | a workflow with the Complete condition has had a job of each of its steps finish |
| `ProtocolTheorems.TurnMeaning` | pkg/workflow/transitioner.go:268-296 | a turn goes on to a job if and only if the step is ready and none of its jobs is stored; it writes a status if and only if one is stored, and its end is not what is recorded; the status is that of this job |
| `ProtocolTheorems.CleanIffNoJob` | pkg/workflow/transitioner.go:279-305 | at the expectation check, listing and expectations together tell exactly whether the step has a job |
| `ProtocolTheorems.CheckPassesIff` | pkg/workflow/transitioner.go:299-305 | a check lets the pass go on if and only if nothing is recorded for the step, or for more than five minutes |
| `ProtocolTheorems.ExpectationHolds` | pkg/workflow/transitioner.go:312 | what a pass has just expected holds up the step for five minutes and no longer |
| `ProtocolTheorems.CheckPassesAfterTimeout` | pkg/workflow/utils.go:44-64 | after five minutes without an observation every check of the step passes, and the pass can create the job |
| `ProtocolTheorems.RestartForgets` | pkg/workflow/utils.go:93-96 | after a restart the controller is as in an initial world, with the newest versions listed anew; server, jobs and clock are as they were |
| `ProtocolTheorems.AtMostOneJob` | pkg/workflow/transitioner.go:268-314 | if every check that passes is clean, no step ever has two jobs, restarts and timeouts included |
| `ProtocolTheorems.UncleanCheckDuplicates` | pkg/workflow/transitioner.go:268-314 | a check that passes without being clean can be followed at once by a second job |
| `Timeliness.TimelyCheckIsClean` | pkg/workflow/transitioner.go:279-305 | a check is clean if it passes without an expired expectation and no job of the step was delivered since the listing |
| `Timeliness.TimelyDeliveryMeansAtMostOneJob` | pkg/workflow/transitioner.go:268-314 | in a run with timely deliveries only, no step ever has two jobs, including the gap before the expectation and restarts that empty store and expectations |
| `Race.DeliveryAfterListingDuplicates` | pkg/workflow/transitioner.go:279-306 | from any world reached in no time and without restart in which a pass has missed an existing job, delivery of that job leads to a second one |
| `Race.TwoJobsWithoutExpiryOrRestart` | pkg/workflow/transitioner.go:130-314 | every workflow of one job step that is accepted and not paused has a run with two jobs of the step, in no time and without a restart |
| `Jams.TwoStoredJobsJam` | pkg/workflow/transitioner.go:286-295 | two stored jobs of a step none of which has finished jam the step |
| `Jams.TwoAreFound` | pkg/workflow/transitioner.go:292-295 | a turn over a jammed step does nothing |
| `Jams.LostForGood` | pkg/workflow/transitioner.go:286-295 | a jammed step stays incomplete in every continuation, timeouts and restarts included |
| `Jams.RaceLosesWorkflow` | pkg/workflow/transitioner.go:130-314 | every such workflow can be lost: after some run without expiry or restart its step is never recorded complete |
| `Completion.SomeWorkIsInReach` | pkg/workflow/transitioner.go:241-337 | from a world whose caches are up to date, undisturbed events lead to one that creates, ends or records a job, or completes the workflow |
| `Completion.NeverStuck` | pkg/workflow/transitioner.go:130-337 | until an accepted, unpaused workflow of job steps is complete, undisturbed events of the protocol bring it nearer to completion |
| `Completion.WorkRemains` | pkg/workflow/transitioner.go:130-337 | until then some undisturbed event that does something for it, without giving a step a second job, is in reach |
| `Completion.CompletesInLinearTime` | pkg/workflow/transitioner.go:130-337 | in an undisturbed run of the protocol at most six events a step and one more do anything for the workflow, whatever else goes on, and until it is complete another one is in reach |
| `Prospects.HopelessForGood` | pkg/workflow/transitioner.go:208-337 | a workflow none of whose copies that can still be passed over or sent is of use is never completed, with restarts and timeouts, as long as the store moves forward |
| `Rescue.CompletesIff` | pkg/workflow/transitioner.go:130-337 | in every reachable world, duplicates included, an accepted, unpaused workflow of job steps can be completed if and only if it is complete, or the newest version, a later one than the store has seen, or the stored copy has what defaulting makes and all steps recorded that have two listed jobs, or the pass under way can still send such a copy |
| `Rescue.CompletionStaysReachable` | pkg/workflow/transitioner.go:130-337 | whatever a run has done, if the newest version has what defaulting makes and all steps with two listed jobs recorded, the Complete condition can still be reached, without timeout or restart |
| `Rescue.CompletesCached` | pkg/workflow/transitioner.go:164-263 | from a stored copy of use, however old, pass after pass records its steps in it until the workflow is complete |
| `PassRefinement.ListingExists` | pkg/workflow/transitioner.go:276-283 | an undisturbed listing in the protocol is the listing of the step loop |
| `PassRefinement.UndisturbedPass` | pkg/workflow/transitioner.go:241-314 | an undisturbed pass of the protocol arrives at the statuses of the step loop and creates exactly its jobs, in order |
| `PassRefinement.UndisturbedPassEnds` | pkg/workflow/transitioner.go:241-263 | and at its end the server gets what the step loop makes of the workflow, exactly if the loop asks for an update or the pass has labelled the workflow |
| `CallRefinement.StartsIff` | pkg/workflow/transitioner.go:130-223 | defaulting, rejection and a pass of the protocol can start if and only if the store is synced and the cached workflow is neither finished nor paused; which one does, by its labels and the verdict |
| `CallRefinement.DefaultIsProcess` | pkg/workflow/transitioner.go:211-216 | defaulting in the protocol sends and leaves in the cache what the call on the cached workflow does |
| `CallRefinement.RejectIsProcess` | pkg/workflow/transitioner.go:221-231 | a rejection in the protocol leaves in the cache, and sends the first time, what the call does |
| `CallRefinement.BeginIsProcess` | pkg/workflow/transitioner.go:218-236 | a pass of the protocol begins exactly with a workflow with which a call gets to its steps, with the labels it has there |
| `CallRefinement.ObservedIffOwned` | pkg/client/cache/listers.go:62-73 | a stored job can be observed for a workflow of the protocol if and only if the workflow owns it and the job has a step label |
| `CallRefinement.ExpectationsKept` | pkg/workflow/utils.go:32-91 | the expectations of the protocol are those of the nested map: every event performs the operations of its handler, and a check passes if and only if the step is not awaited |
| `Progress.NeverFarther` | pkg/workflow/transitioner.go:130-337 | while passes read the newest version and updates are accepted, no event of the protocol takes a workflow further from completion |
| `Progress.EffectiveEventFalls` | pkg/workflow/transitioner.go:241-337 | creating, ending or delivering a job, recording a status, or completing brings it nearer, if no step has two jobs |
| `StatusUpdate.UpdateWorkflowStatus` | pkg/workflow/transitioner.go:106-128 | for all writes of others, refusals, lost answers and failing reads: a call succeeds if and only if one of its four attempts has no fault and finds the version it uses, and no earlier one loses its answer or is followed by a failing read; attempts, reads and the server's history are those of the functional form |
| `StatusUpdate.WritesAtMostOnce` | pkg/workflow/transitioner.go:106-128 | at most one write, after those of others that arrived before the last attempt; at most four attempts and three reads |
| `StatusUpdate.EndsAtFirst` | pkg/workflow/transitioner.go:106-128 | a call ends with the first attempt that succeeds, loses its answer, is followed by a failing read or is the last; each earlier one, refused with whatever status, costs exactly one read |
| `StatusUpdate.SucceedsIff` | pkg/workflow/transitioner.go:106-128 | for any number of attempts: a call succeeds if and only if one of them has no fault and finds the version it uses, and no earlier one loses its answer or is followed by a failing read |
| `StatusUpdate.FailsIffEveryWindowIsHit` | pkg/workflow/transitioner.go:106-128 | if only conflicts go wrong, a call fails if and only if another write lands in each of its windows |
| `StatusUpdate.CoversNewerIff` | pkg/workflow/transitioner.go:106-128 | a successful call covers a newer write if and only if one had arrived; if only conflicts go wrong, if and only if its first attempt was too late |
| `StatusUpdate.OneConflictIsCovered` | pkg/workflow/transitioner.go:106-128 | one write of another client before the first attempt is covered by the second |
| `Watch.Watcher.SendChanges` | pkg/client/workflows.go:177-194 | sends additions and modifications against what is known at each entry, and learns the list |
| `Watch.Watcher.SendDeletions` | pkg/client/workflows.go:195-203 | sends a deletion for exactly the names no longer listed, and forgets them |
| `Watch.Watcher.Poll` | pkg/client/workflows.go:171-204 | replaying a tick leads from the old view to the polled one; with distinct names there is exactly the one due event for each changed name: an addition of a workflow that was not known, a modification of one that was known otherwise, a deletion of one that is no longer listed |
| `Watch.Watcher.Watch` | pkg/client/workflows.go:168-207 | replaying all events of any sequence of polls on an empty view gives the by-name view of the last list; a store keyed by namespace and name holds what `StoreAfterPolls` says |
| `Watch.AboutTick` | pkg/client/workflows.go:177-203 | with distinct names, the events about a name are exactly those that lead from its old entry to its new one |
| `Watch.KindOfEvent` | pkg/client/workflows.go:177-203 | such a tick adds exactly the listed workflows that were not known, modifies those that were known otherwise and deletes those whose name is no longer listed |
| `Watch.StoreFollowsIff` | pkg/client/workflows.go:177-203 | a tick leads from the store of one list to that of the next if and only if every workflow that is gone was the last of its name and its name is gone |
| `Watch.StoreIsLastListIff` | pkg/client/workflows.go:168-207 | over any sequence of polls the store holds the last list after each if and only if that holds of each pair of lists in a row |
| `Watch.NamesakeStaysStored` | pkg/client/workflows.go:178-203 | the input: of two workflows of one name the one listed first stays in the store when it is no longer listed |
| `Watch.RepollSendsNothingIff` | pkg/client/workflows.go:178-194 | polling the same list again sends nothing if and only if no name in it stands for two different workflows |
| `Dax.MapJobsToDependencies` | dax-to-json/main.go:54-64 | each child reference maps to the lower-case parents of its last entry, one by one in order, and nothing else is mapped |
| `Dax.ParentsOfLast` | dax-to-json/main.go:54-64 | the parents of a reference are those of its last entry, which every reference has |
| `Dax.ConvertSteps` | dax-to-json/main.go:90-96 | there is a step for each lower-case job name, with the lower-case parents of a job of that name |
| `Dax.ImageClosed` | dax-to-json/main.go:54-96 | an injective renaming of a graph is closed if and only if the graph is |
| `Dax.ImageAcyclic` | dax-to-json/main.go:54-96 | an injective renaming of a graph is acyclic if and only if the graph is |
| `Dax.ConvertedIsValidIff` | dax-to-json/main.go:54-96 | when lower-casing keeps the names of a document apart, the validator accepts the converted steps if and only if the document's graph is closed and acyclic |

## Left out

- HTTP, JSON, URLs and client set-up: servers are lists of accepted writes, and polled lists are inputs.
- The job informer: its effects are events of `Protocol` under the assumptions above; a resynchronisation is another delivery.
- The work queue: a pass may begin at any moment. In the code one begins after an event for the workflow or one of its jobs, after a failed update, and for every workflow when its informer resynchronises every ten minutes.
- `sort.Strings`: the order in which the search takes the steps is an input, and so, of several started steps that an edit deletes, is the one that is reported; results are proved for every order.
- Object metadata and label-selector syntax: the outcomes of these checks are inputs (`Checks`).
- Label selectors with match expressions: a selector is the set of its match labels; a selector without a map of match labels, on which `SetUID` would fail in the code, is not modelled.
- Absent and empty maps are the same in a workflow value; `Objects`, `FailedUpdates` and `Protocol` keep them apart where it matters.
- `strings.ToLower` is an arbitrary function; only where it is injective matters.
- `GetReference`: a job without a reference stands for its failure; in the protocol every job has one.
- The address of the loop variable that `Watch` sends: events hold the workflow as it was when they were sent, also where several workflows are polled at once; an error while listing, which ends the watch, is not modelled.
- Several clients writing one workflow: only `StatusUpdate` has them; elsewhere the controller is the only writer.
- FailedUpdates.FailedChangeSentAgainIff: the server's copy has a statuses map or has not been defaulted; the other copies are the subject of `Recovery`.
- Completion.CompletesInLinearTime: for runs whose passes read the newest version and whose updates are accepted; for all other runs `Rescue` says when completion is in reach.
- External references, active deadlines and `DeleteJob`: not implemented in the code; external steps never complete.
- Annotations, job names, events, logging, sleeps and shutdown: they do not affect scheduling.
- `dax-to-json` templates, random loads and XML, the GUI, scripts and manifests: no property of their own.
