# Verified models of a multi-agent office backend

This project models six stateful parts of the backend as Dafny programs and proves
what they promise over every run. Each part has a model of plain values (the state
and every step as a total function), the classes and loops that carry it out, proved
equal to that model, and the laws of the model.

| part | files |
|---|---|
| the scheduler of a job's node tree, `AgentDagWorkflow` | `Dag*.dfy` |
| conversation memory: the summarising and the evicting job | `Conversation*.dfy` |
| the streaming filter for route markers | `RouteFilter.dfy` |
| the plugin registry, its dependency resolver and the concurrency gate | `Plugin*.dfy` |
| the client's view of an event stream | `Stream*.dfy` |
| the workflow for plans with declared side effects | `Effects*.dfy`, `LogicalEffectsWorkflow.dfy` |

`Prelude.dfy` holds an option type, sequences of distinct ids and words in a text. `dafny verify
dfyconfig.toml` checks everything.

## What is proved

**Scheduler.** In every reachable state, whatever the signals, outcomes, batch
orders, replacement plans and history cuts, pending, running and settled nodes
partition the tree, `completed` is exactly the COMPLETED nodes, the concurrency limit
holds, and a node is launched only with all its dependencies completed (`RunInv`,
`LaunchedOnlyWhenReady`). There a node's outcome and its leaving the running table are
one step. In a long DAG they are two, with the storing of a result reference between
them. `DagPersist.dfy` splits the step. As long as no round of verdicts reopens a node
whose reference is still being stored, a run of the split model is a run of the one-step
model (`RunSimulates`), and pending and running stay apart throughout a run if and only
if no round does so (`RunSplitIff`). None does outside long DAGs or without rejections
(`ShortNeverStores`, `QuietUndisturbed`); otherwise it happens (`WindowFromStart`). What a run may execute comes
from the frozen spec alone (`RunFromSpec`). Without rejections the completed set stays
downward closed and nothing downstream of a lost node ever runs (`RunClosed`,
`NothingDownstreamRuns`); with rejections a run stays closed exactly when no collecting
step reopens what a completed or running node stands on (`CollectClosedIff`,
`RunClosedIff`). Rework is bounded (`RunLoopsBounded`, `ProductiveRoundsBounded`), and so
are the launches of every node over any number of cuts and plans (`LaunchBound`,
`JobLaunchBound`); termination is not (`RejectsForEver`). A history cut is
invisible to scheduling (`CutInvisible`) and delivers a dependency's result unchanged if
and only if no completion of it over an older, unreplaced reference is left
(`CutDeliversIff`, `RunStaleIff`). The job shows WAITING_RESOURCES without a waiting node
if and only if a plan was mounted or a cut taken during a wait and nothing corrected the
status since (`RunWaitsIff`), and the verdict of an ended run is fair if and only if it
did not leave its loop that way (`RunEndsFairlyIff`). What needs approval runs only on
the latest decision at its gate, or because the job stood paused or cancelled there
(`RunLetThrough`).

What a single step makes of the outcomes is told without the model's own reading of them:
every failed review or test goes back (`NoGoesBack`), a round without one only settles
(`QuietRoundSettles`), a writer is sent back only by a rejection that addresses it and
with its words, every addressed one goes back unless its rejection was overtaken, and its
completed direct dependents go along (`EveryNodeAccounted`, `AddressedGoBack`,
`DependentsGoAlong`). The loop head, gates, launches, signals, cancellations, plans and
cuts are told in the same way (`DagSteps.dfy`).

**Conversation memory.** Over every interleaving of appends, summarising jobs that
may stop anywhere and trims, the segments hold exactly the evicted messages followed
by the processed live dialog, if and only if no message outside the dialog was ever
evicted (`ConservedIff`); then segment k is the k-th block of the whole history, so
the interleaving leaves no trace (`SegmentsAreChunks`, `SegmentsAgree`). A trim changes
nothing below the trigger and takes exactly the whole summarised segments before the
kept window above it (`TrimsIff`, `AboveTriggerGoes`).

**Route filter.** For every split of the text into deltas, nothing from the first
bracketed marker on is ever shown (`MarkerNeverLeaks`), text without the sentinel is
shown in full (`NothingIsLost`), and a bare sentinel leaks exactly when a delta ends
inside it while nothing is held back (`BareSentinelLeaksIff`).

**Plugins.** For every operation of the registry, the exact condition under which the
enabled plugins stay closed under their requirements and free of cycles
(`StepGoodIff`), and hence for every run (`RunGoodIff`); first installs, enables,
disables, uninstalls and health checks always meet it (`CoreRunGood`). Exactly when an
operation is accepted, and what it leaves behind, is told by the installations
(`AcceptedIff`, `EnableTurnsOn`, `RunOnIff` and the others of `PluginEffects.dfy`). The
concurrency gate stays within its limit in every interleaving that does not change
the limit at one precise moment (`RunWithinLimit`), and overruns it there
(`OverrunsLimit`, `OverrunFromStart`).

**Event stream.** Sorting and deduplicating a batch is the same as absorbing frames
one by one (`NormalizeSnoc`), so resuming is exact (`ResumeIsExact`) and replays never
matter (`ReplayHarmless`); the arrival order does not matter if and only if
unshadowed frames of equal number are equal (`OrderInsensitiveIff`). The normal form is
the sequence of first deliveries and nothing else is (`NormalFormIff`), so every event is
shown once (`EveryEventOnce`).

**Effects workflow.** At most one frontier is in flight, a cleanup is made once, last,
and exactly by runs that return (`RunCalling`); pause and cancel stop further starts
until a run is cut, and the cut ends the stop (`StopHolds`, `CutEndsStop`,
`StopForgottenIff`); the retained approvals are the signalled ones in order minus one per
matched acknowledgement (`RunLedger`), and every frontier is started with exactly those
(`StartsCarryOutstanding`).

## Where the code departs from what it says

The models follow the code. These departures are theorems; where the name ends in
`FromStart` or `EndsWaiting`, it is a run given event by event from the start: a job
as it is submitted, an empty registry or gate, a fresh workflow.

- WAITING_RESOURCES outlives the wait when a replacement plan is mounted, and when the
  history is cut, while the job shows that status (`MountHonestIff`, `CutHonestIff`).
  It then survives the exit: a job all of whose nodes completed ends WAITING_RESOURCES
  after a cut (`CutEndsWaiting`), and so does one whose replacement plan completed
  (`MountEndsWaiting`).
- Mounting a replacement plan turns the failed node into SKIPPED and keeps it, so a
  replanned job never ends COMPLETED (`ReplannedNeverCompletes`).
- A provider failure during answer synthesis sets the job FAILED, and the final
  verdict overwrites it. It makes a difference exactly when the job shows
  WAITING_RESOURCES, which it then takes away (`SynthesisIgnoredIff`).
- The review rounds are not carried over a cut, so a cut refunds the budget
  (`CutRefundsBudget`). A rejecting node with no writer to send back is launched
  without end (`RejectsForEver`).
- A rejection reopens the direct dependents of a writer only, so a node can run above
  a pending one (`ReworkStrandsFromStart`).
- A rejection can reopen a writer whose new draft is written back but not stored yet;
  the writer is then pending and running at once (`WindowFromStart`).
- A reworked writer whose new reference cannot be stored keeps the old one, and a cut
  delivers the old draft (`StaleFromStart`).
- A pause or a cancellation at an approval gate lets the unapproved node through to
  the launch (`GatePassIff`).
- Nodes that never had a status keep none after a cancellation
  (`CancelLeavesUnfinishedIff`).
- The summarising job reads user and assistant messages, the evicting job all of them:
  one evicted note moves the cursor back too far (`NoteBreaksConservation`), and the
  next job summarises the same message again (`ReplySummarisedTwice`).
- Trimming the cached context can drop messages that memory extraction has not read
  (`UnreadKeptIff`).
- Re-installing, upgrading, rolling back and restarting with unreadable records can
  break the registry's closure, and an upgrade can close a cycle (`StepGoodIff`,
  `MutualUpgradeAccepted`, `CycleFromStart`).
- A limit change that arrives just after a permit was handed to a queued holder lets
  one holder too many in (`OverrunsLimit`, `OverrunFromStart`).
- In the effects workflow, a frontier that fails while a pause waits it out ends the
  workflow without cleanup, although the handler below it promises one (`CrashIff`).
- A pause that is there when the last frontier of a run ends, drained or not, is
  forgotten when the run continues as new, and so is a cancel request if the frontier
  was being drained; the next run starts another frontier (`StopForgottenIff`,
  `PauseLostFromStart`). Retained approvals and a pending patch are dropped at every
  cut (`CutDropsApprovals`, `ApprovalLostFromStart`).

## How the source is read

- An Activity is an arbitrary outcome: completed, failed, escalated, skipped,
  interrupted or waiting for resources, with any result. A signal is an arbitrary
  interleaved step. A database transaction or advisory lock makes one atomic step.
- `Step` is total: an event that cannot happen in a state changes nothing, so the
  states a run of arbitrary events reaches are exactly the reachable ones.
- Settling the finished nodes and acting on their verdicts (571-649) is one step, as
  nothing in it suspends. So is a node's outcome with its leaving the running table,
  except in `DagPersist.dfy`. There, what becomes of a node that is launched again while
  its earlier reference is being stored is not followed: the claims end where that
  first becomes possible.
- The replan Activity returns the old spec with new nodes appended that carry no run
  state. It takes the number in their ids from the context stored at submission
  (`app/agents/orchestration/temporal/activities/replan.py:93-96`), so a second plan can
  repeat the ids of the first; the workflow then finds more entries than ids and refuses
  it (720-727, `AppendedAcceptableIff`). A mounted plan therefore has new ids only
  (`AppendedMounts`). The five-second backoff is one step with what follows it.
- Node ids are unique, so the node list is a map. Which writers a rejection's file
  paths name is an arbitrary set per rejection.
- A batch is any selection the iteration order of the pending set allows.
- The semaphore of the concurrency gate is a counter with a queue: a release wakes one
  queued task, a task that comes out of the queue, granted or cancelled, wakes all that
  fit.
- In the conversation model the segment size is constant within a run, message ids are
  distinct, and history grows at its end; `LateInsertIff` says what a later insertion
  does. Each delta of the route filter is the clean text of one provider chunk.
- Registry gates for kind, signature, isolation, deployment, capabilities and service
  version are one arbitrary answer, as is the health check.
- In the event stream, the seal's predicates and the rendering of a frame are function
  parameters.

## Model

The main results are the rows about whole runs and the equivalences above. Rows that
begin with "one step", at the end, state a fact about a single step that the run
theorems build on.

| member | source | states |
|---|---|---|
| DagWriters.WriterAncestorsExact | app/agents/temporal_workflows.py:248-260 | on any graph, cyclic or with dangling ids, the walk ends and lists, each once, exactly the writer nodes reachable by one or more dependency edges |
| DagWorkflow.ComputeWriterAncestors | app/agents/temporal_workflows.py:248-260 | the recursion over one growing set of seen ids, proved equal to that walk |
| DagWorkflow.RestoreFrozenNodes | app/agents/temporal_workflows.py:70-104 | the loop over the frozen list, proved to rebuild each declared node from the spec and its saved run state, in the spec's order |
| DagWorkflow.SelectWriters | app/agents/temporal_workflows.py:592-607 | the writers a rejection is sent to: the named ones among the ancestors, or all if none is named |
| DagWorkflow.SortPending | app/agents/temporal_workflows.py:469-478 | splits the pending nodes into those waiting for resources and those whose dependencies are all completed |
| DagWorkflow.ClearEach | app/agents/temporal_workflows.py:488-491 | the loop that takes the waiting flag off exactly the waiting nodes |
| DagWorkflow.LaunchEach | app/agents/temporal_workflows.py:839-845 | marks exactly the launched nodes running and counts one more attempt for each |
| DagWorkflow.SkipEach | app/agents/temporal_workflows.py:495-498 | marks exactly the pending nodes skipped |
| DagWorkflow.SupersedeEach | app/agents/temporal_workflows.py:728-733 | marks skipped exactly the nodes that are not completed, cancelled, interrupted or skipped already |
| DagWorkflow.ReopenDependents | app/agents/temporal_workflows.py:632-642 | reopens exactly the completed direct dependents of the writer |
| DagWorkflow.RebuildEach | app/agents/temporal_workflows.py:807-810 | compacts and rebuilds every declared node |
| DagWorkflow.Survey | app/agents/temporal_workflows.py:972-978 | finds out whether all nodes are completed and whether any failed, was skipped or escalated |
| DagWorkflow.StopEach | app/agents/temporal_workflows.py:999-1007 | interrupts what runs and closes what is unfinished, node by node |
| DagWorkflow.AcceptReplan | app/agents/temporal_workflows.py:681-727 | a replacement plan is accepted exactly when the budget, a failed node asking for it, a read-only spec, the answer, its fingerprint and the number of entries its ids name all allow it |
| DagOffers.AppendedAcceptableIff | app/agents/temporal_workflows.py:719-727 | an answer that appends named nodes to the old spec is accepted exactly when it is allowed, its fingerprint matches, there are some, and their ids repeat neither each other nor an old id |
| DagOffers.AppendedMounts | app/agents/temporal_workflows.py:728-745 | an accepted one with nodes free of run state is a legal replacement, and mounting it is the model's mount step |
| DagWorkflow.AgentDagWorkflow.constructor | app/agents/temporal_workflows.py:443-454 | a run starts with the unfinished nodes pending and the completed ones completed |
| DagWorkflow.AgentDagWorkflow.PauseSignal | app/agents/temporal_workflows.py:353-355 | changes the pause flag and nothing else |
| DagWorkflow.AgentDagWorkflow.ResumeSignal | app/agents/temporal_workflows.py:357-359 | changes the pause flag and nothing else |
| DagWorkflow.AgentDagWorkflow.CancelSignal | app/agents/temporal_workflows.py:361-364 | records the request and whether completed work is kept |
| DagWorkflow.AgentDagWorkflow.ApproveTask | app/agents/temporal_workflows.py:366-372 | records the decision for that node |
| DagWorkflow.AgentDagWorkflow.Schedule | app/agents/temporal_workflows.py:469-500 | the loop head takes an enabled step of the model: a batch within capacity, a resource wait, or giving up on the rest |
| DagWorkflow.AgentDagWorkflow.PassGate | app/agents/temporal_workflows.py:504-539 | one turn of the approval loop is the model's gate step |
| DagWorkflow.AgentDagWorkflow.LaunchRunnable | app/agents/temporal_workflows.py:541-546 | launching is the model's launch step |
| DagWorkflow.AgentDagWorkflow.CollectFinished | app/agents/temporal_workflows.py:571-649 | settling and reviewing the finished nodes is the model's collecting step |
| DagWorkflow.AgentDagWorkflow.SettleFinished | app/agents/temporal_workflows.py:571-584 | the settling loop is the fold over the finished nodes |
| DagWorkflow.AgentDagWorkflow.ReviewFinished | app/agents/temporal_workflows.py:587-649 | the review loop is the fold over the finished nodes, each seeing what the earlier ones reopened |
| DagWorkflow.AgentDagWorkflow.SettleNode | app/agents/temporal_workflows.py:572-584 | one outcome: completed, waiting for resources, or settled |
| DagWorkflow.AgentDagWorkflow.ReviewNode | app/agents/temporal_workflows.py:588-649 | one verdict: the writers in order, then the rejecting node itself |
| DagWorkflow.AgentDagWorkflow.SendBack | app/agents/temporal_workflows.py:609-642 | one writer and its completed direct dependents reopen, unless its rounds are used up |
| DagWorkflow.AgentDagWorkflow.MaybeMountStaticReplan | app/agents/temporal_workflows.py:673-745 | mounts exactly when the model allows it and the answer is acceptable, and otherwise changes nothing |
| DagWorkflow.AgentDagWorkflow.Mount | app/agents/temporal_workflows.py:728-745 | supersedes the unfinished nodes, adds the named entries, makes the named ids pending and takes over the new spec |
| DagWorkflow.AgentDagWorkflow.ContinueAsNew | app/agents/temporal_workflows.py:802-815 | the model's cut: compact, rebuild, re-enter with fresh signal state |
| DagWorkflow.AgentDagWorkflow.Reenter | app/agents/temporal_workflows.py:321-326 | a run entered with rebuilt nodes |
| DagWorkflow.AgentDagWorkflow.Finalize | app/agents/temporal_workflows.py:971-986 | the job status a run ends with |
| DagWorkflow.AgentDagWorkflow.Finish | app/agents/temporal_workflows.py:670-671 | leaving the loop: synthesis outcome, then the verdict |
| DagWorkflow.AgentDagWorkflow.StopCancelled | app/agents/temporal_workflows.py:556-569 | the model's cancellation step |
| DagInvariants.StepInv | app/agents/temporal_workflows.py:456-668 | every step of the one-step model keeps the scheduling invariant |
| DagInvariants.RunInv | app/agents/temporal_workflows.py:445-584 | in every reachable state of the one-step model: pending, running and settled partition the tree, completed is exactly the COMPLETED nodes, the limit holds, a batch is startable |
| DagInvariants.LaunchedOnlyWhenReady | app/agents/temporal_workflows.py:473-480 | whatever starts running was pending, had every dependency COMPLETED, gains one attempt and stays within the limit |
| DagSteps.HeadIff | app/agents/temporal_workflows.py:469-500 | with work left and nothing stopping it the loop head starts a batch exactly when something can run or runs, waits exactly when nothing can and some node waits, and gives up otherwise |
| DagSteps.BatchFills | app/agents/temporal_workflows.py:473-480 | a batch holds only nodes whose dependencies are COMPLETED, each once, and all of them unless the limit is reached |
| DagSteps.WaitFrees | app/agents/temporal_workflows.py:481-493 | a resource wait takes the flag off every unfinished node, sets the job running and changes nothing else |
| DagSteps.GivingUpSkips | app/agents/temporal_workflows.py:494-500 | giving up skips exactly the unfinished nodes |
| DagSteps.AttemptsCount | app/agents/temporal_workflows.py:839-843 | in every run, over cuts and plans, a node's attempts count its launches exactly |
| DagSteps.RunSignals | app/agents/temporal_workflows.py:353-364 | in every run the job is paused, and asked to cancel, exactly by the signals since it was last cut |
| DagSteps.NothingLaunched | app/agents/temporal_workflows.py:457-467 | between batches a cancel request stops all launches until a cut, and a pause all until a resume or a cut |
| DagPersist.BeginWInv | app/agents/temporal_workflows.py:443-454 | every run of the split model begins inside its invariant, with nothing stored |
| DagPersist.StepSimulates | app/agents/temporal_workflows.py:945-968 | with write-back and storing apart, a step that reopens no stored node is a step of the scheduler model, and a write-back is none |
| DagPersist.RunSimulates | app/agents/temporal_workflows.py:933-969 | as long as no stored node is reopened, a run is a run of the scheduler model, so everything proved of such runs holds with stored nodes counting as running |
| DagPersist.StepSplitIff | app/agents/temporal_workflows.py:608-648 | a step keeps pending and running apart exactly when it reopens no node whose reference is still being stored |
| DagPersist.RunSplitIff | app/agents/temporal_workflows.py:571-649 | pending and running are disjoint at every point of a run exactly when none of its collecting steps does that |
| DagPersist.ShortNeverStores | app/agents/temporal_workflows.py:945 | outside long DAGs nothing can be disturbed |
| DagPersist.QuietUndisturbed | app/agents/temporal_workflows.py:587-591 | nor in a run without rejections |
| DagPersist.PlainRun | app/agents/temporal_workflows.py:933-969 | every run of the scheduler model is a run of the split one |
| DagPersistExamples.WindowFromStart | app/agents/temporal_workflows.py:608-630 | a run from a submitted job, with a writer and two critics, that ends with the writer pending and running |
| DagNodes.RunFromSpec | app/agents/temporal_workflows.py:317-322 | in every reachable state each node's agent, dependencies, approval and effect flags are those the frozen spec declares |
| DagClosure.RunClosed | app/agents/temporal_workflows.py:473-500 | without rejections the completed set is downward closed at every step, across waits, replacement plans and cuts |
| DagClosure.RunLost | app/agents/temporal_workflows.py:521-543 | a node that settled without completing stays that way in every run, rejections included |
| DagClosure.NothingDownstreamRuns | app/agents/temporal_workflows.py:473-500 | without rejections nothing transitively downstream of a lost node runs or completes |
| DagReopen.ReviewAllTo | app/agents/temporal_workflows.py:587-649 | the verdicts of a round reopen exactly the set computed from the tree before them, and change no other node |
| DagReopen.ReviewClosedIff | app/agents/temporal_workflows.py:588-649 | one verdict, with all its writers, keeps the closure exactly when no node that stays completed or runs depends on a reopened one |
| DagReopen.CollectClosedIff | app/agents/temporal_workflows.py:571-649 | the same for a whole collecting step, with any number of outcomes and verdicts |
| DagReopen.RunClosedIff | app/agents/temporal_workflows.py:571-649 | a run is closed at every point exactly when every collecting step of it meets that condition |
| DagVerdicts.NoGoesBack | app/agents/temporal_workflows.py:241-244 | in every collecting step each reviewer that did not approve and each tester whose tests did not pass is pending again without a result, whatever status it came with |
| DagVerdicts.QuietRoundSettles | app/agents/temporal_workflows.py:571-591 | without such an outcome the step writes every outcome into its node, completes exactly the completed ones and reopens nothing, so a missing verdict rejects nothing |
| DagFeedback.EveryNodeAccounted | app/agents/temporal_workflows.py:588-649 | after any collecting step a node holds its outcome or what it was, or rejected or goes along with a reworked writer, or is a completed writer with fewer than three rounds sent back, its instructions grown by the words of a rejection that addresses it |
| DagFeedback.DependentsGoAlong | app/agents/temporal_workflows.py:631-642 | every completed direct dependent of a writer whose rounds rose is pending again |
| DagFeedback.AddressedGoBack | app/agents/temporal_workflows.py:592-612 | every completed writer with fewer than three rounds that a rejection reaches and addresses is pending again, unless the rejecting node itself depends on a writer another verdict sent back |
| DagReworkExamples.ReworkStrandsFromStart | app/agents/temporal_workflows.py:631-642 | a run from a submitted job that ends with a node running above a pending one |
| DagGates.GatePassIff | app/agents/temporal_workflows.py:513-538 | a node that needs approval passes exactly when it was approved or the job was paused or cancelled there; otherwise it is skipped |
| DagSteps.GateDecides | app/agents/temporal_workflows.py:504-539 | in every run a gate waits for a decision, a pause or a cancellation, skips the node exactly on a refusal as the latest decision, and sets the job's status |
| DagGates.RunLetThrough | app/agents/temporal_workflows.py:502-543 | in every run, whatever runs or is about to and needs approval passed its latest gate on the latest decision since the run was last cut, or while the job stood paused or cancelled |
| DagGates.RunApproved | app/agents/temporal_workflows.py:502-543 | without pauses and cancellations that latest decision was an approval |
| DagRework.RunLoopsBounded | app/agents/temporal_workflows.py:608-618 | review rounds stay within MAX_REVIEW_LOOPS in every reachable state, and only writers have any |
| DagRework.RunSlack | app/agents/temporal_workflows.py:587-649 | in every run, for every node it ends with, launches are paid for by the first start, review rounds, those again after each cut, resource waits and own rejections |
| DagRework.LaunchBound | app/agents/temporal_workflows.py:587-649 | from any state, launches grow by at most 1, plus 3 for a writer and 3 per writer directly depended on for every cut and once more, plus resource waits and own rejections |
| DagRework.JobLaunchBound | app/agents/temporal_workflows.py:317-322 | hence for a submitted job, with saved nodes of any status and with nodes mounted later |
| DagRework.OthersNeverReject | app/agents/temporal_workflows.py:230-245 | in every run only reviewers and testers contribute rejections to that bound |
| DagProgress.CollectOutstanding | app/agents/temporal_workflows.py:571-649 | a round that sends no writer back shrinks the outstanding nodes exactly when some outcome is neither a resource wait nor a rejection |
| DagProgress.ReworkedIff | app/agents/temporal_workflows.py:608-629 | a round of verdicts raises some writer's rounds exactly when some finished node rejects and one of its writers is completed with a round left |
| DagProgress.CollectMeasure | app/agents/temporal_workflows.py:586-649 | the pair of unspent review rounds and outstanding nodes falls on every productive round and never rises |
| DagProgress.ProductiveRoundsBounded | app/agents/temporal_workflows.py:586-649 | a run over one tree has at most that measure's value of productive rounds |
| DagProgress.RejectsForEver | app/agents/temporal_workflows.py:643-649 | for every k, a run in which a lone rejecting node is launched k times and the job is still not done |
| DagOutcome.AlwaysHonestIff | app/agents/temporal_workflows.py:654-668 | WAITING_RESOURCES is backed by a pending node that waits at every point of a run exactly when no plan is mounted and no cut taken while the job shows it |
| DagHonest.EntryIsGood | app/agents/temporal_workflows.py:317-322 | every entry with nodes rebuilt from the spec, other than by a cut in a wait, meets the premises of the next two rows |
| DagHonest.RunWaitsIff | app/agents/temporal_workflows.py:481-493 | at any point of any run the job shows a wait nobody is in exactly when such a boundary was crossed and neither a resource wait nor an approval gate came since |
| DagOutcome.NormalExit | app/agents/temporal_workflows.py:971-986 | a normal exit settles every node, and ends COMPLETED exactly when all are COMPLETED and FAILED exactly when one failed, was skipped or escalated, if and only if WAITING_RESOURCES was backed by a waiting node or the synthesis failed |
| DagHonest.RunEndsFairlyIff | app/agents/temporal_workflows.py:456-671 | every run that ends was cancelled, or settled every node and gave that verdict exactly when it did not leave its loop showing a wait nobody is in |
| DagExamples.CutEndsWaiting | app/agents/temporal_workflows.py:661-671 | a run from a submitted job in which every node completes and the job ends WAITING_RESOURCES, because a cut fell into a wait |
| DagExamples.MountEndsWaiting | app/agents/temporal_workflows.py:654-671 | the same after a replacement plan was mounted during a wait and completed |
| DagOutcome.LostNeverCompletes | app/agents/temporal_workflows.py:976-979 | a node that settled without completing keeps the job from ever ending COMPLETED |
| DagOutcome.ReplannedNeverCompletes | app/agents/temporal_workflows.py:728-733 | after a replacement plan is mounted the job never ends COMPLETED, in any continuation |
| DagSteps.MountsIff | app/agents/temporal_workflows.py:681-699 | a new plan can be mounted exactly when nothing runs, the budget allows it, the spec is read-only and some node failed or escalated asking for one |
| DagSteps.MountCloses | app/agents/temporal_workflows.py:728-745 | mounting skips whatever is neither completed nor closed, keeps the rest, and leaves exactly the new nodes to do |
| DagOutcome.CancelLeavesUnfinishedIff | app/agents/temporal_workflows.py:999-1009 | exactly which nodes a cancellation leaves without a terminal status |
| DagSteps.CancelCloses | app/agents/temporal_workflows.py:556-569 | in every run the exact status of each node after a cancellation, by its status, what its task brought and the latest word on completed work |
| DagSteps.CancelIsDue | app/agents/temporal_workflows.py:456-462 | a cancel request is carried out whenever the coroutine looks with work left, and the loop is left exactly when none is |
| DagSteps.EmptyJobEnds | app/agents/temporal_workflows.py:979-984 | a job without nodes ends COMPLETED with a result and FAILED without |
| DagContinue.CutInvisible | app/agents/temporal_workflows.py:802-815 | a cut keeps pending, completed, statuses and contracts; a pending node is ready after it exactly when its dependencies are completed |
| DagSteps.CutForgets | app/agents/temporal_workflows.py:70-104 | a cut keeps of every node its declaration, status, attempts, recovery and reference, drops completed bodies, rounds and flags, and forgets every signal |
| DagSteps.CutDueIff | app/agents/temporal_workflows.py:656-668 | in every run a cut is due, and going on impossible, exactly when the DAG is long, nothing runs, work is left, enough completions came in since entry and every completed body has a reference |
| DagStale.CollectCurrentIff | app/agents/temporal_workflows.py:571-649 | a collecting step keeps references current exactly when every completion with a new result, an older reference and no successful store is reopened in the same round |
| DagStale.RunStaleIff | app/agents/temporal_workflows.py:945-968 | in every run a node ends with an outdated reference exactly when some step settled it over an older one, unstored, and no later step reopened it or cut the run |
| DagStale.AlwaysCurrentIff | app/agents/temporal_workflows.py:945-968 | references are current throughout a run exactly when no step of it does that |
| DagStale.CutDeliversIff | app/agents/temporal_workflows.py:661-668 | a cut at the end of any run gives a dependant the same content as before exactly when no such completion of the dependency is left |
| DagStale.QuietNeverStale | app/agents/temporal_workflows.py:587-591 | without rejections none ever is |
| DagReworkExamples.StaleFromStart | app/agents/temporal_workflows.py:661-668 | a run from a submitted job in which a dependant would get the second draft before the cut and gets the first one after it |
| ConversationJobs.SelectMessagesToEvict | app/memory/trim.py:33-52 | evicts nothing below the trigger, else everything before the kept window |
| ConversationJobs.KeptFrom | app/memory/trim.py:43-52 | the backward loop finds the start of the kept window |
| ConversationJobs.SelectSafeEvictableMessages | app/memory/trim.py:55-63 | the longest run of whole segments behind the cursor |
| ConversationJobs.DialogMessages | app/memory/conversation.py:199-205 | the user and assistant messages in order |
| ConversationJobs.HighestSequence | app/memory/conversation.py:211-218 | the highest sequence number stored, or 0 |
| ConversationJobs.SummariseBatches | app/memory/conversation.py:221-254 | the batching loop is the model's repeated step, stopping at the first failed summary |
| ConversationJobs.ConversationStore.constructor | app/memory/conversation.py:193-197 | an empty conversation with its cursor at 0 |
| ConversationJobs.ConversationStore.MaintainConversationMemory | app/memory/conversation.py:199-256 | the summarising job, with the number of segments it created |
| ConversationJobs.ConversationStore.TrimConversationMessages | app/memory/trim.py:151-181 | the evicting job: what is deleted, what stays, where the cursor ends |
| ConversationJobs.TrimRedisContext | app/memory/trim.py:87-125 | the cached window and the extraction offset after a trim |
| ConversationLaws.RunSound | app/memory/trim.py:158-181 | in every run, whatever the roles: no dialog message is deleted before a segment holds it, segments are full and numbered 1, 2, ..., and the cursor is a whole number of segments |
| ConversationLaws.ConservedIff | app/memory/trim.py:151-181 | after any run the segments' ids are exactly the evicted messages followed by the processed live dialog, if and only if only dialog messages were evicted |
| ConversationLaws.DialogRunConserved | app/memory/conversation.py:206-254 | with user and assistant messages alone the law holds in every run |
| ConversationWindow.WindowIsLongest | app/memory/trim.py:43-52 | the kept window is the longest suffix within the budget, or the last message alone |
| ConversationTrim.TokensAdd | app/memory/trim.py:39 | the tokens of a conversation are the sum over its messages |
| ConversationTrim.SegmentsOfRounds | app/memory/trim.py:60 | every segment of every run holds twice the configured rounds, and at least one round |
| ConversationTrim.BelowTriggerStays | app/memory/trim.py:39-41 | below the trigger a trim changes nothing |
| ConversationTrim.AboveTriggerGoes | app/memory/trim.py:43-63 | at or above it exactly the whole segments before the kept window and behind the cursor go, from the old end, and the cursor moves with them |
| ConversationTrim.TrimsIff | app/memory/trim.py:33-63 | a trim changes the store exactly when the trigger is reached and a whole segment is both summarised and before the kept window |
| ConversationTrim.CacheBelowTriggerStays | app/memory/trim.py:103-107 | below the trigger the cached window and the extraction offset stay |
| ConversationTrim.CacheAboveTriggerGoes | app/memory/trim.py:105-125 | at or above it the kept window is left, whatever was summarised, and the offset moves by what went |
| ConversationTrim.MaintainMakes | app/memory/conversation.py:221-254 | the job makes one segment for every successful summary until the dialog runs out, and moves only the cursor, by whole segments |
| ConversationWindow.SurvivorsIff | app/memory/trim.py:158-181 | a trim takes whole segments behind the cursor, and leaves less than one segment outside the window exactly when the cursor is less than one segment short of it |
| ConversationWindow.TrimIdempotent | app/memory/trim.py:151-181 | a second trim changes nothing |
| ConversationWindow.MaintainResumes | app/memory/conversation.py:221-254 | a job that stopped at a failed summary and a later one make what one job would have made |
| ConversationWindow.MaintainThenTrim | app/memory/trim.py:131-139 | after a job without failures a trim leaves the window and less than one segment before it |
| ConversationWindow.SegmentsAreChunks | app/memory/conversation.py:221-254 | segment k holds exactly the k-th block of the whole dialog history, however the jobs interleaved |
| ConversationWindow.SegmentsAgree | app/memory/conversation.py:186-192 | two runs over the same history agree on every segment both have made |
| ConversationWindow.LateInsertIff | app/memory/conversation.py:199-205 | a message that sorts into the history later keeps the law exactly when it lands behind the processed prefix |
| ConversationExamples.NoteBreaksConservation | app/memory/trim.py:151-181 | a family of conversations whose evicted note breaks the law and leaves a summarised reply unprocessed |
| ConversationExamples.AppendsReach | app/memory/conversation.py:199-205 | that family is reachable by three appends |
| ConversationExamples.ReplySummarisedTwice | app/memory/conversation.py:210-254 | one message and one job later the same reply is in two segments |
| RouteFilter.PossibleRouteSentinelStart | app/office/skill_utils.py:23-37 | -1 if nothing is held, else the place where the longest held tail begins |
| RouteFilter.SentinelPrefixTailLen | app/office/skill_utils.py:40-52 | the length of the longest tail that could begin a marker; so the two scanners agree |
| RouteFilter.SafeLength | app/office/skill_utils.py:160-173 | no length when the sentinel is buffered, else what is left after holding two tails back |
| RouteFilter.Relay | app/office/skill_utils.py:158-176 | one pass of the loop sends a prefix on and keeps the rest |
| RouteFilter.StreamDeltas | app/office/skill_utils.py:119-176 | the loop over the deltas is the model's fold |
| RouteFilter.OfficeLlm | app/office/skill_utils.py:119-203 | what was emitted at the end, the flush included, and the full output |
| RouteFilter.MarkerNeverLeaks | app/office/skill_utils.py:160-203 | for every split of the text: everything shown precedes the first bracketed marker |
| RouteFilter.ShownIsPrefix | app/office/skill_utils.py:174-176 | what is shown is the beginning of the text, in order |
| RouteFilter.NothingIsLost | app/office/skill_utils.py:201-203 | text without the sentinel is shown in full for every split |
| RouteFilter.LittleIsHeld | app/office/skill_utils.py:170-176 | at most twice the marker's length less one is held back after any delta |
| RouteFilter.TwoTailsHeld | app/office/skill_utils.py:160-176 | after any delta exactly two possible beginnings are held, one before the other, and all the rest has gone out |
| RouteFilter.OutputTells | app/office/skill_utils.py:161-203 | the full output contains the sentinel whenever the text does, and is the whole text unless the stream stopped at one |
| RouteFilter.BareSentinelLeaksIff | app/office/skill_utils.py:160-176 | part of the first bare sentinel is shown exactly when a delta ends inside it where nothing is held |
| RouteFilter.SplitBareSentinelIsShown | app/office/skill_utils.py:160-203 | bracketless text whose deltas contain no whole sentinel is shown in full, sentinel included |
| PluginVersions.ParseRequirement | app/plugins/dependencies.py:87-94 | the loop over the operators |
| PluginVersions.RequirementRoundTrip | app/plugins/dependencies.py:87-94 | an entry written with ">=" is read back exactly when neither half has outer spaces and the name lacks the operator |
| PluginVersions.EveryOperatorReads | app/plugins/dependencies.py:87-94 | every operator splits an entry into its name and version, and all mean the same |
| PluginVersions.VersionTuple | app/plugins/dependencies.py:97-103 | the loop over the pieces collects their numbers |
| PluginVersions.AtLeastIff | app/plugins/dependencies.py:106-110 | the comparison holds exactly when the first difference favours the actual version, or the required one is its beginning |
| PluginVersions.VersionRoundTrip | app/plugins/dependencies.py:97-103 | a version written as numbers with dots is read as those numbers |
| PluginVersions.WrittenSatisfiesIff | app/plugins/dependencies.py:106-110 | a written version satisfies a written requirement exactly by the first difference of their numbers |
| PluginVersions.AtLeastTransitive | app/plugins/dependencies.py:106-110 | the comparison of versions is transitive |
| PluginVersions.AtLeastTotal | app/plugins/dependencies.py:106-110 | the comparison of versions is total and antisymmetric |
| PluginVersions.NewerSatisfies | app/plugins/dependencies.py:106-110 | a version at least as new satisfies what the older one did |
| PluginRegistry.NoIssuesIff | app/plugins/dependencies.py:184-216 | the plugin part of the report is empty exactly when every entry is installed, enabled and new enough |
| PluginRegistry.ResolvePlugins | app/plugins/dependencies.py:184-216 | the resolver's loop, issue by issue |
| PluginRegistry.AsksFor | app/plugins/registry.py:469-475 | whether a manifest names a plugin |
| PluginRegistry.EnabledDependents | app/plugins/registry.py:464-476 | exactly the enabled other plugins that ask for this one |
| PluginRegistry.PluginRegistry.constructor | app/plugins/registry.py:567-592 | restores every readable record with a fresh health status |
| PluginRegistry.PluginRegistry.Resolves | app/plugins/registry.py:461-462 | the resolver against the other installed plugins |
| PluginRegistry.PluginRegistry.Install | app/plugins/registry.py:247-291 | accepted exactly when the model accepts it; the new installations |
| PluginRegistry.PluginRegistry.Upgrade | app/plugins/registry.py:330-346 | the same for an upgrade, refused for the same version |
| PluginRegistry.PluginRegistry.Enable | app/plugins/registry.py:293-312 | the same for enabling |
| PluginRegistry.PluginRegistry.Disable | app/plugins/registry.py:314-328 | the same for disabling, refused while dependents are enabled |
| PluginRegistry.PluginRegistry.Uninstall | app/plugins/registry.py:375-387 | the same for uninstalling |
| PluginRegistry.PluginRegistry.Rollback | app/plugins/registry.py:348-373 | the same for rolling back, which asks no dependent |
| PluginRegistry.PluginRegistry.Health | app/plugins/registry.py:419-425 | a health check changes the health status alone |
| PluginClosure.ReplaceClosedIff | app/plugins/registry.py:279-281 | replacing an installation keeps the enabled plugins closed exactly when it satisfies every enabled dependent's entry |
| PluginClosure.ReplaceAcyclicIff | app/plugins/registry.py:279-281 | replacing an installation keeps them acyclic exactly when it is off or asks for nothing that needs it in turn |
| PluginClosure.RemoveClosedIff | app/plugins/registry.py:375-387 | removing installations keeps them closed exactly when no enabled plugin that stays asks for one that goes |
| PluginRuns.StepGoodIff | app/plugins/registry.py:247-387 | for every operation, the exact condition for closure and for acyclicity after it |
| PluginRuns.RunGoodIff | app/plugins/registry.py:247-387 | a run is closed and acyclic at every point exactly when every operation met its condition when called |
| PluginRuns.CoreRunGood | app/plugins/registry.py:247-328 | first installs, enables, disables, uninstalls and health checks keep both in every run |
| PluginEffects.AcceptedIff | app/plugins/registry.py:247-387 | exactly when each operation is accepted, by the installations it finds |
| PluginEffects.OthersUntouched | app/plugins/registry.py:247-387 | a rejected operation changes nothing, an accepted one no plugin but its own |
| PluginEffects.EnableTurnsOn | app/plugins/registry.py:293-313 | an accepted enable leaves the plugin on, healthy and with its entries met, and otherwise as it was |
| PluginEffects.DisableTurnsOff | app/plugins/registry.py:315-328 | an accepted disable leaves it off with nobody using it, and otherwise as it was |
| PluginEffects.UninstallRemoves | app/plugins/registry.py:375-387 | an accepted uninstall removes it and nothing else |
| PluginEffects.InstallPuts | app/plugins/registry.py:262-291 | an accepted install puts the manifest in, on exactly if asked for and healthy, and remembers the version it replaces |
| PluginEffects.UpgradePuts | app/plugins/registry.py:330-346 | an accepted upgrade does the same and keeps the plugin on or off, health allowing |
| PluginEffects.RollbackPutsBack | app/plugins/registry.py:348-373 | a rollback to another version sets it, turns the plugin off and remembers the version it left |
| PluginEffects.RollbackUndoesUpgrade | app/plugins/registry.py:330-373 | a rollback after an upgrade restores the version number, not what the old version asked for, and can be rolled back itself |
| PluginEffects.HealthMarks | app/plugins/registry.py:419-425 | a health check changes the health alone |
| PluginEffects.RestartReloads | app/plugins/registry.py:567-592 | a restart loses exactly the unreadable records and checks the others' health |
| PluginEffects.RunOnIff | app/plugins/registry.py:247-387 | after any run a plugin is on exactly when the last accepted operation that could turn it on or off turned it on |
| PluginRuns.NewerUpgradeKeeps | app/plugins/registry.py:330-346 | an upgrade to a version at least as new keeps every dependent satisfied |
| PluginRuns.MutualUpgradeAccepted | app/plugins/registry.py:330-346 | an upgrade that starts asking for a plugin which asks for it is accepted and closes a cycle |
| PluginRuns.CycleFromStart | app/plugins/registry.py:330-346 | from the empty registry: two installs and an upgrade, all accepted, after which two enabled plugins need each other |
| PluginGate.RunSound | app/plugins/quota.py:214-225 | in every interleaving active counts the holders of all semaphores, and every permit is free, handed over or held |
| PluginGate.PeakIsBusiest | app/plugins/quota.py:219-220 | peak is the highest number of holders at any point of the run |
| PluginGate.StepQuietIff | app/plugins/quota.py:207-212 | replaced semaphores stay unused exactly until a limit change falls between a hand-over and its holder's start |
| PluginGate.RunWithinLimit | app/plugins/quota.py:214-225 | in every run without that moment, holders never exceed the limit, and free, handed-over and held permits add up to it |
| PluginGate.FixedLimitQuiet | app/plugins/quota.py:199-206 | with one limit that moment never comes |
| PluginGate.EntersIff | app/plugins/quota.py:214-220 | within its limit the gate lets a newcomer in at once exactly when nobody queues or was handed a permit and there is room; otherwise it queues |
| PluginGate.LeavesTo | app/plugins/quota.py:221-225 | a task that leaves hands its permit to exactly one waiting task |
| PluginGate.OverrunsLimit | app/plugins/quota.py:207-212 | at that moment the new limit's newcomers and the old holder get inside together, one too many |
| PluginGate.OverrunFromStart | app/plugins/quota.py:207-225 | from an empty gate, for every new limit other than 1: a run that ends with one holder more than the limit |
| PluginGate.PluginConcurrencyGate.constructor | app/plugins/quota.py:193-197 | every plugin starts without a semaphore |
| PluginGate.PluginConcurrencyGate.SemaphoreFor | app/plugins/quota.py:199-212 | creates, replaces or keeps one plugin's semaphore and touches no other plugin |
| PluginGate.PluginConcurrencyGate.StepInside | app/plugins/quota.py:218-220 | takes a permit and counts the holder and the peak |
| PluginGate.PluginConcurrencyGate.Hold | app/plugins/quota.py:215-220 | the model's entering step, inside at once or queued |
| PluginGate.PluginConcurrencyGate.Release | app/plugins/quota.py:223-225 | the model's leaving step, on the semaphore that was acquired |
| StreamLaws.NormalizeSnoc | app/contracts/stream_view_model.py:102-122 | sorting and deduplicating everything again equals absorbing the one new frame |
| StreamLaws.NormalizeRepresents | app/contracts/stream_view_model.py:102-122 | the normal form is sorted, has every key once and with its least number, and invents nothing |
| StreamLaws.NormalizeIdempotent | app/contracts/stream_view_model.py:102-122 | a normal form is its own normal form |
| StreamLaws.ResumeIsExact | app/contracts/stream_view_model.py:102-122 | a client that resumes from its normal form ends where one that kept every frame does |
| StreamLaws.ReplayHarmless | app/contracts/stream_view_model.py:102-122 | sending frames again changes nothing, in whatever order they came |
| StreamLaws.OrderInsensitiveIff | app/contracts/stream_view_model.py:112-121 | the result depends only on the set of frames exactly when unshadowed frames of equal number are equal |
| StreamEvents.NormalFormIff | app/contracts/stream_view_model.py:90-122 | a sequence of frames is the normal form exactly when it consists of the first deliveries of the events, by number and arrival, events being told apart by id, or by job and number where there is none |
| StreamEvents.EveryEventOnce | app/contracts/stream_view_model.py:90-122 | every delivered event has exactly one frame in the normal form, however often and under whatever numbers it came, and no other has any |
| StreamEvents.SnapshotOfEvents | app/contracts/stream_view_model.py:166-190 | the snapshot renders, leaves untyped or counts as dropped each first delivery |
| StreamView.NormalizeFrames | app/contracts/stream_view_model.py:102-122 | the loop with its set of seen keys |
| StreamView.ConsumeFrames | app/contracts/stream_view_model.py:166-297 | the consuming loop is the model's fold over the normal form |
| StreamView.EveryFrameAccounted | app/contracts/stream_view_model.py:168-190 | the content is what rendering exactly the frames that get through makes of it, and every frame gets through, lacks a type, or is counted as dropped |
| StreamView.FinalIff | app/contracts/stream_view_model.py:284-286 | the stream has ended exactly when a typed terminal frame was consumed |
| StreamView.LateFramesOnlyCount | app/contracts/stream_view_model.py:175-180 | after the end, later frames the seal blocks change the drop counter alone, by the number of keys they bring |
| EffectsLaws.RunCalling | app/agents/temporal_logical_effects_workflows.py:39-126 | in every run frontiers never overlap, starts and ends match, and the cleanup is made once, last, and exactly by a run that has returned |
| EffectsLaws.StartsIff | app/agents/temporal_logical_effects_workflows.py:40-55 | a step starts a frontier exactly at the loop head, not paused and not cancelled |
| EffectsLaws.StopHolds | app/agents/temporal_logical_effects_workflows.py:182-194 | until a run is cut, a cancel request stops all further starts, and so does a pause that is not lifted |
| EffectsLaws.CutEndsStop | app/agents/temporal_logical_effects_workflows.py:116-126 | the first cut takes a stop away: a frontier starts at the next wake |
| EffectsLaws.StopForgottenIff | app/agents/temporal_logical_effects_workflows.py:56-126 | a pause or cancel request that is there when a frontier ends is forgotten, and another frontier started, exactly when that end leads to a cut |
| EffectsLaws.CutDropsApprovals | app/agents/temporal_logical_effects_workflows.py:118-126 | in every run that is cut, the approvals dropped are the signalled ones nobody acknowledged, and a pending patch is dropped too |
| EffectsLaws.PauseLostFromStart | app/agents/temporal_logical_effects_workflows.py:56-126 | runs from the start, drained and not, in which a second frontier starts after a pause nobody lifted |
| EffectsLaws.ApprovalLostFromStart | app/agents/temporal_logical_effects_workflows.py:116-126 | a run from the start whose successor has forgotten an approval |
| EffectsLaws.RunLedger | app/agents/temporal_logical_effects_workflows.py:128-149 | the retained approvals are the signalled ones in order, minus one per matched acknowledgement |
| EffectsCalls.StartsCarryOutstanding | app/agents/temporal_logical_effects_workflows.py:45-53 | in every run each frontier is started with exactly the approvals signalled in its run and not acknowledged before, in order |
| EffectsCalls.OutstandingStays | app/agents/temporal_logical_effects_workflows.py:128-149 | an approval stays outstanding until it is acknowledged or the run is cut |
| EffectsCalls.RunKeep | app/agents/temporal_logical_effects_workflows.py:191-194 | the cancel flag and its word on completed work are those of the run's cancel requests, the latest one counting |
| EffectsCalls.RunEndsBy | app/agents/temporal_logical_effects_workflows.py:40-126 | in every run the returning step makes exactly the calls and gives the status of what ended it: a cancel request, a cancelled or failed frontier, an expired approval, a final result |
| EffectsCalls.SignalEndsWait | app/agents/temporal_logical_effects_workflows.py:76-108 | in every run each signal a wait is for brings the coroutine back to the head of its loop |
| EffectsCalls.QuietWaitHolds | app/agents/temporal_logical_effects_workflows.py:74-88 | a wait for an approval holds exactly while none is outstanding and nobody asked for anything |
| EffectsCalls.ResultLeads | app/agents/temporal_logical_effects_workflows.py:73-114 | in every run a result leads to the wait it asks for, ends the plan or pauses the workflow, and an approval that has not expired lets it go on |
| EffectsCalls.RunPatch | app/agents/temporal_logical_effects_workflows.py:102-108 | a plan patch is pending from its signal until an expansion wait takes it or the run is cut |
| EffectsCalls.CutsAfter | app/agents/temporal_logical_effects_workflows.py:115-126 | in every run a frontier's end cuts the run exactly when it is progress and completes the number after which runs are cut |
| LogicalEffectsWorkflows.LogicalEffectsWorkflow.constructor | app/agents/temporal_logical_effects_workflows.py:19-28 | a fresh run |
| LogicalEffectsWorkflows.LogicalEffectsWorkflow.PauseSignal | app/agents/temporal_logical_effects_workflows.py:182-184 | the model's pause |
| LogicalEffectsWorkflows.LogicalEffectsWorkflow.ResumeSignal | app/agents/temporal_logical_effects_workflows.py:186-189 | the model's resume, which also wakes an approval wait |
| LogicalEffectsWorkflows.LogicalEffectsWorkflow.CancelSignal | app/agents/temporal_logical_effects_workflows.py:191-194 | the model's cancel request |
| LogicalEffectsWorkflows.LogicalEffectsWorkflow.ApproveTask | app/agents/temporal_logical_effects_workflows.py:196-202 | an approval is retained at the end, unless it names no node |
| LogicalEffectsWorkflows.LogicalEffectsWorkflow.PlanPatchAvailable | app/agents/temporal_logical_effects_workflows.py:204-206 | the model's patch signal |
| LogicalEffectsWorkflows.LogicalEffectsWorkflow.ConsumeApproval | app/agents/temporal_logical_effects_workflows.py:128-149 | the loop deletes the first matching approval and only that |
| LogicalEffectsWorkflows.LogicalEffectsWorkflow.WakeUp | app/agents/temporal_logical_effects_workflows.py:40-64 | from one wait to the next as the model does |
| LogicalEffectsWorkflows.LogicalEffectsWorkflow.HandleResult | app/agents/temporal_logical_effects_workflows.py:74-126 | the loop body after a frontier's result |
| LogicalEffectsWorkflows.LogicalEffectsWorkflow.FrontierEnds | app/agents/temporal_logical_effects_workflows.py:56-73 | a frontier's end in every way it can come |
| LogicalEffectsWorkflows.LogicalEffectsWorkflow.ApprovalTimesOut | app/agents/temporal_logical_effects_workflows.py:88-101 | a timed-out approval wait |
| LogicalEffectsWorkflows.LogicalEffectsWorkflow.ReturnWith | app/agents/temporal_logical_effects_workflows.py:41-43 | a return makes its calls and then one cleanup |
| DagContinue.RestoreTrustsSpec | app/agents/temporal_workflows.py:70-104 | one step: whatever the saved nodes say, agent, parameters, dependencies, approval, review rounds and waiting flag are the spec's, and undeclared nodes vanish |
| DagClosure.ReopenWriterClosedIff | app/agents/temporal_workflows.py:625-642 | one step: reopening a writer keeps the closure exactly when no completed or running node depends on something it reopened without being reopened too |
| DagClosure.ReopenSelfClosedIff | app/agents/temporal_workflows.py:643-649 | one step: reopening the rejecting node keeps the closure exactly when nothing that ran depends on it |
| DagRework.CutRefundsBudget | app/agents/temporal_workflows.py:60-67 | one step: after a cut every node has its full review budget again, while its attempts count on |
| DagOutcome.MountHonestIff | app/agents/temporal_workflows.py:728-744 | one step: after mounting, WAITING_RESOURCES is backed by a waiting node exactly when the job did not show it |
| DagOutcome.CutHonestIff | app/agents/temporal_workflows.py:60-67 | one step: the same for a history cut, which drops the waiting flags |
| DagOutcome.SynthesisIgnoredIff | app/agents/temporal_workflows.py:791-797 | one step: a failed answer synthesis changes the end of the job exactly when the job shows WAITING_RESOURCES, and then leads to a fair verdict |
| DagOutcome.DishonestExit | app/agents/temporal_workflows.py:973-975 | one step: a WAITING_RESOURCES nobody waits for survives the exit, whatever the nodes did |
| DagOutcome.CancelKeepsCompleted | app/agents/temporal_workflows.py:556-569 | one step: a cancellation keeps every completed node as it is and a completion that arrives with it, and completes nothing else |
| DagContinue.CutStillDelivers | app/agents/temporal_workflows.py:851-862 | one step: a completed result that was a body reaches dependants as a reference, a reference stays itself |
| DagContinue.CutDeliversSameIff | app/agents/temporal_workflows.py:817-824 | one step: dependants get the same content exactly when the stored reference was made from the completing result |
| DagContinue.RecordedRefIff | app/agents/temporal_workflows.py:945-968 | one step: a completion leaves a reference to its own result exactly when storing it worked or an earlier one has the same content |
| DagContinue.StaleReference | app/agents/temporal_workflows.py:817-824 | one step: a reworked writer with a failed store passes the test before a cut and delivers its old draft |
| ConversationWindow.UnreadKeptIff | app/memory/trim.py:118-125 | one step: messages not yet read by extraction survive a trim of the cache exactly when all removed ones lie before the offset |
| EffectsLaws.CrashIff | app/agents/temporal_logical_effects_workflows.py:63-73 | one step: the workflow ends without cleanup exactly when a frontier fails while a pause waits it out, or the expiry Activity fails |
| EffectsLaws.CutsIff | app/agents/temporal_logical_effects_workflows.py:63-126 | one step: the only way into a cut: a frontier that ends as ordinary progress and the last of its run, drained or with no cancel request seen |
| EffectsLaws.CancelKept | app/agents/temporal_logical_effects_workflows.py:40-62 | one step: a cancel request that is not forgotten ends the workflow at once or within two wakes |

## Left out

- DagWorkflow.AgentDagWorkflow.ApproveTask: does not record the tool fingerprints a signal stores beside the decision (377-389); they are hashes handed to the node's Activity.
- DagWorkflow.AgentDagWorkflow.PassGate: a node's snapshot while it stands at the gate is visible to queries between the two halves of one turn; the model shows the state after the turn.
- DagInvariants.RunInv: stated for the model in which an outcome and its leaving the running table are one step; `RunSplitIff` says for which long-DAG runs that is the whole truth.
- DagOutcome.NormalExit: an unfinished verdict (RUNNING) remains possible when a node is interrupted by its own Activity and none failed, as the code has it.
- PluginGate.PluginConcurrencyGate.Hold: the hand-over to a queued holder belongs to the event loop's semaphore, whose internals are a counter with a queue in the model; `Resume`, `GiveUp` and `Abandon` are steps of the model without a method.
- PluginVersions.VersionTuple: digits are the ASCII ones; other Unicode digits, which the source accepts as digits, are not modelled.
- PluginVersions.ParseRequirement: white space is the ASCII kind.
- PluginRegistry.PluginRegistry.Install: every gate but the plugin requirements is one arbitrary answer; installations are values in a map, so a caller that keeps an installation object and sees later changes through it is not modelled.
- PluginRegistry.EnabledDependents: the sorted order of the ids in the refusal message is not modelled.
- StreamView.ConsumeFrames: what a frame does to the visible content is a parameter, so the per-type field updates (186-282) are not spelled out.
- ConversationJobs.ConversationStore.TrimConversationMessages: the attachment files of deleted messages and the row lock itself are left out.
- ConversationJobs.ConversationStore.MaintainConversationMemory: the texts of a segment (summary, entities, open loops, mood), its embedding and the row lock itself are left out.
- A Workflow-level exception of the scheduler (332-345), its secret cleanup, the child workflow variant of a node, file-path extraction, tool bindings, hashes and timestamps.
- The hashing behind spec fingerprints, and duplicate node ids in a submitted spec (in the answer of the replan Activity they are modelled).
- `maintain_conversation_memory`'s summaries, recall and keyword search.
- The read-only logical workflow: the loop of the effects workflow without approvals, with a replan Activity (`app/agents/temporal_logical_read_workflows.py:71-96`) in their place and the same wait for an expansion.
- The effect journal, which reserves, confirms and abandons one row per idempotency key, and the artifact cleanup, which deletes the expired files of given classes.
- The bounded output reader of plugin workers, quotas, signatures, lifecycle storage and snapshots.
- Event adapters, projections, configuration, persistence models, rendering, authentication and HTTP.
