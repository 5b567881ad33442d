# Verified model of a durable graph runtime

A Dafny model of a Go graph runtime: its super-step engine with checkpoints and crash
recovery, the savers in front of a checkpoint store, the interrupt and resume protocol,
and the smaller protocols around them. Node bodies, routers, reducers, codecs and the
clock are arbitrary functions carried as values, so every theorem holds for all of them.

`dafny verify dfyconfig.toml` checks the whole project.

## How the model is organised

| component | modules |
|---|---|
| declarations and compilation | `Builder`, `Graphs` |
| routing one super-step | `Routing` (functions), `Scheduler` (in-place loops), `RoutingRuns` (whole runs) |
| channel versions, task-result codec | `Versions`, `Envelopes` |
| the run loop over checkpoints, replays, forks and manual updates | `Engine`, `EngineFacts`, `ChainFacts`, `RunLoop`, `Forks`, `Replays` |
| crash recovery and schedule independence | `Recovery`, `RecoveryFacts`, `RecoveryTheorems`, `Stranding`, `ChannelExamples` |
| asynchronous and exit savers | `AsyncSaver`, `AsyncTheorems`, `AsyncRecovery`, `AsyncRuns`, `ExitSaver`, `Blobs`, `Listing` |
| interrupts | `Interrupts`, `InterruptReplay`, `ScopedReplay`, `InterruptOrdering`, `MixedResume`, `ResumeFork` |
| remote streams and run control | `Sse`, `SseFacts`, `SseTheorems`, `ControlStore`, `ControlTheorems` |
| functional entrypoints | `Functional`, `FunctionalTheorems` |
| delta channels, IDs, messages | `DeltaChannel`, `MonotonicId`, `Messages`, `MessageTheorems`, `MessageOrder` |

Code that mutates state is modelled by classes and loops proved against functions; the
promises are lemmas about those functions. Concurrent protocols (`Recovery`, `AsyncSaver`,
`AsyncRuns`, `InterruptOrdering`, `Functional`) are state machines whose steps are the critical sections
of the code, so a statement over all step sequences is a statement over all interleavings.

## What the code does that a reader might not expect

- The freshness filter runs after the decision to release deferred nodes, so a run can
  finish with deferred work (`Stranding.StrandedExactly` says exactly when,
  `ChannelExamples.StrandedRun` is such a run).
- A new run on an existing thread goes on with the entry tasks it scheduled while its
  checkpoint stores the fresh ones. A crash right after it loses the others
  (`Stranding.CrashKeepsTasksExactly`, `ChannelExamples.CrashLosesRun`). A replay or a
  resumed fork loses none (`Forks.ForkKeepsTasks`).
- The recursion limit counts the checkpoints of the thread, over all its runs
  (`RecoveryTheorems.LimitSpansRuns`).
- A node refused for its error handler stays deferred when it is declared again
  (`Builder.RetriedStaysDeferred`).
- Answering a later interrupt of a composite task before an earlier one stores a nil slot,
  which reads back as the answer null (`Interrupts.AnswersExactly`).
- A fork drops earlier answers, so a single-value resume that validation accepted can be
  refused after the fork was published (`ResumeFork.AcceptedAgainExactly`).
- Deleting thread "a" makes a thread whose ID is "a", a NUL and more forget its idempotency
  keys, so a repeated request creates a second run (`ControlTheorems.DeletionForgetsExactly`).
- A saver that fails inside a fork leaves a branch behind (`ResumeFork.BrokenForkKeeps`).
- The dry run before a fork and the selection after it walk the child checkpoints in
  different orders and can report different errors (`MixedResume.WalksDifferExactly` says
  exactly when), and only the selection accepts a static interrupt
  (`MixedResume.ValidateIsSelect`).
- An update or fork checkpoint that is invoked again runs the tasks that had succeeded, but
  not the bodies of those that had failed (`Replays.BranchPointReplays`).
- A Last-Event-ID header loses its outer blanks, so events can be lost, repeated or answered
  with an error when IDs begin or end with a blank (`SseTheorems.DeliversExactly` says
  exactly when).
- A functional workflow can be resumed with another answer to the same interrupt, and may
  then call its later tasks with other inputs, which fail
  (`FunctionalTheorems.ReansweredDiffers`).
- A functional workflow that awaits a task without persistence may call its later tasks with
  other inputs on replay, which then fail (`FunctionalTheorems.DrawnDiffers`).
- A regular write after an overwrite in one step is dropped by the step and applied by the
  log replay (`DeltaChannel.ReplayAgreesExactly`).

## Model

| member | source | states |
|---|---|---|
| `Builder.StateGraph.AddNode` | graph/builder.go:160-215 | accepts exactly new, non-reserved, non-empty IDs with a fitting error handler; the refusal of a misfitting handler takes the node back but leaves its deferral, any other refusal changes nothing; keeps the builder invariant |
| `Builder.RetriedStaysDeferred` | graph/builder.go:201-213 | after such a refusal the same node declared without deferral is deferred |
| `Builder.StrayDeferrals` | graph/builder.go:205-213 | deferrals left by refused nodes do not influence how known routes are added |
| `Builder.StateGraph.AddEdge` | graph/builder.go:290-309 | accepts exactly the legal, not yet declared edges and appends in declaration order; a refusal changes nothing |
| `Builder.StateGraph.AddWaitingEdge` | graph/builder.go:265-288 | accepts exactly two or more distinct legal sources and a legal target, and numbers the edge by its position; a refusal changes nothing |
| `Builder.WaitingEdgesNumbered` | graph/builder.go:265-288 | whatever was declared, waiting edges have pairwise different IDs that no deferred key can equal, and distinct sources |
| `Builder.CompiledIsClosed` | graph/builder.go:442-512 | once the endpoint checks pass, everything routing can produce is a node or END; this is the hypothesis of the engine theorems |
| `Builder.Search` | graph/builder.go:520-560 | the breadth-first search finds exactly the nodes reachable from START along declared successors, for every graph, cyclic ones included |
| `Graphs.TaskIdInjective` | graph/compiled.go:2297-2318 | a task ID determines its step, index and node, even when node names contain colons |
| `Graphs.EdgeIdInjective` | graph/builder.go:285-287 | waiting-edge IDs are pairwise different |
| `Scheduler.RunScheduler.DeferDestination` | graph/compiled.go:2191-2209 | a deferred destination adds its trigger to the in-place waiting map, any other leaves it alone |
| `Scheduler.RunScheduler.Add` | graph/compiled.go:1618-1641 | one routed destination changes next, triggers and waiting exactly as the routing function says |
| `Scheduler.RunScheduler.AddAll` | graph/compiled.go:1642-1669 | a batch of destinations folds in order |
| `Scheduler.RunScheduler.Arrive` | graph/compiled.go:1670-1690 | one waiting edge: the barrier grows in place, fires and is cleared when full |
| `Scheduler.RunScheduler.ResolveNext` | graph/compiled.go:1607-1692 | the in-place loops compute the routing function of the step, or stop at its first error |
| `Scheduler.RunScheduler.ReleaseDeferred` | graph/compiled.go:2211-2237 | the sorted release and the deletion of the waiting entries equal the release function |
| `Scheduler.CollectArrivals` | graph/compiled.go:1671-1681 | the inner loops over sources and results compute the union of the barrier with the completed sources |
| `RoutingRuns.WaitingEdgeFires` | graph/compiled.go:1670-1690 | over every run with saves and restores anywhere, an edge's target is routed exactly at the first step by which all its sources have completed since its last firing |
| `RoutingRuns.WaitingBarriers` | graph/compiled.go:1670-1690 | between events a barrier holds exactly the sources completed since the last firing and is a strict subset of the sources |
| `RoutingRuns.BarriersKept` | graph/compiled.go:1670-1690 | every step, new run and reload keeps every barrier a strict subset of its sources and every waiting key known |
| `RoutingRuns.RoundTrip` | graph/compiled.go:2077-2120 | saving the waiting sets in a checkpoint and restoring them gives them back |
| `RoutingRuns.AddRoutesExactly` | graph/compiled.go:1618-1641 | the scheduled nodes are exactly the ordinary destinations, once each, each with exactly the triggers routed to it |
| `RoutingRuns.NextByFirstMention` | graph/compiled.go:1618-1641 | nodes are scheduled in the order of their first mention, so task indexes follow the routes |
| `RoutingRuns.PushTasksExactly` | graph/compiled.go:1739-1765 | every Send becomes one task, in order after the edge tasks, with its node, its state and the push trigger |
| `RoutingRuns.RouteReached` | graph/compiled.go:1618-1641 | every route is honoured: END ends the branch, a deferred node remembers it, any other node is scheduled or the trigger is delivered at the release |
| `RoutingRuns.DeferredHistory` | graph/compiled.go:2191-2237 | a deferred node holds exactly the triggers handed to it since the last release, checkpoints in between included |
| `RoutingRuns.DeferredDelivery` | graph/compiled.go:2211-2237 | a release creates exactly one task per pending node with exactly the accumulated triggers, sorted, and clears them: each trigger is delivered once |
| `RoutingRuns.DeferredApart` | graph/compiled.go:1768-1770 | no event schedules an edge-routed deferred task next to ordinary or Send work |
| `RoutingRuns.NothingPendingAtFinish` | graph/compiled.go:1768-1770 | routing that schedules nothing leaves no deferred node pending |
| `RoutingRuns.TasksStamped` | graph/compiled.go:1739-1765 | the tasks of every event carry the step they will run in and pairwise different IDs |
| `Envelopes.EncodeSendsLoop` | graph/persistence.go:320-333 | the slice-filling loop encodes every Send in order or reports the first failure |
| `Envelopes.ResultRoundTrip` | graph/persistence.go:299-402 | a persisted task result decodes to the same node, handler, update, Sends and Goto, absent and empty Goto kept apart |
| `Envelopes.ResultEncodingInjective` | graph/persistence.go:299-346 | different results of a task never share an encoding |
| `Versions.StampChannels` | graph/compiled.go:1944-1974 | the loop over the sorted channels computes the versions and exactly the new versions |
| `Versions.FilterFresh` | graph/compiled.go:2024-2049 | the nested loop keeps exactly the fresh tasks, in order |
| `Versions.VersionIsLastChange` | graph/compiled.go:1944-1974 | along every lineage a channel's version is the ID of the last checkpoint where its value or presence changed |
| `Versions.SeenIsLastRun` | graph/compiled.go:1975-1984 | a node is recorded as seen exactly when it ran, with the versions of the checkpoint it last ran from |
| `Versions.DroppedExactlyWhenStale` | graph/compiled.go:2024-2049 | a previously run channel-triggered node is dropped if and only if no trigger channel changed at any checkpoint after the one it last ran from |
| `Versions.SameVersion` | graph/compiled.go:1944-1974 | two checkpoints share a channel version if and only if the channel did not change in between |
| `Versions.FreshTasksStamped` | graph/compiled.go:2024-2049 | filtering keeps the stamped, distinct task IDs |
| `EngineFacts.TasksKnown` | graph/compiled.go:2270-2295 | every task a step or entry schedules names a compiled node, so restoring it cannot fail |
| `EngineFacts.TasksRoundTrip` | graph/compiled.go:2320-2344 | storing tasks in a checkpoint and restoring them gives back IDs, nodes, triggers and Send inputs |
| `EngineFacts.PrepareRestores` | graph/compiled.go:1875-2009 | restoring a prepared checkpoint gives the state, the filtered tasks, the next step and the waiting sets it was prepared from |
| `EngineFacts.CommitRestores` | graph/compiled.go:363-503 | after every commit the loop variables in memory equal what a restart reads back, tasks stamped with the next step, barriers in order |
| `EngineFacts.EnterLinks` | graph/compiled.go:618-654 | the input checkpoint of a first or further run restores to the loop that runs on in memory, but for entry tasks that are not fresh |
| `EngineFacts.ChainRestores` | graph/compiled.go:589-748 | every checkpoint a thread writes, over all its runs and wherever it was read back, restores to the loop variables of the process that wrote it but for tasks that are not fresh, and its task IDs are pairwise different and stamped with the next step |
| `ChainFacts.ChainSame` | graph/compiled.go:363-503 | which IDs the checkpoints draw changes nothing but the names of the versions: values, tasks, triggers, waiting sets, runs and errors agree |
| `ChainFacts.ChainIsLineage` | graph/compiled.go:1944-1984 | the checkpoints of a thread, new runs included, are a version lineage |
| `ChainFacts.ChainVersions` | graph/compiled.go:1944-2049 | over all runs of a thread a channel version is the ID of its last change, and a node is dropped if and only if it has triggers, ran before, and none of them changed since |
| `ChainFacts.RereadAnywhere` | graph/compiled.go:606-659 | when every run finds its entry tasks fresh, it makes no difference at which checkpoints the thread was read back |
| `ChainFacts.FreshEntries` | graph/compiled.go:618-654 | entry tasks are fresh in every first run, and in all runs if no node a run can enter through has channel triggers |
| `Forks.RescheduleTasks` | graph/compiled.go:2309-2318 | the loop restarts every task under a new ID with its node, input and triggers |
| `Forks.ForkSchedules` | graph/interrupt.go:769-811 | a fork keeps every task in order, has a state task with the branch trigger for each Goto destination and one task per Send, last and in order, and its IDs are stamped and pairwise different |
| `Forks.UpdateLinks` | graph/state.go:253-331 | one superstep of a manual update commits like a step whose results are the deltas: it routes from the named nodes, and its checkpoint restores to the loop behind it |
| `Forks.PathRestores` | graph/interrupt.go:761-822 | every checkpoint of the tree, replay forks, resume forks and manual updates included, restores to the loop that wrote it but for tasks that are not fresh, tasks stamped and distinct |
| `Forks.PathIsLineage` | graph/compiled.go:679-712 | every path through the checkpoint tree, forks and manual updates included, is a version lineage |
| `Forks.PathVersions` | graph/compiled.go:2024-2049 | along every such path a node is dropped if and only if it is stale |
| `Forks.ForkKeepsTasks` | graph/compiled.go:679-712 | a fork drops none of the tasks it restarts, whatever the command does to the state; a replay therefore goes on with exactly the tasks it stores |
| `Replays.BranchPointReplays` | graph/compiled.go:676-688 | an update or fork checkpoint that is invoked again runs a task's body if and only if no failure of it is recorded, though it may have succeeded; where one is, the handler runs with the outcome of the uninterrupted run |
| `Replays.ForkReplays` | graph/compiled.go:689-712 | any other old checkpoint is forked and every body runs again, because no failure is recorded under the new IDs |
| `RunLoop.ExecuteTasks` | graph/compiled.go:875-1189 | running the tasks in order collects their results by task index, or the first failure |
| `RunLoop.CollectUpdates` | graph/compiled.go:404-417 | the deltas are collected in task order, results without an update skipped |
| `RunLoop.UpdatesInOrder` | graph/compiled.go:404-417 | earlier results contribute their deltas first, one per result with an update |
| `RunLoop.CommitResults` | graph/compiled.go:404-449 | reduce, route and commit as one function of the collected results; the run keeps the filtered tasks |
| `RunLoop.Thread.NewId` | graph/persistence.go:404-417 | a new ID exceeds every ID the thread holds |
| `RunLoop.Thread.Start` | graph/compiled.go:721-748 | a thread without checkpoints begins the chain with the input, or is stuck with the error for every ID |
| `RunLoop.Thread.Resume` | graph/compiled.go:751-873 | the loop variables are read back from the newest checkpoint and are those of the chain |
| `RunLoop.Thread.NewRun` | graph/compiled.go:618-654 | a finished thread extends its chain by the merged input, keeping the unfiltered entry tasks in memory, or is stuck with the error for every ID |
| `RunLoop.Thread.Initialize` | graph/compiled.go:589-748 | chooses between the three exactly as the stored tasks and the flag ask |
| `RunLoop.Thread.Advance` | graph/compiled.go:363-449 | one super-step extends the chain by one checkpoint or is stuck with the error for every ID |
| `RunLoop.Thread.Invoke` | graph/compiled.go:211-503 | a success ends the chain for the inputs asked for and returns its state; an error leaves the chain as long as it can be, with the same error for every later ID |
| `Recovery.RestoreSlots` | graph/compiled.go:790-827 | the pending writes are decoded per scheduled task; it fails exactly when one of them does not decode or names another node |
| `RecoveryFacts.RecoverKeeps` | graph/compiled.go:751-873 | from every consistent store the newest checkpoint restores: durable results are slotted, failure markers lead to the handler, no decoding error is possible |
| `RecoveryFacts.FinishKeeps` | graph/compiled.go:1102-1138 | a completed task writes exactly what an uninterrupted run of it computes, before or after a crash |
| `RecoveryFacts.FailKeeps` | graph/compiled.go:1251-1270 | a failure marker is written before the handler runs and leads the handler to the same outcome |
| `RecoveryFacts.CommitKeeps` | graph/compiled.go:419-449 | a commit extends the deterministic chain by one checkpoint without writes |
| `RecoveryFacts.RenewKeeps` | graph/compiled.go:618-654 | so does the input of a further run |
| `RecoveryFacts.CollectedResults` | graph/compiled.go:875-1189 | whatever the completion order, the slotted results are those of running the tasks one after the other |
| `RecoveryFacts.RunKeeps` | graph/compiled.go:211-503 | whatever is invoked, crashes and is invoked again, for any number of runs, the store holds one deterministic chain with true writes |
| `RecoveryTheorems.NeverRecomputed` | graph/compiled.go:955-987 | once a result is durable no later process calls the task's body or handler again; once a failure marker is durable none calls its body again |
| `RecoveryTheorems.SameEnd` | graph/compiled.go:363-503 | threads that completed the same inputs, with any completion orders, crashes and IDs, end in the same state, step and waiting sets and wrote the same checkpoints up to version names, when every run finds its entry tasks fresh |
| `RecoveryTheorems.EveryRunCanComplete` | graph/compiled.go:363-503 | under the same condition, if the inputs can be completed at all, then every reachable world can be brought to the same end without another crash |
| `RecoveryTheorems.ChainStops` | graph/compiled.go:363-366 | no chain continues past the end of its last run |
| `RecoveryTheorems.LimitSpansRuns` | graph/compiled.go:363-366 | the recursion limit counts the checkpoints of the thread: once there are more, no run on it executes a task |
| `Stranding.StrandedExactly` | graph/compiled.go:1694-1773 | a run, crashed and resumed or not, ends with deferred work pending if and only if its last event was filtered, routed or sent to nodes that are all stale, and some deferred node was handed triggers after the last release |
| `Stranding.ScheduledNodes` | graph/compiled.go:1739-1773 | an event that does not release schedules exactly the ordinary nodes it routes or sends to |
| `Stranding.ChainIsRun` | graph/compiled.go:1607-1692 | the checkpoints of a thread are a run in the sense of the routing theorems |
| `ChannelExamples.StrandedRun` | graph/compiled.go:1985-1985 | a run that ends this way: START leads to b, b to a, a to b and the deferred d, and b listens to a constant channel |
| `Stranding.NothingPendingAtEnd` | graph/compiled.go:1768-1770 | without channel triggers no run, crashed and resumed or not, finishes with a deferred node pending |
| `Stranding.CrashKeepsTasksExactly` | graph/compiled.go:618-654 | a crash and a restart leave the loop variables as they were if and only if no task in memory is stale |
| `ChannelExamples.CrashLosesRun` | graph/compiled.go:618-654 | two threads with the same inputs, one of which crashes after the second run has begun, end in different states |
| `AsyncSaver.PipeKept` | graph/async_saver.go:49-99 | every critical section of every caller, the writer and Flush keeps queue, log, first error and flush status consistent |
| `AsyncSaver.RunKeeps` | graph/async_saver.go:49-244 | the invariant holds in every interleaving |
| `AsyncTheorems.PrefixApplied` | graph/async_saver.go:49-75 | the base saver has been called with exactly a prefix of the accepted commands in queue order, and never after its first failure |
| `AsyncTheorems.FlushApplied` | graph/async_saver.go:231-244 | when Flush returns nil every accepted command has been applied, and none is accepted later |
| `AsyncTheorems.OverlayReads` | graph/async_saver.go:101-128 | a checkpoint put in this run reads back as its last Put with all writes recorded for it; an empty ID selects the newest draft of the namespace; a checkpoint not put in this run is never found in the overlay |
| `AsyncTheorems.CallerOrder` | graph/async_saver.go:207-229 | of one caller no command is lost without an error, none is duplicated, and the accepted ones are a subsequence of its calls, whatever was refused in between |
| `AsyncTheorems.LooksSynchronous` | graph/async_saver.go:148-244 | with one caller and no refusal, a Flush without error leaves exactly the calls of program order |
| `AsyncTheorems.CallersReorder` | graph/async_saver.go:223-226 | two callers' commands can reach the store in the opposite order of their recording |
| `AsyncTheorems.NoDeadlock` | graph/async_saver.go:77-99 | while a call or Flush is under way some step is enabled, also with a full channel |
| `AsyncTheorems.WorkShrinks` | graph/async_saver.go:49-99 | every such step reduces the remaining work, so no schedule runs for ever |
| `AsyncTheorems.CallsReturn` | graph/async_saver.go:77-99 | every begun call and Flush returns within the work left |
| `AsyncRecovery.RunCalls` | graph/compiled.go:1860-2009 | the saver calls of any moves, applied in order, make the store those moves leave |
| `AsyncRuns.Diamond` | graph/compiled.go:1040-1152 | moves of different tasks of a step can be made in either order, with the same calls and the same end |
| `AsyncRuns.QueueExplained` | graph/async_saver.go:77-99 | a process whose tasks call the saver concurrently and run ahead of it: in every interleaving the accepted calls are, in their order, those of a synchronous run that the process is ahead of by its pending calls |
| `AsyncRuns.AsyncCrash` | graph/async_saver.go:49-99 | whatever the writer has applied when such a process dies, the store is one a synchronous process leaves when it is stopped at some move |
| `AsyncRuns.AsyncFlush` | graph/async_saver.go:231-244 | once every call has returned without a refusal and Flush has returned nil, the process was a synchronous one and the store is its store |
| `Blobs.DifferingIsReported` | graph/exit_saver.go:191-196 | comparing the last draft with the base checkpoint names exactly the channels some draft on the chain reported new |
| `Blobs.LastDraftLoads` | checkpoint/memory/memory.go:62-112 | publishing only the last draft with those versions stores every blob needed to read it back |
| `ExitSaver.ExitBuffer.Put` | graph/exit_saver.go:77-120 | records the draft, the newest ID, and on the first draft of a namespace its parent and order; refused after a flush |
| `ExitSaver.ExitBuffer.PutWrites` | graph/exit_saver.go:123-145 | appends the writes to the addressed checkpoint; refused after a flush |
| `ExitSaver.ExitBuffer.GetTuple` | graph/exit_saver.go:38-61 | a draft of this run reads back with all writes addressed to it; an empty ID selects the newest draft of the namespace, or nothing when there is none |
| `ExitSaver.ExitBuffer.Collect` | graph/exit_saver.go:162-172 | the boundary of a namespace is its last draft, its first parent and the writes to that draft |
| `ExitSaver.ExitBuffer.Publish` | graph/exit_saver.go:179-209 | one boundary: an error leaves at most its Put behind, other namespaces untouched |
| `ExitSaver.ExitBuffer.Flush` | graph/exit_saver.go:150-211 | a success publishes exactly the boundaries, newest namespace first; an error publishes the boundaries before the failing one and at most that one's Put; a second Flush does nothing |
| `ExitSaver.BoundaryPublishesChain` | graph/exit_saver.go:150-211 | for a chain of drafts the boundary is the last draft at the first draft's parent, its new versions name exactly the reported channels, it can be read back, and its writes are those addressed to it |
| `Listing.BufferedListing` | graph/exit_saver.go:234-280 | a limited listing through a buffer, whose base was asked for a limited number only, shows exactly the newest matching checkpoints of base and buffer together, in the order of the store |
| `Listing.BufferedIsMergedExactly` | graph/exit_saver.go:257-262 | the whole listing is that of the store with the drafts in it if and only if no stored checkpoint matches whose draft does not |
| `Interrupts.Handler.Await` | graph/compiled.go:1556-1604 | one AwaitResume call: slot by position or coordinate, the ID of the first appearance kept, answer or suspension |
| `Interrupts.SetResume` | graph/interrupt.go:884-889 | the padding loop sets one slot, keeps the others and fills the gap with nil |
| `Interrupts.AnswersExactlyOne` | graph/interrupt.go:884-889 | after persisting, one answer answers exactly its interrupt if and only if no slot was padded |
| `Interrupts.AnswersExactly` | graph/interrupt.go:577-599 | answers by ID answer exactly the named interrupts of a control, in any order, if and only if no open interrupt below the last of them is left out |
| `InterruptReplay.Execute` | graph/compiled.go:1546-1605 | running the node body against the handler is the positional replay |
| `InterruptReplay.RoundsStand` | graph/interrupt.go:476-501 | after k rounds the stored control holds prompts 0..k under unchanged IDs and answers 0..k-1, or the node has finished |
| `InterruptReplay.CompletesAfterExactly` | graph/interrupt.go:570-601 | a node with n unscoped calls completes after exactly n answers, and every execution gives call i answer i |
| `ScopedReplay.PlaceInjective` | graph/interrupt.go:118-124 | calls of different children, and different calls of one child, have different coordinates |
| `ScopedReplay.ChildWalks` | graph/compiled.go:1556-1604 | each scoped call gets what the shared control records for its coordinate, and the first without an answer is stored there under the ID of its first appearance |
| `ScopedReplay.RoundsWalk` | graph/interrupt.go:88-130 | after any rounds of answers that pass over no interrupt, in every execution call k of child c gets the answer given for that coordinate, whatever the other children have asked since |
| `ScopedReplay.CompletesExactly` | graph/interrupt.go:570-601 | each child returns if and only if all its coordinates have been answered, and with its own answers |
| `InterruptOrdering.Monitor.Done` | graph/interrupt.go:132-145 | marks the child and moves next to the first child that is not done |
| `InterruptOrdering.VisitsInOrder` | graph/interrupt.go:88-130 | under every interleaving and limit the children reach the base handler in nondecreasing index |
| `InterruptOrdering.NoDeadlock` | graph/interrupt.go:88-145 | with any limit of at least one, the first unfinished child can always move |
| `InterruptOrdering.SelectSignal` | prebuilt/tool_node.go:207-220 | the loop selects the first signal with the most pending interrupts, and none only when there is none |
| `InterruptOrdering.SelectedCarriesAll` | prebuilt/tool_node.go:178-220 | the selected signal carries the coordinate of every interrupted child |
| `MixedResume.WalkVisitsDescendants` | graph/interrupt.go:607-655 | the child walk terminates on every store, visits every descendant exactly once, and fails exactly when one of them cannot be read |
| `MixedResume.WalksAgree` | graph/interrupt.go:505-542 | the walk of the selection, which reads all interrupts of a checkpoint before its children, succeeds exactly when the walk of the dry run does, and visits the same checkpoints in the same order |
| `MixedResume.WalksDifferExactly` | graph/interrupt.go:505-655 | on a tree that cannot be read the two walks report different errors if and only if the dry run ends at a missing child below a checkpoint, still open, with an interrupt that does not decode; the selection never reports a missing child where the dry run reports an interrupt |
| `MixedResume.WalksDiffer` | graph/interrupt.go:617-652 | a store on which they do |
| `MixedResume.ValidateIsSelect` | graph/interrupt.go:543-681 | the dry run before a fork accepts a command if and only if the selection that records answers does and something is pending; a static interrupt with nothing pending is accepted by the selection only; refusals agree unless the walks differ |
| `ResumeFork.ForkMeaning` | graph/interrupt.go:700-882 | a fork leaves the source untouched, mirrors its tree, and has every interrupt of it pending |
| `ResumeFork.AcceptedAgainExactly` | graph/interrupt.go:453-463 | an accepted command is accepted again on the fork if and only if it names interrupts by ID or the tree holds one interrupt in all |
| `ResumeFork.AcceptedWithoutAnswers` | graph/interrupt.go:453-463 | in particular whenever no interrupt had an earlier answer |
| `ResumeFork.EarlierAnswerRefused` | graph/interrupt.go:731-731 | with an earlier answer a single value is accepted before the fork and refused on it |
| `ResumeFork.BrokenForkKeeps` | graph/interrupt.go:831-882 | a fork that a failing saver call breaks off leaves a branch behind, every earlier checkpoint as it was, and the command acceptable to the source again |
| `ResumeFork.Thread.InvokeCommand` | graph/interrupt.go:453-463 | a command refused by the validation or by the fork leaves the store as it was, one whose fork breaks off leaves the source as it was, and an accepted one publishes exactly the fork |
| `Sse.Serve` | remote/sse.go:80-131 | the server loop writes exactly the events after the cursor and the completion comment, or the cursor error |
| `Sse.ScanSse` | remote/sse.go:235-305 | the scanning loop over lines, blank-line dispatch and end-of-body dispatch |
| `SseFacts.WholeFrame` | remote/sse.go:122-130 | a frame that arrives whole delivers its event once, or nothing if the last event delivered has its ID, and leaves the scanner between frames |
| `SseFacts.CutFrame` | remote/sse.go:235-305 | a frame cut at any byte delivers its event or nothing, never a part, and never completes the stream |
| `SseFacts.CutTail` | remote/sse.go:279-284 | the completion comment, whole or cut, delivers nothing |
| `SseTheorems.ResponseDelivers` | remote/sse.go:235-305 | a response cut after any number of bytes delivers the next events in order, all of them when it is complete |
| `SseTheorems.DeliversExactly` | remote/sse.go:80-131 | for every pattern of cuts, failed requests and reconnects the client is left with a gap-free, duplicate-free prefix of the events, the whole sequence once the stream is complete, if and only if the events are valid, no two neighbours share an ID, and every cursor that can be sent leads back to its event or behind it |
| `SseTheorems.SessionDelivers` | remote/sse.go:153-232 | such events are delivered in order over any sequence of connections |
| `SseTheorems.NoDuplicates` | remote/sse.go:256-259 | two delivered events share an ID only if it is one no request can carry |
| `SseTheorems.UncutCompletes` | remote/sse.go:210-217 | one uncut response to a request that can be sent completes the stream, whatever went before |
| `SseTheorems.NumberedDeliver` | remote/sse.go:98-101 | the sequence numbers the server fills in always deliver |
| `SseTheorems.SpacedCursorLost` | remote/sse.go:177-179 | the ID "a " does not: the client is handed an error |
| `SseTheorems.BlankDelivers` | remote/sse.go:256-259 | the ID " " does, although it comes back empty |
| `Functional.InvokeKeeps` | functional/durable.go:155-224 | an invocation reuses the running attempt of the same input or puts a new one that carries the previous value |
| `Functional.NextKeeps` | functional/durable.go:155-275 | every move keeps the lineage: steps count up, and each checkpoint's previous value is the latest save |
| `FunctionalTheorems.TaskNameInjective` | functional/functional.go:333-333 | task IDs of different call numbers differ, whatever the task names |
| `FunctionalTheorems.PreviousIsLatestSave` | functional/durable.go:155-224 | over any sequence of failed, interrupted and successful calls the workflow gets the save of the latest complete checkpoint |
| `FunctionalTheorems.ReplayAgrees` | functional/functional.go:331-377 | as long as the body of an attempt awaits results of persistent tasks only, has its questions answered, and no answer is given again, every later invocation of the attempt submits the same tasks with the same inputs, gets the same results and is given the same answers |
| `FunctionalTheorems.StoredTaskReused` | functional/recovery.go:24-56 | once an attempt has the result of a persistent task submitted on persistent results, no later invocation of the attempt runs it again: it makes the same call, and has the same result or recovers it |
| `FunctionalTheorems.ReplayWithoutWork` | functional/recovery.go:24-56 | a stopped invocation that awaited persistent results only and had its questions answered can be brought to the same point again without executing a task |
| `FunctionalTheorems.DrawnDiffers` | functional/recovery.go:47-49 | an awaited result that is not persistent can change the input of a later task, which is then neither recovered nor run |
| `FunctionalTheorems.AskKeeps` | functional/interrupt.go:45-94 | AwaitResume in the body: the answer given before this invocation, or a prompt stored under a number of its own; everything an attempt holds stays consistent |
| `FunctionalTheorems.ReansweredDiffers` | functional/interrupt.go:128-160 | Resume accepts an interrupt that was answered before; a second answer can change the input of a task whose result is stored, which is then neither recovered nor run |
| `ControlStore.MemoryControlStore.CreateThread` | remote/control_store.go:63-73 | creates the thread and its empty run map, or reports the conflict and changes nothing |
| `ControlStore.MemoryControlStore.DeleteThread` | remote/control_store.go:97-111 | removes the thread, its runs and every claim with its prefix |
| `ControlStore.MemoryControlStore.CreateRun` | remote/control_store.go:112-138 | claim lookup, insertion and claim as one atomic step |
| `ControlStore.MemoryControlStore.TransitionRun` | remote/control_store.go:165-190 | compare-and-swap on the status; reports whether it took place and the stored run |
| `ControlStore.MemoryControlStore.PruneRuns` | remote/control_store.go:191-209 | the loops remove exactly the old terminal runs and the claims that name them, in any iteration order, and count the runs |
| `ControlTheorems.ClaimsNameRuns` | remote/control_store.go:112-138 | whatever the thread IDs, in every reachable store a key that replays finds the run of the earlier call |
| `ControlTheorems.CreatedOnce` | remote/control_store.go:112-138 | while a claim lives its key creates no second run: every later call gets the created run or the idempotency conflict |
| `ControlTheorems.StatusLeavesRunningOnce` | remote/control.go:572-598 | however the store calls of creating, finishing, cancelling, deleting and pruning requests interleave, a run leaves running at most once and never changes afterwards |
| `ControlTheorems.DeletionForgetsExactly` | remote/control_store.go:97-111 | deleting a thread makes another thread forget its keys if and only if that thread's ID goes on after the deleted one and a NUL; its runs stay, and the key creates a second one |
| `ControlTheorems.DeletionForgets` | remote/control_store.go:105-109 | a sequence of requests that does so |
| `ControlTheorems.PruningForgetsExactly` | remote/control_store.go:191-209 | pruning forgets a key if and only if it removes a run with the claimed ID from the thread or from one whose ID the thread's goes on from after a NUL |
| `DeltaChannel.Channel.Update` | channel/delta.go:67-94 | one step; two overwrites or a reducer error leave value and presence as they were |
| `DeltaChannel.Channel.ReplayWrites` | channel/delta.go:98-125 | the log replay; an error leaves value and presence as they were |
| `DeltaChannel.ReplayAgrees` | channel/delta.go:67-125 | for a composing reducer, replaying the log equals applying the steps when the last overwriting step has no regular write after its overwrite |
| `DeltaChannel.ReplayAgreesExactly` | channel/delta.go:97-125 | for a reducer that loses nothing the condition is also necessary |
| `DeltaChannel.SnapshotAnywhere` | channel/delta.go:50-65 | the same from a snapshot taken at any step |
| `MonotonicId.Generator.NewID` | checkpoint/id.go:29-39 | records the clamped reading and issues an ID greater than the last one below overflow |
| `MonotonicId.IdsIncrease` | checkpoint/id.go:29-39 | for every sequence of clock readings without overflow the issued IDs increase in string order |
| `MonotonicId.IncreasesExactly` | checkpoint/id.go:34-37 | an ID exceeds the last one if and only if the last reading was not the greatest int64 |
| `Messages.NormalizeMessages` | prebuilt/message_reducer.go:85-107 | the loop fills missing IDs in order and fails on the generator's first error or empty ID |
| `Messages.FindMarker` | prebuilt/message_reducer.go:38-43 | the loop finds the last clearing marker |
| `Messages.PlaceOne` | prebuilt/message_reducer.go:55-71 | one message of the right side: replaced in place, revived, marked removed, appended or refused, with the ID index kept exact |
| `Messages.Place` | prebuilt/message_reducer.go:48-72 | the in-place loop over the right side computes the fold, or stops at its first error |
| `Messages.AddIdentified` | prebuilt/message_reducer.go:38-80 | the marker, index, removal and filter loops compute the merge |
| `Messages.AddMessages` | prebuilt/message_reducer.go:21-80 | normalizes left, then right, and merges; identified histories are merged as they are |
| `MessageTheorems.MergeMeaning` | prebuilt/message_reducer.go:48-80 | unique IDs stay unique, surviving IDs keep their order with new ones after them, and each ID has the last message that mentions it |
| `MessageTheorems.MergeFailsExactly` | prebuilt/message_reducer.go:67-69 | the merge fails if and only if a removal comes before any message with its ID |
| `MessageTheorems.MergeTwice` | prebuilt/message_reducer.go:21-80 | merging r1 and then r2 equals merging r1 followed by r2 whenever r2 mentions no ID that r1 left removed, failures included |
| `MessageOrder.MergeTwiceExactly` | prebuilt/message_reducer.go:21-80 | they are equal if and only if r2 does not remove again, before anything else fails, what r1 removed, and no survivor behind an ID that r1 removes and r2 revives is kept by the first merge or mentioned before it |
| `MessageTheorems.RevivalMoves` | prebuilt/message_reducer.go:58-66 | two merges and one that leave a revived ID in different places |

## Left out

- Streaming, callbacks, debug events, tracing and the trace viewer: observers without effect on committed state.
- HTTP beyond the event cursor, typed clients, SQL savers, crypto and Python bridges: plumbing around the contracts modelled here.
- JSON is abstract: a document is the record it carries; for streams, documents fill one line, no proper prefix of one decodes, and decoding inverts encoding.
- Task cache, managed values, retries, timeouts and cancellation causes: a node body with its retries is one deterministic call; a cancelled process is a crash.
- Setting static interrupts (what a resume makes of one is in `MixedResume.Select`), subgraph seeding and the restamping of channels when a child checkpoint is cloned.
- Manual state updates of a thread without checkpoints, which begin with the zero state.
- Replays.ReplayAt: an invocation that resumes an exact checkpoint, which keeps its results and controls, is not among the replays.
- RunLoop.Thread.Initialize: always takes the newest checkpoint; an exact checkpoint ID leads to the forks of `Forks`, which the class does not offer.
- RecoveryTheorems.SameEnd: a run that enters through a stale channel-triggered node is excluded, because there the statement is false (`ChannelExamples.CrashLosesRun`); the recovery moves do not include replays and forks.
- RecoveryTheorems.EveryRunCanComplete: asks in addition that handlers cannot tell a recovered failure from the original, because the default error codec keeps only the message and the type name.
- RecoveryTheorems.LimitSpansRuns: the limit is one of the program, where the code takes it from each invocation.
- ResumeFork.Thread.InvokeCommand: what the fork itself may refuse before it publishes anything (an update, a destination, a checkpoint that does not restore) and how far it comes when the saver fails are parameters; the tasks it adds are those of `Forks.ForkTasks`; recording the answers on a published fork is taken to succeed.
- AsyncRuns.AsyncCrash: a failed call on the underlying saver is taken to leave nothing behind; the calls are those of `Recovery`, without the controls of interrupted tasks.
- ScopedReplay.RoundsWalk: a node that mixes scoped calls with unscoped ones of its own is not modelled; answers that pass over an open interrupt are excluded because it would read back as null (`Interrupts.AnswersExactly`).
- MessageOrder.MergeTwiceExactly: histories without clearing markers and a left side with unique IDs.
- Checkpoint IDs are natural numbers in the engine, ordered like the strings of `MonotonicId`; map keys joined with NUL are modelled as tuples except in the control store, where the joined strings matter.
- AddConditionalEdges, AddSendEdges and AddCommandDestinations are not modelled as methods: their declarations enter the builder invariant and the reachability search.
- Builder.StateGraph.AddNode: node options other than deferral and the error handler are not modelled.
- The aliasing of the interrupt slice between a raised signal and the handler: later calls rewrite slots under the same coordinates, which is all the ordering theorems use.
- InterruptOrdering.SelectedCarriesAll: covers the signals children raise through the monitor, not those of a subgraph nested in a child.
- Functional entrypoints without task recovery, revision migration and historical checkpoint IDs; the body of a workflow is one sequence of acts, without goroutines of its own, and the interrupts of a task body are part of what the body may return.
- Scanner limits (2 MB lines), reconnect delays and pagination.
- RunLoop.ExecuteTasks: runs the tasks one after the other, so a failing step reports the first failure in task order, where the concurrent code may report another; completion in any order is `RecoveryFacts.CollectedResults`.
- Messages.AddMessages: the ID generator is the sequence of what its calls return.
