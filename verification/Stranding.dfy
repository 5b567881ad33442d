/**
  The freshness filter runs after the decision to release deferred nodes. This module
  says, over every thread, exactly when that leaves a finished run with deferred work.
*/
module Stranding {
  import opened Prelude
  import opened Graphs
  import opened Routing
  import opened RoutingRuns
  import opened Versions
  import opened Engine
  import opened EngineFacts
  import opened ChainFacts
  import opened Recovery
  import opened RecoveryFacts
  import opened RecoveryTheorems

  // ----- The nodes an event schedules -----

  function SendsOf(p: Plan, event: Event): seq<Send>
  {
    match event
    case Stepped(_, results, state) => (match AllSends(p, results, state) case Ok(sends) => sends case Err(_) => [])
    case _ => []
  }

  /** The ordinary nodes that are routed to, and the targets of the Sends. */
  ghost function Destinations(p: Plan, w: Barriers, event: Event): set<NodeId>
  {
    (set r | r in EventRoutes(p, w, event) && r.node != END && r.node !in p.deferred :: r.node)
    + (set s | s in SendsOf(p, event) :: s.node)
  }

  lemma OrdinaryDestinations(p: Plan, w: Barriers, event: Event, n: NodeId)
    requires PlanOk(p) && Happens(p, w, event).Ok? && event != Reloaded
    ensures n in EventRouted(p, w, event).next <==>
            exists r :: r in EventRoutes(p, w, event) && r.node == n && n != END && n !in p.deferred
  {
    hide TaskId, AllSends;
    if event.Stepped? {
      ResolveSchedule(p, event.results, event.state, w);
    }
    AddRoutesExactly(p, w, EventRoutes(p, w, event), n);
  }

  lemma NodesOfEdgeTasks(step: nat, next: seq<NodeId>, triggers: map<NodeId, seq<NodeId>>, n: NodeId)
    ensures n in next <==> exists t :: t in EdgeTasks(step, next, triggers) && t.node == n
  {
    hide TaskId;
    var tasks := EdgeTasks(step, next, triggers);
    if n in next {
      var k :| 0 <= k < |next| && next[k] == n;
      assert tasks[k] in tasks && tasks[k].node == n;
    }
  }

  lemma {:induction false} NodesOfPushTasks(step: nat, tasks: seq<Task>, sends: seq<Send>, n: NodeId)
    ensures (exists t :: t in PushTasks(step, tasks, sends) && t.node == n) <==>
            (exists t :: t in tasks && t.node == n) || (exists s :: s in sends && s.node == n)
  {
    hide TaskId;
    if sends != [] {
      var init, last := sends[..|sends| - 1], sends[|sends| - 1];
      NodesOfPushTasks(step, tasks, init, n);
      var before, after := PushTasks(step, tasks, init), PushTasks(step, tasks, sends);
      assert after[..|before|] == before && after[|before|].node == last.node;
      assert forall s :: s in sends <==> s in init || s == last;
      assert forall t :: t in after <==> t in before || t == after[|before|];
    }
  }

  /** Unless it releases, an event schedules exactly its destinations, and it releases exactly when it has none. */
  lemma ScheduledNodes(p: Plan, w: Barriers, event: Event, n: NodeId)
    requires PlanOk(p) && Happens(p, w, event).Ok? && event != Reloaded && !Releases(p, w, event)
    ensures n in Destinations(p, w, event) <==> exists t :: t in TasksOf(p, w, event) && t.node == n
  {
    hide TaskId, Resolve, AllSends, EdgeTasks, PushTasks;
    OrdinaryDestinations(p, w, event, n);
    var routed := EventRouted(p, w, event);
    var step := if event.Stepped? then event.step + 1 else event.taskStep;
    var edgeTasks := EdgeTasks(step, routed.next, routed.triggers);
    NodesOfEdgeTasks(step, routed.next, routed.triggers, n);
    NodesOfPushTasks(step, edgeTasks, SendsOf(p, event), n);
    TasksOfEvent(p, w, event);
  }

  lemma TasksOfEvent(p: Plan, w: Barriers, event: Event)
    requires Happens(p, w, event).Ok? && event != Reloaded && !Releases(p, w, event)
    ensures var routed, step := EventRouted(p, w, event), if event.Stepped? then event.step + 1 else event.taskStep;
            TasksOf(p, w, event) == PushTasks(step, EdgeTasks(step, routed.next, routed.triggers), SendsOf(p, event))
  {
    hide TaskId, Resolve, AllSends;
    var routed := EventRouted(p, w, event);
    if event.Stepped? {
      PushTasksLength(event.step + 1, EdgeTasks(event.step + 1, routed.next, routed.triggers), SendsOf(p, event));
    }
  }

  lemma ReleasesExactly(p: Plan, w: Barriers, event: Event)
    requires PlanOk(p) && Happens(p, w, event).Ok? && event != Reloaded
    ensures Releases(p, w, event) <==> Destinations(p, w, event) == {}
  {
    hide Releases, EventRoutes, SendsOf, Happens, EventRouted, PlanOk;
    if Releases(p, w, event) {
      NothingScheduled(p, w, event);
      forall n ensures n !in Destinations(p, w, event) { OrdinaryDestinations(p, w, event, n); }
    } else {
      TasksUnlessReleased(p, w, event);
      var t := TasksOf(p, w, event)[0];
      ScheduledNodes(p, w, event, t.node);
      assert t in TasksOf(p, w, event);
    }
  }

  lemma NothingScheduled(p: Plan, w: Barriers, event: Event)
    requires Happens(p, w, event).Ok? && Releases(p, w, event)
    ensures event != Reloaded && EventRouted(p, w, event).next == [] && SendsOf(p, event) == []
  {
    hide Resolve, AllSends, TaskId;
  }

  lemma ReleaseClears(p: Plan, step: nat, w: Barriers)
    ensures ReadyDeferred(p, Release(p, step, w).waiting) == {}
  {
    hide TaskId;
    var after := Release(p, step, w).waiting;
    forall d | d in p.deferred ensures Pending(after, DeferredKey(d)) == {} {
      if DeferredKey(d) in w && w[DeferredKey(d)] != {} {
        assert d in ReadyDeferred(p, w);
      }
    }
  }

  // ----- The events behind a thread -----

  /** What the checkpoint after a link commits: the super-step of the link's tasks, or the entry of the next run. */
  function EventAfter(e: Program, h: History, link: Link, id: Id): Event
    requires Successor(e, h, link, id).Ok?
  {
    var loop := link.loop;
    if loop.tasks != [] then
      var results := RunTasks(e, loop.tasks, loop.step, loop.state).value;
      Stepped(loop.step, results, Reduced(e, loop.state, results).value)
    else
      Entered(loop.step + 1, e.merge(loop.state, h.inputs[link.runs]).value)
  }

  ghost predicate StoppedAt(e: Program, h: History, ids: seq<Id>, k: nat)
  {
    k < |ids| && ChainAt(e, h, ids, k).Ok?
  }

  ghost function EventAt(e: Program, h: History, ids: seq<Id>, k: nat): Event
    requires StoppedAt(e, h, ids, k)
  {
    if k == 0 then Entered(0, h.inputs[0])
    else EventAfter(e, h, ChainAt(e, h, ids, k - 1).value, ids[k])
  }

  /** The barriers before event k. */
  ghost function BarriersAt(e: Program, h: History, ids: seq<Id>, k: nat): Barriers
    requires k > 0 ==> StoppedAt(e, h, ids, k - 1)
  {
    if k == 0 then map[] else ChainAt(e, h, ids, k - 1).value.loop.waiting
  }

  ghost function EventsOf(e: Program, h: History, ids: seq<Id>): (r: seq<Event>)
    requires ChainOk(e, h, ids)
    ensures |r| == |ids|
  {
    seq(|ids|, k requires 0 <= k < |ids| => assert StoppedAt(e, h, ids, k); EventAt(e, h, ids, k))
  }

  ghost function BarriersOf(e: Program, h: History, ids: seq<Id>): (r: seq<Barriers>)
    requires ChainOk(e, h, ids)
    ensures |r| == |ids| + 1
  {
    seq(|ids| + 1, k requires 0 <= k <= |ids| => assert k > 0 ==> StoppedAt(e, h, ids, k - 1); BarriersAt(e, h, ids, k))
  }

  /** The tasks a process goes on with after an event, from the tasks the event scheduled. */
  function KeptTasks(e: Program, h: History, event: Event, k: nat, now: Snapshot, scheduled: seq<Task>): seq<Task>
  {
    if event.Stepped? || k in h.reread then FreshTasks(e.triggers, now, scheduled) else scheduled
  }

  lemma SuccessorEvent(e: Program, h: History, link: Link, id: Id)
    requires Successor(e, h, link, id).Ok?
    ensures var event, next := EventAfter(e, h, link, id), Successor(e, h, link, id).value;
            var happened := Happens(e.plan, link.loop.waiting, event);
            && event != Reloaded && happened.Ok? && next.loop.waiting == happened.value.waiting
            && next.loop.tasks == if event.Stepped? then FreshTasks(e.triggers, next.c.snap, happened.value.tasks) else happened.value.tasks
  {
    hide RunTasks, Reduced, NextTasks, EntryTasks, Prepare, FreshTasks;
  }

  lemma FirstEvent(e: Program, h: History, id: Id)
    requires First(e, h, id).Ok?
    ensures h.inputs != []
    ensures var happened := Happens(e.plan, map[], Entered(0, h.inputs[0]));
            && happened.Ok? && First(e, h, id).value.loop.waiting == happened.value.waiting
            && First(e, h, id).value.loop.tasks == happened.value.tasks
  {
    hide EntryTasks, Prepare;
  }

  lemma LoadedEvent(e: Program, h: History, made: Link, k: nat)
    requires LinkOk(e, made)
    ensures var loaded := Loaded(e, h, made, k);
            && loaded.Ok? && loaded.value.loop.waiting == made.loop.waiting && loaded.value.c == made.c
            && loaded.value.loop.tasks ==
               if k in h.reread then FreshTasks(e.triggers, made.c.snap, made.loop.tasks) else made.loop.tasks
  {
    hide LinkOk, FreshTasks;
    ReadBackLinks(e, made);
  }

  /** Checkpoint k holds what its event made of the barriers, and the process goes on with the tasks it kept. */
  lemma EventHappened(e: Program, h: History, ids: seq<Id>, k: nat)
    requires ProgramOk(e) && StoppedAt(e, h, ids, k)
    ensures k > 0 ==> StoppedAt(e, h, ids, k - 1)
    ensures var event, w, link := EventAt(e, h, ids, k), BarriersAt(e, h, ids, k), ChainAt(e, h, ids, k).value;
            var happened := Happens(e.plan, w, event);
            && event != Reloaded && happened.Ok? && link.loop.waiting == happened.value.waiting
            && link.loop.tasks == KeptTasks(e, h, event, k, link.c.snap, happened.value.tasks)
  {
    hide First, Successor, Loaded, Happens, LinkOk, ProgramOk, FreshTasks, EventAfter;
    if k == 0 {
      var made := First(e, h, ids[0]).value;
      FirstEvent(e, h, ids[0]);
      FirstLinks(e, h, ids[0]);
      LoadedEvent(e, h, made, 0);
    } else {
      var before := ChainAt(e, h, ids, k - 1).value;
      var made := Successor(e, h, before, ids[k]).value;
      ChainRestores(e, h, ids, k - 1);
      SuccessorLinks(e, h, before, ids[k]);
      SuccessorEvent(e, h, before, ids[k]);
      LoadedEvent(e, h, made, k);
      FilterAgain(e.triggers, made.c.snap, Happens(e.plan, before.loop.waiting, EventAt(e, h, ids, k)).value.tasks);
    }
  }

  lemma ChainIsRun(e: Program, h: History, ids: seq<Id>)
    requires ProgramOk(e) && ChainOk(e, h, ids)
    ensures IsRun(e.plan, EventsOf(e, h, ids), BarriersOf(e, h, ids))
  {
    hide ChainAt, Happens, ProgramOk, KeptTasks, EventAt;
    var events, ws := EventsOf(e, h, ids), BarriersOf(e, h, ids);
    forall k | 0 <= k < |ids|
      ensures Happens(e.plan, ws[k], events[k]).Ok? && ws[k + 1] == Happens(e.plan, ws[k], events[k]).value.waiting
    {
      assert StoppedAt(e, h, ids, k);
      EventHappened(e, h, ids, k);
    }
  }

  // ----- When a run ends with deferred work -----

  lemma {:induction false} NothingFresh(triggers: NodeId -> seq<string>, now: Snapshot, tasks: seq<Task>)
    ensures FreshTasks(triggers, now, tasks) == [] <==> forall t :: t in tasks ==> !IsFresh(triggers, now, t.node)
  {
    if forall t :: t in tasks ==> !IsFresh(triggers, now, t.node) {
      var r := FreshTasks(triggers, now, tasks);
      if r != [] {
        assert r[0] in r;
      }
    } else {
      var t :| t in tasks && IsFresh(triggers, now, t.node);
      assert t in FreshTasks(triggers, now, tasks);
    }
  }

  /** One event: deferred nodes stay pending and nothing is left to run exactly if every destination is dropped. */
  lemma StrandedByEvent(p: Plan, triggers: NodeId -> seq<string>, now: Snapshot, w: Barriers, event: Event, filtered: bool)
    requires PlanOk(p) && Happens(p, w, event).Ok? && event != Reloaded
    ensures var happened := Happens(p, w, event).value;
            var kept := if filtered then FreshTasks(triggers, now, happened.tasks) else happened.tasks;
            kept == [] && ReadyDeferred(p, happened.waiting) != {} <==>
              && filtered && Destinations(p, w, event) != {}
              && (forall n :: n in Destinations(p, w, event) ==> !IsFresh(triggers, now, n))
              && exists d :: d in p.deferred && Pending(happened.waiting, DeferredKey(d)) != {}
  {
    hide TaskId, IsFresh, Happens, PlanOk, Destinations, FreshTasks, DeferredKey;
    var happened := Happens(p, w, event).value;
    ReleasesExactly(p, w, event);
    assert ReadyDeferred(p, happened.waiting) != {} <==> exists d :: d in p.deferred && Pending(happened.waiting, DeferredKey(d)) != {}
    by { ReadyExactly(p, happened.waiting); }
    if Releases(p, w, event) {
      ReleaseTasks(p, w, event);
      ReleaseClears(p, if event.Stepped? then event.step + 1 else event.taskStep, EventRouted(p, w, event).waiting);
    } else {
      TasksUnlessReleased(p, w, event);
      NothingFresh(triggers, now, happened.tasks);
      DroppedDestinations(p, triggers, now, w, event);
    }
  }

  lemma ReadyExactly(p: Plan, w: Barriers)
    ensures ReadyDeferred(p, w) != {} <==> exists d :: d in p.deferred && Pending(w, DeferredKey(d)) != {}
  {
    if d :| d in p.deferred && Pending(w, DeferredKey(d)) != {} {
      assert d in ReadyDeferred(p, w);
    }
    if ReadyDeferred(p, w) != {} {
      var d :| d in ReadyDeferred(p, w);
    }
  }

  lemma DroppedDestinations(p: Plan, triggers: NodeId -> seq<string>, now: Snapshot, w: Barriers, event: Event)
    requires PlanOk(p) && Happens(p, w, event).Ok? && event != Reloaded && !Releases(p, w, event)
    ensures (forall t :: t in TasksOf(p, w, event) ==> !IsFresh(triggers, now, t.node)) <==>
            (forall n :: n in Destinations(p, w, event) ==> !IsFresh(triggers, now, n))
  {
    hide IsFresh, Happens, PlanOk, Destinations;
    forall n ensures n in Destinations(p, w, event) <==> exists t :: t in TasksOf(p, w, event) && t.node == n {
      ScheduledNodes(p, w, event, n);
    }
  }

  /** What the saved checkpoints of a thread look like as a chain. */
  lemma SavedChain(e: Program, w: World)
    requires DurableProgram(e) && Consistent(e, w) && w.process.Running?
    ensures w.store.saved != [] && ChainOk(e, w.history, Ids(w.store.saved))
    ensures var n := |w.store.saved|;
            var link := ChainAt(e, w.history, Ids(w.store.saved), n - 1);
            && StoppedAt(e, w.history, Ids(w.store.saved), n - 1)
            && link.value.loop == w.process.loop && link.value.c.snap == Snapshots(e, w.history, Ids(w.store.saved))[n - 1]
  {
    hide ChainAt, DurableProgram, LoopOk, WritesOk, LinkOk, SlotsOk;
    RunningAt(e, w);
  }

  /** The triggers channels of a node are among the channels it reads. */
  ghost predicate TriggersAreRead(e: Program)
  {
    forall n, t :: t in e.triggers(n) ==> t in e.readSet(n)
  }

  /** The last event of a thread routed or sent to nodes that are all stale, and deferred triggers are undelivered. */
  ghost predicate Strands(e: Program, h: History, ids: seq<Id>)
    requires ChainOk(e, h, ids) && ids != []
  {
    var events, ws, k := EventsOf(e, h, ids), BarriersOf(e, h, ids), |ids| - 1;
    && (events[k].Stepped? || k in h.reread)
    && Destinations(e.plan, ws[k], events[k]) != {}
    && (forall n :: n in Destinations(e.plan, ws[k], events[k]) ==> Stale(e, Snapshots(e, h, ids), RanNodes(e, h, ids), n, k))
    && exists d :: d in e.plan.deferred
                && Union(HandedOver(e.plan, events, ws, d), LastRelease(e.plan, events, ws, k + 1), k + 1) != {}
  }

  lemma ChainStrands(e: Program, h: History, ids: seq<Id>)
    requires ProgramOk(e) && ChainOk(e, h, ids) && ids != [] && TriggersAreRead(e)
    requires StoppedAt(e, h, ids, |ids| - 1)
    ensures var loop := ChainAt(e, h, ids, |ids| - 1).value.loop;
            loop.tasks == [] && ReadyDeferred(e.plan, loop.waiting) != {} <==> Strands(e, h, ids)
  {
    hide ChainAt, Happens, IsFresh, Destinations, Stale, TriggersAreRead, ReadyDeferred, EventAt, LastRelease, HandedOver, FreshTasks, Pending;
    var events, ws, k := EventsOf(e, h, ids), BarriersOf(e, h, ids), |ids| - 1;
    var now := Snapshots(e, h, ids)[k];
    EventHappened(e, h, ids, k);
    StrandedByEvent(e.plan, e.triggers, now, ws[k], events[k], events[k].Stepped? || k in h.reread);
    forall n ensures !IsFresh(e.triggers, now, n) <==> Stale(e, Snapshots(e, h, ids), RanNodes(e, h, ids), n, k) {
      assert forall t :: t in e.triggers(n) ==> t in e.readSet(n) by { ReadByNode(e, n); }
      ChainVersions(e, h, ids, k, STATE_CHANNEL, n);
    }
    ChainIsRun(e, h, ids);
    forall d | d in e.plan.deferred
      ensures Pending(ws[k + 1], DeferredKey(d))
           == Union(HandedOver(e.plan, events, ws, d), LastRelease(e.plan, events, ws, k + 1), k + 1)
    {
      DeferredHistory(e.plan, events, ws, k + 1, d);
    }
  }

  lemma ReadByNode(e: Program, n: NodeId)
    requires TriggersAreRead(e)
    ensures forall t :: t in e.triggers(n) ==> t in e.readSet(n)
  {
  }

  /**
    A run, crashed and resumed or not, ends with deferred work pending exactly when its last event was filtered
    (a super-step, or an entry read back from the store); it routed or sent to ordinary nodes; each of them has
    trigger channels, ran before, and none of those channels changed since; and some deferred node was handed
    triggers after the last release.
  */
  lemma StrandedExactly(e: Program, moves: seq<Move>, w: World)
    requires DurableProgram(e) && TriggersAreRead(e) && Reaches(e, moves, w) && w.process.Running?
    ensures w.store.saved != [] && ChainOk(e, w.history, Ids(w.store.saved))
    ensures Finished(w) && ReadyDeferred(e.plan, w.process.loop.waiting) != {} <==> Strands(e, w.history, Ids(w.store.saved))
  {
    hide ChainAt, DurableProgram, TriggersAreRead, Reaches, Consistent, ReadyDeferred, Strands;
    ReachedConsistent(e, moves, w);
    SavedChain(e, w);
    DurableOk(e);
    ChainStrands(e, w.history, Ids(w.store.saved));
  }

  ghost predicate NoChannelTriggers(e: Program)
  {
    forall n :: e.triggers(n) == []
  }

  /** Without channel triggers no run, crashed and resumed or not, finishes with a deferred node pending. */
  lemma NothingPendingAtEnd(e: Program, moves: seq<Move>, w: World)
    requires DurableProgram(e) && NoChannelTriggers(e) && Reaches(e, moves, w) && Finished(w)
    ensures ReadyDeferred(e.plan, w.process.loop.waiting) == {}
  {
    hide Reaches, ChainAt, ReadyDeferred, DurableProgram, ChainOk, Destinations;
    StrandedExactly(e, moves, w);
  }

  // ----- What a crash loses -----

  /**
    The process that enters a run goes on with all entry tasks, while its checkpoint stores the fresh ones. So a
    crash and a restart leave a process with the same loop variables exactly when none of its tasks is stale.
  */
  lemma CrashKeepsTasksExactly(e: Program, moves: seq<Move>, w: World)
    requires DurableProgram(e) && TriggersAreRead(e) && Reaches(e, moves, w) && w.process.Running?
    ensures w.store.saved != [] && ChainOk(e, w.history, Ids(w.store.saved))
    ensures Run(e, w, [Crash, Recover]).Some? && Run(e, w, [Crash, Recover]).value.process.Running?
    ensures var back, ids := Run(e, w, [Crash, Recover]).value, Ids(w.store.saved);
            back.process.loop == w.process.loop <==>
            forall t :: t in w.process.loop.tasks ==>
              !Stale(e, Snapshots(e, w.history, ids), RanNodes(e, w.history, ids), t.node, |ids| - 1)
  {
    hide ChainAt, DurableProgram, TriggersAreRead, Reaches, Consistent, Stale, Settled, FreshTasks, At, HistoryOk, Run;
    ReachedConsistent(e, moves, w);
    SavedChain(e, w);
    RunningAt(e, w);
    var ids, link := Ids(w.store.saved), LastLink(e, w.history, w.store.saved);
    AfterCrash(e, w);
    SettledExactly(e, link);
    StaleTasks(e, w.history, ids, link);
  }

  /** A link is settled exactly when none of its tasks is stale. */
  lemma StaleTasks(e: Program, h: History, ids: seq<Id>, link: Link)
    requires ChainOk(e, h, ids) && ids != [] && TriggersAreRead(e) && link.c.snap == Snapshots(e, h, ids)[|ids| - 1]
    ensures Settled(e, link) <==>
            forall t :: t in link.loop.tasks ==> !Stale(e, Snapshots(e, h, ids), RanNodes(e, h, ids), t.node, |ids| - 1)
  {
    hide ChainAt, Stale, IsFresh, TriggersAreRead, ChainOk;
    forall t | t in link.loop.tasks
      ensures !IsFresh(e.triggers, link.c.snap, t.node)
         <==> Stale(e, Snapshots(e, h, ids), RanNodes(e, h, ids), t.node, |ids| - 1)
    {
      assert forall c :: c in e.triggers(t.node) ==> c in e.readSet(t.node) by { ReadByNode(e, t.node); }
      ChainVersions(e, h, ids, |ids| - 1, STATE_CHANNEL, t.node);
    }
  }

  lemma RunBoth(e: Program, w: World, a: Move, b: Move)
    requires Step(e, w, a).Some?
    ensures Run(e, w, [a, b]) == Step(e, Step(e, w, a).value, b)
  {
    hide Run, Step;
    assert [a, b] == [a] + [b];
    RunOne(e, w, a);
    RunConcat(e, w, [a], [b]);
    RunOne(e, Step(e, w, a).value, b);
  }

  /** A crash and a restart leave what the newest checkpoint stores. */
  lemma AfterCrash(e: Program, w: World)
    requires DurableProgram(e) && Consistent(e, w) && w.process.Running?
    ensures w.store.saved != [] && HistoryOk(e, w.history, w.store.saved)
    ensures Run(e, w, [Crash, Recover]).Some? && Run(e, w, [Crash, Recover]).value.process.Running?
    ensures Run(e, w, [Crash, Recover]).value.process.loop == Stored(e, LastLink(e, w.history, w.store.saved))
  {
    hide DurableProgram, Consistent, StepRecover, Stored, At, HistoryOk, Run, Restore;
    RunningAt(e, w);
    var link, crashed := LastLink(e, w.history, w.store.saved), w.(process := Idle);
    StepKeeps(e, w, Crash);
    RecoverKeeps(e, crashed);
    RunBoth(e, w, Crash, Recover);
    LastLinkOk(e, w, link);
    LatestFound(e, w, link);
    RecoveredLoop(e, crashed, link);
  }

  lemma RecoveredLoop(e: Program, w: World, link: Link)
    requires StepRecover(e, w).Some? && Restore(e, link.c) == Ok(Stored(e, link)) && w.store.saved != [] && Latest(w.store) == link.c
    ensures StepRecover(e, w).value.process.loop == Stored(e, link)
  {
    hide Restore, Stored, Latest;
  }
}
