/**
  Facts about one checkpoint and its successor: a committed checkpoint restores to the
  loop that wrote it, its task IDs are distinct and carry their step, and the choice of
  checkpoint IDs influences nothing but the recorded versions.
*/
module EngineFacts {
  import opened Prelude
  import opened Graphs
  import opened Routing
  import opened RoutingRuns
  import opened Envelopes
  import opened Versions
  import opened Engine

  /** Compile's endpoint checks: everything a plan can route to is a node or END. */
  ghost predicate PlanClosed(p: Plan)
  {
    && PlanOk(p)
    && START !in p.nodes && END !in p.nodes && p.deferred <= p.nodes
    && (forall n, k :: n in p.edges && 0 <= k < |p.edges[n]| ==> Target(p, p.edges[n][k]))
    && (forall n, k :: n in p.branches && 0 <= k < |p.branches[n]| ==>
          forall t :: t in p.branches[n][k].allowed ==> Target(p, t))
    && (forall k :: 0 <= k < |p.waitingEdges| ==> Target(p, p.waitingEdges[k].target))
    && (forall n :: n in p.sendBranches ==> p.sendBranches[n].allowed <= p.nodes)
  }

  predicate Target(p: Plan, node: NodeId)
  {
    node == END || node in p.nodes
  }

  ghost predicate ProgramOk(e: Program)
  {
    && PlanClosed(e.plan)
    && Lossless(e.codecs.state) && Lossless(e.codecs.delta)
  }

  // ----- Tasks name known nodes -----

  ghost predicate Known(p: Plan, routes: seq<Route>)
  {
    forall k :: 0 <= k < |routes| ==> Target(p, routes[k].node)
  }

  lemma {:induction false} BranchRoutesKnown(p: Plan, source: NodeId, branches: seq<Branch>, state: State)
    requires forall k :: 0 <= k < |branches| ==> forall t :: t in branches[k].allowed ==> Target(p, t)
    requires BranchRoutes(source, branches, state).Ok?
    ensures Known(p, BranchRoutes(source, branches, state).value)
  {
    if branches != [] {
      assert forall t :: t in branches[0].allowed ==> Target(p, t);
      BranchRoutesKnown(p, source, branches[1..], state);
    }
  }

  lemma DefaultRoutesKnown(p: Plan, source: NodeId, state: State)
    requires PlanClosed(p) && DefaultRoutes(p, source, state).Ok?
    ensures Known(p, DefaultRoutes(p, source, state).value)
  {
    BranchRoutesKnown(p, source, if source in p.branches then p.branches[source] else [], state);
  }

  lemma {:induction false} ExplicitKnown(p: Plan, destinations: seq<NodeId>)
    requires InvalidDestination(p, destinations).None?
    ensures forall k :: 0 <= k < |destinations| ==> Target(p, destinations[k])
  {
    if destinations != [] {
      ExplicitKnown(p, destinations[1..]);
      assert forall k :: 1 <= k < |destinations| ==> destinations[k] == destinations[1..][k - 1];
    }
  }

  lemma {:induction false} AllRoutesKnown(p: Plan, results: seq<TaskResult>, state: State)
    requires PlanClosed(p) && AllRoutes(p, results, state).Ok?
    ensures Known(p, AllRoutes(p, results, state).value)
  {
    if results != [] {
      var last := results[|results| - 1];
      AllRoutesKnown(p, results[..|results| - 1], state);
      if last.cmd.goto.Some? {
        ExplicitKnown(p, last.cmd.goto.value);
      } else {
        DefaultRoutesKnown(p, last.OutputNode(), state);
      }
    }
  }

  lemma {:induction false} FiredRoutesKnown(p: Plan, n: nat, completed: set<NodeId>, w: Barriers)
    requires PlanClosed(p) && n <= |p.waitingEdges|
    ensures Known(p, FiredRoutes(p.waitingEdges[..n], completed, w))
  {
    if n > 0 {
      FiredRoutesKnown(p, n - 1, completed, w);
      assert p.waitingEdges[..n][..n - 1] == p.waitingEdges[..n - 1];
    }
  }

  lemma EventRoutesKnown(p: Plan, w: Barriers, event: Event)
    requires PlanClosed(p) && Happens(p, w, event).Ok? && event != Reloaded
    ensures Known(p, EventRoutes(p, w, event))
  {
    match event {
      case Stepped(_, results, state) =>
        AllRoutesKnown(p, results, state);
        FiredRoutesKnown(p, |p.waitingEdges|, Completed(results), w);
        assert p.waitingEdges[..|p.waitingEdges|] == p.waitingEdges;
      case Entered(_, state) =>
        DefaultRoutesKnown(p, START, state);
    }
  }

  ghost predicate SendsKnown(p: Plan, sends: seq<Send>)
  {
    forall k :: 0 <= k < |sends| ==> sends[k].node in p.nodes
  }

  lemma {:induction false} ValidSends(sends: seq<Send>, allowed: set<NodeId>)
    requires InvalidSend(sends, allowed).None?
    ensures forall k :: 0 <= k < |sends| ==> sends[k].node in allowed
  {
    if sends != [] {
      ValidSends(sends[1..], allowed);
      assert forall k :: 1 <= k < |sends| ==> sends[k] == sends[1..][k - 1];
    }
  }

  lemma {:induction false} AllSendsKnown(p: Plan, results: seq<TaskResult>, state: State)
    requires PlanClosed(p) && AllSends(p, results, state).Ok?
    ensures SendsKnown(p, AllSends(p, results, state).value)
  {
    if results != [] {
      var last := results[|results| - 1];
      AllSendsKnown(p, results[..|results| - 1], state);
      ValidSends(last.cmd.sends, p.nodes - {START, END});
      if last.OutputNode() in p.sendBranches {
        var branch := p.sendBranches[last.OutputNode()];
        ValidSends(branch.router(state).value, branch.allowed);
      }
    }
  }

  lemma {:induction false} PushTasksKnown(p: Plan, step: nat, tasks: seq<Task>, sends: seq<Send>)
    requires SendsKnown(p, sends) && forall t :: t in tasks ==> t.node in p.nodes
    ensures forall t :: t in PushTasks(step, tasks, sends) ==> t.node in p.nodes
  {
    hide TaskId;
    if sends != [] {
      PushTasksKnown(p, step, tasks, sends[..|sends| - 1]);
    }
  }

  lemma NextKnown(p: Plan, w: Barriers, event: Event, node: NodeId)
    requires PlanClosed(p) && Happens(p, w, event).Ok? && event != Reloaded && node in EventRouted(p, w, event).next
    ensures node in p.nodes
  {
    var routes := EventRoutes(p, w, event);
    EventRoutesKnown(p, w, event);
    if event.Stepped? {
      ResolveSchedule(p, event.results, event.state, w);
    }
    AddRoutesExactly(p, w, routes, node);
    var k :| 0 <= k < |routes| && routes[k].node == node;
  }

  lemma TasksKnown(p: Plan, w: Barriers, event: Event)
    requires PlanClosed(p) && Happens(p, w, event).Ok? && event != Reloaded
    ensures forall t :: t in TasksOf(p, w, event) ==> t.node in p.nodes
  {
    hide TaskId;
    var routed := EventRouted(p, w, event);
    forall node | node in routed.next ensures node in p.nodes { NextKnown(p, w, event, node); }
    var step := if event.Stepped? then event.step + 1 else event.taskStep;
    if Releases(p, w, event) {
      ReleaseTasks(p, w, event);
      ReleasedAreDeferred(p, step, routed.waiting);
    } else if event.Stepped? {
      AllSendsKnown(p, event.results, event.state);
      PushTasksKnown(p, step, EdgeTasks(step, routed.next, routed.triggers), AllSends(p, event.results, event.state).value);
    }
  }

  // ----- Commit, then restore -----

  lemma {:induction false} TasksRoundTrip(e: Program, tasks: seq<Task>)
    requires Lossless(e.codecs.state) && forall t :: t in tasks ==> t.node in e.plan.nodes
    ensures StoreTasks(e, tasks).Ok? && |StoreTasks(e, tasks).value| == |tasks|
    ensures RestoreTasks(e, StoreTasks(e, tasks).value) == Ok(tasks)
  {
    if tasks != [] {
      var init, last := tasks[..|tasks| - 1], tasks[|tasks| - 1];
      TasksRoundTrip(e, init);
      if last.input.Some? {
        var x := last.input.value;
        assert e.codecs.state.encode(x).Ok? && e.codecs.state.decode(e.codecs.state.encode(x).value) == Ok(x);
      }
      var stored := StoreTasks(e, tasks).value;
      assert stored == StoreTasks(e, init).value + [StoreTask(e, last).value];
      assert stored[..|stored| - 1] == StoreTasks(e, init).value && init + [last] == tasks;
    }
  }

  /** What a run holds in memory after a commit is what a restart reads back from the store. */
  lemma PrepareRestores(e: Program, prev: Snapshot, state: State, tasks: seq<Task>, step: SuperStep, w: Barriers, ran: seq<NodeId>, id: Id)
    requires ProgramOk(e) && BarriersOk(e.plan, w)
    requires forall t :: t in tasks ==> t.node in e.plan.nodes
    requires Prepare(e, prev, state, tasks, step, w, ran, id).Ok?
    ensures var c := Prepare(e, prev, state, tasks, step, w, ran, id).value;
            && c.snap.id == id && c.step == step
            && Restore(e, c) == Ok(Loop(state, FreshTasks(e.triggers, c.snap, tasks), step + 1, w))
  {
    hide StampVersions, RecordSeen, IsFresh, SaveWaiting, RestoreWaiting;
    var c := Prepare(e, prev, state, tasks, step, w, ran, id).value;
    RoundTrip(e.plan, w);
    TasksRoundTrip(e, FreshTasks(e.triggers, c.snap, tasks));
    assert e.codecs.state.encode(state).Ok? && e.codecs.state.decode(e.codecs.state.encode(state).value) == Ok(state);
  }

  /** Filtering what was filtered already changes nothing. */
  lemma {:induction false} FilterAgain(triggers: NodeId -> seq<string>, now: Snapshot, tasks: seq<Task>)
    ensures FreshTasks(triggers, now, FreshTasks(triggers, now, tasks)) == FreshTasks(triggers, now, tasks)
  {
    hide IsFresh;
    if tasks != [] {
      FilterAgain(triggers, now, tasks[..|tasks| - 1]);
      var before := FreshTasks(triggers, now, tasks[..|tasks| - 1]);
      assert (before + [tasks[|tasks| - 1]])[..|before|] == before;
    }
  }

  ghost predicate LoopOk(e: Program, loop: Loop)
  {
    BarriersOk(e.plan, loop.waiting) && Stamped(loop.tasks, loop.step)
  }

  lemma StepSchedules(p: Plan, step: nat, results: seq<TaskResult>, state: State, w: Barriers)
    requires PlanClosed(p) && BarriersOk(p, w) && NextTasks(p, step, results, state, w).Ok?
    ensures var scheduled := NextTasks(p, step, results, state, w).value;
            && BarriersOk(p, scheduled.waiting) && Stamped(scheduled.tasks, step + 1)
            && forall t :: t in scheduled.tasks ==> t.node in p.nodes
  {
    hide TaskId, NextTasks;
    var event := Stepped(step, results, state);
    assert Happens(p, w, event) == NextTasks(p, step, results, state, w);
    BarriersKept(p, w, event);
    TasksKnown(p, w, event);
    TasksStamped(p, w, event);
  }

  lemma CommitParts(e: Program, prev: Snapshot, loop: Loop, results: seq<TaskResult>, id: Id)
    requires CommitStep(e, prev, loop, results, id).Ok?
    ensures Reduced(e, loop.state, results).Ok?
    ensures NextTasks(e.plan, loop.step, results, Reduced(e, loop.state, results).value, loop.waiting).Ok?
  {
    hide Reduced, NextTasks, Prepare;
  }

  lemma CommitRestores(e: Program, prev: Snapshot, loop: Loop, results: seq<TaskResult>, id: Id)
    requires ProgramOk(e) && LoopOk(e, loop) && CommitStep(e, prev, loop, results, id).Ok?
    ensures var c := CommitStep(e, prev, loop, results, id).value;
            && c.snap.id == id && c.step == loop.step
            && Restore(e, c) == Ok(Committed(e, loop, results, c))
            && LoopOk(e, Committed(e, loop, results, c))
  {
    hide Prepare, NextTasks, Reduced, FreshTasks, Restore, BarriersOk, Stamped, OutputNodes, PlanClosed, Lossless;
    var state := Reduced(e, loop.state, results).value;
    var scheduled := NextTasks(e.plan, loop.step, results, state, loop.waiting).value;
    StepSchedules(e.plan, loop.step, results, state, loop.waiting);
    PrepareRestores(e, prev, state, scheduled.tasks, loop.step, scheduled.waiting, OutputNodes(results), id);
    FreshTasksStamped(e.triggers, CommitStep(e, prev, loop, results, id).value.snap, scheduled.tasks, loop.step + 1);
  }

  /** Whatever is restored names nodes of the plan. */
  lemma {:induction false} RestoredKnown(e: Program, stored: seq<StoredTask>)
    requires RestoreTasks(e, stored).Ok?
    ensures forall t :: t in RestoreTasks(e, stored).value ==> t.node in e.plan.nodes
  {
    if stored != [] {
      RestoredKnown(e, stored[..|stored| - 1]);
    }
  }

  lemma RestoreKnown(e: Program, c: Checkpoint)
    requires Restore(e, c).Ok?
    ensures forall t :: t in Restore(e, c).value.tasks ==> t.node in e.plan.nodes
  {
    RestoredKnown(e, c.next);
  }

  // ----- Every checkpoint of a thread -----

  /** What reading the checkpoint of a link gives back: everything, but only the fresh tasks. */
  function Stored(e: Program, link: Link): Loop
  {
    link.loop.(tasks := FreshTasks(e.triggers, link.c.snap, link.loop.tasks))
  }

  /** Every task the process goes on with is also in the checkpoint it wrote. */
  predicate Settled(e: Program, link: Link)
  {
    forall t :: t in link.loop.tasks ==> IsFresh(e.triggers, link.c.snap, t.node)
  }

  lemma {:induction false} FilterKeepsAll(triggers: NodeId -> seq<string>, now: Snapshot, tasks: seq<Task>)
    ensures |FreshTasks(triggers, now, tasks)| <= |tasks|
    ensures FreshTasks(triggers, now, tasks) == tasks <==> forall t :: t in tasks ==> IsFresh(triggers, now, t.node)
  {
    hide IsFresh;
    if tasks != [] {
      var init, last := tasks[..|tasks| - 1], tasks[|tasks| - 1];
      FilterKeepsAll(triggers, now, init);
      assert init + [last] == tasks;
      assert IsFresh(triggers, now, last.node) ==> FreshTasks(triggers, now, tasks) == FreshTasks(triggers, now, init) + [last];
    }
  }

  /** Store and memory agree exactly when every task is fresh. */
  lemma SettledExactly(e: Program, link: Link)
    ensures Settled(e, link) <==> Stored(e, link) == link.loop
  {
    hide IsFresh, FreshTasks;
    FilterKeepsAll(e.triggers, link.c.snap, link.loop.tasks);
  }

  ghost predicate LinkOk(e: Program, link: Link)
  {
    Restore(e, link.c) == Ok(Stored(e, link)) && LoopOk(e, link.loop)
  }

  lemma EntrySchedules(p: Plan, step: nat, state: State, w: Barriers)
    requires PlanClosed(p) && BarriersOk(p, w) && EntryTasks(p, step, state, w).Ok?
    ensures var scheduled := EntryTasks(p, step, state, w).value;
            && BarriersOk(p, scheduled.waiting) && Stamped(scheduled.tasks, step)
            && forall t :: t in scheduled.tasks ==> t.node in p.nodes
  {
    hide TaskId, EntryTasks;
    var event := Entered(step, state);
    assert Happens(p, w, event) == EntryTasks(p, step, state, w);
    BarriersKept(p, w, event);
    TasksKnown(p, w, event);
    TasksStamped(p, w, event);
  }

  lemma EnterLinks(e: Program, prev: Snapshot, state: State, step: SuperStep, w: Barriers, runs: nat, id: Id)
    requires ProgramOk(e) && BarriersOk(e.plan, w) && Enter(e, prev, state, step, w, runs, id).Ok?
    ensures var link := Enter(e, prev, state, step, w, runs, id).value;
            LinkOk(e, link) && link.c.snap.id == id && link.loop.step == step + 1
  {
    hide Prepare, EntryTasks, FreshTasks, Restore, BarriersOk, Stamped, PlanClosed, Lossless;
    EntrySchedules(e.plan, step + 1, state, w);
    var scheduled := EntryTasks(e.plan, step + 1, state, w).value;
    PrepareRestores(e, prev, state, scheduled.tasks, step, scheduled.waiting, [], id);
  }

  lemma AdvanceLinks(e: Program, link: Link, id: Id)
    requires ProgramOk(e) && LoopOk(e, link.loop) && Advance(e, link, id).Ok?
    ensures var next := Advance(e, link, id).value;
            && LinkOk(e, next) && next.c.snap.id == id && next.loop.step == link.loop.step + 1
            && Stored(e, next) == next.loop
  {
    hide CommitStep, NextTasks, Reduced, FreshTasks, Restore, BarriersOk, Stamped, PlanClosed, Lossless, RunTasks;
    var loop := link.loop;
    var results := RunTasks(e, loop.tasks, loop.step, loop.state).value;
    CommitParts(e, link.c.snap, loop, results, id);
    CommitRestores(e, link.c.snap, loop, results, id);
    var state := Reduced(e, loop.state, results).value;
    FilterAgain(e.triggers, CommitStep(e, link.c.snap, loop, results, id).value.snap,
                NextTasks(e.plan, loop.step, results, state, loop.waiting).value.tasks);
  }

  lemma ReadBackLinks(e: Program, link: Link)
    requires LinkOk(e, link)
    ensures ReadBack(e, link) == Ok(link.(loop := Stored(e, link)))
    ensures LinkOk(e, link.(loop := Stored(e, link)))
  {
    hide Restore, FreshTasks, Stamped, BarriersOk;
    FilterAgain(e.triggers, link.c.snap, link.loop.tasks);
    FreshTasksStamped(e.triggers, link.c.snap, link.loop.tasks, link.loop.step);
  }

  lemma SuccessorLinks(e: Program, h: History, link: Link, id: Id)
    requires ProgramOk(e) && LinkOk(e, link) && Successor(e, h, link, id).Ok?
    ensures var next := Successor(e, h, link, id).value;
            LinkOk(e, next) && next.c.snap.id == id && next.loop.step == link.loop.step + 1
  {
    hide Advance, Enter, LinkOk, Lossless, PlanClosed;
    assert LoopOk(e, link.loop) by { LinkLoop(e, link); }
    if link.loop.tasks != [] {
      AdvanceLinks(e, link, id);
    } else {
      var input := h.inputs[link.runs];
      assert BarriersOk(e.plan, link.loop.waiting) by { LinkLoop(e, link); }
      EnterLinks(e, link.c.snap, e.merge(link.loop.state, input).value, link.loop.step, link.loop.waiting, link.runs + 1, id);
    }
  }

  lemma LinkLoop(e: Program, link: Link)
    requires LinkOk(e, link)
    ensures LoopOk(e, link.loop) && BarriersOk(e.plan, link.loop.waiting)
  {
  }

  lemma FirstLinks(e: Program, h: History, id: Id)
    requires ProgramOk(e) && First(e, h, id).Ok?
    ensures LinkOk(e, First(e, h, id).value) && First(e, h, id).value.c.snap.id == id && First(e, h, id).value.loop.step == 0
  {
    hide Enter, LinkOk;
    NoBarriers(e.plan);
    EnterLinks(e, EMPTY, h.inputs[0], -1, map[], 1, id);
  }

  /**
    Every checkpoint a thread can reach, over all its runs and however often invocations read it back, restores
    to the loop variables of the process that wrote it, except for entry tasks that are not fresh; its tasks are
    pairwise distinct and stamped with the next step.
  */
  lemma {:induction false} ChainRestores(e: Program, h: History, ids: seq<Id>, k: nat)
    requires ProgramOk(e) && k < |ids| && ChainAt(e, h, ids, k).Ok?
    ensures var link := ChainAt(e, h, ids, k).value;
            link.c.snap.id == ids[k] && LinkOk(e, link) && link.loop.step == k
  {
    hide First, Successor, LinkOk, ProgramOk;
    var made;
    if k == 0 {
      made := First(e, h, ids[0]).value;
      FirstLinks(e, h, ids[0]);
    } else {
      var before := ChainAt(e, h, ids, k - 1).value;
      ChainRestores(e, h, ids, k - 1);
      made := Successor(e, h, before, ids[k]).value;
      SuccessorLinks(e, h, before, ids[k]);
    }
    if k in h.reread {
      ReadBackLinks(e, made);
    }
  }
}
