/**
  Checkpoints outside the run loop: replaying an old checkpoint and resuming an interrupted
  one both put a fork, which restarts the tasks of the checkpoint under new IDs and, for a
  resume command, adds the tasks the command asks for; a manual update commits deltas in the
  name of nodes that have not run.
*/
module Forks {
  import opened Prelude
  import opened Graphs
  import opened Routing
  import opened RoutingRuns
  import opened Envelopes
  import opened Versions
  import opened Engine
  import opened EngineFacts
  import opened ChainFacts

  // ----- The tasks of a fork -----

  function Rescheduled(step: nat, tasks: seq<Task>): seq<Task>
  {
    seq(|tasks|, i requires 0 <= i < |tasks| => tasks[i].(id := TaskId(step, i, tasks[i].node)))
  }

  method RescheduleTasks(step: nat, source: seq<Task>) returns (result: seq<Task>)
    ensures result == Rescheduled(step, source)
  {
    hide TaskId;
    result := [];
    for i := 0 to |source|
      invariant |result| == i && forall k :: 0 <= k < i ==> result[k] == source[k].(id := TaskId(step, k, source[k].node))
    {
      result := result + [source[i].(id := TaskId(step, i, source[i].node))];
    }
  }

  /** The last task that runs a node on the graph state. */
  function StateTask(tasks: seq<Task>, node: NodeId): (r: Option<nat>)
    ensures r.Some? ==> r.value < |tasks| && tasks[r.value].node == node && tasks[r.value].input.None?
    ensures r.None? ==> forall t :: t in tasks && t.node == node ==> t.input.Some?
  {
    if tasks == [] then None
    else if tasks[|tasks| - 1].node == node && tasks[|tasks| - 1].input.None? then Some(|tasks| - 1)
    else StateTask(tasks[..|tasks| - 1], node)
  }

  /** One destination of a resume command: a further trigger of the node's task, or a further task. */
  function AddGoto(step: nat, tasks: seq<Task>, node: NodeId): seq<Task>
  {
    if node == END then tasks
    else match StateTask(tasks, node)
      case Some(i) => tasks[i := tasks[i].(triggers := AppendUnique(tasks[i].triggers, BranchTo(node)))]
      case None => tasks + [Task(node, TaskId(step, |tasks|, node), [BranchTo(node)], None)]
  }

  function AddGotos(step: nat, tasks: seq<Task>, nodes: seq<NodeId>): seq<Task>
  {
    if nodes == [] then tasks else AddGoto(step, AddGotos(step, tasks, nodes[..|nodes| - 1]), nodes[|nodes| - 1])
  }

  function GotoOf(cmd: Command): seq<NodeId>
  {
    match cmd.goto case None => [] case Some(nodes) => nodes
  }

  function ForkTasks(p: Plan, step: nat, tasks: seq<Task>, cmd: Option<Command>): Result<seq<Task>, RouteError>
  {
    var restarted := Rescheduled(step, tasks);
    match cmd
    case None => Ok(restarted)
    case Some(command) =>
      match InvalidDestination(p, GotoOf(command))
      case Some(e) => Err(e)
      case None =>
        match InvalidSend(command.sends, p.nodes - {START, END})
        case Some(e) => Err(e)
        case None => Ok(PushTasks(step, AddGotos(step, restarted, GotoOf(command)), command.sends))
  }

  // ----- What they contain -----

  ghost predicate ById(step: nat, tasks: seq<Task>)
  {
    forall k :: 0 <= k < |tasks| ==> tasks[k].id == TaskId(step, k, tasks[k].node)
  }

  /** The tasks of a begin where those of b do: same nodes, same inputs, and no trigger lost. */
  ghost predicate Continues(a: seq<Task>, b: seq<Task>)
  {
    && |a| <= |b|
    && forall k :: 0 <= k < |a| ==> b[k].node == a[k].node && b[k].input == a[k].input && Elements(a[k].triggers) <= Elements(b[k].triggers)
  }

  ghost predicate RunsOnState(tasks: seq<Task>, node: NodeId)
  {
    exists k :: 0 <= k < |tasks| && tasks[k].node == node && tasks[k].input.None? && BranchTo(node) in tasks[k].triggers
  }

  lemma GotoAdded(step: nat, tasks: seq<Task>, node: NodeId, other: NodeId)
    requires ById(step, tasks)
    ensures var r := AddGoto(step, tasks, node);
            && ById(step, r) && Continues(tasks, r)
            && (node != END ==> RunsOnState(r, node)) && (RunsOnState(tasks, other) ==> RunsOnState(r, other))
  {
    hide TaskId, BranchTo;
    var r := AddGoto(step, tasks, node);
    if node != END {
      var k := if StateTask(tasks, node).Some? then StateTask(tasks, node).value else |tasks|;
      assert r[k].node == node && r[k].input.None? && BranchTo(node) in r[k].triggers;
    }
    if RunsOnState(tasks, other) {
      var k :| 0 <= k < |tasks| && tasks[k].node == other && tasks[k].input.None? && BranchTo(other) in tasks[k].triggers;
      assert r[k].node == other && r[k].input.None? && BranchTo(other) in r[k].triggers;
    }
  }

  lemma {:induction false} GotosAdded(step: nat, tasks: seq<Task>, nodes: seq<NodeId>)
    requires ById(step, tasks)
    ensures var r := AddGotos(step, tasks, nodes);
            && ById(step, r) && Continues(tasks, r)
            && forall n :: n in nodes && n != END ==> RunsOnState(r, n)
  {
    hide AddGoto, RunsOnState, ById;
    if nodes != [] {
      var init, last := nodes[..|nodes| - 1], nodes[|nodes| - 1];
      GotosAdded(step, tasks, init);
      var before := AddGotos(step, tasks, init);
      GotoAdded(step, before, last, last);
      forall n | n in nodes && n != END ensures RunsOnState(AddGoto(step, before, last), n) {
        if n != last {
          assert n in init;
          GotoAdded(step, before, last, n);
        }
      }
      ContinuesOn(tasks, before, AddGoto(step, before, last));
    }
  }

  lemma ContinuesOn(a: seq<Task>, b: seq<Task>, c: seq<Task>)
    requires Continues(a, b) && Continues(b, c)
    ensures Continues(a, c)
  {
    hide Elements;
  }

  /**
    A fork keeps every task of the checkpoint, in order and with its input; it has a task for each destination of
    the command and one for each Send, in order, last; and its IDs are distinct and stamped with the next step.
  */
  lemma ForkSchedules(p: Plan, step: nat, tasks: seq<Task>, cmd: Option<Command>)
    requires ForkTasks(p, step, tasks, cmd).Ok?
    ensures var r := ForkTasks(p, step, tasks, cmd).value;
            && Stamped(r, step) && Continues(tasks, r)
            && (cmd.Some? ==>
                  && (forall n :: n in GotoOf(cmd.value) && n != END ==> RunsOnState(r, n))
                  && var m := |r| - |cmd.value.sends|;
                     && |tasks| <= m
                     && forall k :: 0 <= k < |cmd.value.sends| ==>
                          r[m + k] == Task(cmd.value.sends[k].node, TaskId(step, m + k, cmd.value.sends[k].node), [PUSH_TRIGGER],
                                           Some(cmd.value.sends[k].state)))
  {
    hide TaskId, AddGotos, BranchTo, InvalidSend, InvalidDestination;
    var restarted := Rescheduled(step, tasks);
    assert Continues(tasks, restarted);
    if cmd.None? {
      StampedByIndex(restarted, step);
    } else {
      GotosAdded(step, restarted, GotoOf(cmd.value));
      var routed := AddGotos(step, restarted, GotoOf(cmd.value));
      ContinuesOn(tasks, restarted, routed);
      SendsPushed(step, routed, cmd.value.sends, GotoOf(cmd.value));
      ContinuesOn(tasks, routed, PushTasks(step, routed, cmd.value.sends));
      StampedByIndex(PushTasks(step, routed, cmd.value.sends), step);
    }
  }

  lemma SendsPushed(step: nat, tasks: seq<Task>, sends: seq<Send>, nodes: seq<NodeId>)
    requires ById(step, tasks) && forall n :: n in nodes && n != END ==> RunsOnState(tasks, n)
    ensures var r := PushTasks(step, tasks, sends);
            && |r| == |tasks| + |sends| && ById(step, r) && Continues(tasks, r)
            && (forall n :: n in nodes && n != END ==> RunsOnState(r, n))
            && forall k :: 0 <= k < |sends| ==>
                 r[|tasks| + k] == Task(sends[k].node, TaskId(step, |tasks| + k, sends[k].node), [PUSH_TRIGGER], Some(sends[k].state))
  {
    hide TaskId, BranchTo, PushTasks;
    var r := PushTasks(step, tasks, sends);
    PushTasksLength(step, tasks, sends);
    forall k | 0 <= k < |tasks| ensures r[k] == tasks[k] { assert r[..|tasks|][k] == tasks[k]; }
    forall k | 0 <= k < |sends|
      ensures r[|tasks| + k] == Task(sends[k].node, TaskId(step, |tasks| + k, sends[k].node), [PUSH_TRIGGER], Some(sends[k].state))
    {
      PushTasksExactly(step, tasks, sends, k);
    }
    forall k | 0 <= k < |r| ensures r[k].id == TaskId(step, k, r[k].node) {
      if k >= |tasks| { assert r[|tasks| + (k - |tasks|)] == r[k]; }
    }
    forall n | n in nodes && n != END ensures RunsOnState(r, n) {
      var k :| 0 <= k < |tasks| && tasks[k].node == n && tasks[k].input.None? && BranchTo(n) in tasks[k].triggers;
      assert r[k] == tasks[k];
    }
  }

  lemma ForkKnown(p: Plan, step: nat, tasks: seq<Task>, cmd: Option<Command>)
    requires PlanClosed(p) && ForkTasks(p, step, tasks, cmd).Ok? && forall t :: t in tasks ==> t.node in p.nodes
    ensures forall t :: t in ForkTasks(p, step, tasks, cmd).value ==> t.node in p.nodes
  {
    hide TaskId, PushTasks, AddGotos;
    var restarted := Rescheduled(step, tasks);
    forall t | t in restarted ensures t.node in p.nodes {
      var k :| 0 <= k < |restarted| && restarted[k] == t;
      assert tasks[k] in tasks;
    }
    if cmd.Some? {
      ExplicitKnown(p, GotoOf(cmd.value));
      GotosKnown(p, step, restarted, GotoOf(cmd.value));
      ValidSends(cmd.value.sends, p.nodes - {START, END});
      PushTasksKnown(p, step, AddGotos(step, restarted, GotoOf(cmd.value)), cmd.value.sends);
    }
  }

  lemma {:induction false} GotosKnown(p: Plan, step: nat, tasks: seq<Task>, nodes: seq<NodeId>)
    requires (forall t :: t in tasks ==> t.node in p.nodes) && forall k :: 0 <= k < |nodes| ==> Target(p, nodes[k])
    ensures forall t :: t in AddGotos(step, tasks, nodes) ==> t.node in p.nodes
  {
    hide TaskId, BranchTo;
    if nodes != [] {
      GotosKnown(p, step, tasks, nodes[..|nodes| - 1]);
      var before, last := AddGotos(step, tasks, nodes[..|nodes| - 1]), nodes[|nodes| - 1];
      forall t | t in AddGoto(step, before, last) ensures t.node in p.nodes {
        var k :| 0 <= k < |AddGoto(step, before, last)| && AddGoto(step, before, last)[k] == t;
        assert k < |before| ==> before[k] in before && t.node == before[k].node;
      }
    }
  }

  // ----- Forks as checkpoints -----

  function ForkState(e: Program, state: State, cmd: Option<Command>): Result<State, RunError>
  {
    if cmd.None? || cmd.value.update.None? then Ok(state)
    else match e.reduce(state, [cmd.value.update.value])
      case Err(f) => Err(ReduceFailed(f))
      case Ok(next) => Ok(next)
  }

  /** The fork of the checkpoint of a link: a replay without a command, or a resume with one. */
  function Fork(e: Program, link: Link, cmd: Option<Command>, id: Id): Result<Link, RunError>
  {
    match Restore(e, link.c)
    case Err(x) => Err(x)
    case Ok(loop) =>
      match ForkState(e, loop.state, cmd)
      case Err(x) => Err(x)
      case Ok(state) =>
        match ForkTasks(e.plan, loop.step + 1, loop.tasks, cmd)
        case Err(r) => Err(RouteFailed(r))
        case Ok(tasks) =>
          match Prepare(e, link.c.snap, state, tasks, loop.step, loop.waiting, [], id)
          case Err(x) => Err(x)
          case Ok(c) => Ok(Link(c, Loop(state, tasks, loop.step + 1, loop.waiting), link.runs))
  }

  lemma ForkLinks(e: Program, link: Link, cmd: Option<Command>, id: Id)
    requires ProgramOk(e) && LinkOk(e, link) && Fork(e, link, cmd, id).Ok?
    ensures var next := Fork(e, link, cmd, id).value;
            LinkOk(e, next) && next.c.snap.id == id && next.loop.step == link.loop.step + 1
  {
    hide Prepare, FreshTasks, Restore, BarriersOk, Stamped, PlanClosed, Lossless, ForkTasks, ForkState, Continues, RunsOnState;
    var loop := Restore(e, link.c).value;
    var state, tasks := ForkState(e, loop.state, cmd).value, ForkTasks(e.plan, loop.step + 1, loop.tasks, cmd).value;
    ForkSchedules(e.plan, loop.step + 1, loop.tasks, cmd);
    RestoreKnown(e, link.c);
    ForkKnown(e.plan, loop.step + 1, loop.tasks, cmd);
    PrepareRestores(e, link.c.snap, state, tasks, loop.step, loop.waiting, [], id);
  }

  /** No version a node has seen bears this ID. */
  ghost predicate Unseen(s: Snapshot, n: NodeId, id: Id)
  {
    n in s.seen ==> forall c :: c in s.seen[n] ==> s.seen[n][c] != id
  }

  /** Whatever a fork does to the state, a node that was fresh before it is fresh after it. */
  lemma ForkKeepsFresh(e: Program, prev: Snapshot, values: map<string, EncodedValue>, n: NodeId, id: Id)
    requires IsFresh(e.triggers, prev, n) && Unseen(prev, n, id)
    ensures IsFresh(e.triggers, Commit(e.readSet, prev, values, [], id), n)
  {
    var now := Commit(e.readSet, prev, values, [], id);
    assert now.seen == prev.seen;
    if e.triggers(n) != [] && n in prev.seen {
      var c :| c in e.triggers(n) && Version(prev.versions, c) != Version(prev.seen[n], c);
      assert Version(now.versions, c) != Version(now.seen[n], c);
    }
  }

  // ----- Manual updates -----

  datatype ManualUpdate = ManualUpdate(node: NodeId, taskId: string, delta: Delta)

  function ManualResults(updates: seq<ManualUpdate>): (r: seq<TaskResult>)
    ensures |r| == |updates|
  {
    seq(|updates|, i requires 0 <= i < |updates| =>
      TaskResult(updates[i].node, updates[i].taskId, Command(Some(updates[i].delta), None, []), ""))
  }

  /** The first update in the name of a node that is not in the plan. */
  function Stranger(p: Plan, updates: seq<ManualUpdate>): Option<NodeId>
  {
    if updates == [] then None
    else if updates[0].node !in p.nodes then Some(updates[0].node)
    else Stranger(p, updates[1..])
  }

  /** One superstep of UpdateState or BulkUpdateState: what committing these results would do, though no task ran. */
  function Update(e: Program, link: Link, updates: seq<ManualUpdate>, id: Id): Result<Link, RunError>
  {
    if updates == [] then Err(NothingToRun)
    else match Stranger(e.plan, updates)
      case Some(node) => Err(UnknownTask(node))
      case None =>
        match CommitStep(e, link.c.snap, link.loop, ManualResults(updates), id)
        case Err(x) => Err(x)
        case Ok(c) => Ok(Link(c, Committed(e, link.loop, ManualResults(updates), c), link.runs))
  }

  lemma UpdateLinks(e: Program, link: Link, updates: seq<ManualUpdate>, id: Id)
    requires ProgramOk(e) && LoopOk(e, link.loop) && Update(e, link, updates, id).Ok?
    ensures var next := Update(e, link, updates, id).value;
            LinkOk(e, next) && next.c.snap.id == id && next.loop.step == link.loop.step + 1
  {
    hide CommitStep, NextTasks, Reduced, FreshTasks, Restore, BarriersOk, Stamped, PlanClosed, Lossless, ManualResults, Stranger;
    var loop, results := link.loop, ManualResults(updates);
    CommitParts(e, link.c.snap, loop, results, id);
    CommitRestores(e, link.c.snap, loop, results, id);
    FilterAgain(e.triggers, CommitStep(e, link.c.snap, loop, results, id).value.snap,
                NextTasks(e.plan, loop.step, results, Reduced(e, loop.state, results).value, loop.waiting).value.tasks);
  }

  lemma UpdateCommits(e: Program, link: Link, updates: seq<ManualUpdate>, id: Id)
    requires Update(e, link, updates, id).Ok?
    ensures Extends(e, link.c.snap, OutputNodes(ManualResults(updates)), id, Update(e, link, updates, id).value.c.snap)
  {
    hide Prepare, Extends, NextTasks, Reduced, OutputNodes, FreshTasks, ManualResults, Stranger;
    var loop, results := link.loop, ManualResults(updates);
    var state := Reduced(e, loop.state, results).value;
    var s := NextTasks(e.plan, loop.step, results, state, loop.waiting).value;
    PrepareCommits(e, link.c.snap, state, s.tasks, loop.step, s.waiting, OutputNodes(results), id);
  }

  // ----- Paths through the checkpoint tree -----

  /** How a checkpoint came to be from its parent. */
  datatype Origin = Advanced | NewRun(input: State) | Forked(cmd: Option<Command>) | Updated(updates: seq<ManualUpdate>)

  /** A checkpoint of a path; an invocation may have read it back before the next one was made. */
  datatype Turn = Turn(origin: Origin, reread: bool)

  function Grow(e: Program, link: Link, origin: Origin, id: Id): Result<Link, RunError>
  {
    match origin
    case Advanced => if link.loop.tasks == [] then Err(NothingToRun) else Advance(e, link, id)
    case NewRun(input) =>
      (match ReadBack(e, link)
       case Err(x) => Err(x)
       case Ok(back) => if back.loop.tasks != [] then Err(NothingToRun) else Renew(e, back, input, id))
    case Forked(cmd) => Fork(e, link, cmd, id)
    case Updated(updates) => Update(e, link, updates, id)
  }

  /** The nodes a checkpoint is committed for. */
  function RanBy(e: Program, link: Link, origin: Origin): seq<NodeId>
  {
    match origin
    case Advanced => RanFrom(e, link)
    case Updated(updates) => OutputNodes(ManualResults(updates))
    case _ => []
  }

  function Turned(e: Program, link: Link, turn: Turn): Result<Link, RunError>
  {
    if turn.reread then ReadBack(e, link) else Ok(link)
  }

  /** The k-th checkpoint on a path that starts with a thread's first checkpoint. */
  function PathAt(e: Program, input: State, turns: seq<Turn>, ids: seq<Id>, k: nat): Result<Link, RunError>
    requires k <= |turns| && k < |ids|
  {
    if k == 0 then Begin(e, input, ids[0])
    else
      match PathAt(e, input, turns, ids, k - 1)
      case Err(x) => Err(x)
      case Ok(before) =>
        match Grow(e, before, turns[k - 1].origin, ids[k])
        case Err(x) => Err(x)
        case Ok(link) => Turned(e, link, turns[k - 1])
  }

  lemma GrowLinks(e: Program, link: Link, origin: Origin, id: Id)
    requires ProgramOk(e) && LinkOk(e, link) && Grow(e, link, origin, id).Ok?
    ensures var next := Grow(e, link, origin, id).value;
            LinkOk(e, next) && next.c.snap.id == id && next.loop.step == link.loop.step + 1
  {
    hide Advance, Enter, LinkOk, ProgramOk, Fork, Update, Restore;
    LinkLoop(e, link);
    match origin {
      case Advanced => AdvanceLinks(e, link, id);
      case NewRun(input) =>
        ReadBackLinks(e, link);
        var back := link.(loop := Stored(e, link));
        LinkLoop(e, back);
        EnterLinks(e, back.c.snap, e.merge(back.loop.state, input).value, back.loop.step, back.loop.waiting, back.runs + 1, id);
      case Forked(cmd) => ForkLinks(e, link, cmd, id);
      case Updated(updates) => UpdateLinks(e, link, updates, id);
    }
  }

  /**
    Every checkpoint of the tree - begun, committed, renewed, replayed, resumed or updated - restores to the loop variables
    of the process that wrote it, but for tasks that are not fresh, and its tasks are distinct and stamped with the
    next step.
  */
  lemma {:induction false} PathRestores(e: Program, input: State, turns: seq<Turn>, ids: seq<Id>, k: nat)
    requires ProgramOk(e) && k <= |turns| && k < |ids| && PathAt(e, input, turns, ids, k).Ok?
    ensures var link := PathAt(e, input, turns, ids, k).value;
            link.c.snap.id == ids[k] && LinkOk(e, link) && link.loop.step == k
  {
    hide Begin, Grow, LinkOk, ProgramOk, Restore;
    if k == 0 {
      FirstLinks(e, Plain([input]), ids[0]);
      assert First(e, Plain([input]), ids[0]) == Begin(e, input, ids[0]);
    } else {
      var before := PathAt(e, input, turns, ids, k - 1).value;
      PathRestores(e, input, turns, ids, k - 1);
      GrowLinks(e, before, turns[k - 1].origin, ids[k]);
      ReadBackLinks(e, Grow(e, before, turns[k - 1].origin, ids[k]).value);
    }
  }

  // ----- Paths are lineages -----

  ghost predicate PathOk(e: Program, input: State, turns: seq<Turn>, ids: seq<Id>)
  {
    && Distinct(ids) && |ids| == |turns| + 1
    && forall k :: 0 <= k < |ids| ==> PathAt(e, input, turns, ids, k).Ok?
  }

  ghost function PathSnapshots(e: Program, input: State, turns: seq<Turn>, ids: seq<Id>): (r: seq<Snapshot>)
    requires PathOk(e, input, turns, ids)
    ensures |r| == |ids|
  {
    seq(|ids|, k requires 0 <= k < |ids| => PathAt(e, input, turns, ids, k).value.c.snap)
  }

  ghost function PathRan(e: Program, input: State, turns: seq<Turn>, ids: seq<Id>): (r: seq<seq<NodeId>>)
    requires PathOk(e, input, turns, ids)
    ensures |r| == |ids|
  {
    seq(|ids|, k requires 0 <= k < |ids| =>
      if k > 0 then RanBy(e, PathAt(e, input, turns, ids, k - 1).value, turns[k - 1].origin) else [])
  }

  lemma ForkCommits(e: Program, link: Link, cmd: Option<Command>, id: Id)
    requires Fork(e, link, cmd, id).Ok?
    ensures Extends(e, link.c.snap, [], id, Fork(e, link, cmd, id).value.c.snap)
  {
    hide Prepare, Extends, ForkTasks, ForkState, Restore;
    var loop := Restore(e, link.c).value;
    PrepareCommits(e, link.c.snap, ForkState(e, loop.state, cmd).value, ForkTasks(e.plan, loop.step + 1, loop.tasks, cmd).value,
                   loop.step, loop.waiting, [], id);
  }

  lemma GrowCommits(e: Program, link: Link, origin: Origin, id: Id)
    requires Grow(e, link, origin, id).Ok?
    ensures Extends(e, link.c.snap, RanBy(e, link, origin), id, Grow(e, link, origin, id).value.c.snap)
  {
    hide Advance, Enter, Fork, Update, Extends, Restore, RanFrom, ManualResults, OutputNodes;
    match origin {
      case Advanced => AdvanceCommits(e, link, id);
      case NewRun(input) =>
        var back := ReadBack(e, link).value;
        EnterCommits(e, back.c.snap, e.merge(back.loop.state, input).value, back.loop.step, back.loop.waiting, back.runs + 1, id);
      case Forked(cmd) => ForkCommits(e, link, cmd, id);
      case Updated(updates) => UpdateCommits(e, link, updates, id);
    }
  }

  lemma PathCommits(e: Program, input: State, turns: seq<Turn>, ids: seq<Id>, k: nat)
    requires PathOk(e, input, turns, ids) && k < |ids|
    ensures var chain := PathSnapshots(e, input, turns, ids);
            Extends(e, Parent(chain, k), PathRan(e, input, turns, ids)[k], ids[k], chain[k])
  {
    hide PathAt, First, Grow, Extends, RanBy, Distinct;
    assert PathAt(e, input, turns, ids, k).Ok?;
    if k == 0 {
      PathBegins(e, input, turns, ids);
      FirstCommits(e, Plain([input]), ids[0]);
    } else {
      assert PathAt(e, input, turns, ids, k - 1).Ok?;
      PathGrows(e, input, turns, ids, k);
      GrowCommits(e, PathAt(e, input, turns, ids, k - 1).value, turns[k - 1].origin, ids[k]);
    }
  }

  lemma PathBegins(e: Program, input: State, turns: seq<Turn>, ids: seq<Id>)
    requires ids != []
    ensures PathAt(e, input, turns, ids, 0) == First(e, Plain([input]), ids[0])
  {
    hide Begin;
  }

  lemma PathGrows(e: Program, input: State, turns: seq<Turn>, ids: seq<Id>, k: nat)
    requires 0 < k <= |turns| && k < |ids| && PathAt(e, input, turns, ids, k).Ok?
    ensures PathAt(e, input, turns, ids, k - 1).Ok?
    ensures var grown := Grow(e, PathAt(e, input, turns, ids, k - 1).value, turns[k - 1].origin, ids[k]);
            grown.Ok? && grown.value.c == PathAt(e, input, turns, ids, k).value.c
  {
    hide Begin, Grow, Turned;
    TurnedCommits(e, Grow(e, PathAt(e, input, turns, ids, k - 1).value, turns[k - 1].origin, ids[k]).value, turns[k - 1]);
  }

  lemma TurnedCommits(e: Program, link: Link, turn: Turn)
    ensures Turned(e, link, turn).Ok? ==> Turned(e, link, turn).value.c == link.c
  {
    hide Restore;
  }

  lemma PathIsLineage(e: Program, input: State, turns: seq<Turn>, ids: seq<Id>)
    requires PathOk(e, input, turns, ids)
    ensures IsLineage(e.readSet, PathSnapshots(e, input, turns, ids), PathRan(e, input, turns, ids))
  {
    hide PathAt, StampVersions, RecordSeen;
    var chain, ran := PathSnapshots(e, input, turns, ids), PathRan(e, input, turns, ids);
    forall k | 0 <= k < |ids| ensures chain[k].id == ids[k] && CommittedAt(e.readSet, chain, ran, k) {
      PathCommits(e, input, turns, ids, k);
    }
  }

  /** Along every path of the tree a node is dropped exactly when it is stale, forks included. */
  lemma PathVersions(e: Program, input: State, turns: seq<Turn>, ids: seq<Id>, k: nat, n: NodeId)
    requires PathOk(e, input, turns, ids) && k < |ids|
    requires forall t :: t in e.triggers(n) ==> t in e.readSet(n)
    ensures var chain, ran := PathSnapshots(e, input, turns, ids), PathRan(e, input, turns, ids);
            !IsFresh(e.triggers, chain[k], n) <==> Stale(e, chain, ran, n, k)
  {
    hide PathAt;
    var chain, ran := PathSnapshots(e, input, turns, ids), PathRan(e, input, turns, ids);
    PathIsLineage(e, input, turns, ids);
    if e.triggers(n) != [] {
      DroppedExactlyWhenStale(e.readSet, e.triggers, chain, ran, n, k);
    }
  }

  /** The versions a node has seen are IDs of the path, so a new ID is none of them. */
  lemma PathUnseen(e: Program, input: State, turns: seq<Turn>, ids: seq<Id>, k: nat, n: NodeId, id: Id)
    requires PathOk(e, input, turns, ids) && k < |ids| && id !in ids
    ensures Unseen(PathSnapshots(e, input, turns, ids)[k], n, id)
  {
    hide PathAt, Distinct, Observed, Version, LastChange;
    var chain, ran := PathSnapshots(e, input, turns, ids), PathRan(e, input, turns, ids);
    PathIsLineage(e, input, turns, ids);
    SeenIsLastRun(e.readSet, chain, ran, n, k);
    if n in chain[k].seen {
      var j := LastRun(ran, n, k + 1).value;
      forall c | c in chain[k].seen[n] ensures chain[k].seen[n][c] != id {
        SeenFromPath(e, input, turns, ids, j, c, e.readSet(n));
      }
    }
  }

  lemma SeenFromPath(e: Program, input: State, turns: seq<Turn>, ids: seq<Id>, j: nat, c: string, readSet: seq<string>)
    requires PathOk(e, input, turns, ids) && j < |ids|
    requires c in Observed(readSet, Parent(PathSnapshots(e, input, turns, ids), j).versions)
    ensures Observed(readSet, Parent(PathSnapshots(e, input, turns, ids), j).versions)[c] in ids
  {
    hide PathAt, Distinct;
    var chain, ran := PathSnapshots(e, input, turns, ids), PathRan(e, input, turns, ids);
    PathIsLineage(e, input, turns, ids);
    if j > 0 {
      VersionIsLastChange(e.readSet, chain, ran, c, j - 1);
      var m := LastChange(chain, c, j).value;
      PathCommits(e, input, turns, ids, m);
      assert ids[m] in ids;
    }
  }

  /**
    A fork drops none of the tasks of the checkpoint it forks, whatever its command did to the state: each of
    them is restarted by the process and stored again. (Tasks the command adds pass the filter like any other.)
  */
  lemma ForkKeepsTasks(e: Program, input: State, turns: seq<Turn>, ids: seq<Id>, cmd: Option<Command>, id: Id)
    requires ProgramOk(e) && PathOk(e, input, turns, ids) && id !in ids
    requires var link := PathAt(e, input, turns, ids, |turns|).value; Fork(e, link, cmd, id).Ok?
    ensures var link := PathAt(e, input, turns, ids, |turns|).value;
            var fork := Fork(e, link, cmd, id).value;
            && Restore(e, link.c).Ok? && Continues(Restore(e, link.c).value.tasks, fork.loop.tasks)
            && (forall k :: 0 <= k < |Restore(e, link.c).value.tasks| ==> IsFresh(e.triggers, fork.c.snap, fork.loop.tasks[k].node))
            && (cmd.None? ==> Settled(e, fork))
  {
    hide PathAt, Prepare, ForkTasks, ForkState, Restore, IsFresh, ProgramOk;
    var link := PathAt(e, input, turns, ids, |turns|).value;
    var loop, fork := Restore(e, link.c).value, Fork(e, link, cmd, id).value;
    ForkSchedules(e.plan, loop.step + 1, loop.tasks, cmd);
    LastOfPath(e, input, turns, ids);
    forall k | 0 <= k < |loop.tasks| ensures IsFresh(e.triggers, fork.c.snap, fork.loop.tasks[k].node) {
      assert loop.tasks[k] in loop.tasks;
      PathUnseen(e, input, turns, ids, |turns|, loop.tasks[k].node, id);
      ForkCommit(e, link, cmd, id);
      ForkKeepsFresh(e, link.c.snap, fork.c.snap.values, loop.tasks[k].node, id);
    }
    if cmd.None? {
      assert |fork.loop.tasks| == |loop.tasks| by { SameLength(e.plan, loop.step + 1, loop.tasks); }
    }
  }

  lemma SameLength(p: Plan, step: nat, tasks: seq<Task>)
    ensures ForkTasks(p, step, tasks, None).Ok? && |ForkTasks(p, step, tasks, None).value| == |tasks|
  {
  }

  lemma ForkCommit(e: Program, link: Link, cmd: Option<Command>, id: Id)
    requires Fork(e, link, cmd, id).Ok?
    ensures var s := Fork(e, link, cmd, id).value.c.snap;
            s == Commit(e.readSet, link.c.snap, s.values, [], id)
  {
    hide ForkTasks, ForkState, Restore, StampVersions, RecordSeen;
  }

  /** The tasks of the last checkpoint of a path are fresh there. */
  lemma LastOfPath(e: Program, input: State, turns: seq<Turn>, ids: seq<Id>)
    requires ProgramOk(e) && PathOk(e, input, turns, ids)
    ensures var link := PathAt(e, input, turns, ids, |turns|).value;
            && link.c.snap == PathSnapshots(e, input, turns, ids)[|turns|] && Restore(e, link.c).Ok?
            && forall t :: t in Restore(e, link.c).value.tasks ==> IsFresh(e.triggers, link.c.snap, t.node)
  {
    hide PathAt, Restore, IsFresh, ProgramOk;
    assert PathAt(e, input, turns, ids, |turns|).Ok?;
    PathRestores(e, input, turns, ids, |turns|);
  }
}
