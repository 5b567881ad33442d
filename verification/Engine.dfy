/**
  The durable super-step loop as functions of checkpoints: restore a checkpoint, run
  its tasks, reduce, route, stamp the channels and commit the next checkpoint.
*/
module Engine {
  import opened Prelude
  import opened Graphs
  import opened Routing
  import opened Envelopes
  import opened Versions

  const STATE_CHANNEL := "__state__"

  /**
    A compiled graph with its node bodies, error handlers, reducer, codecs and channel schema. `merge` combines
    the state of a finished run with the input of the next one; without an input merger it is the input.
  */
  datatype Program = Program(
    plan: Plan,
    codecs: Codecs,
    invoke: (NodeId, string, nat, State) -> Result<Command, Fault>,
    handlers: map<NodeId, NodeId>,
    handle: (NodeId, string, nat, State, Failure) -> Result<Command, Fault>,
    reduce: (State, seq<Delta>) -> Result<State, Fault>,
    merge: (State, State) -> Result<State, Fault>,
    channels: State -> Result<map<string, EncodedValue>, Fault>,
    readSet: NodeId -> seq<string>,
    triggers: NodeId -> seq<string>,
    recursionLimit: nat)

  datatype RunError =
    | NodeFailed(fault: Fault)
    | ReduceFailed(fault: Fault)
    | RouteFailed(route: RouteError)
    | ProjectFailed(fault: Fault)
    | EncodingFailed(codec: CodecError)
    | UnknownTask(node: NodeId)
    | MergeFailed(fault: Fault)
    | RecursionLimit
    | NothingToRun

  datatype StoredTask = StoredTask(id: string, name: NodeId, input: Option<EncodedValue>, triggers: seq<NodeId>)

  type SuperStep = s: int | s >= -1 witness -1

  /** `step` is the super-step the checkpoint committed; -1 for a thread's first input. */
  datatype Checkpoint = Checkpoint(snap: Snapshot, step: SuperStep, next: seq<StoredTask>, waiting: map<string, seq<NodeId>>)

  /** The variables of the run loop: `step` is the super-step about to run. */
  datatype Loop = Loop(state: State, tasks: seq<Task>, step: nat, waiting: Barriers)

  // ----- Restoring -----

  function RestoreTask(e: Program, stored: StoredTask): Result<Task, RunError>
  {
    if stored.name !in e.plan.nodes then Err(UnknownTask(stored.name))
    else match stored.input
      case None => Ok(Task(stored.name, stored.id, stored.triggers, None))
      case Some(encoded) =>
        match e.codecs.state.decode(encoded)
        case Err(c) => Err(EncodingFailed(c))
        case Ok(input) => Ok(Task(stored.name, stored.id, stored.triggers, Some(input)))
  }

  function RestoreTasks(e: Program, stored: seq<StoredTask>): Result<seq<Task>, RunError>
  {
    if stored == [] then Ok([])
    else
      match RestoreTasks(e, stored[..|stored| - 1])
      case Err(x) => Err(x)
      case Ok(before) =>
        match RestoreTask(e, stored[|stored| - 1])
        case Err(x) => Err(x)
        case Ok(task) => Ok(before + [task])
  }

  /** restoreRun, up to the pending writes. */
  function Restore(e: Program, c: Checkpoint): Result<Loop, RunError>
  {
    if STATE_CHANNEL !in c.snap.values then Err(EncodingFailed(InvalidDocument))
    else
      match e.codecs.state.decode(c.snap.values[STATE_CHANNEL])
      case Err(x) => Err(EncodingFailed(x))
      case Ok(state) =>
        match RestoreTasks(e, c.next)
        case Err(x) => Err(x)
        case Ok(tasks) => Ok(Loop(state, tasks, c.step + 1, RestoreWaiting(c.waiting)))
  }

  // ----- Committing -----

  function StoreTask(e: Program, task: Task): Result<StoredTask, RunError>
  {
    match task.input
    case None => Ok(StoredTask(task.id, task.node, None, task.triggers))
    case Some(input) =>
      match e.codecs.state.encode(input)
      case Err(c) => Err(EncodingFailed(c))
      case Ok(encoded) => Ok(StoredTask(task.id, task.node, Some(encoded), task.triggers))
  }

  function StoreTasks(e: Program, tasks: seq<Task>): Result<seq<StoredTask>, RunError>
  {
    if tasks == [] then Ok([])
    else
      match StoreTasks(e, tasks[..|tasks| - 1])
      case Err(x) => Err(x)
      case Ok(before) =>
        match StoreTask(e, tasks[|tasks| - 1])
        case Err(x) => Err(x)
        case Ok(stored) => Ok(before + [stored])
  }

  /** The channel values of a state; the canonical state channel is always present. */
  function ChannelValues(e: Program, state: State): Result<map<string, EncodedValue>, RunError>
  {
    match e.codecs.state.encode(state)
    case Err(c) => Err(EncodingFailed(c))
    case Ok(encoded) =>
      match e.channels(state)
      case Err(f) => Err(ProjectFailed(f))
      case Ok(projected) => Ok(projected[STATE_CHANNEL := encoded])
  }

  /** prepareCheckpointWithTasks: the tasks that stay after the freshness filter, and the checkpoint that holds them. */
  function Prepare(e: Program, prev: Snapshot, state: State, tasks: seq<Task>, step: SuperStep, waiting: Barriers,
                   ran: seq<NodeId>, id: Id): Result<Checkpoint, RunError>
  {
    match ChannelValues(e, state)
    case Err(x) => Err(x)
    case Ok(values) =>
      var snap := Commit(e.readSet, prev, values, ran, id);
      match StoreTasks(e, FreshTasks(e.triggers, snap, tasks))
      case Err(x) => Err(x)
      case Ok(next) => Ok(Checkpoint(snap, step, next, SaveWaiting(waiting, e.plan.waitingEdges)))
  }

  // ----- One super-step -----

  function HandlerTaskId(taskId: string, handler: NodeId): string
  {
    taskId + ":error-handler:" + handler
  }

  function RunHandler(e: Program, task: Task, step: nat, state: State, failure: Failure): Result<TaskResult, Fault>
  {
    if task.node !in e.handlers then Err(failure.fault)
    else
      var handler := e.handlers[task.node];
      match e.handle(handler, HandlerTaskId(task.id, handler), step, state, failure)
      case Err(f) => Err(f)
      case Ok(cmd) => Ok(TaskResult(task.node, task.id, cmd, handler))
  }

  function TaskState(task: Task, state: State): State
  {
    match task.input case None => state case Some(input) => input
  }

  /** One task from scratch: the node body and, when it fails, its error handler. */
  function RunTask(e: Program, task: Task, step: nat, state: State): Result<TaskResult, Fault>
  {
    match e.invoke(task.node, task.id, step, TaskState(task, state))
    case Ok(cmd) => Ok(TaskResult(task.node, task.id, cmd, ""))
    case Err(f) => RunHandler(e, task, step, TaskState(task, state), Failure(task.node, f))
  }

  function RunTasks(e: Program, tasks: seq<Task>, step: nat, state: State): Result<seq<TaskResult>, Fault>
  {
    if tasks == [] then Ok([])
    else
      match RunTasks(e, tasks[..|tasks| - 1], step, state)
      case Err(f) => Err(f)
      case Ok(before) =>
        match RunTask(e, tasks[|tasks| - 1], step, state)
        case Err(f) => Err(f)
        case Ok(result) => Ok(before + [result])
  }

  function Updates(results: seq<TaskResult>): seq<Delta>
  {
    if results == [] then []
    else
      var before := Updates(results[..|results| - 1]);
      match results[|results| - 1].cmd.update
      case None => before
      case Some(delta) => before + [delta]
  }

  function Reduced(e: Program, state: State, results: seq<TaskResult>): Result<State, RunError>
  {
    if Updates(results) == [] then Ok(state)
    else match e.reduce(state, Updates(results))
      case Err(f) => Err(ReduceFailed(f))
      case Ok(next) => Ok(next)
  }

  function OutputNodes(results: seq<TaskResult>): seq<NodeId>
  {
    seq(|results|, i requires 0 <= i < |results| => results[i].OutputNode())
  }

  /** Everything from the collected results to the committed checkpoint. */
  function CommitStep(e: Program, prev: Snapshot, loop: Loop, results: seq<TaskResult>, id: Id): Result<Checkpoint, RunError>
  {
    match Reduced(e, loop.state, results)
    case Err(x) => Err(x)
    case Ok(state) =>
      match NextTasks(e.plan, loop.step, results, state, loop.waiting)
      case Err(r) => Err(RouteFailed(r))
      case Ok(scheduled) =>
        Prepare(e, prev, state, scheduled.tasks, loop.step, scheduled.waiting, OutputNodes(results), id)
  }

  /** The loop variables after a commit, as the run keeps them in memory. */
  function Committed(e: Program, loop: Loop, results: seq<TaskResult>, c: Checkpoint): Loop
    requires Reduced(e, loop.state, results).Ok?
    requires NextTasks(e.plan, loop.step, results, Reduced(e, loop.state, results).value, loop.waiting).Ok?
  {
    var state := Reduced(e, loop.state, results).value;
    var scheduled := NextTasks(e.plan, loop.step, results, state, loop.waiting).value;
    Loop(state, FreshTasks(e.triggers, c.snap, scheduled.tasks), loop.step + 1, scheduled.waiting)
  }

  // ----- Checkpoint chains -----

  /** A checkpoint, the loop variables the run goes on with, and the number of runs begun on the thread. */
  datatype Link = Link(c: Checkpoint, loop: Loop, runs: nat)

  /** Runs the tasks of a super-step one after the other, and commits. */
  function Advance(e: Program, link: Link, id: Id): Result<Link, RunError>
  {
    var loop := link.loop;
    if loop.step >= e.recursionLimit then Err(RecursionLimit)
    else
      match RunTasks(e, loop.tasks, loop.step, loop.state)
      case Err(f) => Err(NodeFailed(f))
      case Ok(results) =>
        match CommitStep(e, link.c.snap, loop, results, id)
        case Err(x) => Err(x)
        case Ok(c) => Ok(Link(c, Committed(e, loop, results, c), link.runs))
  }

  /** The input checkpoint of a run: it stores the fresh entry tasks, while the run goes on with all of them. */
  function Enter(e: Program, prev: Snapshot, state: State, step: SuperStep, w: Barriers, runs: nat, id: Id): Result<Link, RunError>
  {
    match EntryTasks(e.plan, step + 1, state, w)
    case Err(r) => Err(RouteFailed(r))
    case Ok(scheduled) =>
      match Prepare(e, prev, state, scheduled.tasks, step, scheduled.waiting, [], id)
      case Err(x) => Err(x)
      case Ok(c) => Ok(Link(c, Loop(state, scheduled.tasks, step + 1, scheduled.waiting), runs))
  }

  /** initializeRun on a thread without checkpoints. */
  function Begin(e: Program, input: State, id: Id): Result<Link, RunError>
  {
    Enter(e, EMPTY, input, -1, map[], 1, id)
  }

  /** initializeRun with NewRun on a thread whose newest checkpoint schedules nothing. */
  function Renew(e: Program, link: Link, input: State, id: Id): Result<Link, RunError>
  {
    match e.merge(link.loop.state, input)
    case Err(f) => Err(MergeFailed(f))
    case Ok(state) => Enter(e, link.c.snap, state, link.loop.step, link.loop.waiting, link.runs + 1, id)
  }

  /** initializeRun on a thread with checkpoints: the loop variables are read back from the store. */
  function ReadBack(e: Program, link: Link): Result<Link, RunError>
  {
    match Restore(e, link.c)
    case Err(x) => Err(x)
    case Ok(loop) => Ok(link.(loop := loop))
  }

  /** The invocations behind a thread: the inputs that began runs, and the checkpoints that were read back. */
  datatype History = History(inputs: seq<State>, reread: set<nat>)

  function Successor(e: Program, h: History, link: Link, id: Id): Result<Link, RunError>
  {
    if link.loop.tasks != [] then Advance(e, link, id)
    else if link.runs < |h.inputs| then Renew(e, link, h.inputs[link.runs], id)
    else Err(NothingToRun)
  }

  function First(e: Program, h: History, id: Id): Result<Link, RunError>
  {
    if h.inputs == [] then Err(NothingToRun) else Begin(e, h.inputs[0], id)
  }

  function Loaded(e: Program, h: History, link: Link, k: nat): Result<Link, RunError>
  {
    if k in h.reread then ReadBack(e, link) else Ok(link)
  }

  /** The k-th checkpoint of a thread whose checkpoints get the IDs ids. */
  function ChainAt(e: Program, h: History, ids: seq<Id>, k: nat): Result<Link, RunError>
    requires k < |ids|
  {
    if k == 0 then
      match First(e, h, ids[0])
      case Err(x) => Err(x)
      case Ok(link) => Loaded(e, h, link, 0)
    else
      match ChainAt(e, h, ids, k - 1)
      case Err(x) => Err(x)
      case Ok(before) =>
        match Successor(e, h, before, ids[k])
        case Err(x) => Err(x)
        case Ok(link) => Loaded(e, h, link, k)
  }
}
