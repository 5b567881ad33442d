/**
  Crash recovery of durable runs. The world is the checkpoint store and, while a process
  is alive, the variables of its run loop. Tasks of a super-step complete in any order,
  the process may stop between any two calls of the store, and a thread whose run has
  ended may begin another run with a further input.
*/
module Recovery {
  import opened Prelude
  import opened Graphs
  import opened Envelopes
  import opened Versions
  import opened Engine

  // ----- The store of one thread -----

  datatype WriteKey = WriteKey(taskId: string, index: int)

  type Writes = map<WriteKey, EncodedValue>

  const RESULT_INDEX: int := 0
  const FAILURE_INDEX: int := -4

  /** Checkpoints in the order they were put, and the pending writes of each. */
  datatype Store = Store(saved: seq<Checkpoint>, writes: map<Id, Writes>)

  function WritesOf(store: Store, id: Id): Writes
  {
    if id in store.writes then store.writes[id] else map[]
  }

  /** Control writes (negative index) replace an earlier value, task writes keep the first one. */
  function PutWrite(writes: Writes, key: WriteKey, value: EncodedValue): Writes
  {
    if key.index >= 0 && key in writes then writes else writes[key := value]
  }

  /** The checkpoint with the greatest ID, which a request without an ID selects. */
  function LatestIndex(saved: seq<Checkpoint>): (r: nat)
    requires saved != []
    ensures r < |saved|
  {
    if |saved| == 1 then 0
    else
      var best := LatestIndex(saved[..|saved| - 1]);
      if saved[best].snap.id < saved[|saved| - 1].snap.id then |saved| - 1 else best
  }

  // ----- The running process -----

  /** What a process knows of one task of the current super-step. */
  datatype Slot = Fresh | Handling(failure: Failure) | Done(result: TaskResult)

  datatype Process = Idle | Running(current: Checkpoint, loop: Loop, slots: seq<Slot>)

  /** `history` records the inputs of the runs begun and the checkpoints invocations read back; no step depends on it. */
  datatype World = World(store: Store, process: Process, history: History)

  datatype Move =
    | Start(input: State, id: Id) // invoke a thread that has no checkpoint
    | Renewed(input: State, id: Id) // invoke a thread whose run has ended with a new input
    | Recover           // invoke the thread again
    | Fail(task: nat)   // a node body fails and its failure marker is written
    | Finish(task: nat) // a node body or error handler succeeds and its result is written
    | Advanced(id: Id)  // every task is done: reduce, route, commit
    | Return            // nothing is scheduled: the invocation returns
    | Crash

  const NOTHING := World(Store([], map[]), Idle, History([], {}))

  /** restoreRun on the pending writes of one task; None is a decoding or identity error. */
  function RestoreSlot(e: Program, writes: Writes, task: Task): Option<Slot>
  {
    var result, failure := WriteKey(task.id, RESULT_INDEX), WriteKey(task.id, FAILURE_INDEX);
    var marker := if failure in writes then Some(DecodeFailure(e.codecs, writes[failure])) else None;
    if marker.Some? && marker.value.Err? then None
    else if result in writes then
      match DecodeResult(e.codecs, task.id, writes[result])
      case Err(_) => None
      case Ok(r) => if r.node != task.node then None else Some(Done(r))
    else if marker.None? then Some(Fresh)
    else if marker.value.value.source != task.node then None
    else Some(Handling(marker.value.value))
  }

  function RestoreSlots(e: Program, writes: Writes, tasks: seq<Task>): (r: Option<seq<Slot>>)
    ensures r.Some? ==> |r.value| == |tasks|
    ensures r.Some? ==> forall i :: 0 <= i < |tasks| ==> RestoreSlot(e, writes, tasks[i]) == Some(r.value[i])
    ensures r.None? ==> exists i :: 0 <= i < |tasks| && RestoreSlot(e, writes, tasks[i]).None?
  {
    if tasks == [] then Some([])
    else
      var last := RestoreSlot(e, writes, tasks[|tasks| - 1]);
      match RestoreSlots(e, writes, tasks[..|tasks| - 1])
      case None => None
      case Some(before) => if last.None? then None else Some(before + [last.value])
  }

  predicate Runnable(e: Program, process: Process)
  {
    process.Running? && process.loop.tasks != [] && process.loop.step < e.recursionLimit
  }

  predicate OnTask(e: Program, process: Process, i: nat)
  {
    Runnable(e, process) && i < |process.loop.tasks| && i < |process.slots|
  }

  predicate NewId(store: Store, id: Id)
  {
    forall k :: 0 <= k < |store.saved| ==> store.saved[k].snap.id < id
  }

  function AllDone(slots: seq<Slot>): (r: Option<seq<TaskResult>>)
    ensures r.Some? <==> forall i :: 0 <= i < |slots| ==> slots[i].Done?
    ensures r.Some? ==> |r.value| == |slots| && forall i :: 0 <= i < |slots| ==> slots[i] == Done(r.value[i])
  {
    if slots == [] then Some([])
    else
      match AllDone(slots[..|slots| - 1])
      case None => None
      case Some(before) => if slots[|slots| - 1].Done? then Some(before + [slots[|slots| - 1].result]) else None
  }

  /** What the body, or after a marker the handler, of a pending task returns. */
  function Attempt(e: Program, loop: Loop, i: nat, slot: Slot): Result<TaskResult, Fault>
    requires i < |loop.tasks| && !slot.Done?
  {
    var task := loop.tasks[i];
    match slot
    case Fresh =>
      (match e.invoke(task.node, task.id, loop.step, TaskState(task, loop.state))
       case Ok(cmd) => Ok(TaskResult(task.node, task.id, cmd, ""))
       case Err(f) => Err(f))
    case Handling(failure) => RunHandler(e, task, loop.step, TaskState(task, loop.state), failure)
  }

  function Record(w: World, i: nat, index: int, value: EncodedValue, slot: Slot): World
    requires w.process.Running? && i < |w.process.slots| && i < |w.process.loop.tasks|
  {
    var p := w.process;
    var key := WriteKey(p.loop.tasks[i].id, index);
    var writes := PutWrite(WritesOf(w.store, p.current.snap.id), key, value);
    w.(store := w.store.(writes := w.store.writes[p.current.snap.id := writes]), process := p.(slots := p.slots[i := slot]))
  }

  function FreshSlots(loop: Loop): seq<Slot>
  {
    seq(|loop.tasks|, _ => Fresh)
  }

  /** The process goes on from a checkpoint it has just put. */
  function Opened(w: World, link: Link, history: History): World
  {
    World(w.store.(saved := w.store.saved + [link.c]), Running(link.c, link.loop, FreshSlots(link.loop)), history)
  }

  function StepStart(e: Program, w: World, input: State, id: Id): Option<World>
  {
    if w.process.Running? || w.store.saved != [] then None
    else match Begin(e, input, id)
      case Err(_) => None
      case Ok(link) => Some(Opened(w, link, w.history.(inputs := w.history.inputs + [input])))
  }

  /** The history once the newest of these checkpoints has been read back. */
  function Revisited(h: History, saved: seq<Checkpoint>): History
    requires saved != []
  {
    h.(reread := h.reread + {|saved| - 1})
  }

  function Latest(store: Store): Checkpoint
    requires store.saved != []
  {
    store.saved[LatestIndex(store.saved)]
  }

  function StepRenew(e: Program, w: World, input: State, id: Id): Option<World>
  {
    if w.process.Running? || w.store.saved == [] || !NewId(w.store, id) then None
    else
      var c := Latest(w.store);
      match Restore(e, c)
      case Err(_) => None
      case Ok(loop) =>
        if loop.tasks != [] then None
        else match Renew(e, Link(c, loop, |w.history.inputs|), input, id)
          case Err(_) => None
          case Ok(link) => Some(Opened(w, link, Revisited(w.history, w.store.saved).(inputs := w.history.inputs + [input])))
  }

  function StepRecover(e: Program, w: World): Option<World>
  {
    if w.process.Running? || w.store.saved == [] then None
    else
      var c := Latest(w.store);
      match Restore(e, c)
      case Err(_) => None
      case Ok(loop) =>
        match RestoreSlots(e, WritesOf(w.store, c.snap.id), loop.tasks)
        case None => None
        case Some(slots) => Some(w.(process := Running(c, loop, slots), history := Revisited(w.history, w.store.saved)))
  }

  function StepFail(e: Program, w: World, i: nat): Option<World>
  {
    if !OnTask(e, w.process, i) || !w.process.slots[i].Fresh? then None
    else
      var task := w.process.loop.tasks[i];
      match Attempt(e, w.process.loop, i, Fresh)
      case Ok(_) => None
      case Err(f) =>
        if task.node !in e.handlers then None
        else match EncodeFailure(e.codecs, task.node, f)
          case Err(_) => None
          case Ok(value) => Some(Record(w, i, FAILURE_INDEX, value, Handling(Failure(task.node, f))))
  }

  function StepFinish(e: Program, w: World, i: nat): Option<World>
  {
    if !OnTask(e, w.process, i) || w.process.slots[i].Done? then None
    else
      match Attempt(e, w.process.loop, i, w.process.slots[i])
      case Err(_) => None
      case Ok(r) =>
        match EncodeResult(e.codecs, r)
        case Err(_) => None
        case Ok(value) => Some(Record(w, i, RESULT_INDEX, value, Done(r)))
  }

  function StepCommit(e: Program, w: World, id: Id): Option<World>
  {
    if !Runnable(e, w.process) || !NewId(w.store, id) then None
    else
      match AllDone(w.process.slots)
      case None => None
      case Some(results) =>
        match CommitStep(e, w.process.current.snap, w.process.loop, results, id)
        case Err(_) => None
        case Ok(c) =>
          Some(Opened(w, Link(c, Committed(e, w.process.loop, results, c), |w.history.inputs|), w.history))
  }

  /** The run loop ends: nothing is scheduled. */
  predicate Finished(w: World)
  {
    w.process.Running? && w.process.loop.tasks == []
  }

  function Step(e: Program, w: World, move: Move): Option<World>
  {
    match move
    case Start(input, id) => StepStart(e, w, input, id)
    case Renewed(input, id) => StepRenew(e, w, input, id)
    case Recover => StepRecover(e, w)
    case Fail(i) => StepFail(e, w, i)
    case Finish(i) => StepFinish(e, w, i)
    case Advanced(id) => StepCommit(e, w, id)
    case Return => if Finished(w) then Some(w.(process := Idle)) else None
    case Crash => Some(w.(process := Idle))
  }

  function Run(e: Program, w: World, moves: seq<Move>): Option<World>
  {
    if moves == [] then Some(w)
    else
      match Run(e, w, moves[..|moves| - 1])
      case None => None
      case Some(before) => Step(e, before, moves[|moves| - 1])
  }
}
