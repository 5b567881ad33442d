/**
  The durable functional entrypoint: attempts on one thread, the previous value handed to
  each, and the task results and answers an attempt keeps. Calls on a thread are serialized
  by its lock.
*/
module Functional {
  import opened Prelude
  import opened Text

  type Saved(==, !new)
  type Output(==, !new)
  type Encoded(==, !new)
  type Answer(==, !new)

  /** A task of the workflow: its name, the key of its input, and whether its result is persisted. */
  datatype TaskCall = TaskCall(name: string, key: string, persistent: bool)

  /** What the body of the workflow has seen so far: tasks it submitted, results it awaited, answers or that there is none. */
  datatype Seen = Submitted(task: TaskCall) | Awaited(n: nat, value: Output) | Answered(answer: Answer) | Suspended

  type Trace = seq<Seen>

  /** What the body does next; Asks is AwaitResume, which the body may survive when there is no answer. */
  datatype Act = Submits(task: TaskCall) | Awaits(n: nat) | Asks | Returns(save: Saved) | Fails

  /**
    A workflow whose body is deterministic: its next act follows from its input (known by its hash), the previous
    value, and everything it has seen. What the task bodies return may differ from run to run.
  */
  datatype Workflow = Workflow(
    act: (string, Option<Saved>, Trace) -> Act,
    encode: Output -> Encoded,
    decode: Encoded -> Option<Output>)

  ghost predicate WorkflowOk(f: Workflow)
  {
    forall v: Output :: f.decode(f.encode(v)) == Some(v)
  }

  datatype Stored = Stored(name: string, key: string, output: Encoded)

  datatype Status = Running(inputHash: string) | Complete

  /** The interrupts of the body by number, with the answer if it was given. */
  type Answers = map<nat, Option<Answer>>

  /** `previous` is the value of the previous channel, if the checkpoint has one. */
  datatype Checkpoint = Checkpoint(step: nat, status: Status, previous: Option<Saved>, writes: map<string, Stored>, answers: Answers)

  /** The state of one invocation; `attempt` is the index of its running checkpoint. */
  datatype Call = Idle | InCall(
    inputHash: string,
    previous: Option<Saved>,
    attempt: nat,
    step: nat,
    recovered: map<string, Stored>,
    given: Answers,
    trace: Trace,
    results: map<nat, Output>)

  /** The checkpoints of the thread, oldest first. */
  datatype World = World(saved: seq<Checkpoint>, current: Call)

  datatype Move =
    | Invoke(inputHash: string)
    | Submit
    | Await
    | Ask
    | Recover(task: nat)
    | Execute(task: nat, value: Output)
    | Finish
    | Resume(answers: map<nat, Answer>)
    | Stop // the workflow fails or is interrupted, or the process dies

  /** fmt.Sprintf("task:%s:%d", name, n) */
  function TaskName(name: string, n: nat): string
  {
    "task:" + name + ":" + Decimal(n)
  }

  /** The tasks submitted in a trace, in order. */
  function CallsIn(trace: Trace): seq<TaskCall>
  {
    if trace == [] then []
    else
      var before := CallsIn(trace[..|trace| - 1]);
      match trace[|trace| - 1]
      case Submitted(task) => before + [task]
      case _ => before
  }

  /** How often a trace asks: the number of the next interrupt of the body. */
  function AsksIn(trace: Trace): nat
  {
    if trace == [] then 0
    else AsksIn(trace[..|trace| - 1]) + if trace[|trace| - 1].Answered? || trace[|trace| - 1].Suspended? then 1 else 0
  }

  predicate Called(w: World, n: nat)
  {
    w.current.InCall? && n < |CallsIn(w.current.trace)|
  }

  /** The n-th task of the running invocation. */
  function CallOf(w: World, n: nat): TaskCall
    requires Called(w, n)
  {
    CallsIn(w.current.trace)[n]
  }

  function NameOf(task: TaskCall, n: nat): string
  {
    TaskName(task.name, n)
  }

  function IdOf(w: World, n: nat): string
    requires Called(w, n)
  {
    NameOf(CallOf(w, n), n)
  }

  function ActOf(f: Workflow, w: World): Act
    requires w.current.InCall?
  {
    f.act(w.current.inputHash, w.current.previous, w.current.trace)
  }

  function DoInvoke(w: World, inputHash: string): Option<World>
  {
    if w.current.InCall? then None
    else if w.saved == [] then
      Some(World([Checkpoint(0, Running(inputHash), None, map[], map[])], InCall(inputHash, None, 0, 1, map[], map[], [], map[])))
    else
      var n := |w.saved| - 1;
      var last := w.saved[n];
      if last.previous.None? && last.status.Complete? then None
      else if last.status == Running(inputHash) then
        Some(w.(current := InCall(inputHash, last.previous, n, last.step + 1, last.writes, last.answers, [], map[])))
      else
        Some(World(w.saved + [Checkpoint(last.step + 1, Running(inputHash), last.previous, map[], map[])],
                   InCall(inputHash, last.previous, n + 1, last.step + 2, map[], map[], [], map[])))
  }

  /** A task that was submitted and has no result in this invocation. */
  predicate Waiting(w: World, n: nat)
  {
    Called(w, n) && n !in w.current.results && w.current.attempt < |w.saved|
  }

  /** recoverTaskResult: a recovered envelope must name the task and its input. */
  function DoRecover(f: Workflow, w: World, n: nat): Option<World>
  {
    if !Waiting(w, n) || !CallOf(w, n).persistent || IdOf(w, n) !in w.current.recovered then None
    else
      var task, stored := CallOf(w, n), w.current.recovered[IdOf(w, n)];
      if stored.name != task.name || stored.key != task.key then None
      else match f.decode(stored.output)
        case None => None
        case Some(value) => Some(w.(current := w.current.(results := w.current.results[n := value])))
  }

  /** The body may run: the task is not persistent, or nothing was recovered for it. */
  predicate MayExecute(w: World, n: nat)
  {
    Waiting(w, n) && (CallOf(w, n).persistent ==> IdOf(w, n) !in w.current.recovered)
  }

  /** persistTaskResult writes at index 0, where the first write wins; an empty key is an error. */
  function DoExecute(f: Workflow, w: World, n: nat, value: Output): Option<World>
  {
    if !MayExecute(w, n) then None
    else
      var task, id := CallOf(w, n), IdOf(w, n);
      var after := w.(current := w.current.(results := w.current.results[n := value]));
      if !task.persistent then Some(after)
      else if task.key == "" then None
      else
        var attempt := w.saved[w.current.attempt];
        var stored := Stored(task.name, task.key, f.encode(value));
        var writes := if id in attempt.writes then attempt.writes else attempt.writes[id := stored];
        Some(after.(saved := w.saved[w.current.attempt := attempt.(writes := writes)]))
  }

  function See(w: World, seen: Seen): World
    requires w.current.InCall?
  {
    w.(current := w.current.(trace := w.current.trace + [seen]))
  }

  /** AwaitResume: the answer if one was given before this invocation; a new prompt is written without one. */
  function DoAsk(w: World): World
    requires w.current.InCall? && w.current.attempt < |w.saved|
  {
    var k := AsksIn(w.current.trace);
    if k in w.current.given then See(w, if w.current.given[k].Some? then Answered(w.current.given[k].value) else Suspended)
    else
      var attempt := w.saved[w.current.attempt];
      See(w.(saved := w.saved[w.current.attempt := attempt.(answers := attempt.answers[k := None])]), Suspended)
  }

  /** Entrypoint.Resume before it invokes again: every answer must be for an interrupt of the running attempt, given or not. */
  function DoResume(w: World, answers: map<nat, Answer>): Option<World>
  {
    if w.current.InCall? || w.saved == [] || answers == map[] then None
    else
      var last := w.saved[|w.saved| - 1];
      if !last.status.Running? || !(answers.Keys <= last.answers.Keys) then None
      else Some(w.(saved := w.saved[|w.saved| - 1 := last.(answers := Given(last.answers, answers))]))
  }

  function Given(before: Answers, answers: map<nat, Answer>): Answers
  {
    map k | k in before :: if k in answers then Some(answers[k]) else before[k]
  }

  function DoAct(f: Workflow, w: World, move: Move): Option<World>
    requires w.current.InCall?
  {
    match ActOf(f, w)
    case Submits(task) => if move.Submit? then Some(See(w, Submitted(task))) else None
    case Awaits(n) =>
      if move.Await? && Called(w, n) && n in w.current.results then Some(See(w, Awaited(n, w.current.results[n]))) else None
    case Asks => if move.Ask? && w.current.attempt < |w.saved| then Some(DoAsk(w)) else None
    case Returns(save) =>
      if move.Finish? && (forall n :: 0 <= n < |CallsIn(w.current.trace)| ==> n in w.current.results)
      then Some(World(w.saved + [Checkpoint(w.current.step, Complete, Some(save), map[], map[])], Idle))
      else None
    case Fails => None
  }

  function Next(f: Workflow, w: World, move: Move): Option<World>
  {
    match move
    case Invoke(inputHash) => DoInvoke(w, inputHash)
    case Recover(n) => DoRecover(f, w, n)
    case Execute(n, value) => DoExecute(f, w, n, value)
    case Resume(answers) => DoResume(w, answers)
    case Stop => Some(w.(current := Idle))
    case _ => if w.current.InCall? then DoAct(f, w, move) else None
  }

  function Run(f: Workflow, w: World, moves: seq<Move>): Option<World>
  {
    if moves == [] then Some(w)
    else
      match Run(f, w, moves[..|moves| - 1])
      case None => None
      case Some(before) => Next(f, before, moves[|moves| - 1])
  }

  const NOTHING := World([], Idle)

  // ----- The previous value -----

  /** What the latest complete checkpoint saved. */
  function LatestSave(saved: seq<Checkpoint>): Option<Saved>
  {
    if saved == [] then None
    else if saved[|saved| - 1].status.Complete? then saved[|saved| - 1].previous
    else LatestSave(saved[..|saved| - 1])
  }

  ghost predicate LineageOk(saved: seq<Checkpoint>)
  {
    forall k :: 0 <= k < |saved| ==>
      && saved[k].previous == LatestSave(saved[..k + 1])
      && (saved[k].status.Complete? ==> saved[k].previous.Some?)
      && (saved[k].status.Complete? ==> saved[k].writes == map[])
      && saved[k].step == k
  }

  ghost predicate CallOk(w: World)
  {
    w.current.InCall? ==>
      && w.current.attempt == |w.saved| - 1
      && w.saved[w.current.attempt].status == Running(w.current.inputHash)
      && w.saved[w.current.attempt].previous == w.current.previous
      && w.current.step == |w.saved|
  }

  lemma {:induction false} LatestSaveSame(a: seq<Checkpoint>, b: seq<Checkpoint>)
    requires |a| == |b| && forall k :: 0 <= k < |a| ==> a[k].status == b[k].status && a[k].previous == b[k].previous
    ensures LatestSave(a) == LatestSave(b)
  {
    if a != [] && !a[|a| - 1].status.Complete? {
      LatestSaveSame(a[..|a| - 1], b[..|b| - 1]);
    }
  }

  lemma LineageExtends(saved: seq<Checkpoint>, c: Checkpoint)
    requires LineageOk(saved) && c.step == |saved| && c.previous == LatestSave(saved + [c])
    requires c.status.Complete? ==> c.previous.Some? && c.writes == map[]
    ensures LineageOk(saved + [c])
  {
    var more := saved + [c];
    forall k | 0 <= k < |more| ensures more[k].previous == LatestSave(more[..k + 1]) {
      if k < |saved| {
        assert more[..k + 1] == saved[..k + 1];
      } else {
        assert more[..k + 1] == more;
      }
    }
  }

  /** A new attempt carries the previous value on. */
  lemma AttemptBegins(saved: seq<Checkpoint>, c: Checkpoint)
    requires LineageOk(saved) && c.status.Running? && c.step == |saved| && c.previous == LatestSave(saved)
    ensures LineageOk(saved + [c])
  {
    hide LineageOk;
    assert (saved + [c])[..|saved|] == saved;
    LineageExtends(saved, c);
  }

  lemma InvokeKeeps(w: World, inputHash: string)
    requires LineageOk(w.saved) && CallOk(w) && DoInvoke(w, inputHash).Some?
    ensures LineageOk(DoInvoke(w, inputHash).value.saved) && CallOk(DoInvoke(w, inputHash).value)
  {
    hide LineageOk, LatestSave;
    if w.saved == [] {
      var c := Checkpoint(0, Running(inputHash), None, map[], map[]);
      assert w.saved + [c] == [c];
      assert LatestSave([]) == None by { NoSave(); }
      AttemptBegins(w.saved, c);
    } else {
      var last := w.saved[|w.saved| - 1];
      LastOk(w.saved);
      if last.status != Running(inputHash) {
        AttemptBegins(w.saved, Checkpoint(last.step + 1, Running(inputHash), last.previous, map[], map[]));
      }
    }
  }

  lemma NoSave()
    ensures LatestSave([]) == None
  {
  }

  lemma LastOk(saved: seq<Checkpoint>)
    requires LineageOk(saved) && saved != []
    ensures saved[|saved| - 1].previous == LatestSave(saved) && saved[|saved| - 1].step == |saved| - 1
  {
    assert saved[..|saved|] == saved;
  }

  lemma RewriteKeeps(saved: seq<Checkpoint>, k: nat, writes: map<string, Stored>, answers: Answers)
    requires LineageOk(saved) && k < |saved| && saved[k].status.Running?
    ensures LineageOk(saved[k := saved[k].(writes := writes, answers := answers)])
  {
    var after := saved[k := saved[k].(writes := writes, answers := answers)];
    forall j | 0 <= j < |after| ensures after[j].previous == LatestSave(after[..j + 1]) {
      LatestSaveSame(after[..j + 1], saved[..j + 1]);
    }
  }

  lemma NextKeeps(f: Workflow, w: World, move: Move)
    requires LineageOk(w.saved) && CallOk(w) && Next(f, w, move).Some?
    ensures LineageOk(Next(f, w, move).value.saved) && CallOk(Next(f, w, move).value)
  {
    hide LineageOk, TaskName, CallsIn, AsksIn, Given;
    match move {
      case Invoke(hash) => InvokeKeeps(w, hash);
      case Execute(n, value) =>
        var attempt := w.saved[w.current.attempt];
        var w' := Next(f, w, move).value;
        if w'.saved != w.saved {
          RewriteKeeps(w.saved, w.current.attempt, w'.saved[w.current.attempt].writes, attempt.answers);
        }
      case Ask =>
        var attempt := w.saved[w.current.attempt];
        RewriteKeeps(w.saved, w.current.attempt, attempt.writes, attempt.answers[AsksIn(w.current.trace) := None]);
      case Resume(answers) =>
        var last := w.saved[|w.saved| - 1];
        RewriteKeeps(w.saved, |w.saved| - 1, last.writes, Given(last.answers, answers));
      case Finish =>
        var c := Checkpoint(w.current.step, Complete, Some(ActOf(f, w).save), map[], map[]);
        assert (w.saved + [c])[|w.saved|] == c;
        LineageExtends(w.saved, c);
      case _ =>
    }
  }
}
