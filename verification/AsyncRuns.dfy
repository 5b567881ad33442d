/**
  A process whose saver is asynchronous: tasks call it concurrently and run ahead of its
  writer. Whatever order their commands reach the writer in, and wherever it stops, the
  store is one that a synchronous process leaves.
*/
module AsyncRuns {
  import opened Prelude
  import opened Graphs
  import opened Envelopes
  import opened Versions
  import opened Engine
  import opened Recovery
  import opened RecoveryFacts
  import opened RecoveryTheorems
  import opened AsyncRecovery
  import AsyncSaver
  import AsyncTheorems

  // ----- Moves of different tasks are independent -----

  predicate TaskMove(move: Move)
  {
    move.Fail? || move.Finish?
  }

  ghost predicate DistinctTasks(w: World)
  {
    w.process.Running? && Stamped(w.process.loop.tasks, w.process.loop.step)
  }

  /** The two processes are in the same super-step, and agree on task i. */
  predicate SameTask(w: World, w': World, i: nat)
  {
    && w.process.Running? && w'.process.Running?
    && w'.process.current == w.process.current && w'.process.loop == w.process.loop
    && |w'.process.slots| == |w.process.slots| && (i < |w.process.slots| ==> w'.process.slots[i] == w.process.slots[i])
  }

  /** A move of a task depends on that task alone. */
  lemma SameMove(e: Program, w: World, w': World, m: Move)
    requires TaskMove(m) && SameTask(w, w', m.task)
    ensures Step(e, w, m).Some? <==> Step(e, w', m).Some?
    ensures Step(e, w, m).Some? ==> CallsOf(e, w, m) == CallsOf(e, w', m)
  {
    hide Attempt, EncodeResult, EncodeFailure, PutWrite;
  }

  lemma OtherTasks(e: Program, w: World, m: Move, i: nat)
    requires TaskMove(m) && m.task != i && Step(e, w, m).Some?
    ensures SameTask(w, Step(e, w, m).value, i)
  {
    hide Attempt, EncodeResult, EncodeFailure, PutWrite;
  }

  lemma StaysDistinct(e: Program, w: World, m: Move)
    requires TaskMove(m) && DistinctTasks(w) && Step(e, w, m).Some?
    ensures DistinctTasks(Step(e, w, m).value)
  {
    hide Attempt, EncodeResult, EncodeFailure, PutWrite, Stamped;
  }

  /** What a move of a task records. */
  lemma Recorded(e: Program, w: World, m: Move) returns (index: int, value: EncodedValue, slot: Slot)
    requires TaskMove(m) && Step(e, w, m).Some?
    ensures w.process.Running? && m.task < |w.process.slots| && m.task < |w.process.loop.tasks|
    ensures Step(e, w, m) == Some(Record(w, m.task, index, value, slot))
    ensures forall w' :: SameTask(w, w', m.task) && m.task < |w'.process.loop.tasks| ==>
      Step(e, w', m) == Some(Record(w', m.task, index, value, slot))
  {
    hide Attempt, EncodeResult, EncodeFailure, PutWrite;
    if m.Fail? {
      var f := Attempt(e, w.process.loop, m.task, Fresh).error;
      index, slot := FAILURE_INDEX, Handling(Failure(w.process.loop.tasks[m.task].node, f));
      value := EncodeFailure(e.codecs, w.process.loop.tasks[m.task].node, f).value;
    } else {
      var r := Attempt(e, w.process.loop, m.task, w.process.slots[m.task]).value;
      index, slot, value := RESULT_INDEX, Done(r), EncodeResult(e.codecs, r).value;
    }
  }

  lemma RecordsCommute(w: World, i: nat, index: int, value: EncodedValue, slot: Slot,
                       j: nat, index': int, value': EncodedValue, slot': Slot)
    requires DistinctTasks(w) && i != j && i < |w.process.slots| && j < |w.process.slots|
    requires i < |w.process.loop.tasks| && j < |w.process.loop.tasks|
    ensures Record(Record(w, i, index, value, slot), j, index', value', slot')
         == Record(Record(w, j, index', value', slot'), i, index, value, slot)
  {
    var id, tasks := w.process.current.snap.id, w.process.loop.tasks;
    assert tasks[i].id != tasks[j].id;
    var a, b := WriteKey(tasks[i].id, index), WriteKey(tasks[j].id, index');
    var writes := WritesOf(w.store, id);
    assert PutWrite(PutWrite(writes, a, value), b, value') == PutWrite(PutWrite(writes, b, value'), a, value);
    assert w.process.slots[i := slot][j := slot'] == w.process.slots[j := slot'][i := slot];
    WritesTwice(w.store.writes, id, PutWrite(writes, a, value), PutWrite(PutWrite(writes, a, value), b, value'));
    WritesTwice(w.store.writes, id, PutWrite(writes, b, value'), PutWrite(PutWrite(writes, b, value'), a, value));
  }

  lemma WritesTwice(writes: map<Id, Writes>, id: Id, a: Writes, b: Writes)
    ensures writes[id := a][id := b] == writes[id := b]
  {
  }

  /** Two moves of different tasks may be made in either order. */
  lemma Diamond(e: Program, w: World, x: Move, m: Move)
    requires DistinctTasks(w) && TaskMove(x) && TaskMove(m) && x.task != m.task
    requires Step(e, w, x).Some? && Step(e, w, m).Some?
    ensures Step(e, Step(e, w, x).value, m).Some? && Step(e, Step(e, w, m).value, x).Some?
    ensures Step(e, Step(e, w, x).value, m) == Step(e, Step(e, w, m).value, x)
    ensures CallsOf(e, Step(e, w, x).value, m) == CallsOf(e, w, m)
  {
    OtherTasks(e, w, x, m.task);
    OtherTasks(e, w, m, x.task);
    SameMove(e, w, Step(e, w, x).value, m);
    SameMove(e, w, Step(e, w, m).value, x);
    hide Step, CallsOf, Record, Stamped;
    var ix, vx, sx := Recorded(e, w, x);
    var im, vm, sm := Recorded(e, w, m);
    RecordsCommute(w, x.task, ix, vx, sx, m.task, im, vm, sm);
  }

  /** Moves of tasks other than i. */
  predicate Apart(moves: seq<Move>, i: nat)
  {
    forall k :: 0 <= k < |moves| ==> TaskMove(moves[k]) && moves[k].task != i
  }

  lemma {:induction false} ApartKeeps(e: Program, w: World, a: seq<Move>, i: nat)
    requires w.process.Running? && Apart(a, i) && Run(e, w, a).Some?
    ensures SameTask(w, Run(e, w, a).value, i)
  {
    hide Step;
    if a != [] {
      ApartKeeps(e, w, a[..|a| - 1], i);
      OtherTasks(e, Run(e, w, a[..|a| - 1]).value, a[|a| - 1], i);
    }
  }

  lemma {:induction false} RunDistinct(e: Program, w: World, a: seq<Move>, i: nat)
    requires DistinctTasks(w) && Apart(a, i) && Run(e, w, a).Some?
    ensures DistinctTasks(Run(e, w, a).value)
  {
    hide Step, DistinctTasks;
    if a != [] {
      RunDistinct(e, w, a[..|a| - 1], i);
      StaysDistinct(e, Run(e, w, a[..|a| - 1]).value, a[|a| - 1]);
    }
  }

  /** A move of a task may be made before moves of others. */
  lemma {:induction false} MoveEarlier(e: Program, w: World, a: seq<Move>, m: Move)
    requires DistinctTasks(w) && TaskMove(m) && Apart(a, m.task) && Run(e, w, a).Some? && Step(e, w, m).Some?
    ensures Run(e, w, a + [m]).Some? && Run(e, Step(e, w, m).value, a) == Run(e, w, a + [m])
  {
    hide Step, DistinctTasks;
    assert (a + [m])[..|a|] == a;
    if a == [] {
      assert [m] == a + [m];
    } else {
      var init, x := a[..|a| - 1], a[|a| - 1];
      var before := Run(e, w, init).value;
      MoveEarlier(e, w, init, m);
      assert (init + [m])[..|init|] == init;
      RunDistinct(e, w, init, m.task);
      Diamond(e, before, x, m);
    }
  }

  // ----- A process and its saver -----

  /** The process as it sees itself, with every call it has made, and the saver behind it. */
  datatype Joint = Joint(world: World, saver: AsyncSaver.State)

  datatype JointStep =
    | Call(move: Move, command: AsyncSaver.Command) // a move whose call is this command enters the saver
    | Resumed                                       // the invocation reads the thread back
    | Within(step: AsyncSaver.Step)                 // the calls go on, the writer works, Flush

  /** Every task calls from a goroutine of its own, the run loop from another. */
  function Goroutine(move: Move): nat
  {
    if TaskMove(move) then move.task + 1 else 0
  }

  predicate Returned(s: AsyncSaver.State, c: nat)
  {
    c < |s.callers| && s.callers[c].Ready?
  }

  /** Tasks run once their checkpoint is put, and the run loop waits for all of them; a refused call ends the run. */
  predicate MayCall(s: AsyncSaver.State, move: Move)
  {
    s.dropped == [] && if TaskMove(move) then Returned(s, 0) else forall c :: 0 <= c < |s.callers| ==> Returned(s, c)
  }

  function JointNext(e: Program, read: AsyncSaver.Command -> Call, j: Joint, step: JointStep): Option<Joint>
  {
    match step
    case Call(move, command) =>
      if !MayCall(j.saver, move) || Step(e, j.world, move).None? || CallsOf(e, j.world, move) != [read(command)] then None
      else
        (match AsyncSaver.Next(j.saver, AsyncSaver.Record(Goroutine(move), command))
         case None => None
         case Some(saver) => Some(Joint(Step(e, j.world, move).value, saver)))
    case Resumed =>
      if !MayCall(j.saver, Recover) || Step(e, j.world, Recover).None? then None
      else Some(j.(world := Step(e, j.world, Recover).value))
    case Within(inner) =>
      if inner.Record? then None
      else
        match AsyncSaver.Next(j.saver, inner)
        case None => None
        case Some(saver) => Some(j.(saver := saver))
  }

  function JointRun(e: Program, read: AsyncSaver.Command -> Call, j: Joint, steps: seq<JointStep>): Option<Joint>
  {
    if steps == [] then Some(j)
    else
      match JointRun(e, read, j, steps[..|steps| - 1])
      case None => None
      case Some(before) => JointNext(e, read, before, steps[|steps| - 1])
  }

  // ----- The order in which the writer sees the calls -----

  /** A call that has not reached the channel, as a move that could still be made. */
  ghost predicate PendingOk(e: Program, read: AsyncSaver.Command -> Call, w: World, s: AsyncSaver.State, m: Move)
  {
    var c := Goroutine(m);
    && c < |s.callers| && Step(e, w, m).Some?
    && (s.callers[c].Ready? ==> s.dropped != [])
    && (!s.callers[c].Ready? ==> CallsOf(e, w, m) == [read(s.callers[c].command)])
  }

  /** The calls that have not reached the channel: one of the run loop, or some of different tasks. */
  ghost predicate Pends(e: Program, read: AsyncSaver.Command -> Call, w: World, s: AsyncSaver.State, pending: seq<Move>)
  {
    && (forall k :: 0 <= k < |pending| ==> PendingOk(e, read, w, s, pending[k]))
    && (forall k :: 0 <= k < |pending| ==> TaskMove(pending[k]) || |pending| == 1)
    && (forall j, k :: 0 <= j < k < |pending| ==> Goroutine(pending[j]) != Goroutine(pending[k]))
    && (forall c :: 0 <= c < |s.callers| && !s.callers[c].Ready? ==> exists k :: 0 <= k < |pending| && Goroutine(pending[k]) == c)
  }

  /** The queue is what these moves call, and the process is ahead of them by its pending calls. */
  ghost predicate Explains(e: Program, read: AsyncSaver.Command -> Call, w0: World, j: Joint, sent: seq<Move>, pending: seq<Move>)
  {
    && Run(e, w0, sent).Some? && Run(e, Run(e, w0, sent).value, pending) == Some(j.world)
    && CallsAlong(e, w0, sent) == Read(read, j.saver.pipe.queue)
    && Pends(e, read, Run(e, w0, sent).value, j.saver, pending)
  }

  lemma NothingPends(e: Program, read: AsyncSaver.Command -> Call, w: World, s: AsyncSaver.State, pending: seq<Move>)
    requires Pends(e, read, w, s, pending) && MayCall(s, Recover)
    ensures pending == []
  {
    hide Step, CallsOf;
    assert pending != [] ==> PendingOk(e, read, w, s, pending[0]) && Returned(s, Goroutine(pending[0]));
  }

  lemma OthersPend(e: Program, read: AsyncSaver.Command -> Call, w: World, s: AsyncSaver.State, pending: seq<Move>, m: Move)
    requires Pends(e, read, w, s, pending) && TaskMove(m) && MayCall(s, m) && Returned(s, Goroutine(m))
    ensures Apart(pending, m.task)
  {
    hide Step, CallsOf;
    forall k | 0 <= k < |pending| ensures TaskMove(pending[k]) && pending[k].task != m.task {
      assert PendingOk(e, read, w, s, pending[k]);
    }
  }

  /** A call of a task enters the saver: it could have been made before those that pend. */
  lemma TaskCalls(e: Program, read: AsyncSaver.Command -> Call, w0: World, j: Joint, m: Move, command: AsyncSaver.Command,
                  j': Joint, sent: seq<Move>, pending: seq<Move>)
    requires Explains(e, read, w0, j, sent, pending) && TaskMove(m) && JointNext(e, read, j, Call(m, command)) == Some(j')
    ensures Explains(e, read, w0, j', sent, pending + [m])
  {
    hide Step, CallsOf, CallsAlong, Run;
    var w := Run(e, w0, sent).value;
    OthersPend(e, read, w, j.saver, pending, m);
    InStep(e, read, w, j.saver, pending, j.world, m);
    ApartKeeps(e, w, pending, m.task);
    SameMove(e, w, j.world, m);
    RunAnd(e, w, pending, m);
    var longer := pending + [m];
    assert forall k :: 0 <= k < |pending| ==> longer[k] == pending[k];
    assert longer[|pending|] == m;
    forall k | 0 <= k < |longer| ensures PendingOk(e, read, w, j'.saver, longer[k]) {
      if k < |pending| { assert PendingOk(e, read, w, j.saver, pending[k]); }
    }
    assert Pends(e, read, w, j'.saver, longer);
  }

  lemma InStep(e: Program, read: AsyncSaver.Command -> Call, w: World, s: AsyncSaver.State, pending: seq<Move>, end: World, m: Move)
    requires Pends(e, read, w, s, pending) && Run(e, w, pending) == Some(end)
    requires TaskMove(m) && Apart(pending, m.task) && Step(e, end, m).Some?
    ensures w.process.Running?
  {
    RunNothing(e, w);
    if pending != [] {
      assert PendingOk(e, read, w, s, pending[0]);
      TaskRuns(e, w, pending[0]);
    } else {
      TaskRuns(e, end, m);
    }
  }

  lemma TaskRuns(e: Program, w: World, m: Move)
    requires TaskMove(m) && Step(e, w, m).Some?
    ensures w.process.Running?
  {
  }

  lemma RunAnd(e: Program, w: World, moves: seq<Move>, m: Move)
    requires Run(e, w, moves).Some?
    ensures Run(e, w, moves + [m]) == Step(e, Run(e, w, moves).value, m)
  {
    hide Step;
    assert (moves + [m])[..|moves|] == moves;
  }

  lemma CallsAnd(e: Program, w: World, moves: seq<Move>, m: Move)
    requires Run(e, w, moves + [m]).Some? && Run(e, w, moves).Some? && Step(e, Run(e, w, moves).value, m).Some?
    ensures CallsAlong(e, w, moves + [m]) == CallsAlong(e, w, moves) + CallsOf(e, Run(e, w, moves).value, m)
  {
    hide Step, CallsOf, Run;
    assert (moves + [m])[..|moves|] == moves;
  }

  /** The run loop calls: everything before has reached the channel. */
  lemma LoopCalls(e: Program, read: AsyncSaver.Command -> Call, w0: World, j: Joint, m: Move, command: AsyncSaver.Command,
                  j': Joint, sent: seq<Move>, pending: seq<Move>)
    requires Explains(e, read, w0, j, sent, pending) && !TaskMove(m) && JointNext(e, read, j, Call(m, command)) == Some(j')
    ensures Explains(e, read, w0, j', sent, [m])
  {
    hide Step, CallsOf, CallsAlong, Run;
    var w := Run(e, w0, sent).value;
    NothingPends(e, read, w, j.saver, pending);
    RunNothing(e, w);
    RunOne(e, w, m);
    assert PendingOk(e, read, w, j'.saver, [m][0]);
  }

  lemma RunNothing(e: Program, w: World)
    ensures Run(e, w, []) == Some(w) && CallsAlong(e, w, []) == []
  {
  }

  lemma Resumes(e: Program, read: AsyncSaver.Command -> Call, w0: World, j: Joint, j': Joint, sent: seq<Move>, pending: seq<Move>)
    requires Explains(e, read, w0, j, sent, pending) && JointNext(e, read, j, Resumed) == Some(j')
    ensures Explains(e, read, w0, j', sent + [Recover], [])
  {
    hide Step, CallsAlong, Run;
    var w := Run(e, w0, sent).value;
    NothingPends(e, read, w, j.saver, pending);
    RunNothing(e, w);
    RunAnd(e, w0, sent, Recover);
    RunNothing(e, j'.world);
    CallsAnd(e, w0, sent, Recover);
    assert CallsAlong(e, w0, sent) + [] == CallsAlong(e, w0, sent);
    assert Pends(e, read, j'.world, j'.saver, []);
  }

  /** A call reaches the channel: of those that pend, it was made first. */
  lemma Sends(e: Program, read: AsyncSaver.Command -> Call, w0: World, j: Joint, c: nat, j': Joint,
              sent: seq<Move>, pending: seq<Move>, k: nat)
    requires Explains(e, read, w0, j, sent, pending) && JointNext(e, read, j, Within(AsyncSaver.Send(c))) == Some(j')
    requires k < |pending| && Goroutine(pending[k]) == c
    requires |pending| > 1 ==> DistinctTasks(Run(e, w0, sent).value)
    ensures Explains(e, read, w0, j', sent + [pending[k]], pending[..k] + pending[k + 1..])
  {
    hide Step, CallsOf, CallsAlong, Run, Pends, DistinctTasks;
    var w, m, rest := Run(e, w0, sent).value, pending[k], pending[..k] + pending[k + 1..];
    SentCall(e, read, w, j, c, j', pending, k);
    RunAnd(e, w0, sent, m);
    CallsAnd(e, w0, sent, m);
    ReadAnd(read, j.saver.pipe.queue, AsyncSaver.Tagged(c, j.saver.callers[c].command));
    RunWithout(e, read, w, j.saver, pending, k, j.world);
    StillPends(e, read, w, j, c, j', pending, k);
  }

  lemma ReadAnd(read: AsyncSaver.Command -> Call, log: seq<AsyncSaver.Tagged>, item: AsyncSaver.Tagged)
    ensures Read(read, log + [item]) == Read(read, log) + [read(item.command)]
  {
  }

  lemma SentCall(e: Program, read: AsyncSaver.Command -> Call, w: World, j: Joint, c: nat, j': Joint, pending: seq<Move>, k: nat)
    requires Pends(e, read, w, j.saver, pending) && JointNext(e, read, j, Within(AsyncSaver.Send(c))) == Some(j')
    requires k < |pending| && Goroutine(pending[k]) == c
    ensures c < |j.saver.callers| && !j.saver.callers[c].Ready? && j'.world == j.world
    ensures j'.saver == AsyncSaver.SetCaller(j.saver, c, AsyncSaver.Ready).(pipe := j'.saver.pipe)
    ensures j'.saver.pipe.queue == j.saver.pipe.queue + [AsyncSaver.Tagged(c, j.saver.callers[c].command)]
    ensures Step(e, w, pending[k]).Some? && CallsOf(e, w, pending[k]) == [read(j.saver.callers[c].command)]
  {
    hide Step, CallsOf;
    assert PendingOk(e, read, w, j.saver, pending[k]);
  }

  /** The process is where it was, with one of its pending moves made first. */
  lemma RunWithout(e: Program, read: AsyncSaver.Command -> Call, w: World, s: AsyncSaver.State, pending: seq<Move>, k: nat, end: World)
    requires Pends(e, read, w, s, pending) && k < |pending| && Run(e, w, pending) == Some(end)
    requires |pending| > 1 ==> DistinctTasks(w)
    ensures Step(e, w, pending[k]).Some? && Run(e, Step(e, w, pending[k]).value, pending[..k] + pending[k + 1..]) == Some(end)
  {
    hide Step, Run, CallsOf, DistinctTasks;
    var m, a, b := pending[k], pending[..k], pending[k + 1..];
    assert PendingOk(e, read, w, s, m);
    if |pending| == 1 {
      assert pending == [m] && a + b == [];
      RunOne(e, w, m);
      RunNothing(e, Step(e, w, m).value);
    } else {
      assert pending == (a + [m]) + b;
      PendingApart(e, read, w, s, pending, k);
      RunFirst(e, w, a, m, b, end);
    }
  }

  lemma PendingApart(e: Program, read: AsyncSaver.Command -> Call, w: World, s: AsyncSaver.State, pending: seq<Move>, k: nat)
    requires Pends(e, read, w, s, pending) && k < |pending| && |pending| > 1
    ensures TaskMove(pending[k]) && Apart(pending[..k], pending[k].task)
  {
    hide PendingOk;
  }

  lemma RunFirst(e: Program, w: World, a: seq<Move>, m: Move, b: seq<Move>, end: World)
    requires DistinctTasks(w) && TaskMove(m) && Apart(a, m.task) && Step(e, w, m).Some? && Run(e, w, (a + [m]) + b) == Some(end)
    ensures Run(e, Step(e, w, m).value, a + b) == Some(end)
  {
    hide Step, Run, DistinctTasks, Apart;
    PrefixRuns(e, w, a + [m], b);
    PrefixRuns(e, w, a, [m]);
    MoveEarlier(e, w, a, m);
    RunConcat(e, w, a + [m], b);
    RunConcat(e, Step(e, w, m).value, a, b);
  }

  lemma {:induction false} PrefixRuns(e: Program, w: World, a: seq<Move>, b: seq<Move>)
    requires Run(e, w, a + b).Some?
    ensures Run(e, w, a).Some?
  {
    hide Step;
    if b == [] {
      assert a + b == a;
    } else {
      assert (a + b)[..|a + b| - 1] == a + b[..|b| - 1];
      PrefixRuns(e, w, a, b[..|b| - 1]);
    }
  }

  lemma StillPends(e: Program, read: AsyncSaver.Command -> Call, w: World, j: Joint, c: nat, j': Joint, pending: seq<Move>, k: nat)
    requires Pends(e, read, w, j.saver, pending) && k < |pending| && Goroutine(pending[k]) == c && c < |j.saver.callers|
    requires j'.saver == AsyncSaver.SetCaller(j.saver, c, AsyncSaver.Ready).(pipe := j'.saver.pipe)
    requires Step(e, w, pending[k]).Some? && (|pending| > 1 ==> DistinctTasks(w))
    ensures Pends(e, read, Step(e, w, pending[k]).value, j'.saver, pending[..k] + pending[k + 1..])
  {
    hide Step, CallsOf, DistinctTasks, PendingOk;
    var rest := pending[..k] + pending[k + 1..];
    forall i | 0 <= i < |rest| ensures PendingOk(e, read, Step(e, w, pending[k]).value, j'.saver, rest[i]) && TaskMove(rest[i]) {
      var at := if i < k then i else i + 1;
      assert rest[i] == pending[at] && PendingOk(e, read, w, j.saver, pending[at]);
      OtherPends(e, read, w, j.saver, c, j'.saver, pending[k], pending[at]);
    }
    forall d | 0 <= d < |j'.saver.callers| && !j'.saver.callers[d].Ready? ensures exists i :: 0 <= i < |rest| && Goroutine(rest[i]) == d {
      assert d != c && !j.saver.callers[d].Ready?;
      var i :| 0 <= i < |pending| && Goroutine(pending[i]) == d;
      assert rest[if i < k then i else i - 1] == pending[i];
    }
  }

  lemma OtherPends(e: Program, read: AsyncSaver.Command -> Call, w: World, s: AsyncSaver.State, c: nat, s': AsyncSaver.State, m: Move, x: Move)
    requires PendingOk(e, read, w, s, x) && Goroutine(m) == c && Goroutine(x) != c && TaskMove(m) && TaskMove(x) && c < |s.callers|
    requires s' == AsyncSaver.SetCaller(s, c, AsyncSaver.Ready).(pipe := s'.pipe)
    requires Step(e, w, m).Some? && DistinctTasks(w)
    ensures PendingOk(e, read, Step(e, w, m).value, s', x)
  {
    hide Step, CallsOf, DistinctTasks;
    Diamond(e, w, m, x);
  }

  /** Every other step of the saver leaves the queue, and each call in flight or refused. */
  lemma StaysPending(e: Program, read: AsyncSaver.Command -> Call, w0: World, j: Joint, step: AsyncSaver.Step, j': Joint,
                     sent: seq<Move>, pending: seq<Move>)
    requires Explains(e, read, w0, j, sent, pending) && !step.Send? && JointNext(e, read, j, Within(step)) == Some(j')
    ensures Explains(e, read, w0, j', sent, pending)
  {
    hide Step, CallsOf, CallsAlong, Run;
    var w, s, s' := Run(e, w0, sent).value, j.saver, j'.saver;
    CallersStay(s, step, s');
    forall k | 0 <= k < |pending| ensures PendingOk(e, read, w, s', pending[k]) {
      assert PendingOk(e, read, w, s, pending[k]);
    }
  }

  lemma CallersStay(s: AsyncSaver.State, step: AsyncSaver.Step, s': AsyncSaver.State)
    requires !step.Send? && !step.Record? && AsyncSaver.Next(s, step) == Some(s')
    ensures s'.pipe.queue == s.pipe.queue && |s'.callers| == |s.callers| && (s.dropped != [] ==> s'.dropped != [])
    ensures forall c :: 0 <= c < |s.callers| && s.callers[c].Ready? ==> s'.callers[c].Ready?
    ensures forall c :: 0 <= c < |s.callers| && !s.callers[c].Ready? ==>
      if s'.callers[c].Ready? then s'.dropped != [] else s'.callers[c].command == s.callers[c].command
  {
    match step {
      case Lock(c) =>
      case GiveUp(c) =>
      case _ =>
    }
  }

  lemma TasksDistinct(e: Program, w: World)
    requires Consistent(e, w) && w.process.Running?
    ensures DistinctTasks(w)
  {
    hide HistoryOk, Stamped, WritesOk, SlotsOk, Restore;
  }

  /** Several pending calls are calls of tasks of one super-step. */
  lemma PendingDistinct(e: Program, read: AsyncSaver.Command -> Call, w: World, s: AsyncSaver.State, pending: seq<Move>)
    requires Pends(e, read, w, s, pending) && |pending| > 1 && Consistent(e, w)
    ensures DistinctTasks(w)
  {
    hide Step, Consistent, DistinctTasks, CallsOf;
    assert PendingOk(e, read, w, s, pending[0]) && TaskMove(pending[0]);
    TaskRuns(e, w, pending[0]);
    TasksDistinct(e, w);
  }

  lemma ExplainsStep(e: Program, read: AsyncSaver.Command -> Call, w0: World, j: Joint, step: JointStep, j': Joint,
                     sent: seq<Move>, pending: seq<Move>) returns (sent': seq<Move>, pending': seq<Move>)
    requires Explains(e, read, w0, j, sent, pending) && JointNext(e, read, j, step) == Some(j')
    requires Consistent(e, Run(e, w0, sent).value)
    ensures Explains(e, read, w0, j', sent', pending')
  {
    hide Explains, JointNext, Consistent;
    match step {
      case Call(m, command) =>
        if TaskMove(m) {
          TaskCalls(e, read, w0, j, m, command, j', sent, pending);
          sent', pending' := sent, pending + [m];
        } else {
          LoopCalls(e, read, w0, j, m, command, j', sent, pending);
          sent', pending' := sent, [m];
        }
      case Resumed =>
        Resumes(e, read, w0, j, j', sent, pending);
        sent', pending' := sent + [Recover], [];
      case Within(inner) =>
        if inner.Send? {
          var k := Sender(e, read, w0, j, inner.caller, j', sent, pending);
          Sends(e, read, w0, j, inner.caller, j', sent, pending, k);
          sent', pending' := sent + [pending[k]], pending[..k] + pending[k + 1..];
        } else {
          StaysPending(e, read, w0, j, inner, j', sent, pending);
          sent', pending' := sent, pending;
        }
    }
  }

  lemma Sender(e: Program, read: AsyncSaver.Command -> Call, w0: World, j: Joint, c: nat, j': Joint,
               sent: seq<Move>, pending: seq<Move>) returns (k: nat)
    requires Explains(e, read, w0, j, sent, pending) && JointNext(e, read, j, Within(AsyncSaver.Send(c))) == Some(j')
    requires Consistent(e, Run(e, w0, sent).value)
    ensures k < |pending| && Goroutine(pending[k]) == c
    ensures |pending| > 1 ==> DistinctTasks(Run(e, w0, sent).value)
  {
    hide Run, Step, CallsOf, CallsAlong, Consistent, DistinctTasks, PendingOk;
    k :| 0 <= k < |pending| && Goroutine(pending[k]) == c;
    if |pending| > 1 {
      PendingDistinct(e, read, Run(e, w0, sent).value, j.saver, pending);
    }
  }

  /** However the process and its saver take turns, the queue is what some synchronous moves call, in their order. */
  lemma {:induction false} QueueExplained(e: Program, read: AsyncSaver.Command -> Call, before: seq<Move>, w0: World,
                                          callers: nat, steps: seq<JointStep>, j: Joint) returns (sent: seq<Move>, pending: seq<Move>)
    requires DurableProgram(e) && Reaches(e, before, w0)
    requires JointRun(e, read, Joint(w0, AsyncSaver.Initial(callers)), steps) == Some(j)
    ensures Explains(e, read, w0, j, sent, pending) && Run(e, w0, sent).Some? && Reaches(e, before + sent, Run(e, w0, sent).value)
  {
    hide JointNext, Explains, Reaches, DurableProgram, Consistent;
    if steps == [] {
      StartExplained(e, read, w0, callers);
      sent, pending := [], [];
    } else {
      var init := JointRun(e, read, Joint(w0, AsyncSaver.Initial(callers)), steps[..|steps| - 1]).value;
      sent, pending := QueueExplained(e, read, before, w0, callers, steps[..|steps| - 1], init);
      ReachedConsistent(e, before + sent, Run(e, w0, sent).value);
      sent, pending := ExplainsStep(e, read, w0, init, steps[|steps| - 1], j, sent, pending);
    }
    ReachedMore(e, read, before, w0, j, sent, pending);
  }

  lemma StartExplained(e: Program, read: AsyncSaver.Command -> Call, w0: World, callers: nat)
    ensures Explains(e, read, w0, Joint(w0, AsyncSaver.Initial(callers)), [], [])
  {
    RunNothing(e, w0);
  }

  lemma ReachedMore(e: Program, read: AsyncSaver.Command -> Call, before: seq<Move>, w0: World, j: Joint, sent: seq<Move>, pending: seq<Move>)
    requires Reaches(e, before, w0) && Explains(e, read, w0, j, sent, pending)
    ensures Run(e, w0, sent).Some? && Reaches(e, before + sent, Run(e, w0, sent).value)
  {
    hide Run, Pends;
    RunConcat(e, NOTHING, before, sent);
  }

  /** The saver of a joint run is a saver of AsyncSaver. */
  lemma {:induction false} SaverRuns(e: Program, read: AsyncSaver.Command -> Call, w0: World, callers: nat, steps: seq<JointStep>, j: Joint)
    returns (inner: seq<AsyncSaver.Step>)
    requires JointRun(e, read, Joint(w0, AsyncSaver.Initial(callers)), steps) == Some(j)
    ensures AsyncTheorems.Reaches(callers, inner, j.saver)
  {
    hide Step, CallsOf, AsyncSaver.Next;
    if steps == [] {
      inner := [];
    } else {
      var init := JointRun(e, read, Joint(w0, AsyncSaver.Initial(callers)), steps[..|steps| - 1]).value;
      inner := SaverRuns(e, read, w0, callers, steps[..|steps| - 1], init);
      var last := steps[|steps| - 1];
      if last != Resumed {
        var step := if last.Call? then AsyncSaver.Record(Goroutine(last.move), last.command) else last.step;
        inner := AsyncTheorems.RunMore(AsyncSaver.Initial(callers), inner, init.saver, step);
      }
    }
  }

  // ----- What is left -----

  /**
    The process dies while its tasks are calling the saver: whatever the writer has applied of the accepted calls,
    the store is one that a synchronous process leaves when it is stopped at some move, so everything said of
    crashed runs holds of it.
  */
  lemma AsyncCrash(e: Program, read: AsyncSaver.Command -> Call, before: seq<Move>, w0: World,
                   callers: nat, steps: seq<JointStep>, j: Joint) returns (moves: seq<Move>, left: World)
    requires DurableProgram(e) && Reaches(e, before, w0)
    requires JointRun(e, read, Joint(w0, AsyncSaver.Initial(callers)), steps) == Some(j)
    ensures Reaches(e, before + (moves + [Crash]), left) && Consistent(e, left)
    ensures left.process == Idle && left.store == ApplyAll(w0.store, Read(read, Succeeded(j.saver.pipe)))
  {
    hide Run, Step, CallsAlong, Consistent, DurableProgram, AsyncTheorems.Reaches, AsyncSaver.Next, Pends, JointRun;
    var sent, pending := QueueExplained(e, read, before, w0, callers, steps, j);
    var inner := SaverRuns(e, read, w0, callers, steps, j);
    AsyncTheorems.PrefixApplied(callers, inner, j.saver, []);
    assert Succeeded(j.saver.pipe) <= j.saver.pipe.log <= j.saver.pipe.queue;
    ReadPrefix(read, Succeeded(j.saver.pipe), j.saver.pipe.queue);
    var n := PrefixOfMoves(e, w0, sent, Read(read, Succeeded(j.saver.pipe)));
    moves := sent[..n];
    RunCalls(e, w0, moves);
    left := Run(e, w0, moves).value.(process := Idle);
    CrashStep(e, Run(e, w0, moves).value);
    RunAnd(e, w0, moves, Crash);
    RunConcat(e, NOTHING, before, moves + [Crash]);
    ReachedConsistent(e, before + (moves + [Crash]), left);
  }

  /** Once every call has returned without a refusal and Flush has returned nil, the process was a synchronous one. */
  lemma AsyncFlush(e: Program, read: AsyncSaver.Command -> Call, before: seq<Move>, w0: World,
                   callers: nat, steps: seq<JointStep>, j: Joint) returns (moves: seq<Move>)
    requires DurableProgram(e) && Reaches(e, before, w0)
    requires JointRun(e, read, Joint(w0, AsyncSaver.Initial(callers)), steps) == Some(j)
    requires MayCall(j.saver, Recover) && j.saver.pipe.flush == AsyncSaver.Flushed(None)
    ensures Reaches(e, before + moves, j.world) && j.world.store == ApplyAll(w0.store, Read(read, j.saver.pipe.log))
  {
    hide Step, CallsAlong, Consistent, DurableProgram, AsyncTheorems.Reaches, AsyncSaver.Next, Pends, JointRun;
    var pending;
    moves, pending := QueueExplained(e, read, before, w0, callers, steps, j);
    var inner := SaverRuns(e, read, w0, callers, steps, j);
    AsyncTheorems.FlushApplied(callers, inner, j.saver, []);
    NothingPends(e, read, Run(e, w0, moves).value, j.saver, pending);
    RunNothing(e, Run(e, w0, moves).value);
    RunCalls(e, w0, moves);
  }
}
