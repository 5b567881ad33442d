/**
  The promises of durable execution, over every thread of Recovery and all the runs begun on
  it: durable results are never recomputed; completed threads with the same inputs agree; and
  every stopped thread can be completed.
*/
module RecoveryTheorems {
  import opened Prelude
  import opened Graphs
  import opened Envelopes
  import opened Versions
  import opened Engine
  import opened EngineFacts
  import opened ChainFacts
  import opened Recovery
  import opened RecoveryFacts

  ghost predicate Reaches(e: Program, moves: seq<Move>, w: World)
  {
    Run(e, NOTHING, moves) == Some(w)
  }

  lemma ReachedConsistent(e: Program, moves: seq<Move>, w: World)
    requires DurableProgram(e) && Reaches(e, moves, w)
    ensures Consistent(e, w)
  {
    hide Run, Consistent, DurableProgram;
    NothingConsistent(e);
    RunKeeps(e, NOTHING, moves);
  }

  lemma NothingConsistent(e: Program)
    ensures Consistent(e, NOTHING)
  {
    hide ChainAt, LastOk, ProcessOk;
  }

  // ----- Durable results are not recomputed -----

  predicate Durable(w: World, id: Id, taskId: string, index: int)
  {
    WriteKey(taskId, index) in WritesOf(w.store, id)
  }

  /** The process may still call the body of the task, or its error handler. */
  predicate MayExecute(w: World, id: Id, taskId: string)
  {
    w.process.Running? && w.process.current.snap.id == id
    && exists i :: 0 <= i < |w.process.slots| && i < |w.process.loop.tasks|
                && w.process.loop.tasks[i].id == taskId && !w.process.slots[i].Done?
  }

  predicate MayRunBody(w: World, id: Id, taskId: string)
  {
    w.process.Running? && w.process.current.snap.id == id
    && exists i :: 0 <= i < |w.process.slots| && i < |w.process.loop.tasks|
                && w.process.loop.tasks[i].id == taskId && w.process.slots[i].Fresh?
  }

  lemma StepKeepsDurable(e: Program, w: World, move: Move, id: Id, taskId: string, index: int)
    requires Durable(w, id, taskId, index) && Step(e, w, move).Some?
    ensures Durable(Step(e, w, move).value, id, taskId, index)
    ensures index == RESULT_INDEX ==>
      var key := WriteKey(taskId, index);
      WritesOf(Step(e, w, move).value.store, id)[key] == WritesOf(w.store, id)[key]
  {
    hide Begin, Renew, CommitStep, Committed, EncodeResult, EncodeFailure, Attempt, Restore, RestoreSlots, LatestIndex;
  }

  lemma {:induction false} RunKeepsDurable(e: Program, w: World, moves: seq<Move>, id: Id, taskId: string, index: int)
    requires Durable(w, id, taskId, index) && Run(e, w, moves).Some?
    ensures Durable(Run(e, w, moves).value, id, taskId, index)
    ensures index == RESULT_INDEX ==>
      var key := WriteKey(taskId, index);
      WritesOf(Run(e, w, moves).value.store, id)[key] == WritesOf(w.store, id)[key]
  {
    hide Step;
    if moves != [] {
      RunKeepsDurable(e, w, moves[..|moves| - 1], id, taskId, index);
      StepKeepsDurable(e, Run(e, w, moves[..|moves| - 1]).value, moves[|moves| - 1], id, taskId, index);
    }
  }

  /**
    Once the result of a task is in the store, no later process calls its body or handler again, whatever
    crashes lie in between; once its failure marker is there, none calls its body again.
  */
  lemma NeverRecomputed(e: Program, moves: seq<Move>, w: World, more: seq<Move>, id: Id, taskId: string)
    requires DurableProgram(e) && Reaches(e, moves, w) && Run(e, w, more).Some?
    ensures Durable(w, id, taskId, RESULT_INDEX) ==> !MayExecute(Run(e, w, more).value, id, taskId)
    ensures Durable(w, id, taskId, FAILURE_INDEX) ==> !MayRunBody(Run(e, w, more).value, id, taskId)
  {
    hide Step, StoreOk, ProcessOk, Restore, Outcome, RunHandler, DurableProgram, Consistent, At, HistoryOk, WritesOk, LoopOk;
    ReachedConsistent(e, moves, w);
    RunKeeps(e, w, more);
    var after := Run(e, w, more).value;
    if Durable(w, id, taskId, RESULT_INDEX) {
      RunKeepsDurable(e, w, more, id, taskId, RESULT_INDEX);
    }
    if Durable(w, id, taskId, FAILURE_INDEX) {
      RunKeepsDurable(e, w, more, id, taskId, FAILURE_INDEX);
    }
    if after.process.Running? && after.process.current.snap.id == id {
      RunningAt(e, after);
      var loop, writes := after.process.loop, WritesOf(after.store, id);
      forall i | 0 <= i < |after.process.slots| && loop.tasks[i].id == taskId
        ensures Durable(w, id, taskId, RESULT_INDEX) ==> after.process.slots[i].Done?
        ensures Durable(w, id, taskId, FAILURE_INDEX) ==> !after.process.slots[i].Fresh?
      {
        assert SlotOk(e, loop, writes, i, after.process.slots[i]);
      }
    }
  }

  // ----- One outcome -----

  /** The end of the last run: nothing is scheduled and no input is left. */
  ghost predicate EndsChain(e: Program, h: History, ids: seq<Id>)
  {
    && ids != [] && Distinct(ids) && ChainAt(e, h, ids, |ids| - 1).Ok?
    && var link := ChainAt(e, h, ids, |ids| - 1).value;
       link.loop.tasks == [] && link.runs == |h.inputs|
  }

  /** The end of a run is the end of the chain, unless another input arrives. */
  lemma ChainStops(e: Program, h: History, ids: seq<Id>, ids': seq<Id>)
    requires EndsChain(e, h, ids) && Distinct(ids') && ids' != [] && ChainAt(e, h, ids', |ids'| - 1).Ok?
    ensures |ids'| <= |ids|
  {
    hide ChainAt, SameCheckpoint, Distinct, Advance, Renew;
    var n := |ids|;
    if n < |ids'| {
      ChainAgrees(e, h, ids, ids', n - 1);
      ChainOkBefore(e, h, ids', |ids'| - 1, n);
      ChainFollows(e, h, ids', n);
    }
  }

  lemma ChainFollows(e: Program, h: History, ids: seq<Id>, k: nat)
    requires 0 < k < |ids| && ChainAt(e, h, ids, k).Ok?
    ensures ChainAt(e, h, ids, k - 1).Ok? && Successor(e, h, ChainAt(e, h, ids, k - 1).value, ids[k]).Ok?
    ensures k !in h.reread ==> Successor(e, h, ChainAt(e, h, ids, k - 1).value, ids[k]) == ChainAt(e, h, ids, k)
  {
    hide First, Successor, Restore;
  }

  lemma {:induction false} ChainOkBefore(e: Program, h: History, ids: seq<Id>, k: nat, j: nat)
    requires j <= k < |ids| && ChainAt(e, h, ids, k).Ok?
    ensures ChainAt(e, h, ids, j).Ok?
    decreases k
  {
    hide Successor, First, Loaded;
    if j < k {
      ChainOkBefore(e, h, ids, k - 1, j);
    }
  }

  /** Two chains agree wherever both have a checkpoint. */
  lemma ChainAgrees(e: Program, h: History, ids: seq<Id>, ids': seq<Id>, k: nat)
    requires Distinct(ids) && Distinct(ids') && k < |ids| && k < |ids'|
    ensures ChainAt(e, h, ids, k).Ok? <==> ChainAt(e, h, ids', k).Ok?
    ensures ChainAt(e, h, ids, k).Ok? ==>
      var link, link' := ChainAt(e, h, ids, k).value, ChainAt(e, h, ids', k).value;
      SameCheckpoint(ids[..k + 1], ids'[..k + 1], link.c, link'.c) && link.loop == link'.loop && link.runs == link'.runs
  {
    hide Successor, First, Loaded, SameCheckpoint;
    ChainPrefix(e, h, ids, k + 1, k);
    ChainPrefix(e, h, ids', k + 1, k);
    ChainSame(e, h, ids[..k + 1], ids'[..k + 1], k);
  }

  /** A thread whose entry tasks are fresh holds the chain it would hold had nobody read it back. */
  lemma ThreadIsPlain(e: Program, w: World)
    requires DurableProgram(e) && Consistent(e, w) && w.store.saved != [] && EntriesFresh(e, w.history.inputs)
    ensures var saved := w.store.saved;
            && Distinct(Ids(saved))
            && (forall k :: 0 <= k < |saved| ==>
                  var link := ChainAt(e, Plain(w.history.inputs), Ids(saved), k);
                  link.Ok? && link.value.c == saved[k])
            && var last := ChainAt(e, Plain(w.history.inputs), Ids(saved), |saved| - 1).value;
               && At(e, w, last) && last.runs == |w.history.inputs| && Settled(e, last)
               && (w.process.Running? ==> last.loop == w.process.loop && last.c == w.process.current)
  {
    hide ChainAt, DurableProgram, WritesOk, LinkOk, SlotsOk, WritesFiled, Settled;
    var saved := w.store.saved;
    DurableOk(e);
    ConsistentAt(e, w);
    assert Distinct(Ids(saved));
    forall k | 0 <= k < |saved|
      ensures ChainAt(e, Plain(w.history.inputs), Ids(saved), k) == ChainAt(e, w.history, Ids(saved), k)
    {
      RereadAnywhere(e, w.history, Ids(saved), k);
    }
  }

  lemma FinishedEndsChain(e: Program, w: World)
    requires DurableProgram(e) && Consistent(e, w) && Finished(w) && EntriesFresh(e, w.history.inputs)
    ensures w.store.saved != [] && EndsChain(e, Plain(w.history.inputs), Ids(w.store.saved))
  {
    hide ChainAt, DurableProgram, At, EntriesFresh;
    assert w.store.saved != [] by { RunningAt(e, w); }
    ThreadIsPlain(e, w);
  }

  /**
    Any two threads that completed the same inputs agree: whatever the completion order inside each step,
    wherever they crashed and were invoked again, and whichever checkpoint IDs they drew, they end in the same
    state, step and waiting sets, and wrote checkpoint for checkpoint the same values, tasks, triggers and
    barriers. What it takes is that the entry tasks of every run are fresh.
  */
  lemma SameEnd(e: Program, moves: seq<Move>, w: World, moves': seq<Move>, w': World)
    requires DurableProgram(e) && Reaches(e, moves, w) && Reaches(e, moves', w')
    requires Finished(w) && Finished(w') && w.history.inputs == w'.history.inputs && EntriesFresh(e, w.history.inputs)
    ensures w.process.loop == w'.process.loop
    ensures |w.store.saved| == |w'.store.saved|
    ensures forall k :: 0 <= k < |w.store.saved| ==>
      SameCheckpoint(Ids(w.store.saved)[..k + 1], Ids(w'.store.saved)[..k + 1], w.store.saved[k], w'.store.saved[k])
  {
    hide Restore, ChainAt, SameCheckpoint, DurableProgram, Run, Consistent, At, EntriesFresh;
    ReachedConsistent(e, moves, w);
    ReachedConsistent(e, moves', w');
    FinishedEndsChain(e, w);
    FinishedEndsChain(e, w');
    ThreadIsPlain(e, w);
    ThreadIsPlain(e, w');
    var ids, ids', h := Ids(w.store.saved), Ids(w'.store.saved), Plain(w.history.inputs);
    ChainStops(e, h, ids, ids');
    ChainStops(e, h, ids', ids);
    forall k | 0 <= k < |ids| ensures SameCheckpoint(ids[..k + 1], ids'[..k + 1], w.store.saved[k], w'.store.saved[k]) {
      ChainAgrees(e, h, ids, ids', k);
    }
    ChainAgrees(e, h, ids, ids', |ids| - 1);
  }

  // ----- The recursion limit -----

  /**
    The limit counts the checkpoints of the thread, not of a run: once there are more of them than the limit,
    no run on the thread, however many inputs it is given, executes a task or commits a step.
  */
  lemma LimitSpansRuns(e: Program, moves: seq<Move>, w: World, move: Move)
    requires DurableProgram(e) && Reaches(e, moves, w) && |w.store.saved| > e.recursionLimit
    ensures !Runnable(e, w.process)
    ensures Step(e, w, move).Some? ==> !move.Fail? && !move.Finish? && !move.Advanced?
  {
    hide Consistent, At, HistoryOk, DurableProgram, LinkOk, Reaches;
    ReachedConsistent(e, moves, w);
    if w.process.Running? {
      RunningAt(e, w);
      LastStep(e, w.history, w.store.saved);
    }
  }

  lemma LastStep(e: Program, h: History, saved: seq<Checkpoint>)
    requires DurableProgram(e) && saved != [] && HistoryOk(e, h, saved)
    ensures LastLink(e, h, saved).loop.step == |saved| - 1
  {
    hide DurableProgram, LinkOk, ChainAt;
    DurableOk(e);
    ChainRestores(e, h, Ids(saved), |saved| - 1);
  }

  // ----- Every stopped run can complete -----

  lemma {:induction false} RunConcat(e: Program, w: World, a: seq<Move>, b: seq<Move>)
    requires Run(e, w, a).Some?
    ensures Run(e, w, a + b) == Run(e, Run(e, w, a).value, b)
  {
    hide Step;
    if b == [] {
      assert a + b == a;
    } else {
      RunConcat(e, w, a, b[..|b| - 1]);
      assert (a + b)[..|a + b| - 1] == a + b[..|b| - 1];
    }
  }

  lemma RunOne(e: Program, w: World, move: Move)
    ensures Run(e, w, [move]) == Step(e, w, move)
  {
    hide Step;
    assert [move][..0] == [];
    assert Run(e, w, []) == Some(w);
  }

  /** moves lead from w to w' without a crash and inside the same super-step. */
  ghost predicate Works(e: Program, w: World, moves: seq<Move>, w': World)
  {
    && Run(e, w, moves) == Some(w') && Crash !in moves
    && w.process.Running? && w'.process.Running?
    && w'.store.saved == w.store.saved && w'.process.loop == w.process.loop && w'.process.current == w.process.current
    && w'.history == w.history
    && |w'.process.slots| == |w.process.slots|
  }

  lemma WorksOn(e: Program, w: World, a: seq<Move>, w': World, b: seq<Move>, w'': World)
    requires Works(e, w, a, w') && Works(e, w', b, w'')
    ensures Works(e, w, a + b, w'')
  {
    hide Run;
    RunConcat(e, w, a, b);
  }

  ghost predicate AllSucceed(e: Program, loop: Loop)
  {
    forall i :: 0 <= i < |loop.tasks| ==> Outcome(e, loop, i).Ok?
  }

  lemma FinishEnabled(e: Program, w: World, i: nat)
    requires DurableProgram(e) && Consistent(e, w) && OnTask(e, w.process, i) && !w.process.slots[i].Done?
    requires AllSucceed(e, w.process.loop)
    requires Attempt(e, w.process.loop, i, w.process.slots[i]).Ok?
    ensures StepFinish(e, w, i).Some?
    ensures var w' := StepFinish(e, w, i).value;
            Works(e, w, [Finish(i)], w') && w'.process.slots[i].Done?
            && forall j :: 0 <= j < |w.process.slots| && j != i ==> w'.process.slots[j] == w.process.slots[j]
  {
    hide Consistent, FaultsSurvive, PlanClosed, EncodeResult, Attempt, Outcome, Run;
    ResultRoundTrip(e.codecs, Attempt(e, w.process.loop, i, w.process.slots[i]).value);
    RunOne(e, w, Finish(i));
  }

  lemma FailEnabled(e: Program, w: World, i: nat)
    requires DurableProgram(e) && Consistent(e, w) && OnTask(e, w.process, i) && w.process.slots[i].Fresh?
    requires AllSucceed(e, w.process.loop) && Attempt(e, w.process.loop, i, Fresh).Err?
    ensures StepFail(e, w, i).Some?
    ensures var w' := StepFail(e, w, i).value;
            Works(e, w, [Fail(i)], w') && w'.process.slots[i].Handling?
            && Attempt(e, w.process.loop, i, w'.process.slots[i]).Ok?
            && forall j :: 0 <= j < |w.process.slots| && j != i ==> w'.process.slots[j] == w.process.slots[j]
  {
    hide Consistent, PlanClosed, ProgramOk, Run;
    var f := Attempt(e, w.process.loop, i, Fresh).error;
    assert Outcome(e, w.process.loop, i).Ok?;
    assert e.codecs.fault.encode(f).Ok?;
    RunOne(e, w, Fail(i));
  }

  /** Whatever is known of a task that succeeds in the end, it can be completed from there. */
  lemma CompleteTask(e: Program, w: World, i: nat) returns (moves: seq<Move>, w': World)
    requires DurableProgram(e) && Consistent(e, w) && OnTask(e, w.process, i) && AllSucceed(e, w.process.loop)
    ensures Works(e, w, moves, w') && w'.process.slots[i].Done?
    ensures forall j :: 0 <= j < |w.process.slots| && j != i ==> w'.process.slots[j] == w.process.slots[j]
  {
    hide Consistent, DurableProgram, StepFinish, StepFail, Attempt, Run;
    if w.process.slots[i].Done? {
      assert Run(e, w, []) == Some(w) by { RunNothing(e, w); }
      return [], w;
    } else if w.process.slots[i].Fresh? && Attempt(e, w.process.loop, i, Fresh).Err? {
      FailEnabled(e, w, i);
      var failed := StepFail(e, w, i).value;
      FailKeeps(e, w, i);
      FinishEnabled(e, failed, i);
      moves, w' := [Fail(i)] + [Finish(i)], StepFinish(e, failed, i).value;
      WorksOn(e, w, [Fail(i)], failed, [Finish(i)], w');
    } else {
      HandlingSucceeds(e, w, i);
      FinishEnabled(e, w, i);
      moves, w' := [Finish(i)], StepFinish(e, w, i).value;
    }
  }

  lemma RunNothing(e: Program, w: World)
    ensures Run(e, w, []) == Some(w)
  {
  }

  lemma HandlingSucceeds(e: Program, w: World, i: nat)
    requires Consistent(e, w) && OnTask(e, w.process, i) && AllSucceed(e, w.process.loop)
    requires !w.process.slots[i].Done?
    ensures w.process.slots[i].Handling? ==> Attempt(e, w.process.loop, i, w.process.slots[i]).Ok?
  {
    hide StoreOk, ProcessOk, HistoryOk, At, Consistent, Restore, RunHandler, RunTask, LoopOk, WritesOk;
    RunningAt(e, w);
    assert Outcome(e, w.process.loop, i).Ok?;
    assert SlotOk(e, w.process.loop, WritesOf(w.store, w.process.current.snap.id), i, w.process.slots[i]);
  }

  lemma {:induction false} CompleteTasks(e: Program, w: World, n: nat) returns (moves: seq<Move>, w': World)
    requires DurableProgram(e) && Consistent(e, w) && Runnable(e, w.process) && AllSucceed(e, w.process.loop)
    requires |w.process.slots| == |w.process.loop.tasks| && n <= |w.process.slots|
    requires forall i :: 0 <= i < n ==> w.process.slots[i].Done?
    ensures Works(e, w, moves, w') && AllDone(w'.process.slots).Some?
    decreases |w.process.slots| - n
  {
    hide Consistent, DurableProgram, AllSucceed, Run;
    if n == |w.process.slots| {
      RunNothing(e, w);
      return [], w;
    }
    var first, mid := CompleteTask(e, w, n);
    RunKeeps(e, w, first);
    var rest;
    rest, w' := CompleteTasks(e, mid, n + 1);
    moves := first + rest;
    WorksOn(e, w, first, mid, rest, w');
  }

  lemma {:induction false} RunTasksSucceed(e: Program, loop: Loop, n: nat)
    requires n <= |loop.tasks| && RunTasks(e, loop.tasks[..n], loop.step, loop.state).Ok?
    ensures forall i :: 0 <= i < n ==> Outcome(e, loop, i).Ok?
  {
    hide RunTask;
    if n > 0 {
      assert loop.tasks[..n][..n - 1] == loop.tasks[..n - 1];
      RunTasksSucceed(e, loop, n - 1);
    }
  }

  // ----- Driving a thread to the end of a chain -----

  /** ids names a chain over these inputs to its end, and w lies on it. */
  ghost predicate Towards(e: Program, inputs: seq<State>, ids: seq<Id>, w: World)
  {
    && EntriesFresh(e, inputs) && EndsChain(e, Plain(inputs), ids)
    && Consistent(e, w) && w.history.inputs <= inputs
  }

  /** The last link of w is the one of the chain at its place. */
  lemma OnChain(e: Program, inputs: seq<State>, ids: seq<Id>, w: World) returns (link: Link)
    requires DurableProgram(e) && Towards(e, inputs, ids, w) && w.store.saved != []
    ensures |w.store.saved| <= |ids| && Distinct(Ids(w.store.saved))
    ensures ChainAt(e, Plain(inputs), Ids(w.store.saved), |w.store.saved| - 1) == Ok(link)
    ensures At(e, w, link) && link.runs == |w.history.inputs| && Settled(e, link)
    ensures w.process.Running? ==> link.loop == w.process.loop && link.c == w.process.current
    ensures |w.store.saved| == |ids| ==> link.loop.tasks == [] && w.history.inputs == inputs
    ensures |w.store.saved| < |ids| ==> ChainAt(e, Plain(inputs), ids, |w.store.saved|).Ok?
  {
    hide ChainAt, DurableProgram, At, Settled, EntriesFresh, Consistent, SameCheckpoint;
    FreshPrefix(e, inputs, |w.history.inputs|);
    assert inputs[..|w.history.inputs|] == w.history.inputs;
    ThreadIsPlain(e, w);
    var own, n := Ids(w.store.saved), |w.store.saved|;
    ChainKeeps(e, Plain(w.history.inputs), Plain(inputs), own, n - 1);
    link := ChainAt(e, Plain(inputs), own, n - 1).value;
    ChainStops(e, Plain(inputs), ids, own);
    if n == |ids| {
      ChainAgrees(e, Plain(inputs), own, ids, n - 1);
    } else {
      ChainOkBefore(e, Plain(inputs), ids, |ids| - 1, n);
    }
  }

  /** Whatever ID is drawn, the chain goes on from the last link of w where the given chain does. */
  lemma GoesOn(e: Program, inputs: seq<State>, ids: seq<Id>, w: World, id: Id) returns (link: Link)
    requires DurableProgram(e) && Towards(e, inputs, ids, w) && w.store.saved != [] && |w.store.saved| < |ids|
    requires forall k :: 0 <= k < |w.store.saved| ==> w.store.saved[k].snap.id < id
    ensures At(e, w, link) && link.runs == |w.history.inputs| && Settled(e, link)
    ensures w.process.Running? ==> link.loop == w.process.loop && link.c == w.process.current
    ensures Successor(e, Plain(inputs), link, id).Ok?
  {
    hide ChainAt, DurableProgram, At, Settled, Towards, Successor, SameCheckpoint;
    link := OnChain(e, inputs, ids, w);
    var n := |w.store.saved|;
    var grown := Ids(w.store.saved) + [id];
    assert grown[..n] == Ids(w.store.saved);
    assert Distinct(ids) by { TowardsDistinct(e, inputs, ids, w); }
    ChainPrefix(e, Plain(inputs), grown, n, n - 1);
    ChainAgrees(e, Plain(inputs), grown, ids, n);
    ChainFollows(e, Plain(inputs), grown, n);
  }

  lemma TowardsDistinct(e: Program, inputs: seq<State>, ids: seq<Id>, w: World)
    requires Towards(e, inputs, ids, w)
    ensures Distinct(ids) && Consistent(e, w) && ids != []
  {
    hide ChainAt, Consistent, EntriesFresh;
  }

  function NextId(saved: seq<Checkpoint>): Id
    requires saved != []
  {
    Last(saved).snap.id + 1
  }

  lemma NextIdAbove(e: Program, w: World, link: Link)
    requires At(e, w, link)
    ensures forall k :: 0 <= k < |w.store.saved| ==> w.store.saved[k].snap.id < NextId(w.store.saved)
    ensures NewId(w.store, NextId(w.store.saved))
  {
    hide ChainAt, LinkOk, WritesOk, ProcessOk, WritesFiled;
  }

  /** A super-step of the chain: its tasks can all be completed and committed. */
  lemma StepThrough(e: Program, inputs: seq<State>, ids: seq<Id>, w: World) returns (moves: seq<Move>, w': World)
    requires DurableProgram(e) && Towards(e, inputs, ids, w) && w.process.Running? && w.process.loop.tasks != []
    requires w.store.saved != [] && |w.store.saved| < |ids|
    ensures Run(e, w, moves) == Some(w') && Crash !in moves
    ensures Towards(e, inputs, ids, w') && w'.process.Running? && |w'.store.saved| == |w.store.saved| + 1
  {
    hide DurableProgram, Towards, Consistent, Run, AllSucceed, AllDone, At, Settled, StepCommit, Successor;
    assert Consistent(e, w) by { TowardsDistinct(e, inputs, ids, w); }
    InputsOf(e, inputs, ids, w);
    CanWork(e, inputs, ids, w);
    var first, done := CompleteTasks(e, w, 0);
    RunKeeps(e, w, first);
    CommitEnabled(e, inputs, ids, w, done);
    var commit := Advanced(NextId(done.store.saved));
    RunOne(e, done, commit);
    RunKeeps(e, done, [commit]);
    CommitGrows(e, done, commit.id);
    RunConcat(e, w, first, [commit]);
    moves, w' := first + [commit], Step(e, done, commit).value;
    StillTowards(e, inputs, ids, w, w');
  }

  lemma StillTowards(e: Program, inputs: seq<State>, ids: seq<Id>, w: World, w': World)
    requires Towards(e, inputs, ids, w) && Consistent(e, w') && w'.history.inputs <= inputs
    ensures Towards(e, inputs, ids, w')
  {
    hide Consistent, EndsChain, EntriesFresh;
  }

  lemma InputsOf(e: Program, inputs: seq<State>, ids: seq<Id>, w: World)
    requires Towards(e, inputs, ids, w)
    ensures w.history.inputs <= inputs
  {
  }

  /** Where the chain goes on with tasks, the loop can run and all its tasks succeed. */
  lemma CanWork(e: Program, inputs: seq<State>, ids: seq<Id>, w: World)
    requires DurableProgram(e) && Towards(e, inputs, ids, w) && w.process.Running? && w.process.loop.tasks != []
    requires w.store.saved != [] && |w.store.saved| < |ids|
    ensures Runnable(e, w.process) && AllSucceed(e, w.process.loop) && |w.process.slots| == |w.process.loop.tasks|
  {
    hide DurableProgram, Towards, At, Settled, RunTasks, CommitStep, Outcome, Consistent, HistoryOk, WritesOk, SlotsOk, LoopOk;
    assert Consistent(e, w) by { TowardsDistinct(e, inputs, ids, w); }
    RunningAt(e, w);
    NextIdAbove(e, w, LastLink(e, w.history, w.store.saved));
    var link := GoesOn(e, inputs, ids, w, NextId(w.store.saved));
    var loop := w.process.loop;
    assert loop.tasks[..|loop.tasks|] == loop.tasks;
    RunTasksSucceed(e, loop, |loop.tasks|);
  }

  lemma CommitEnabled(e: Program, inputs: seq<State>, ids: seq<Id>, w: World, done: World)
    requires DurableProgram(e) && Towards(e, inputs, ids, w) && w.process.Running? && w.process.loop.tasks != []
    requires w.store.saved != [] && |w.store.saved| < |ids|
    requires Consistent(e, done) && done.process.Running? && done.process.loop == w.process.loop && AllDone(done.process.slots).Some?
    requires done.store.saved == w.store.saved && done.process.current == w.process.current
    ensures StepCommit(e, done, NextId(done.store.saved)).Some?
  {
    hide DurableProgram, Towards, At, Settled, RunTasks, CommitStep, Committed, Consistent, HistoryOk, WritesOk, SlotsOk, LoopOk, NewId, AllDone;
    RunningAt(e, done);
    NextIdAbove(e, done, LastLink(e, done.history, done.store.saved));
    var link := GoesOn(e, inputs, ids, w, NextId(w.store.saved));
    CollectedResults(e, done);
  }

  lemma CommitGrows(e: Program, w: World, id: Id)
    requires StepCommit(e, w, id).Some?
    ensures var w' := StepCommit(e, w, id).value;
            w'.process.Running? && |w'.store.saved| == |w.store.saved| + 1 && w'.history == w.history
  {
    hide CommitStep, Committed;
  }

  /** Where a run ends and the chain goes on, the next input begins the next run. */
  lemma RenewThrough(e: Program, inputs: seq<State>, ids: seq<Id>, w: World) returns (moves: seq<Move>, w': World)
    requires DurableProgram(e) && Towards(e, inputs, ids, w) && Finished(w)
    requires w.store.saved != [] && |w.store.saved| < |ids|
    ensures Run(e, w, moves) == Some(w') && Crash !in moves
    ensures Towards(e, inputs, ids, w') && w'.process.Running? && |w'.store.saved| == |w.store.saved| + 1
  {
    hide DurableProgram, Towards, Consistent, Run, At, Settled, StepRenew;
    var idle := w.(process := Idle);
    assert Consistent(e, w) by { TowardsDistinct(e, inputs, ids, w); }
    InputsOf(e, inputs, ids, w);
    RunOne(e, w, Return);
    RunKeeps(e, w, [Return]);
    StillTowards(e, inputs, ids, w, idle);
    RenewEnabled(e, inputs, ids, w, idle);
    var renew := Renewed(inputs[|w.history.inputs|], NextId(w.store.saved));
    RunOne(e, idle, renew);
    RunKeeps(e, idle, [renew]);
    RunConcat(e, w, [Return], [renew]);
    RenewGrows(e, idle, renew.input, renew.id);
    moves, w' := [Return] + [renew], Step(e, idle, renew).value;
    StillTowards(e, inputs, ids, w, w');
  }

  lemma RenewEnabled(e: Program, inputs: seq<State>, ids: seq<Id>, w: World, idle: World)
    requires DurableProgram(e) && Towards(e, inputs, ids, w) && Finished(w) && idle == w.(process := Idle)
    requires w.store.saved != [] && |w.store.saved| < |ids|
    ensures |w.history.inputs| < |inputs|
    ensures StepRenew(e, idle, inputs[|w.history.inputs|], NextId(w.store.saved)).Some?
  {
    hide DurableProgram, Towards, Consistent, At, Settled, Enter, Restore, NewId, Latest, FreshTasks, HistoryOk;
    assert Consistent(e, w) by { TowardsDistinct(e, inputs, ids, w); }
    RunningAt(e, w);
    NextIdAbove(e, w, LastLink(e, w.history, w.store.saved));
    var link := GoesOn(e, inputs, ids, w, NextId(w.store.saved));
    LatestFound(e, w, link);
    LastLinkOk(e, w, link);
    SettledExactly(e, link);
    assert Restore(e, link.c) == Ok(link.loop);
  }

  lemma RenewGrows(e: Program, w: World, input: State, id: Id)
    requires StepRenew(e, w, input, id).Some?
    ensures var w' := StepRenew(e, w, input, id).value;
            && w'.process.Running? && |w'.store.saved| == |w.store.saved| + 1
            && w'.history.inputs == w.history.inputs + [input]
  {
    hide Renew, Restore;
  }

  lemma {:induction false} Drive(e: Program, inputs: seq<State>, ids: seq<Id>, w: World) returns (moves: seq<Move>, w': World)
    requires DurableProgram(e) && Towards(e, inputs, ids, w) && w.process.Running?
    ensures Run(e, w, moves) == Some(w') && Finished(w') && Crash !in moves && w'.history.inputs == inputs
    decreases |ids| - |w.store.saved|
  {
    hide DurableProgram, Towards, Consistent, Run, At, Settled, ChainAt;
    assert w.store.saved != [] by { TowardsDistinct(e, inputs, ids, w); RunningAt(e, w); }
    var link := OnChain(e, inputs, ids, w);
    if |w.store.saved| == |ids| {
      RunNothing(e, w);
      return [], w;
    }
    var first, next;
    if w.process.loop.tasks != [] {
      first, next := StepThrough(e, inputs, ids, w);
    } else {
      first, next := RenewThrough(e, inputs, ids, w);
    }
    var rest;
    rest, w' := Drive(e, inputs, ids, next);
    moves := first + rest;
    RunConcat(e, w, first, rest);
  }

  /**
    If the inputs can be completed at all, then from every world a thread can be in - in the middle of a step,
    between two runs, or stopped after any prefix of its store calls - it can be brought to the same end without
    another crash: one invocation resumes it, and each further input takes one more.
  */
  lemma EveryRunCanComplete(e: Program, moves: seq<Move>, w: World, moves': seq<Move>, end: World)
    returns (more: seq<Move>, w': World)
    requires DurableProgram(e) && Reaches(e, moves, w) && Reaches(e, moves', end) && Finished(end)
    requires w.history.inputs <= end.history.inputs && EntriesFresh(e, end.history.inputs)
    ensures Run(e, w, more) == Some(w') && Finished(w') && Crash !in more
    ensures w'.history.inputs == end.history.inputs && w'.process.loop == end.process.loop
  {
    hide DurableProgram, EndsChain, Consistent, Run, Step, Finished, EntriesFresh, Towards;
    ReachedConsistent(e, moves, w);
    ReachedConsistent(e, moves', end);
    FinishedEndsChain(e, end);
    var inputs, ids := end.history.inputs, Ids(end.store.saved);
    assert Towards(e, inputs, ids, w) by { BeginsTowards(e, inputs, ids, w); }
    var first, running := Revive(e, inputs, ids, w);
    var rest;
    rest, w' := Drive(e, inputs, ids, running);
    more := first + rest;
    RunConcat(e, w, first, rest);
    RunConcat(e, NOTHING, moves, more);
    SameEnd(e, moves + more, w', moves', end);
  }

  lemma BeginsTowards(e: Program, inputs: seq<State>, ids: seq<Id>, w: World)
    requires EntriesFresh(e, inputs) && EndsChain(e, Plain(inputs), ids) && Consistent(e, w) && w.history.inputs <= inputs
    ensures Towards(e, inputs, ids, w)
  {
  }

  lemma StartEnabled(e: Program, inputs: seq<State>, ids: seq<Id>, w: World)
    requires Towards(e, inputs, ids, w) && w.process.Idle? && w.store.saved == []
    ensures ids != [] && inputs != [] && w.history.inputs == [] && StepStart(e, w, inputs[0], ids[0]).Some?
    ensures var w' := StepStart(e, w, inputs[0], ids[0]).value;
            w'.process.Running? && w'.history.inputs == [inputs[0]] && w'.history.inputs <= inputs
  {
    hide Enter, Successor, EntriesFresh, Chained;
    ChainOkBefore(e, Plain(inputs), ids, |ids| - 1, 0);
  }

  lemma Revive(e: Program, inputs: seq<State>, ids: seq<Id>, w: World) returns (moves: seq<Move>, w': World)
    requires DurableProgram(e) && Towards(e, inputs, ids, w)
    ensures Run(e, w, moves) == Some(w') && w'.process.Running? && Crash !in moves && Towards(e, inputs, ids, w')
  {
    hide DurableProgram, Consistent, Run, Towards, StepRecover, StepStart;
    assert Consistent(e, w) by { TowardsDistinct(e, inputs, ids, w); }
    InputsOf(e, inputs, ids, w);
    if w.process.Running? {
      RunNothing(e, w);
      return [], w;
    } else if w.store.saved == [] {
      StartEnabled(e, inputs, ids, w);
      moves := [Start(inputs[0], ids[0])];
      RunOne(e, w, moves[0]);
      w' := StepStart(e, w, inputs[0], ids[0]).value;
    } else {
      RecoverKeeps(e, w);
      moves := [Recover];
      RunOne(e, w, Recover);
      w' := StepRecover(e, w).value;
    }
    RunKeeps(e, w, moves);
    StillTowards(e, inputs, ids, w, w');
  }
}
