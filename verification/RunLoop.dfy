/**
  The run loop itself, which reassigns the state, the scheduled tasks, the step and the
  waiting sets in place, on a thread whose checkpoints it appends.
*/
module RunLoop {
  import opened Prelude
  import opened Graphs
  import opened Routing
  import opened Versions
  import opened Engine
  import opened EngineFacts
  import opened ChainFacts
  import opened Recovery
  import opened RecoveryFacts
  import opened RecoveryTheorems

  method ExecuteTasks(e: Program, tasks: seq<Task>, step: nat, state: State) returns (r: Result<seq<TaskResult>, Fault>)
    ensures r == RunTasks(e, tasks, step, state)
  {
    var results := [];
    for i := 0 to |tasks|
      invariant RunTasks(e, tasks[..i], step, state) == Ok(results)
    {
      assert tasks[..i + 1][..i] == tasks[..i];
      match RunTask(e, tasks[i], step, state) {
        case Err(f) =>
          RunTasksFails(e, tasks, step, state, i + 1);
          return Err(f);
        case Ok(result) => results := results + [result];
      }
    }
    assert tasks[..|tasks|] == tasks;
    return Ok(results);
  }

  lemma {:induction false} RunTasksFails(e: Program, tasks: seq<Task>, step: nat, state: State, n: nat)
    requires n <= |tasks| && RunTasks(e, tasks[..n], step, state).Err?
    ensures RunTasks(e, tasks, step, state) == RunTasks(e, tasks[..n], step, state)
    decreases |tasks| - n
  {
    hide RunTask;
    if n == |tasks| {
      assert tasks[..n] == tasks;
    } else {
      assert tasks[..n + 1][..n] == tasks[..n];
      RunTasksFails(e, tasks, step, state, n + 1);
    }
  }

  /** The collected deltas, in task order. */
  method CollectUpdates(results: seq<TaskResult>) returns (deltas: seq<Delta>)
    ensures deltas == Updates(results)
  {
    deltas := [];
    for i := 0 to |results|
      invariant deltas == Updates(results[..i])
    {
      assert results[..i + 1][..i] == results[..i];
      if results[i].cmd.update.Some? {
        deltas := deltas + [results[i].cmd.update.value];
      }
    }
    assert results[..|results|] == results;
  }

  /** The deltas come from the results in order: earlier results first, one delta per result that has an update. */
  lemma {:induction false} UpdatesInOrder(a: seq<TaskResult>, b: seq<TaskResult>)
    ensures Updates(a + b) == Updates(a) + Updates(b)
    ensures |b| == 1 ==> Updates(b) == if b[0].cmd.update.Some? then [b[0].cmd.update.value] else []
  {
    if b == [] {
      assert a + b == a;
    } else {
      UpdatesInOrder(a, b[..|b| - 1]);
      assert (a + b)[..|a + b| - 1] == a + b[..|b| - 1];
    }
  }

  /** Reduces, routes and commits; what the run keeps is what survives the freshness filter. */
  method CommitResults(e: Program, prev: Snapshot, loop: Loop, results: seq<TaskResult>, id: Id)
    returns (r: Result<Checkpoint, RunError>, next: Loop)
    ensures r == CommitStep(e, prev, loop, results, id)
    ensures r.Ok? ==> Reduced(e, loop.state, results).Ok?
    ensures r.Ok? ==> NextTasks(e.plan, loop.step, results, Reduced(e, loop.state, results).value, loop.waiting).Ok?
    ensures r.Ok? ==> next == Committed(e, loop, results, r.value)
  {
    hide Updates, NextTasks, Prepare, FreshTasks;
    next := loop;
    var state := loop.state;
    var deltas := CollectUpdates(results);
    if deltas != [] {
      match e.reduce(state, deltas) {
        case Err(f) => return Err(ReduceFailed(f)), next;
        case Ok(reduced) => state := reduced;
      }
    }
    var scheduled := NextTasks(e.plan, loop.step, results, state, loop.waiting);
    if scheduled.Err? { return Err(RouteFailed(scheduled.error)), next; }
    r := Prepare(e, prev, state, scheduled.value.tasks, loop.step, scheduled.value.waiting, OutputNodes(results), id);
    if r.Ok? {
      next := Loop(state, FreshTasks(e.triggers, r.value.snap, scheduled.value.tasks), loop.step + 1, scheduled.value.waiting);
    }
  }

  // ----- The next checkpoint of a thread -----

  /** The chain with one more checkpoint, drawn under the given ID. */
  ghost function Extended(e: Program, h: History, saved: seq<Checkpoint>, id: Id): Result<Link, RunError>
  {
    ChainAt(e, h, Ids(saved) + [id], |saved|)
  }

  ghost predicate Above(saved: seq<Checkpoint>, id: Id)
  {
    forall k :: 0 <= k < |saved| ==> saved[k].snap.id < id
  }

  ghost predicate Increasing(saved: seq<Checkpoint>)
  {
    forall j, k :: 0 <= j < k < |saved| ==> saved[j].snap.id < saved[k].snap.id
  }

  /** Failing to extend the chain does not depend on the ID. */
  lemma StuckForEveryId(e: Program, h: History, saved: seq<Checkpoint>, id: Id, id': Id)
    requires Increasing(saved) && Above(saved, id) && Above(saved, id') && Extended(e, h, saved, id).Err?
    ensures Extended(e, h, saved, id') == Extended(e, h, saved, id)
  {
    hide ChainAt, SameLink;
    ChainSame(e, h, Ids(saved) + [id], Ids(saved) + [id'], |saved|);
  }

  lemma ExtendedBegins(e: Program, h: History, id: Id)
    requires 0 !in h.reread
    ensures Extended(e, h, [], id) == First(e, h, id)
  {
    hide First;
    assert Ids([]) + [id] == [id];
  }

  lemma ExtendedFollows(e: Program, h: History, saved: seq<Checkpoint>, h': History, id: Id)
    requires saved != [] && HistoryOk(e, h, saved) && Prolongs(h, h')
    ensures Extended(e, h', saved, id) == Successor(e, h', LastLink(e, h, saved), id)
  {
    hide First, Successor, Loaded;
    var grown, n := Ids(saved) + [id], |saved|;
    assert grown[..n] == Ids(saved);
    ChainPrefix(e, h', grown, n, n - 1);
    ChainKeeps(e, h, h', Ids(saved), n - 1);
    var next := Successor(e, h', LastLink(e, h, saved), id);
    if next.Ok? {
      NotReread(e, h', next.value, n);
    }
  }

  /** The loop variables are those of the chain, and every input of the thread has begun its run. */
  ghost predicate InStep(e: Program, h: History, saved: seq<Checkpoint>, loop: Loop)
  {
    && saved != [] && HistoryOk(e, h, saved)
    && var link := LastLink(e, h, saved);
       link.loop == loop && link.runs == |h.inputs| && link.c == Last(saved) && LinkOk(e, link)
  }

  lemma InStepLink(e: Program, h: History, saved: seq<Checkpoint>, loop: Loop)
    requires InStep(e, h, saved, loop)
    ensures saved != [] && HistoryOk(e, h, saved) && LoopOk(e, loop)
    ensures LastLink(e, h, saved) == Link(Last(saved), loop, |h.inputs|)
    ensures Restore(e, Last(saved)) == Ok(Stored(e, LastLink(e, h, saved)))
  {
    hide HistoryOk, Restore, Stored;
  }

  /** A checkpoint that follows in the chain is one the loop may go on from. */
  lemma GoesOnInStep(e: Program, h: History, saved: seq<Checkpoint>, loop: Loop, h': History, id: Id, next: Link)
    requires ProgramOk(e) && InStep(e, h, saved, loop) && Prolongs(h, h') && Above(saved, id)
    requires Successor(e, h', Link(Last(saved), loop, |h.inputs|), id) == Ok(next) && next.runs == |h'.inputs|
    ensures next.c.snap.id == id && InStep(e, h', saved + [next.c], next.loop)
  {
    hide HistoryOk, LinkOk, ProgramOk, Successor, Prolongs;
    var link := LastLink(e, h, saved);
    SuccessorLinks(e, h', link, id);
    ChainGrows(e, h, saved, h', next);
    assert Last(saved + [next.c]) == next.c;
  }

  lemma BeginsInStep(e: Program, h: History, id: Id, link: Link)
    requires ProgramOk(e) && h.reread == {} && |h.inputs| == 1 && First(e, h, id) == Ok(link)
    ensures link.c.snap.id == id && InStep(e, h, [link.c], link.loop)
  {
    hide HistoryOk, LinkOk, ProgramOk, Enter;
    FirstLinks(e, h, id);
    ChainBegins(e, h, link);
    BeginRuns(e, h.inputs[0], id);
    assert Last([link.c]) == link.c;
  }

  lemma StepFollows(e: Program, h: History, saved: seq<Checkpoint>, loop: Loop, results: seq<TaskResult>, id: Id)
    requires InStep(e, h, saved, loop)
    requires loop.tasks != [] && loop.step < e.recursionLimit && RunTasks(e, loop.tasks, loop.step, loop.state) == Ok(results)
    ensures var committed := CommitStep(e, Last(saved).snap, loop, results, id);
            && (committed.Err? ==> Extended(e, h, saved, id) == Err(committed.error))
            && (committed.Ok? ==>
                  && Reduced(e, loop.state, results).Ok?
                  && NextTasks(e.plan, loop.step, results, Reduced(e, loop.state, results).value, loop.waiting).Ok?
                  && Successor(e, h, Link(Last(saved), loop, |h.inputs|), id)
                     == Ok(Link(committed.value, Committed(e, loop, results, committed.value), |h.inputs|)))
  {
    hide CommitStep, RunTasks, Extended, InStep, Committed;
    InStepLink(e, h, saved, loop);
    ExtendedFollows(e, h, saved, h, id);
    if CommitStep(e, Last(saved).snap, loop, results, id).Ok? {
      CommitParts(e, Last(saved).snap, loop, results, id);
    }
  }

  /** The checkpoint a super-step commits is the next one of the chain, and the loop goes on from it. */
  lemma StepInChain(e: Program, h: History, saved: seq<Checkpoint>, loop: Loop, results: seq<TaskResult>, id: Id)
    requires ProgramOk(e) && InStep(e, h, saved, loop) && Above(saved, id)
    requires loop.tasks != [] && loop.step < e.recursionLimit && RunTasks(e, loop.tasks, loop.step, loop.state) == Ok(results)
    ensures saved != []
    ensures var committed := CommitStep(e, Last(saved).snap, loop, results, id);
            && (committed.Err? ==> Extended(e, h, saved, id) == Err(committed.error))
            && (committed.Ok? ==>
                  && Reduced(e, loop.state, results).Ok?
                  && NextTasks(e.plan, loop.step, results, Reduced(e, loop.state, results).value, loop.waiting).Ok?
                  && committed.value.snap.id == id
                  && var next := Committed(e, loop, results, committed.value);
                     next.step == loop.step + 1 && InStep(e, h, saved + [committed.value], next))
  {
    hide CommitStep, RunTasks, Extended, InStep, Committed, Successor, ProgramOk, Above;
    InStepLink(e, h, saved, loop);
    StepFollows(e, h, saved, loop, results, id);
    var committed := CommitStep(e, Last(saved).snap, loop, results, id);
    if committed.Ok? {
      CommittedStep(e, loop, results, committed.value);
      GoesOnInStep(e, h, saved, loop, h, id, Link(committed.value, Committed(e, loop, results, committed.value), |h.inputs|));
    }
  }

  lemma Halted(e: Program, h: History, saved: seq<Checkpoint>, loop: Loop, id: Id)
    requires InStep(e, h, saved, loop) && loop.tasks != []
    ensures saved != []
    ensures loop.step >= e.recursionLimit ==> Extended(e, h, saved, id) == Err(RecursionLimit)
    ensures loop.step < e.recursionLimit && RunTasks(e, loop.tasks, loop.step, loop.state).Err? ==>
      Extended(e, h, saved, id) == Err(NodeFailed(RunTasks(e, loop.tasks, loop.step, loop.state).error))
  {
    hide CommitStep, RunTasks, InStep, Extended;
    InStepLink(e, h, saved, loop);
    ExtendedFollows(e, h, saved, h, id);
  }

  lemma AtEnd(e: Program, h: History, saved: seq<Checkpoint>, loop: Loop)
    requires InStep(e, h, saved, loop) && loop.tasks == []
    ensures saved != [] && EndsChain(e, h, Ids(saved))
    ensures Restore(e, Last(saved)).Ok? && Restore(e, Last(saved)).value.state == loop.state
  {
    hide Restore, ChainAt, LoopOk;
    assert ChainAt(e, h, Ids(saved), |saved| - 1) == Ok(LastLink(e, h, saved));
  }

  class Thread {
    const program: Program
    var saved: seq<Checkpoint>
    var lastId: Id
    /** The inputs of the runs begun so far, and where the thread was read back. */
    ghost var history: History

    ghost predicate Valid()
      reads this
    {
      && DurableProgram(program)
      && HistoryOk(program, history, saved)
      && (saved != [] ==> LastLink(program, history, saved).runs == |history.inputs|)
      && Increasing(saved) && forall k :: 0 <= k < |saved| ==> saved[k].snap.id <= lastId
    }

    constructor (program: Program)
      requires DurableProgram(program)
      ensures Valid() && saved == [] && history == History([], {}) && this.program == program
    {
      this.program := program;
      saved, lastId, history := [], 0, History([], {});
    }

    /** Draws an ID greater than every ID the thread holds, whatever the clock says. */
    method NewId(clock: nat) returns (id: Id)
      requires Valid()
      modifies this`lastId
      ensures Valid() && lastId == id && id > old(lastId) && Above(saved, id)
    {
      hide HistoryOk, DurableProgram;
      id := if clock > lastId then clock else lastId + 1;
      lastId := id;
    }

    lemma NextAbove()
      requires Valid()
      ensures Above(saved, lastId + 1) && ProgramOk(program)
    {
      hide HistoryOk, ProgramOk;
    }

    /** The chain cannot grow: whichever ID is drawn next, the run stops with the same error. */
    ghost predicate StuckWith(h: History, error: RunError)
      reads this
    {
      forall id :: Above(saved, id) ==> Extended(program, h, saved, id) == Err(error)
    }

    ghost method EveryId(h: History, error: RunError, id: Id)
      requires Valid() && Above(saved, id) && Extended(program, h, saved, id) == Err(error)
      ensures StuckWith(h, error)
    {
      hide Extended, Above, Increasing, DurableProgram, HistoryOk;
      forall other | Above(saved, other) ensures Extended(program, h, saved, other) == Err(error) {
        StuckForEveryId(program, h, saved, id, other);
      }
    }

    /** The inputs of the thread once this invocation has begun the run it asks for, if it asks for one. */
    ghost function Asked(input: State, newRun: bool): seq<State>
      reads this
    {
      if saved == [] then [input]
      else if newRun && Restore(program, Last(saved)).Ok? && Restore(program, Last(saved)).value.tasks == [] then history.inputs + [input]
      else history.inputs
    }

    /** Puts the next checkpoint, under the ID drawn for it. */
    method Put(c: Checkpoint, ghost h: History, ghost loop: Loop)
      requires Valid() && Above(saved, c.snap.id) && c.snap.id == lastId
      requires InStep(program, h, saved + [c], loop)
      modifies this`saved, this`history
      ensures Valid() && saved == old(saved) + [c] && history == h
    {
      hide DurableProgram, HistoryOk, LinkOk;
      saved, history := saved + [c], h;
    }

    /** A thread without checkpoints starts from the input. */
    method Start(input: State, clock: nat) returns (r: Result<Loop, RunError>)
      requires Valid() && saved == []
      modifies this
      ensures Valid()
      ensures r.Ok? ==> history == History([input], {}) && InStep(program, history, saved, r.value)
      ensures r.Err? ==> saved == old(saved) && history == old(history) && StuckWith(History([input], {}), r.error)
    {
      hide DurableProgram, HistoryOk, Enter, InStep, Extended;
      ghost var h := History([input], {});
      var id := NewId(clock);
      ExtendedBegins(program, h, id);
      assert history == History([], {}) by { EmptyHistory(program, history); }
      DurableOk(program);
      var begun := Begin(program, input, id);
      if begun.Err? {
        EveryId(h, begun.error, id);
        return Err(begun.error);
      }
      BeginsInStep(program, h, id, begun.value);
      assert [] + [begun.value.c] == [begun.value.c];
      Put(begun.value.c, h, begun.value.loop);
      return Ok(begun.value.loop);
    }

    /** A thread with checkpoints goes on from its newest one. */
    method Resume() returns (loop: Loop)
      requires Valid() && saved != []
      modifies this`history
      ensures Valid() && history == Revisited(old(history), saved)
      ensures InStep(program, history, saved, loop) && Restore(program, Last(saved)) == Ok(loop)
    {
      hide DurableProgram, HistoryOk, LinkOk, Restore, Stored, LatestIndex;
      DurableOk(program);
      RereadChain(program, history, saved);
      LatestIsLast(saved);
      loop := Restore(program, saved[LatestIndex(saved)]).value;
      history := Revisited(history, saved);
    }

    /** A finished thread starts another run from its state and the input. */
    method NewRun(loop: Loop, input: State, clock: nat) returns (r: Result<Loop, RunError>)
      requires Valid() && InStep(program, history, saved, loop) && loop.tasks == []
      modifies this
      ensures Valid() && old(saved) <= saved
      ensures r.Ok? ==> history == History(old(history).inputs + [input], old(history).reread) && InStep(program, history, saved, r.value)
      ensures r.Err? ==> saved == old(saved) && history == old(history)
      ensures r.Err? ==> StuckWith(History(old(history).inputs + [input], old(history).reread), r.error)
    {
      hide DurableProgram, HistoryOk, Enter, InStep, Extended, LinkOk, StuckWith, Above, Increasing;
      ghost var h := History(history.inputs + [input], history.reread);
      InStepLink(program, history, saved, loop);
      // The number of runs is not stored; Renew hands it on without looking at it.
      ghost var link := Link(Last(saved), loop, |history.inputs|);
      ghost var probe := lastId + 1;
      NextAbove();
      ExtendedFollows(program, history, saved, h, probe);
      assert Successor(program, h, link, probe) == Renew(program, link, input, probe);
      var merged := program.merge(loop.state, input);
      if merged.Err? {
        EveryId(h, MergeFailed(merged.error), probe);
        return Err(MergeFailed(merged.error));
      }
      var id := NewId(clock);
      ExtendedFollows(program, history, saved, h, id);
      assert Successor(program, h, link, id) == Renew(program, link, input, id);
      DurableOk(program);
      var entered := Enter(program, Last(saved).snap, merged.value, loop.step, loop.waiting, 0, id);
      EnterRuns(program, Last(saved).snap, merged.value, loop.step, loop.waiting, 0, |history.inputs| + 1, id);
      if entered.Err? {
        EveryId(h, entered.error, id);
        return Err(entered.error);
      }
      GoesOnInStep(program, history, saved, loop, h, id, entered.value.(runs := |history.inputs| + 1));
      Put(entered.value.c, h, entered.value.loop);
      return Ok(entered.value.loop);
    }

    method Initialize(input: State, newRun: bool, clock: nat) returns (r: Result<Loop, RunError>)
      requires Valid()
      modifies this
      ensures Valid() && old(saved) <= saved
      ensures r.Ok? ==> history.inputs == old(Asked(input, newRun)) && InStep(program, history, saved, r.value)
      ensures r.Err? ==> saved == old(saved) && history.inputs == old(history).inputs
      ensures r.Err? ==> StuckWith(History(old(Asked(input, newRun)), history.reread), r.error)
    {
      hide DurableProgram, HistoryOk, InStep, Extended, LinkOk, Restore;
      if saved == [] {
        r := Start(input, clock);
        assert old(history) == History([], {}) by { EmptyHistory(program, old(history)); }
        return;
      }
      var loop := Resume();
      if newRun && loop.tasks == [] {
        r := NewRun(loop, input, clock);
        return;
      }
      return Ok(loop);
    }

    /** One super-step: run the tasks, reduce, route, commit. */
    method Advance(loop: Loop, clock: nat) returns (r: Result<Loop, RunError>)
      requires Valid() && InStep(program, history, saved, loop) && loop.tasks != []
      modifies this
      ensures Valid() && old(saved) <= saved && history == old(history)
      ensures r.Ok? ==> InStep(program, history, saved, r.value) && loop.step < program.recursionLimit && r.value.step == loop.step + 1
      ensures r.Err? ==> saved == old(saved) && StuckWith(history, r.error)
    {
      hide Valid, Extended, CommitStep, Committed, InStep, RunTasks, Reduced, NextTasks, Above, StuckWith;
      NextAbove();
      ghost var probe := lastId + 1;
      Halted(program, history, saved, loop, probe);
      if loop.step >= program.recursionLimit {
        EveryId(history, RecursionLimit, probe);
        return Err(RecursionLimit);
      }
      var executed := ExecuteTasks(program, loop.tasks, loop.step, loop.state);
      if executed.Err? {
        EveryId(history, NodeFailed(executed.error), probe);
        return Err(NodeFailed(executed.error));
      }
      var id := NewId(clock);
      StepInChain(program, history, saved, loop, executed.value, id);
      var committed, next := CommitResults(program, Last(saved).snap, loop, executed.value, id);
      if committed.Err? {
        EveryId(history, committed.error, id);
        return Err(committed.error);
      }
      Put(committed.value, history, next);
      return Ok(next);
    }

    /**
      Invokes the thread: a new one starts from the input, a finished one starts a further run when asked to, and
      any other goes on from its newest checkpoint. A success ends the chain; an error leaves the longest chain
      there is.
    */
    method Invoke(input: State, newRun: bool, clock: nat -> nat) returns (r: Result<State, RunError>)
      requires Valid()
      modifies this
      ensures Valid() && old(saved) <= saved
      ensures r.Ok? ==> history.inputs == old(Asked(input, newRun)) && saved != [] && EndsChain(program, history, Ids(saved))
      ensures r.Ok? ==> Restore(program, Last(saved)).Ok? && Restore(program, Last(saved)).value.state == r.value
      ensures r.Err? ==> history.inputs in [old(history).inputs, old(Asked(input, newRun))]
      ensures r.Err? ==> StuckWith(History(old(Asked(input, newRun)), history.reread), r.error)
    {
      hide DurableProgram, HistoryOk, Extended, InStep, Restore, EndsChain;
      var initialized := Initialize(input, newRun, clock(0));
      if initialized.Err? { return Err(initialized.error); }
      var loop := initialized.value;
      while loop.tasks != []
        invariant Valid() && old(saved) <= saved && InStep(program, history, saved, loop)
        invariant history.inputs == old(Asked(input, newRun))
        decreases program.recursionLimit - loop.step
      {
        var advanced := Advance(loop, clock(loop.step + 1));
        if advanced.Err? { return Err(advanced.error); }
        loop := advanced.value;
      }
      AtEnd(program, history, saved, loop);
      return Ok(loop.state);
    }
  }

  lemma CommittedStep(e: Program, loop: Loop, results: seq<TaskResult>, c: Checkpoint)
    requires Reduced(e, loop.state, results).Ok?
    requires NextTasks(e.plan, loop.step, results, Reduced(e, loop.state, results).value, loop.waiting).Ok?
    ensures Committed(e, loop, results, c).step == loop.step + 1
  {
  }

  lemma EnterRuns(e: Program, prev: Snapshot, state: State, step: SuperStep, w: Barriers, runs: nat, runs': nat, id: Id)
    ensures match Enter(e, prev, state, step, w, runs, id)
            case Ok(link) => Enter(e, prev, state, step, w, runs', id) == Ok(link.(runs := runs'))
            case Err(x) => Enter(e, prev, state, step, w, runs', id) == Err(x)
  {
    hide EntryTasks, Prepare;
  }
}
