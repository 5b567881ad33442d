/**
  What survives a crash. Every reachable store holds a prefix of one deterministic chain of
  checkpoints; a task whose result is durable never runs again; and a thread that was
  stopped anywhere can be driven to the same end.
*/
module RecoveryFacts {
  import opened Prelude
  import opened Graphs
  import opened Routing
  import opened Envelopes
  import opened Versions
  import opened Engine
  import opened EngineFacts
  import opened ChainFacts
  import opened Recovery

  /** A handler cannot tell a recovered failure from the original one. */
  ghost predicate FaultsSurvive(e: Program)
  {
    forall f: Fault ::
      && e.codecs.fault.encode(f).Ok?
      && e.codecs.fault.decode(e.codecs.fault.encode(f).value).Ok?
      && SameToHandlers(e, f, e.codecs.fault.decode(e.codecs.fault.encode(f).value).value)
  }

  ghost predicate SameToHandlers(e: Program, f: Fault, f': Fault)
  {
    forall handler: NodeId, id: string, step: nat, state: State, source: NodeId ::
      e.handle(handler, id, step, state, Failure(source, f)) == e.handle(handler, id, step, state, Failure(source, f'))
  }

  /** Deterministic nodes come with the model; what remains to ask for is lossless codecs. */
  ghost predicate DurableProgram(e: Program)
  {
    ProgramOk(e) && "" !in e.plan.nodes && FaultsSurvive(e)
  }

  // ----- The invariant -----

  /** The store holds the chain for the IDs it issued. */
  ghost predicate Chained(e: Program, h: History, saved: seq<Checkpoint>)
  {
    && (forall j, k :: 0 <= j < k < |saved| ==> saved[j].snap.id < saved[k].snap.id)
    && (forall k :: 0 <= k < |saved| ==> ChainAt(e, h, Ids(saved), k).Ok? && ChainAt(e, h, Ids(saved), k).value.c == saved[k])
  }

  function Ids(saved: seq<Checkpoint>): (r: seq<Id>)
    ensures |r| == |saved|
  {
    seq(|saved|, k requires 0 <= k < |saved| => saved[k].snap.id)
  }

  /** The outcome of a task, had it run without interruption. */
  function Outcome(e: Program, loop: Loop, i: nat): Result<TaskResult, Fault>
    requires i < |loop.tasks|
  {
    RunTask(e, loop.tasks[i], loop.step, loop.state)
  }

  predicate HasResult(writes: Writes, task: Task)
  {
    WriteKey(task.id, RESULT_INDEX) in writes
  }

  predicate HasMarker(writes: Writes, task: Task)
  {
    WriteKey(task.id, FAILURE_INDEX) in writes
  }

  /** Whatever is written for a task is what the task computes. */
  ghost predicate TaskWritesOk(e: Program, loop: Loop, writes: Writes, i: nat)
    requires i < |loop.tasks|
  {
    var task := loop.tasks[i];
    && (HasResult(writes, task) ==>
          Outcome(e, loop, i).Ok? && EncodeResult(e.codecs, Outcome(e, loop, i).value) == Ok(writes[WriteKey(task.id, RESULT_INDEX)]))
    && (HasMarker(writes, task) ==>
          var r := e.invoke(task.node, task.id, loop.step, TaskState(task, loop.state));
          task.node in e.handlers && r.Err? && EncodeFailure(e.codecs, task.node, r.error) == Ok(writes[WriteKey(task.id, FAILURE_INDEX)]))
  }

  ghost predicate WritesOk(e: Program, loop: Loop, writes: Writes)
  {
    forall i :: 0 <= i < |loop.tasks| ==> TaskWritesOk(e, loop, writes, i)
  }

  ghost predicate SlotOk(e: Program, loop: Loop, writes: Writes, i: nat, slot: Slot)
    requires i < |loop.tasks|
  {
    var task := loop.tasks[i];
    match slot
    case Fresh => !HasResult(writes, task) && !HasMarker(writes, task)
    case Handling(failure) =>
      && !HasResult(writes, task) && HasMarker(writes, task)
      && RunHandler(e, task, loop.step, TaskState(task, loop.state), failure) == Outcome(e, loop, i)
    case Done(r) => HasResult(writes, task) && Outcome(e, loop, i) == Ok(r)
  }

  ghost predicate SlotsOk(e: Program, loop: Loop, writes: Writes, slots: seq<Slot>)
  {
    |slots| == |loop.tasks| && forall i :: 0 <= i < |slots| ==> SlotOk(e, loop, writes, i, slots[i])
  }

  /** The newest checkpoint. */
  function Last(saved: seq<Checkpoint>): Checkpoint
    requires saved != []
  {
    saved[|saved| - 1]
  }

  ghost predicate LastOk(e: Program, h: History, store: Store, link: Link)
    requires store.saved != []
  {
    && link.c == Last(store.saved) && link.runs == |h.inputs| && LinkOk(e, link)
    && WritesOk(e, link.loop, WritesOf(store, link.c.snap.id))
  }

  ghost predicate HistoryOk(e: Program, h: History, saved: seq<Checkpoint>)
  {
    && Chained(e, h, saved) && (saved == [] ==> h.inputs == [])
    && forall j :: j in h.reread ==> j < |saved|
  }

  /** Where the newest checkpoint left its process. */
  ghost function LastLink(e: Program, h: History, saved: seq<Checkpoint>): Link
    requires saved != [] && HistoryOk(e, h, saved)
  {
    ChainAt(e, h, Ids(saved), |saved| - 1).value
  }

  ghost predicate WritesFiled(store: Store)
  {
    forall id :: id in store.writes ==> exists k :: 0 <= k < |store.saved| && store.saved[k].snap.id == id
  }

  ghost predicate StoreOk(e: Program, h: History, store: Store)
  {
    && HistoryOk(e, h, store.saved) && WritesFiled(store)
    && (store.saved != [] ==> LastOk(e, h, store, LastLink(e, h, store.saved)))
  }

  ghost predicate ProcessOk(e: Program, link: Link, store: Store, process: Process)
  {
    process.Running? ==>
      && process.current == link.c && process.loop == link.loop
      && SlotsOk(e, link.loop, WritesOf(store, link.c.snap.id), process.slots)
  }

  ghost predicate Consistent(e: Program, w: World)
  {
    && StoreOk(e, w.history, w.store)
    && (w.process.Running? ==>
          w.store.saved != [] && ProcessOk(e, LastLink(e, w.history, w.store.saved), w.store, w.process))
  }

  /** The newest checkpoint of a consistent world, whose process may still be running. */
  ghost predicate At(e: Program, w: World, link: Link)
  {
    && HistoryOk(e, w.history, w.store.saved) && WritesFiled(w.store)
    && w.store.saved != [] && LastLink(e, w.history, w.store.saved) == link
    && LastOk(e, w.history, w.store, link) && ProcessOk(e, link, w.store, w.process)
  }

  lemma ConsistentAt(e: Program, w: World)
    requires w.store.saved != []
    ensures Consistent(e, w) ==> HistoryOk(e, w.history, w.store.saved)
    ensures Consistent(e, w) <==> HistoryOk(e, w.history, w.store.saved) && At(e, w, LastLink(e, w.history, w.store.saved))
  {
    hide ChainAt;
  }

  // ----- Recovering one task -----

  lemma SlotRestored(e: Program, loop: Loop, writes: Writes, i: nat)
    requires DurableProgram(e) && i < |loop.tasks| && loop.tasks[i].node in e.plan.nodes
    requires TaskWritesOk(e, loop, writes, i)
    ensures RestoreSlot(e, writes, loop.tasks[i]).Some?
    ensures SlotOk(e, loop, writes, i, RestoreSlot(e, writes, loop.tasks[i]).value)
  {
    hide EncodeResult, DecodeResult, PlanClosed;
    var task := loop.tasks[i];
    if HasResult(writes, task) {
      OutcomeNamesTask(e, loop, i);
      ResultRoundTrip(e.codecs, Outcome(e, loop, i).value);
    }
    if HasMarker(writes, task) {
      var f := e.invoke(task.node, task.id, loop.step, TaskState(task, loop.state)).error;
      var f' := e.codecs.fault.decode(e.codecs.fault.encode(f).value);
      assert f'.Ok? && SameToHandlers(e, f, f'.value);
    }
  }

  lemma OutcomeNamesTask(e: Program, loop: Loop, i: nat)
    requires i < |loop.tasks| && Outcome(e, loop, i).Ok?
    ensures Outcome(e, loop, i).value.node == loop.tasks[i].node && Outcome(e, loop, i).value.taskId == loop.tasks[i].id
  {
  }

  lemma {:induction false} LatestIsLast(saved: seq<Checkpoint>)
    requires saved != [] && forall j, k :: 0 <= j < k < |saved| ==> saved[j].snap.id < saved[k].snap.id
    ensures LatestIndex(saved) == |saved| - 1
  {
    if |saved| > 1 {
      LatestIsLast(saved[..|saved| - 1]);
    }
  }

  // ----- Every move keeps the invariant -----

  lemma RereadLast(e: Program, h: History, ids: seq<Id>, n: nat, link: Link, back: Link)
    requires n < |ids| && ChainAt(e, h, ids, n) == Ok(link) && ReadBack(e, link) == Ok(back)
    ensures ChainAt(e, h.(reread := h.reread + {n}), ids, n) == Ok(back)
  {
    hide Begin, Advance, Renew, Restore;
    var h' := h.(reread := h.reread + {n});
    if n > 0 {
      ChainBefore(e, h, ids, n);
      ChainKeeps(e, h, h', ids, n - 1);
    }
  }

  lemma ChainBefore(e: Program, h: History, ids: seq<Id>, n: nat)
    requires 0 < n < |ids| && ChainAt(e, h, ids, n).Ok?
    ensures ChainAt(e, h, ids, n - 1).Ok?
  {
    hide Begin, Advance, Renew, ReadBack;
  }

  /** Reading the newest checkpoint back keeps the chain: it goes on with what the store holds. */
  lemma RereadChain(e: Program, h: History, saved: seq<Checkpoint>)
    requires ProgramOk(e) && saved != [] && HistoryOk(e, h, saved)
    ensures HistoryOk(e, Revisited(h, saved), saved) && Last(saved) == LastLink(e, h, saved).c
    ensures var link := LastLink(e, h, saved);
            var back := link.(loop := Stored(e, link));
            && LastLink(e, Revisited(h, saved), saved) == back
            && LinkOk(e, back) && LinkOk(e, link) && Restore(e, link.c) == Ok(back.loop)
  {
    hide LinkOk, ProgramOk, Stored, Restore, ChainAt;
    var h', n, link := Revisited(h, saved), |saved| - 1, LastLink(e, h, saved);
    ChainRestores(e, h, Ids(saved), n);
    assert Restore(e, link.c) == Ok(Stored(e, link)) by { LinkStored(e, link); }
    ReadBackLinks(e, link);
    RereadLast(e, h, Ids(saved), n, link, link.(loop := Stored(e, link)));
    forall k | 0 <= k < n ensures ChainAt(e, h', Ids(saved), k) == ChainAt(e, h, Ids(saved), k) {
      ChainKeeps(e, h, h', Ids(saved), k);
    }
  }

  lemma LinkStored(e: Program, link: Link)
    requires LinkOk(e, link)
    ensures Restore(e, link.c) == Ok(Stored(e, link))
  {
  }

  lemma DurableOk(e: Program)
    requires DurableProgram(e)
    ensures ProgramOk(e)
  {
  }

  lemma LastLinkOk(e: Program, w: World, link: Link)
    requires At(e, w, link)
    ensures LinkOk(e, link) && Restore(e, link.c) == Ok(Stored(e, link)) && link.c == Last(w.store.saved)
    ensures LoopOk(e, link.loop) && WritesOk(e, link.loop, WritesOf(w.store, link.c.snap.id))
    ensures link.runs == |w.history.inputs|
  {
    hide ChainAt, WritesOk, LoopOk, Restore, Stored;
  }

  /** What is written for the tasks of a process is right for those of them that a restart finds. */
  lemma WritesOfSome(e: Program, loop: Loop, tasks: seq<Task>, writes: Writes)
    requires WritesOk(e, loop, writes) && forall t :: t in tasks ==> t in loop.tasks
    ensures WritesOk(e, loop.(tasks := tasks), writes)
  {
    hide TaskWritesOk;
    forall i | 0 <= i < |tasks| ensures TaskWritesOk(e, loop.(tasks := tasks), writes, i) {
      assert tasks[i] in loop.tasks;
      var j :| 0 <= j < |loop.tasks| && loop.tasks[j] == tasks[i];
      SameTask(e, loop, tasks, writes, j, i);
    }
  }

  lemma SameTask(e: Program, loop: Loop, tasks: seq<Task>, writes: Writes, j: nat, i: nat)
    requires j < |loop.tasks| && i < |tasks| && loop.tasks[j] == tasks[i] && TaskWritesOk(e, loop, writes, j)
    ensures TaskWritesOk(e, loop.(tasks := tasks), writes, i)
  {
    hide RunTask, EncodeResult, EncodeFailure, TaskState;
  }

  /** After the newest checkpoint was read back the world is consistent, with an idle process. */
  lemma RereadKeeps(e: Program, w: World, link: Link)
    requires DurableProgram(e) && At(e, w, link)
    ensures var back, w' := link.(loop := Stored(e, link)), w.(process := Idle, history := Revisited(w.history, w.store.saved));
            At(e, w', back) && Restore(e, link.c) == Ok(back.loop)
  {
    hide DurableProgram, HistoryOk, WritesOk, LinkOk, WritesFiled, Restore, FreshTasks;
    DurableOk(e);
    RereadChain(e, w.history, w.store.saved);
    LastLinkOk(e, w, link);
    WritesOfSome(e, link.loop, Stored(e, link).tasks, WritesOf(w.store, link.c.snap.id));
  }

  lemma SlotsRestored(e: Program, loop: Loop, writes: Writes)
    requires DurableProgram(e) && WritesOk(e, loop, writes) && forall t :: t in loop.tasks ==> t.node in e.plan.nodes
    ensures RestoreSlots(e, writes, loop.tasks).Some? && SlotsOk(e, loop, writes, RestoreSlots(e, writes, loop.tasks).value)
  {
    hide TaskWritesOk, RestoreSlot, SlotOk, DurableProgram;
    forall i | 0 <= i < |loop.tasks|
      ensures RestoreSlot(e, writes, loop.tasks[i]).Some? && SlotOk(e, loop, writes, i, RestoreSlot(e, writes, loop.tasks[i]).value)
    {
      SlotRestored(e, loop, writes, i);
    }
  }

  lemma LatestFound(e: Program, w: World, link: Link)
    requires At(e, w, link)
    ensures Latest(w.store) == link.c && LatestIndex(w.store.saved) == |w.store.saved| - 1
  {
    hide LatestIndex, ChainAt, LinkOk, WritesOk, ProcessOk;
    LatestIsLast(w.store.saved);
  }

  /** Restoring succeeds in every reachable store, and goes on from its newest checkpoint. */
  lemma RecoverKeeps(e: Program, w: World)
    requires DurableProgram(e) && Consistent(e, w) && w.process.Idle? && w.store.saved != []
    ensures StepRecover(e, w).Some? && Consistent(e, StepRecover(e, w).value)
    ensures StepRecover(e, w).value.store == w.store && StepRecover(e, w).value.process.Running?
    ensures StepRecover(e, w).value.history == Revisited(w.history, w.store.saved)
  {
    hide Restore, DurableProgram, HistoryOk, WritesFiled, LinkOk, WritesOk, SlotsOk, Latest, Consistent, Stored;
    ConsistentAt(e, w);
    var link := LastLink(e, w.history, w.store.saved);
    RereadKeeps(e, w, link);
    LatestFound(e, w, link);
    RestoreKnown(e, link.c);
    SlotsRestored(e, Stored(e, link), WritesOf(w.store, link.c.snap.id));
    ConsistentAt(e, StepRecover(e, w).value);
  }

  /** A write for one task leaves what is known of another alone. */
  lemma OtherTask(e: Program, loop: Loop, before: Writes, key: WriteKey, value: EncodedValue, j: nat, slot: Slot)
    requires j < |loop.tasks| && key.taskId != loop.tasks[j].id
    requires TaskWritesOk(e, loop, before, j) && SlotOk(e, loop, before, j, slot)
    ensures TaskWritesOk(e, loop, PutWrite(before, key, value), j) && SlotOk(e, loop, PutWrite(before, key, value), j, slot)
  {
    hide Outcome, RunHandler, EncodeResult, EncodeFailure, TaskState;
  }

  lemma TasksRecorded(e: Program, loop: Loop, before: Writes, index: int, value: EncodedValue, i: nat, slots: seq<Slot>, slot: Slot)
    requires LoopOk(e, loop) && WritesOk(e, loop, before) && SlotsOk(e, loop, before, slots) && i < |slots|
    requires var writes := PutWrite(before, WriteKey(loop.tasks[i].id, index), value);
             TaskWritesOk(e, loop, writes, i) && SlotOk(e, loop, writes, i, slot)
    ensures var writes := PutWrite(before, WriteKey(loop.tasks[i].id, index), value);
            WritesOk(e, loop, writes) && SlotsOk(e, loop, writes, slots[i := slot])
  {
    hide TaskWritesOk, SlotOk, PutWrite, StampedWith;
    var key := WriteKey(loop.tasks[i].id, index);
    forall j | 0 <= j < |loop.tasks| && j != i
      ensures TaskWritesOk(e, loop, PutWrite(before, key, value), j) && SlotOk(e, loop, PutWrite(before, key, value), j, slots[j])
    {
      assert loop.tasks[i].id != loop.tasks[j].id;
      OtherTask(e, loop, before, key, value, j, slots[j]);
    }
  }

  /** A write for one task keeps the store consistent, because task IDs are distinct. */
  lemma RecordKeeps(e: Program, w: World, i: nat, index: int, value: EncodedValue, slot: Slot)
    requires Consistent(e, w) && w.process.Running? && i < |w.process.slots| && i < |w.process.loop.tasks|
    requires var writes := PutWrite(WritesOf(w.store, w.process.current.snap.id), WriteKey(w.process.loop.tasks[i].id, index), value);
             TaskWritesOk(e, w.process.loop, writes, i) && SlotOk(e, w.process.loop, writes, i, slot)
    ensures Consistent(e, Record(w, i, index, value, slot))
  {
    hide Restore, HistoryOk, WritesOk, SlotsOk, LoopOk, PutWrite, Stored, Consistent, TaskWritesOk, SlotOk;
    RunningAt(e, w);
    ConsistentAt(e, w);
    var link := LastLink(e, w.history, w.store.saved);
    LastLinkOk(e, w, link);
    var id, w' := w.process.current.snap.id, Record(w, i, index, value, slot);
    TasksRecorded(e, link.loop, WritesOf(w.store, id), index, value, i, w.process.slots, slot);
    FiledUnderLast(w.store, id, WritesOf(w'.store, id));
    ConsistentAt(e, w');
  }

  lemma FiledUnderLast(store: Store, id: Id, writes: Writes)
    requires WritesFiled(store) && store.saved != [] && id == Last(store.saved).snap.id
    ensures WritesFiled(store.(writes := store.writes[id := writes]))
  {
    assert store.saved[|store.saved| - 1].snap.id == id;
  }

  /** In a consistent world a process runs what the newest checkpoint left it with. */
  lemma RunningAt(e: Program, w: World)
    requires Consistent(e, w) && w.process.Running?
    ensures w.store.saved != [] && HistoryOk(e, w.history, w.store.saved)
    ensures var link := LastLink(e, w.history, w.store.saved);
            At(e, w, link) && w.process.current == link.c && w.process.loop == link.loop
    ensures WritesOk(e, w.process.loop, WritesOf(w.store, w.process.current.snap.id)) && LoopOk(e, w.process.loop)
    ensures SlotsOk(e, w.process.loop, WritesOf(w.store, w.process.current.snap.id), w.process.slots)
    ensures |w.process.slots| == |w.process.loop.tasks|
  {
    hide HistoryOk, WritesOk, LoopOk, Restore, Stored, WritesFiled, SlotOk;
  }

  lemma FinishKeeps(e: Program, w: World, i: nat)
    requires Consistent(e, w) && StepFinish(e, w, i).Some?
    ensures Consistent(e, StepFinish(e, w, i).value)
  {
    hide StoreOk, ProcessOk, EncodeResult, EncodeFailure, Record, HistoryOk, At, Consistent, LoopOk;
    RunningAt(e, w);
    var loop, slot := w.process.loop, w.process.slots[i];
    var before := WritesOf(w.store, w.process.current.snap.id);
    assert SlotOk(e, loop, before, i, slot) && TaskWritesOk(e, loop, before, i);
    var r := Attempt(e, loop, i, slot).value;
    assert Outcome(e, loop, i) == Ok(r);
    RecordKeeps(e, w, i, RESULT_INDEX, EncodeResult(e.codecs, r).value, Done(r));
  }

  lemma FailKeeps(e: Program, w: World, i: nat)
    requires Consistent(e, w) && StepFail(e, w, i).Some?
    ensures Consistent(e, StepFail(e, w, i).value)
  {
    hide StoreOk, ProcessOk, EncodeResult, EncodeFailure, Record, HistoryOk, At, Consistent, LoopOk;
    RunningAt(e, w);
    var loop, task := w.process.loop, w.process.loop.tasks[i];
    var before := WritesOf(w.store, w.process.current.snap.id);
    assert SlotOk(e, loop, before, i, Fresh) && TaskWritesOk(e, loop, before, i);
    var f := Attempt(e, loop, i, Fresh).error;
    RecordKeeps(e, w, i, FAILURE_INDEX, EncodeFailure(e.codecs, task.node, f).value, Handling(Failure(task.node, f)));
  }

  lemma {:induction false} SlotsGiveResults(e: Program, loop: Loop, n: nat, results: seq<TaskResult>)
    requires n == |results| <= |loop.tasks|
    requires forall i :: 0 <= i < n ==> Outcome(e, loop, i) == Ok(results[i])
    ensures RunTasks(e, loop.tasks[..n], loop.step, loop.state) == Ok(results)
  {
    hide RunTask;
    if n > 0 {
      SlotsGiveResults(e, loop, n - 1, results[..n - 1]);
      assert loop.tasks[..n][..n - 1] == loop.tasks[..n - 1];
      assert results[..n - 1] + [results[n - 1]] == results;
    }
  }

  /** The results collected in any completion order are those of running the tasks one after the other. */
  lemma CollectedResults(e: Program, w: World)
    requires Consistent(e, w) && w.process.Running? && AllDone(w.process.slots).Some?
    ensures var p := w.process;
            RunTasks(e, p.loop.tasks, p.loop.step, p.loop.state) == Ok(AllDone(p.slots).value)
  {
    hide RunTask, StoreOk, ProcessOk, Consistent, At, HistoryOk, LoopOk;
    RunningAt(e, w);
    var loop, writes := w.process.loop, WritesOf(w.store, w.process.current.snap.id);
    var results := AllDone(w.process.slots).value;
    forall i | 0 <= i < |results| ensures Outcome(e, loop, i) == Ok(results[i]) {
      assert SlotOk(e, loop, writes, i, w.process.slots[i]);
    }
    SlotsGiveResults(e, loop, |results|, results);
    assert loop.tasks[..|loop.tasks|] == loop.tasks;
  }

  // ----- A further checkpoint -----

  /** Nothing happened to the history but that a run may have begun on a further input. */
  ghost predicate Prolongs(h: History, h': History)
  {
    h.inputs <= h'.inputs && h'.reread == h.reread
  }

  lemma ChainBegins(e: Program, h: History, link: Link)
    requires h.reread == {} && First(e, h, link.c.snap.id) == Ok(link)
    ensures HistoryOk(e, h, [link.c]) && LastLink(e, h, [link.c]) == link
  {
    hide First;
    assert Ids([link.c]) == [link.c.snap.id];
  }

  lemma ChainGrows(e: Program, h: History, saved: seq<Checkpoint>, h': History, link: Link)
    requires saved != [] && HistoryOk(e, h, saved) && Prolongs(h, h')
    requires forall k :: 0 <= k < |saved| ==> saved[k].snap.id < link.c.snap.id
    requires Successor(e, h', LastLink(e, h, saved), link.c.snap.id) == Ok(link)
    ensures HistoryOk(e, h', saved + [link.c]) && LastLink(e, h', saved + [link.c]) == link
  {
    hide Successor, First, Loaded;
    var grown, n := saved + [link.c], |saved|;
    assert Ids(grown)[..n] == Ids(saved);
    forall k | 0 <= k < n ensures ChainAt(e, h', Ids(grown), k) == ChainAt(e, h, Ids(saved), k) {
      ChainPrefix(e, h', Ids(grown), n, k);
      ChainKeeps(e, h, h', Ids(saved), k);
    }
    assert n !in h'.reread;
    assert Loaded(e, h', link, n) == Ok(link) by { NotReread(e, h', link, n); }
  }

  lemma NotReread(e: Program, h: History, link: Link, k: nat)
    requires k !in h.reread
    ensures Loaded(e, h, link, k) == Ok(link)
  {
  }

  /** A new checkpoint starts without writes. */
  lemma NewCheckpointClean(store: Store, c: Checkpoint)
    requires NewId(store, c.snap.id) && WritesFiled(store)
    ensures var after := store.(saved := store.saved + [c]);
            WritesOf(after, c.snap.id) == map[] && WritesFiled(after)
  {
    var after := store.(saved := store.saved + [c]);
    forall x | x in store.writes ensures exists k :: 0 <= k < |after.saved| && after.saved[k].snap.id == x {
      var k :| 0 <= k < |store.saved| && store.saved[k].snap.id == x;
      assert after.saved[k].snap.id == x;
    }
  }

  lemma FreshSlotsOk(e: Program, loop: Loop)
    ensures WritesOk(e, loop, map[]) && SlotsOk(e, loop, map[], FreshSlots(loop))
  {
  }

  /** Putting the next checkpoint of the chain and going on from it keeps the invariant. */
  lemma OpenedKeeps(e: Program, w: World, link: Link, h: History)
    requires WritesFiled(w.store) && NewId(w.store, link.c.snap.id)
    requires HistoryOk(e, h, w.store.saved + [link.c]) && LastLink(e, h, w.store.saved + [link.c]) == link
    requires LinkOk(e, link) && link.runs == |h.inputs|
    ensures Consistent(e, Opened(w, link, h))
  {
    hide HistoryOk, LinkOk, WritesOk, SlotsOk, NewId, WritesFiled, FreshSlots, WritesOf, Consistent;
    NewCheckpointClean(w.store, link.c);
    FreshSlotsOk(e, link.loop);
    assert Last(w.store.saved + [link.c]) == link.c;
    ConsistentAt(e, Opened(w, link, h));
  }

  lemma StartKeeps(e: Program, w: World, input: State, id: Id)
    requires DurableProgram(e) && Consistent(e, w) && StepStart(e, w, input, id).Some?
    ensures Consistent(e, StepStart(e, w, input, id).value)
  {
    hide Enter, DurableProgram, LinkOk, Opened, HistoryOk, LastLink, LastOk;
    var h := w.history.(inputs := w.history.inputs + [input]);
    var link := Begin(e, input, id).value;
    assert w.store.saved == [] && NewId(w.store, id) && [] + [link.c] == [link.c];
    assert HistoryOk(e, w.history, []) && WritesFiled(w.store);
    assert w.history.inputs == [] && w.history.reread == {} by { EmptyHistory(e, w.history); }
    DurableOk(e);
    FirstLinks(e, h, id);
    ChainBegins(e, h, link);
    assert link.runs == 1 by { BeginRuns(e, input, id); }
    OpenedKeeps(e, w, link, h);
  }

  lemma EmptyHistory(e: Program, h: History)
    requires HistoryOk(e, h, [])
    ensures h.inputs == [] && h.reread == {}
  {
    assert forall j :: j !in h.reread;
  }

  lemma BeginRuns(e: Program, input: State, id: Id)
    requires Begin(e, input, id).Ok?
    ensures Begin(e, input, id).value.runs == 1
  {
    hide EntryTasks, Prepare;
  }

  lemma RenewRuns(e: Program, link: Link, input: State, id: Id)
    requires Renew(e, link, input, id).Ok?
    ensures Renew(e, link, input, id).value.runs == link.runs + 1
  {
    hide EntryTasks, Prepare;
  }

  /** A checkpoint that follows in the chain keeps the invariant. */
  lemma NextKeeps(e: Program, w: World, link: Link, h: History, next: Link)
    requires DurableProgram(e) && At(e, w, link) && Prolongs(w.history, h) && NewId(w.store, next.c.snap.id)
    requires Successor(e, h, link, next.c.snap.id) == Ok(next) && next.runs == |h.inputs|
    ensures Consistent(e, Opened(w, next, h))
  {
    hide DurableProgram, HistoryOk, LinkOk, Opened, Consistent, Successor, WritesFiled, LastOk, ProcessOk, Prolongs;
    DurableOk(e);
    LastLinkOk(e, w, link);
    SuccessorLinks(e, h, link, next.c.snap.id);
    NewIdAbove(w.store, next.c.snap.id);
    ChainGrows(e, w.history, w.store.saved, h, next);
    OpenedKeeps(e, w, next, h);
  }

  lemma NewIdAbove(store: Store, id: Id)
    requires NewId(store, id)
    ensures forall k :: 0 <= k < |store.saved| ==> store.saved[k].snap.id < id
  {
  }

  lemma CommitKeeps(e: Program, w: World, id: Id)
    requires DurableProgram(e) && Consistent(e, w) && StepCommit(e, w, id).Some?
    ensures Consistent(e, StepCommit(e, w, id).value)
  {
    hide CommitStep, DurableProgram, RunTasks, HistoryOk, At, Committed, WritesOk, SlotsOk, LoopOk, NewId, Opened, Consistent;
    RunningAt(e, w);
    var link := LastLink(e, w.history, w.store.saved);
    var results := AllDone(w.process.slots).value;
    CollectedResults(e, w);
    var c := CommitStep(e, link.c.snap, link.loop, results, id).value;
    CommitParts(e, link.c.snap, link.loop, results, id);
    LastLinkOk(e, w, link);
    var next := Link(c, Committed(e, link.loop, results, c), |w.history.inputs|);
    assert Advance(e, link, id) == Ok(next);
    assert Successor(e, w.history, link, id) == Ok(next);
    assert c.snap.id == id by { DurableOk(e); SuccessorLinks(e, w.history, link, id); }
    NextKeeps(e, w, link, w.history, next);
  }

  lemma RenewKeeps(e: Program, w: World, input: State, id: Id)
    requires DurableProgram(e) && Consistent(e, w) && StepRenew(e, w, input, id).Some?
    ensures Consistent(e, StepRenew(e, w, input, id).value)
  {
    hide Enter, Restore, DurableProgram, HistoryOk, WritesFiled, LinkOk, LastOk, NewId, Latest, Opened, Consistent, Stored;
    ConsistentAt(e, w);
    var link := LastLink(e, w.history, w.store.saved);
    var back, idle := link.(loop := Stored(e, link)), w.(process := Idle, history := Revisited(w.history, w.store.saved));
    RereadKeeps(e, w, link);
    LatestFound(e, w, link);
    LastLinkOk(e, w, link);
    var h := Revisited(w.history, w.store.saved).(inputs := w.history.inputs + [input]);
    var next := Renew(e, back, input, id).value;
    RenewRuns(e, back, input, id);
    assert Successor(e, h, back, id) == Ok(next);
    assert next.c.snap.id == id by { DurableOk(e); LastLinkOk(e, idle, back); SuccessorLinks(e, h, back, id); }
    NextKeeps(e, idle, back, h, next);
    assert Opened(w, next, h) == Opened(idle, next, h) by { OpenedStore(w, idle, next, h); }
  }

  lemma OpenedStore(w: World, w': World, link: Link, h: History)
    requires w.store == w'.store
    ensures Opened(w, link, h) == Opened(w', link, h)
  {
  }

  lemma StepKeeps(e: Program, w: World, move: Move)
    requires DurableProgram(e) && Consistent(e, w) && Step(e, w, move).Some?
    ensures Consistent(e, Step(e, w, move).value)
  {
    hide StepStart, StepRenew, StepFail, StepFinish, StepCommit, StoreOk, ProcessOk, DurableProgram;
    match move {
      case Start(input, id) => StartKeeps(e, w, input, id);
      case Renewed(input, id) => RenewKeeps(e, w, input, id);
      case Recover => RecoverKeeps(e, w);
      case Fail(i) => FailKeeps(e, w, i);
      case Finish(i) => FinishKeeps(e, w, i);
      case Advanced(id) => CommitKeeps(e, w, id);
      case Return =>
      case Crash =>
    }
  }

  lemma {:induction false} RunKeeps(e: Program, w: World, moves: seq<Move>)
    requires DurableProgram(e) && Consistent(e, w) && Run(e, w, moves).Some?
    ensures Consistent(e, Run(e, w, moves).value)
  {
    hide Step, Consistent;
    if moves != [] {
      RunKeeps(e, w, moves[..|moves| - 1]);
      StepKeeps(e, Run(e, w, moves[..|moves| - 1]).value, moves[|moves| - 1]);
    }
  }
}
