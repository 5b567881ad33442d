/**
  Two small graphs whose node b listens to a channel that never changes: one run ends with
  its deferred node pending, and one thread loses the work of its second run in a crash.
*/
module ChannelExamples {
  import opened Prelude
  import opened Graphs
  import opened Routing
  import opened Envelopes
  import opened Versions
  import opened Engine
  import opened EngineFacts
  import opened Recovery
  import opened RecoveryFacts
  import opened RecoveryTheorems
  import opened Stranding

  const X := "x"

  /** START leads to b, b to a, and a back to b and to the deferred node d. */
  const LOOP_PLAN: Plan :=
    Plan({"a", "b", "d"}, map[START := ["b"], "b" := ["a"], "a" := ["b", "d"]], map[], [], map[], {"d"})

  /** START leads to b, and b ends the run. */
  const LINE_PLAN: Plan := Plan({"b"}, map[START := ["b"], "b" := [END]], map[], [], map[], {})

  /** What the examples leave open: the codecs, the value of channel x, the update of a node and its effect. */
  datatype Parts = Parts(codecs: Codecs, value: EncodedValue, delta: Delta, next: State -> State)

  ghost predicate PartsOk(parts: Parts)
  {
    Lossless(parts.codecs.state) && Lossless(parts.codecs.delta) && Lossless(parts.codecs.fault)
  }

  function ListensToX(n: NodeId): seq<string>
  {
    if n == "b" then [X] else []
  }

  function Update(parts: Parts): Command
  {
    Command(Some(parts.delta), None, [])
  }

  /** Every node reads x and updates the state, b is triggered by x, and a new run keeps the state it finds. */
  function Listening(plan: Plan, parts: Parts): Program
  {
    Program(plan, parts.codecs,
            (n: NodeId, id: string, step: nat, s: State) => Ok(Update(parts)),
            map[],
            (n: NodeId, id: string, step: nat, s: State, f: Failure) => Err(f.fault),
            (s: State, deltas: seq<Delta>) => Ok(parts.next(s)),
            (s: State, input: State) => Ok(s),
            (s: State) => Ok(map[X := parts.value]),
            (n: NodeId) => [X],
            ListensToX,
            25)
  }

  lemma ListeningDurable(plan: Plan, parts: Parts)
    requires PartsOk(parts) && plan in [LOOP_PLAN, LINE_PLAN]
    ensures DurableProgram(Listening(plan, parts)) && TriggersAreRead(Listening(plan, parts))
  {
    var e := Listening(plan, parts);
    forall f: Fault
      ensures e.codecs.fault.encode(f).Ok? && e.codecs.fault.decode(e.codecs.fault.encode(f).value) == Ok(f)
    {
    }
    assert PlanClosed(plan);
  }

  // ----- One task, one step -----

  /** The only task of a super-step completes and the step is committed. */
  lemma OneTask(e: Program, w: World, t: Task, cmd: Command, id: Id)
    requires w.process.Running? && w.process.loop.tasks == [t] && w.process.slots == [Fresh]
    requires w.process.loop.step < e.recursionLimit && NewId(w.store, id)
    requires e.invoke(t.node, t.id, w.process.loop.step, TaskState(t, w.process.loop.state)) == Ok(cmd)
    requires EncodeResult(e.codecs, TaskResult(t.node, t.id, cmd, "")).Ok?
    requires CommitStep(e, w.process.current.snap, w.process.loop, [TaskResult(t.node, t.id, cmd, "")], id).Ok?
    ensures Run(e, w, [Finish(0), Advanced(id)]).Some?
    ensures var results := [TaskResult(t.node, t.id, cmd, "")];
            var c := CommitStep(e, w.process.current.snap, w.process.loop, results, id).value;
            var w' := Run(e, w, [Finish(0), Advanced(id)]).value;
            && Reduced(e, w.process.loop.state, results).Ok?
            && NextTasks(e.plan, w.process.loop.step, results, Reduced(e, w.process.loop.state, results).value, w.process.loop.waiting).Ok?
            && w'.process == Running(c, Committed(e, w.process.loop, results, c), FreshSlots(Committed(e, w.process.loop, results, c)))
            && w'.store.saved == w.store.saved + [c] && w'.history == w.history
  {
    hide CommitStep, Committed, TaskState, Reduced, NextTasks, Run, StepFinish;
    var result := TaskResult(t.node, t.id, cmd, "");
    CommitParts(e, w.process.current.snap, w.process.loop, [result], id);
    OneFinishes(e, w, t, cmd);
    OneCommits(e, StepFinish(e, w, 0).value, result, id);
    RunBoth(e, w, Finish(0), Advanced(id));
  }

  lemma OneFinishes(e: Program, w: World, t: Task, cmd: Command)
    requires w.process.Running? && w.process.loop.tasks == [t] && w.process.slots == [Fresh] && w.process.loop.step < e.recursionLimit
    requires e.invoke(t.node, t.id, w.process.loop.step, TaskState(t, w.process.loop.state)) == Ok(cmd)
    requires EncodeResult(e.codecs, TaskResult(t.node, t.id, cmd, "")).Ok?
    ensures StepFinish(e, w, 0).Some?
    ensures var w', done := StepFinish(e, w, 0).value, Done(TaskResult(t.node, t.id, cmd, ""));
            w'.process == w.process.(slots := [done]) && w'.store.saved == w.store.saved && w'.history == w.history
  {
    hide EncodeResult, TaskState;
    assert w.process.slots[0 := Done(TaskResult(t.node, t.id, cmd, ""))] == [Done(TaskResult(t.node, t.id, cmd, ""))];
  }

  lemma OneCommits(e: Program, w: World, result: TaskResult, id: Id)
    requires w.process.Running? && w.process.loop.tasks != [] && w.process.slots == [Done(result)]
    requires w.process.loop.step < e.recursionLimit && NewId(w.store, id)
    requires CommitStep(e, w.process.current.snap, w.process.loop, [result], id).Ok?
    requires Reduced(e, w.process.loop.state, [result]).Ok?
    requires NextTasks(e.plan, w.process.loop.step, [result], Reduced(e, w.process.loop.state, [result]).value, w.process.loop.waiting).Ok?
    ensures var c := CommitStep(e, w.process.current.snap, w.process.loop, [result], id).value;
            StepCommit(e, w, id) == Some(Opened(w, Link(c, Committed(e, w.process.loop, [result], c), |w.history.inputs|), w.history))
  {
    hide CommitStep, Committed, Reduced, NextTasks, Opened;
    assert AllDone(w.process.slots).value == [result];
  }

  // ----- Routing -----

  /** Static edges only. */
  predicate Plain(p: Plan)
  {
    p.branches == map[] && p.waitingEdges == [] && p.sendBranches == map[]
  }

  function After(p: Plan, node: NodeId, w: Barriers): Routed
  {
    AddRoutes(p, Routed([], map[], w), DirectRoutes(if node in p.edges then p.edges[node] else []))
  }

  /** An ordinary node that was not scheduled yet. */
  lemma Schedules(p: Plan, route: Route, w: Barriers)
    requires route.node != END && route.node !in p.deferred
    ensures AddRoute(p, Routed([], map[], w), route) == Routed([route.node], map[route.node := [route.trigger]], w)
  {
    var none: seq<NodeId> := [];
    assert AppendUnique(none, route.node) == [route.node] && AppendUnique(none, route.trigger) == [route.trigger];
    assert TriggersOf(map[], route.node) == none;
  }

  lemma PlainRoutes(p: Plan, node: NodeId, state: State)
    requires Plain(p)
    ensures DefaultRoutes(p, node, state) == Ok(DirectRoutes(if node in p.edges then p.edges[node] else []))
  {
    var routes := DirectRoutes(if node in p.edges then p.edges[node] else []);
    assert BranchRoutes(node, [], state) == Ok([]);
    assert routes + [] == routes;
  }

  lemma PlainEntry(p: Plan, step: nat, state: State, w: Barriers)
    requires Plain(p) && After(p, START, w).next != []
    ensures EntryTasks(p, step, state, w)
         == Ok(Scheduled(EdgeTasks(step, After(p, START, w).next, After(p, START, w).triggers), After(p, START, w).waiting))
  {
    hide AddRoutes, DefaultRoutes, TaskId;
    PlainRoutes(p, START, state);
  }

  lemma PlainStep(p: Plan, step: nat, result: TaskResult, state: State, w: Barriers)
    requires Plain(p) && result.cmd.goto == None && result.cmd.sends == []
    ensures var routed := After(p, result.OutputNode(), w);
            NextTasks(p, step, [result], state, w) ==
            Ok(if routed.next == [] then Release(p, step + 1, routed.waiting)
               else Scheduled(EdgeTasks(step + 1, routed.next, routed.triggers), routed.waiting))
  {
    hide AddRoutes, DefaultRoutes, TaskId, Release;
    PlainRoutes(p, result.OutputNode(), state);
    var routed, none: seq<Send> := After(p, result.OutputNode(), w), [];
    assert [result][..0] == [];
    var routes := DefaultRoutes(p, result.OutputNode(), state).value;
    assert [] + routes == routes;
    assert AllRoutes(p, [result], state) == Ok(routes);
    assert none + none == none && ResultSends(p, result, state) == Ok(none);
    assert AllSends(p, [result], state) == Ok(none);
    assert Resolve(p, [result], state, w) == Ok(routed);
    assert PushTasks(step + 1, EdgeTasks(step + 1, routed.next, routed.triggers), none)
        == EdgeTasks(step + 1, routed.next, routed.triggers);
  }

  lemma AfterOne(p: Plan, node: NodeId, target: NodeId, w: Barriers)
    requires node in p.edges && p.edges[node] == [target]
    ensures After(p, node, w) == AddRoute(p, Routed([], map[], w), Route(target, BranchTo(target)))
  {
    var start, route := Routed([], map[], w), Route(target, BranchTo(target));
    assert DirectRoutes([target]) == [route];
    assert [route][..0] == [];
    assert AddRoutes(p, start, []) == start;
  }

  lemma AfterTwo(p: Plan, node: NodeId, a: NodeId, b: NodeId, w: Barriers)
    requires node in p.edges && p.edges[node] == [a, b]
    ensures After(p, node, w)
         == AddRoute(p, AddRoute(p, Routed([], map[], w), Route(a, BranchTo(a))), Route(b, BranchTo(b)))
  {
    var start, first, second := Routed([], map[], w), Route(a, BranchTo(a)), Route(b, BranchTo(b));
    assert DirectRoutes([a, b]) == [first, second];
    assert [first, second][..1] == [first] && [first][..0] == [];
    assert AddRoutes(p, start, []) == start;
    assert AddRoutes(p, start, [first]) == AddRoute(p, start, first);
  }

  // ----- The versions of x -----

  /** x has its only value since checkpoint id. */
  predicate Since(parts: Parts, s: Snapshot, id: Id)
  {
    X in s.values && s.values[X] == parts.value && X in s.versions && s.versions[X] == id
  }

  /** b last ran when x was as of checkpoint id. */
  predicate SeenSince(s: Snapshot, id: Id)
  {
    "b" in s.seen && X in s.seen["b"] && s.seen["b"][X] == id
  }

  lemma XStays(plan: Plan, parts: Parts, prev: Snapshot, state: State, tasks: seq<Task>, step: SuperStep, w: Barriers, ran: seq<NodeId>, id: Id)
    requires PartsOk(parts) && (forall t :: t in tasks ==> t.input == None && t.node in plan.nodes)
    ensures var r := Prepare(Listening(plan, parts), prev, state, tasks, step, w, ran, id);
            && r.Ok? && r.value.snap.id == id && r.value.step == step
            && (prev == EMPTY ==> Since(parts, r.value.snap, id))
            && (forall first :: Since(parts, prev, first) ==>
                  Since(parts, r.value.snap, first) && (SeenSince(prev, first) || "b" in ran ==> SeenSince(r.value.snap, first)))
  {
    hide FreshTasks, SaveWaiting, TaskId;
    var e := Listening(plan, parts);
    assert e.codecs.state.encode(state).Ok?;
    var values := ChannelValues(e, state).value;
    assert X != STATE_CHANNEL && values[X] == parts.value;
    TasksRoundTrip(e, FreshTasks(e.triggers, Commit(e.readSet, prev, values, ran, id), tasks));
  }

  lemma BIsStale(parts: Parts, plan: Plan, s: Snapshot, first: Id, tasks: seq<Task>)
    requires Since(parts, s, first) && SeenSince(s, first) && forall t :: t in tasks ==> t.node == "b"
    ensures FreshTasks(Listening(plan, parts).triggers, s, tasks) == []
  {
    NothingFresh(Listening(plan, parts).triggers, s, tasks);
  }

  // ----- One move of the examples -----

  function Outcome(parts: Parts, t: Task): TaskResult
  {
    TaskResult(t.node, t.id, Update(parts), "")
  }

  /** s follows prev, and its step ran the nodes in ran. */
  ghost predicate Follows(parts: Parts, prev: Snapshot, s: Snapshot, ran: seq<NodeId>)
  {
    forall first :: Since(parts, prev, first) ==>
      Since(parts, s, first) && (SeenSince(prev, first) || "b" in ran ==> SeenSince(s, first))
  }

  predicate Inputless(plan: Plan, tasks: seq<Task>)
  {
    forall t :: t in tasks ==> t.input == None && t.node in plan.nodes
  }

  /** The process is about to run one task of the given super-step. */
  ghost predicate Ready(w: World, t: Task, state: State, step: nat, waiting: Barriers)
  {
    && w.process.Running? && w.process.loop == Loop(state, [t], step, waiting) && w.process.slots == [Fresh]
    && w.store.saved != [] && Last(w.store.saved) == w.process.current
  }

  lemma StepOfOne(plan: Plan, parts: Parts, w: World, t: Task, scheduled: Scheduled, id: Id) returns (w': World)
    requires PartsOk(parts) && w.process.Running? && t.input == None
    requires Ready(w, t, w.process.loop.state, w.process.loop.step, w.process.loop.waiting)
    requires w.process.loop.step < 25 && NewId(w.store, id) && Inputless(plan, scheduled.tasks)
    requires NextTasks(plan, w.process.loop.step, [Outcome(parts, t)], parts.next(w.process.loop.state), w.process.loop.waiting) == Ok(scheduled)
    ensures Run(Listening(plan, parts), w, [Finish(0), Advanced(id)]) == Some(w')
    ensures w'.process.Running? && w'.process.current.snap.id == id && Follows(parts, w.process.current.snap, w'.process.current.snap, [t.node])
    ensures w'.process.loop == Loop(parts.next(w.process.loop.state), FreshTasks(ListensToX, w'.process.current.snap, scheduled.tasks),
                                    w.process.loop.step + 1, scheduled.waiting)
    ensures w'.process.slots == FreshSlots(w'.process.loop)
    ensures w'.store.saved == w.store.saved + [w'.process.current] && w'.history == w.history
  {
    hide NextTasks, Prepare, FreshTasks, Since, SeenSince, Run, FreshSlots, NewId;
    var e, loop, result := Listening(plan, parts), w.process.loop, Outcome(parts, t);
    ResultRoundTrip(e.codecs, result);
    assert [result][..0] == [] && Updates([result]) == [parts.delta] by { OneUpdate(result, parts.delta); }
    assert Reduced(e, loop.state, [result]) == Ok(parts.next(loop.state));
    assert OutputNodes([result]) == [t.node];
    XStays(plan, parts, w.process.current.snap, parts.next(loop.state), scheduled.tasks, loop.step, scheduled.waiting, [t.node], id);
    OneTask(e, w, t, Update(parts), id);
    w' := Run(e, w, [Finish(0), Advanced(id)]).value;
  }

  lemma OneUpdate(result: TaskResult, delta: Delta)
    requires result.cmd.update == Some(delta)
    ensures Updates([result]) == [delta]
  {
    assert [result][..0] == [] && Updates([]) == [];
    assert Updates([result]) == [] + [delta];
  }

  function EntryTask(step: nat): Task
  {
    Task("b", TaskId(step, 0, "b"), [BranchTo("b")], None)
  }

  /** Both graphs are entered through b. */
  lemma EntersB(plan: Plan, step: nat, state: State, w: Barriers)
    requires plan in [LOOP_PLAN, LINE_PLAN]
    ensures EntryTasks(plan, step, state, w) == Ok(Scheduled([EntryTask(step)], w))
  {
    hide TaskId, BranchTo;
    AfterOne(plan, START, "b", w);
    Schedules(plan, Route("b", BranchTo("b")), w);
    assert After(plan, START, w) == Routed(["b"], map["b" := [BranchTo("b")]], w);
    PlainEntry(plan, step, state, w);
    assert EdgeTasks(step, ["b"], map["b" := [BranchTo("b")]]) == [EntryTask(step)];
  }

  lemma Starts(plan: Plan, parts: Parts, s: State) returns (w: World)
    requires PartsOk(parts) && plan in [LOOP_PLAN, LINE_PLAN]
    ensures Run(Listening(plan, parts), NOTHING, [Start(s, 1)]) == Some(w)
    ensures Ready(w, EntryTask(0), s, 0, map[]) && Since(parts, w.process.current.snap, 1) && w.process.current.snap.id == 1
    ensures |w.store.saved| == 1 && w.history == History([s], {})
  {
    hide Prepare, EntryTasks, TaskId, Since, Run;
    var e := Listening(plan, parts);
    EntersB(plan, 0, s, map[]);
    XStays(plan, parts, EMPTY, s, [EntryTask(0)], -1, map[], [], 1);
    RunOne(e, NOTHING, Start(s, 1));
    w := StepStart(e, NOTHING, s, 1).value;
    assert FreshSlots(w.process.loop) == [Fresh];
  }

  // ----- A run that ends with deferred work -----

  lemma LoopRoutes()
    ensures After(LOOP_PLAN, "b", map[]) == Routed(["a"], map["a" := [BranchTo("a")]], map[])
    ensures After(LOOP_PLAN, "a", map[])
         == Routed(["b"], map["b" := [BranchTo("b")]], map[DeferredKey("d") := {BranchTo("d")}])
  {
    hide BranchTo, DeferredKey;
    AfterOne(LOOP_PLAN, "b", "a", map[]);
    Schedules(LOOP_PLAN, Route("a", BranchTo("a")), map[]);
    AfterTwo(LOOP_PLAN, "a", "b", "d", map[]);
    Schedules(LOOP_PLAN, Route("b", BranchTo("b")), map[]);
    assert {} + {BranchTo("d")} == {BranchTo("d")};
  }

  lemma BThenA(parts: Parts, state: State)
    ensures var a := Task("a", TaskId(1, 0, "a"), [BranchTo("a")], None);
            NextTasks(LOOP_PLAN, 0, [Outcome(parts, EntryTask(0))], state, map[]) == Ok(Scheduled([a], map[]))
  {
    hide TaskId, BranchTo, DeferredKey, After, NextTasks, Release;
    LoopRoutes();
    PlainStep(LOOP_PLAN, 0, Outcome(parts, EntryTask(0)), state, map[]);
    var a := Task("a", TaskId(1, 0, "a"), [BranchTo("a")], None);
    assert EdgeTasks(1, ["a"], map["a" := [BranchTo("a")]]) == [a];
  }

  lemma AThenBoth(parts: Parts, state: State, a: Task)
    requires a.node == "a"
    ensures var waiting := map[DeferredKey("d") := {BranchTo("d")}];
            NextTasks(LOOP_PLAN, 1, [Outcome(parts, a)], state, map[]) == Ok(Scheduled([EntryTask(2)], waiting))
  {
    hide TaskId, BranchTo, DeferredKey, After, NextTasks, Release;
    LoopRoutes();
    PlainStep(LOOP_PLAN, 1, Outcome(parts, a), state, map[]);
    assert EdgeTasks(2, ["b"], map["b" := [BranchTo("b")]]) == [EntryTask(2)];
  }

  /** b, then a, then nothing: b is dropped because x has not changed, and d never runs. */
  lemma StrandedRun(parts: Parts, s: State) returns (moves: seq<Move>, w: World)
    requires PartsOk(parts)
    ensures DurableProgram(Listening(LOOP_PLAN, parts)) && TriggersAreRead(Listening(LOOP_PLAN, parts))
    ensures Reaches(Listening(LOOP_PLAN, parts), moves, w) && Crash !in moves
    ensures Finished(w) && ReadyDeferred(LOOP_PLAN, w.process.loop.waiting) == {"d"}
  {
    hide TaskId, BranchTo, Run, NextTasks, Since, SeenSince, FreshTasks, DurableProgram, TriggersAreRead;
    var e := Listening(LOOP_PLAN, parts);
    ListeningDurable(LOOP_PLAN, parts);
    var w1 := Starts(LOOP_PLAN, parts, s);
    BThenA(parts, parts.next(s));
    var a := Task("a", TaskId(1, 0, "a"), [BranchTo("a")], None);
    var w2 := StepOfOne(LOOP_PLAN, parts, w1, EntryTask(0), Scheduled([a], map[]), 2);
    KeepsA(w2.process.current.snap, a);
    AThenBoth(parts, parts.next(parts.next(s)), a);
    var waiting := map[DeferredKey("d") := {BranchTo("d")}];
    assert FreshSlots(w2.process.loop) == [Fresh];
    w := StepOfOne(LOOP_PLAN, parts, w2, a, Scheduled([EntryTask(2)], waiting), 3);
    assert SeenSince(w2.process.current.snap, 1) && Since(parts, w2.process.current.snap, 1);
    BIsStale(parts, LOOP_PLAN, w.process.current.snap, 1, [EntryTask(2)]);
    assert ReadyDeferred(LOOP_PLAN, waiting) == {"d"};
    moves := [Start(s, 1)] + [Finish(0), Advanced(2)] + [Finish(0), Advanced(3)];
    RunConcat(e, NOTHING, [Start(s, 1)], [Finish(0), Advanced(2)]);
    RunConcat(e, NOTHING, [Start(s, 1)] + [Finish(0), Advanced(2)], [Finish(0), Advanced(3)]);
  }

  lemma KeepsA(now: Snapshot, a: Task)
    requires a.node == "a"
    ensures FreshTasks(ListensToX, now, [a]) == [a]
  {
    assert [a][..0] == [] && FreshTasks(ListensToX, now, []) == [];
    assert FreshTasks(ListensToX, now, [a]) == [] + [a];
  }

  // ----- A crash that loses a run -----

  lemma BEnds(parts: Parts, step: nat, state: State)
    ensures NextTasks(LINE_PLAN, step, [Outcome(parts, EntryTask(step))], state, map[]) == Ok(Scheduled([], map[]))
  {
    hide TaskId, BranchTo, NextTasks;
    AfterOne(LINE_PLAN, "b", END, map[]);
    PlainStep(LINE_PLAN, step, Outcome(parts, EntryTask(step)), state, map[]);
    assert ReadyDeferred(LINE_PLAN, map[]) == {};
    assert Release(LINE_PLAN, step + 1, map[]) == Scheduled([], map[]);
  }

  /** The second run of the thread begins with b in memory, and an empty checkpoint in the store. */
  lemma SecondRun(parts: Parts, s: State) returns (moves: seq<Move>, w: World)
    requires PartsOk(parts)
    ensures Reaches(Listening(LINE_PLAN, parts), moves, w) && Crash !in moves
    ensures Ready(w, EntryTask(2), parts.next(s), 2, map[]) && NewId(w.store, 4)
    ensures FreshTasks(ListensToX, w.process.current.snap, [EntryTask(2)]) == []
    ensures w.history == History([s, s], {1})
  {
    hide TaskId, BranchTo, Run, NextTasks, Since, SeenSince, FreshTasks, Prepare, EntryTasks, Restore;
    var e := Listening(LINE_PLAN, parts);
    var w1 := Starts(LINE_PLAN, parts, s);
    BEnds(parts, 0, parts.next(s));
    var w2 := StepOfOne(LINE_PLAN, parts, w1, EntryTask(0), Scheduled([], map[]), 2);
    var c := w2.process.current;
    assert w2.process.loop.tasks == [] by { NothingFresh(ListensToX, c.snap, []); }
    assert SeenSince(c.snap, 1) && Since(parts, c.snap, 1);
    RunConcat(e, NOTHING, [Start(s, 1)], [Finish(0), Advanced(2)]);
    ListeningDurable(LINE_PLAN, parts);
    var first := [Start(s, 1)] + [Finish(0), Advanced(2)];
    w := Renews(parts, first, w2, s);
    moves := first + [Return, Renewed(s, 3)];
  }

  /** The thread between its two runs. */
  ghost predicate Between(parts: Parts, w: World, s: State)
  {
    && w.process.Running? && w.process.loop == Loop(parts.next(s), [], 1, map[]) && |w.store.saved| == 2
    && w.process.current.snap.id == 2 && w.store.saved[0].snap.id == 1 && w.store.saved[1] == w.process.current
    && SeenSince(w.process.current.snap, 1) && Since(parts, w.process.current.snap, 1) && w.history == History([s], {})
  }

  lemma Renews(parts: Parts, first: seq<Move>, w2: World, s: State) returns (w: World)
    requires PartsOk(parts) && Reaches(Listening(LINE_PLAN, parts), first, w2) && Between(parts, w2, s)
    ensures Run(Listening(LINE_PLAN, parts), NOTHING, first + [Return, Renewed(s, 3)]) == Some(w)
    ensures Ready(w, EntryTask(2), parts.next(s), 2, map[]) && NewId(w.store, 4)
    ensures FreshTasks(ListensToX, w.process.current.snap, [EntryTask(2)]) == []
    ensures w.history == History([s, s], {1})
  {
    hide Run, Since, SeenSince, FreshTasks, Restore, DurableProgram, StepRenew, EntryTask, Ready, Listening, NewId;
    var e := Listening(LINE_PLAN, parts);
    ListeningDurable(LINE_PLAN, parts);
    FinishedReadsBack(e, first, w2);
    var idle := w2.(process := Idle);
    RenewStep(parts, idle, w2.process.current, s);
    w := StepRenew(e, idle, s, 3).value;
    RunBoth(e, w2, Return, Renewed(s, 3));
    RunConcat(e, NOTHING, first, [Return, Renewed(s, 3)]);
  }

  /** A finished run reads back from the store as it is in memory. */
  lemma FinishedReadsBack(e: Program, moves: seq<Move>, w: World)
    requires DurableProgram(e) && Reaches(e, moves, w) && Finished(w)
    ensures Restore(e, w.process.current) == Ok(w.process.loop)
  {
    hide FreshTasks, Restore, DurableProgram, Consistent, At, HistoryOk, LastLink, Reaches;
    ReachedConsistent(e, moves, w);
    RunningAt(e, w);
    var link := LastLink(e, w.history, w.store.saved);
    LastLinkOk(e, w, link);
    NothingFresh(e.triggers, link.c.snap, []);
  }

  lemma RenewStep(parts: Parts, w: World, c: Checkpoint, s: State)
    requires PartsOk(parts) && w.process.Idle? && Between(parts, w.(process := Running(c, Loop(parts.next(s), [], 1, map[]), [])), s)
    requires Restore(Listening(LINE_PLAN, parts), c) == Ok(Loop(parts.next(s), [], 1, map[]))
    ensures StepRenew(Listening(LINE_PLAN, parts), w, s, 3).Some?
    ensures var w' := StepRenew(Listening(LINE_PLAN, parts), w, s, 3).value;
            && Ready(w', EntryTask(2), parts.next(s), 2, map[]) && NewId(w'.store, 4)
            && FreshTasks(ListensToX, w'.process.current.snap, [EntryTask(2)]) == []
            && w'.history == History([s, s], {1})
  {
    hide TaskId, BranchTo, Since, SeenSince, FreshTasks, Prepare, EntryTasks, Restore;
    var e := Listening(LINE_PLAN, parts);
    EntersB(LINE_PLAN, 2, parts.next(s), map[]);
    XStays(LINE_PLAN, parts, c.snap, parts.next(s), [EntryTask(2)], 1, map[], [], 3);
    assert LatestIndex(w.store.saved) == 1 by { assert |w.store.saved[..1]| == 1; }
    var w' := StepRenew(e, w, s, 3).value;
    assert FreshSlots(w'.process.loop) == [Fresh];
    BIsStale(parts, LINE_PLAN, w'.process.current.snap, 1, [EntryTask(2)]);
  }

  /**
    The same thread with the same two inputs: left alone its second run executes b and updates the state again; if
    the process stops right after the second run's checkpoint was put, a restart finds nothing to run.
  */
  lemma CrashLosesRun(parts: Parts, s: State)
    returns (moves: seq<Move>, w: World, moves': seq<Move>, w': World)
    requires PartsOk(parts)
    ensures DurableProgram(Listening(LINE_PLAN, parts)) && TriggersAreRead(Listening(LINE_PLAN, parts))
    ensures Reaches(Listening(LINE_PLAN, parts), moves, w) && Reaches(Listening(LINE_PLAN, parts), moves', w')
    ensures Finished(w) && Finished(w') && w.history.inputs == w'.history.inputs == [s, s]
    ensures w.process.loop.state == parts.next(parts.next(s)) && w'.process.loop.state == parts.next(s)
  {
    hide TaskId, BranchTo, Run, NextTasks, FreshTasks, DurableProgram, TriggersAreRead, Consistent, At;
    var e := Listening(LINE_PLAN, parts);
    ListeningDurable(LINE_PLAN, parts);
    var before, mid := SecondRun(parts, s);
    BEnds(parts, 2, parts.next(parts.next(s)));
    w := StepOfOne(LINE_PLAN, parts, mid, EntryTask(2), Scheduled([], map[]), 4);
    assert w.process.loop.tasks == [] by { NothingFresh(ListensToX, w.process.current.snap, []); }
    moves := before + [Finish(0), Advanced(4)];
    RunConcat(e, NOTHING, before, [Finish(0), Advanced(4)]);
    ReachedConsistent(e, before, mid);
    RunningAt(e, mid);
    AfterCrash(e, mid);
    w' := Run(e, mid, [Crash, Recover]).value;
    assert w'.history.inputs == mid.history.inputs by { RestartKeepsInputs(e, mid); }
    moves' := before + [Crash, Recover];
    RunConcat(e, NOTHING, before, [Crash, Recover]);
  }

  lemma RestartKeepsInputs(e: Program, w: World)
    requires Run(e, w, [Crash, Recover]).Some?
    ensures Run(e, w, [Crash, Recover]).value.history.inputs == w.history.inputs
  {
    hide Restore, RestoreSlots, Latest;
    RunBoth(e, w, Crash, Recover);
  }
}
