/**
  What routing guarantees over whole runs: when a waiting edge fires, when a
  deferred node is released and with which triggers, and that saving and
  restoring the barriers between any two steps changes nothing.
*/
module RoutingRuns {
  import opened Prelude
  import opened Text
  import opened Graphs
  import opened Routing

  /** What Compile guarantees: AddNode rejects END, AddWaitingEdge numbers the edges. */
  ghost predicate PlanOk(p: Plan)
  {
    END !in p.deferred && WaitingEdgesOk(p.waitingEdges)
  }

  // ----- One step -----

  predicate Fires(edge: WaitingEdge, completed: set<NodeId>, barrier: set<NodeId>)
  {
    |Arrived(edge, completed, barrier)| == |edge.sources|
  }

  function NextBarrier(edge: WaitingEdge, completed: set<NodeId>, barrier: set<NodeId>): set<NodeId>
  {
    if Fires(edge, completed, barrier) then {} else Arrived(edge, completed, barrier)
  }

  /** The routes added by the waiting edges that fire, in edge order. */
  function FiredRoutes(edges: seq<WaitingEdge>, completed: set<NodeId>, w: Barriers): seq<Route>
  {
    if edges == [] then []
    else
      var edge := edges[|edges| - 1];
      FiredRoutes(edges[..|edges| - 1], completed, w) + EdgeRoutes(edge, completed, Pending(w, edge.id))
  }

  /** The triggers some routes hand to a node. */
  function Handed(routes: seq<Route>, node: NodeId): set<NodeId>
  {
    set r | r in routes && r.node == node :: r.trigger
  }

  lemma DeferredKeyApart(d: NodeId, d': NodeId)
    ensures DeferredKey(d) == DeferredKey(d') ==> d == d'
    ensures DEFERRED_PREFIX <= DeferredKey(d)
  {
    assert DeferredKey(d)[|DEFERRED_PREFIX|..] == d && DeferredKey(d')[|DEFERRED_PREFIX|..] == d';
  }

  lemma {:induction false} AddRoutesEdge(p: Plan, acc: Routed, routes: seq<Route>, id: string)
    requires !(DEFERRED_PREFIX <= id)
    ensures Pending(AddRoutes(p, acc, routes).waiting, id) == Pending(acc.waiting, id)
  {
    if routes != [] {
      AddRoutesEdge(p, acc, routes[..|routes| - 1], id);
      DeferredKeyApart(routes[|routes| - 1].node, "");
    }
  }

  lemma {:induction false} AddRoutesDeferred(p: Plan, acc: Routed, routes: seq<Route>, d: NodeId)
    requires END !in p.deferred && d in p.deferred
    ensures Pending(AddRoutes(p, acc, routes).waiting, DeferredKey(d))
         == Pending(acc.waiting, DeferredKey(d)) + Handed(routes, d)
  {
    hide AddRoute, Pending, Handed, DeferredKey;
    if routes == [] {
      HandedNothing(d);
      assert Pending(acc.waiting, DeferredKey(d)) + {} == Pending(acc.waiting, DeferredKey(d));
    } else {
      var init, last := routes[..|routes| - 1], routes[|routes| - 1];
      AddRoutesDeferred(p, acc, init, d);
      AddRouteDeferred(p, AddRoutes(p, acc, init), last, d);
      HandedAppend(init, [last], d);
      HandedOne(last, d);
      assert routes == init + [last];
    }
  }

  lemma HandedNothing(node: NodeId)
    ensures Handed([], node) == {}
  {
  }

  /** What a barrier map holds after one entry was replaced. */
  lemma PendingAfter(w: Barriers, key: string, entry: set<NodeId>, k: string)
    ensures Pending(SetPending(w, key, entry), k) == if k == key then entry else Pending(w, k)
  {
  }

  lemma AddRouteDeferred(p: Plan, acc: Routed, route: Route, d: NodeId)
    requires END !in p.deferred && d in p.deferred
    ensures Pending(AddRoute(p, acc, route).waiting, DeferredKey(d))
         == Pending(acc.waiting, DeferredKey(d)) + if route.node == d then {route.trigger} else {}
  {
    hide Pending, SetPending, DeferredKey;
    DeferredKeyApart(d, route.node);
    if route.node in p.deferred {
      var key := DeferredKey(route.node);
      PendingAfter(acc.waiting, key, Pending(acc.waiting, key) + {route.trigger}, DeferredKey(d));
    }
  }

  lemma HandedAppend(a: seq<Route>, b: seq<Route>, node: NodeId)
    ensures Handed(a + b, node) == Handed(a, node) + Handed(b, node)
  {
  }

  lemma {:induction false} AddRoutesAppend(p: Plan, acc: Routed, a: seq<Route>, b: seq<Route>)
    ensures AddRoutes(p, acc, a + b) == AddRoutes(p, AddRoutes(p, acc, a), b)
  {
    if b == [] {
      assert a + b == a;
    } else {
      AddRoutesAppend(p, acc, a, b[..|b| - 1]);
      assert (a + b)[..|a + b| - 1] == a + b[..|b| - 1];
    }
  }

  /** Scheduling does not look at the barriers: destinations and triggers depend on the routes only. */
  lemma {:induction false} AddRoutesSchedule(p: Plan, acc: Routed, acc': Routed, routes: seq<Route>)
    requires acc.next == acc'.next && acc.triggers == acc'.triggers
    ensures AddRoutes(p, acc, routes).next == AddRoutes(p, acc', routes).next
    ensures AddRoutes(p, acc, routes).triggers == AddRoutes(p, acc', routes).triggers
  {
    if routes != [] {
      AddRoutesSchedule(p, acc, acc', routes[..|routes| - 1]);
    }
  }

  function EdgeRoutes(edge: WaitingEdge, completed: set<NodeId>, barrier: set<NodeId>): seq<Route>
  {
    if Fires(edge, completed, barrier) then [Route(edge.target, WaitingTrigger(edge))] else []
  }

  lemma AddRoutesSingle(p: Plan, acc: Routed, route: Route)
    ensures AddRoutes(p, acc, [route]) == AddRoute(p, acc, route)
  {
    assert [route][..0] == [];
  }

  /** One edge: its own barrier is replaced, and its route is added when it fires. */
  lemma AddEdgeMeaning(p: Plan, edge: WaitingEdge, completed: set<NodeId>, acc: Routed)
    ensures var barrier := Pending(acc.waiting, edge.id);
            AddEdge(p, edge, completed, acc)
            == AddRoutes(p, acc.(waiting := SetPending(acc.waiting, edge.id, NextBarrier(edge, completed, barrier))),
                         EdgeRoutes(edge, completed, barrier))
  {
    var barrier := Pending(acc.waiting, edge.id);
    AddRoutesSingle(p, acc.(waiting := SetPending(acc.waiting, edge.id, {})), Route(edge.target, WaitingTrigger(edge)));
  }

  lemma AddEdgeSchedule(p: Plan, edge: WaitingEdge, completed: set<NodeId>, acc: Routed, acc': Routed)
    requires acc.next == acc'.next && acc.triggers == acc'.triggers
    ensures var routes := EdgeRoutes(edge, completed, Pending(acc.waiting, edge.id));
            && AddEdge(p, edge, completed, acc).next == AddRoutes(p, acc', routes).next
            && AddEdge(p, edge, completed, acc).triggers == AddRoutes(p, acc', routes).triggers
  {
    var barrier := Pending(acc.waiting, edge.id);
    var moved := acc.(waiting := SetPending(acc.waiting, edge.id, NextBarrier(edge, completed, barrier)));
    AddEdgeMeaning(p, edge, completed, acc);
    AddRoutesSchedule(p, moved, acc', EdgeRoutes(edge, completed, barrier));
  }

  lemma AddEdgeDeferred(p: Plan, edge: WaitingEdge, completed: set<NodeId>, acc: Routed, d: NodeId)
    requires !(DEFERRED_PREFIX <= edge.id) && END !in p.deferred && d in p.deferred
    ensures Pending(AddEdge(p, edge, completed, acc).waiting, DeferredKey(d))
         == Pending(acc.waiting, DeferredKey(d)) + Handed(EdgeRoutes(edge, completed, Pending(acc.waiting, edge.id)), d)
  {
    var barrier := Pending(acc.waiting, edge.id);
    var moved := acc.(waiting := SetPending(acc.waiting, edge.id, NextBarrier(edge, completed, barrier)));
    AddEdgeMeaning(p, edge, completed, acc);
    AddRoutesDeferred(p, moved, EdgeRoutes(edge, completed, barrier), d);
    DeferredKeyApart(d, d);
  }

  lemma AddEdgeBarrier(p: Plan, edge: WaitingEdge, completed: set<NodeId>, acc: Routed, id: string)
    requires !(DEFERRED_PREFIX <= id)
    ensures Pending(AddEdge(p, edge, completed, acc).waiting, id)
         == if id == edge.id then NextBarrier(edge, completed, Pending(acc.waiting, id)) else Pending(acc.waiting, id)
  {
    var barrier := Pending(acc.waiting, edge.id);
    var moved := acc.(waiting := SetPending(acc.waiting, edge.id, NextBarrier(edge, completed, barrier)));
    AddEdgeMeaning(p, edge, completed, acc);
    AddRoutesEdge(p, moved, EdgeRoutes(edge, completed, barrier), id);
  }

  /** The waiting pass adds exactly the routes of the edges that fire ... */
  lemma {:induction false} AddWaitingSchedule(p: Plan, edges: seq<WaitingEdge>, completed: set<NodeId>, acc: Routed)
    requires WaitingEdgesOk(edges)
    ensures AddWaiting(p, edges, completed, acc).next
         == AddRoutes(p, acc, FiredRoutes(edges, completed, acc.waiting)).next
    ensures AddWaiting(p, edges, completed, acc).triggers
         == AddRoutes(p, acc, FiredRoutes(edges, completed, acc.waiting)).triggers
  {
    hide AddEdge, Pending, EdgeRoutes;
    if edges == [] { return; }
    var init, edge := edges[..|edges| - 1], edges[|edges| - 1];
    var fired := FiredRoutes(init, completed, acc.waiting);
    AddWaitingSchedule(p, init, completed, acc);
    AddWaitingOthers(p, init, completed, acc, edge.id);
    AddEdgeSchedule(p, edge, completed, AddWaiting(p, init, completed, acc), AddRoutes(p, acc, fired));
    AddRoutesAppend(p, acc, fired, EdgeRoutes(edge, completed, Pending(acc.waiting, edge.id)));
  }

  /** ... hands their triggers to the deferred targets ... */
  lemma {:induction false} AddWaitingDeferred(p: Plan, edges: seq<WaitingEdge>, completed: set<NodeId>, acc: Routed, d: NodeId)
    requires WaitingEdgesOk(edges) && END !in p.deferred && d in p.deferred
    ensures Pending(AddWaiting(p, edges, completed, acc).waiting, DeferredKey(d))
         == Pending(acc.waiting, DeferredKey(d)) + Handed(FiredRoutes(edges, completed, acc.waiting), d)
  {
    hide AddEdge, Pending, Handed, EdgeRoutes, DeferredKey;
    if edges == [] {
      HandedNothing(d);
      assert Pending(acc.waiting, DeferredKey(d)) + {} == Pending(acc.waiting, DeferredKey(d));
      return;
    }
    var init, edge := edges[..|edges| - 1], edges[|edges| - 1];
    AddWaitingDeferred(p, init, completed, acc, d);
    AddWaitingOthers(p, init, completed, acc, edge.id);
    AddEdgeDeferred(p, edge, completed, AddWaiting(p, init, completed, acc), d);
    HandedAppend(FiredRoutes(init, completed, acc.waiting), EdgeRoutes(edge, completed, Pending(acc.waiting, edge.id)), d);
  }

  /** ... and updates each edge's own barrier. */
  lemma {:induction false} AddWaitingBarrier(p: Plan, edges: seq<WaitingEdge>, completed: set<NodeId>, acc: Routed, i: nat)
    requires WaitingEdgesOk(edges) && i < |edges|
    ensures Pending(AddWaiting(p, edges, completed, acc).waiting, edges[i].id)
         == NextBarrier(edges[i], completed, Pending(acc.waiting, edges[i].id))
  {
    hide NextBarrier, AddEdge, Pending;
    var init, edge := edges[..|edges| - 1], edges[|edges| - 1];
    AddEdgeBarrier(p, edge, completed, AddWaiting(p, init, completed, acc), edges[i].id);
    if i < |init| {
      AddWaitingBarrier(p, init, completed, acc, i);
    } else {
      AddWaitingOthers(p, init, completed, acc, edge.id);
    }
  }

  lemma {:induction false} AddWaitingOthers(p: Plan, edges: seq<WaitingEdge>, completed: set<NodeId>, acc: Routed, id: string)
    requires !(DEFERRED_PREFIX <= id)
    requires forall i :: 0 <= i < |edges| ==> edges[i].id != id
    ensures Pending(AddWaiting(p, edges, completed, acc).waiting, id) == Pending(acc.waiting, id)
  {
    if edges != [] {
      var init := edges[..|edges| - 1];
      AddWaitingOthers(p, init, completed, acc, id);
      AddEdgeBarrier(p, edges[|edges| - 1], completed, AddWaiting(p, init, completed, acc), id);
    }
  }

  /** All routes a step adds, in the order the code adds them. */
  function StepRoutes(p: Plan, results: seq<TaskResult>, state: State, w: Barriers): seq<Route>
  {
    match AllRoutes(p, results, state)
    case Err(_) => []
    case Ok(direct) => direct + FiredRoutes(p.waitingEdges, Completed(results), w)
  }

  /** A step schedules exactly its routes, in order and without repetition. */
  lemma ResolveSchedule(p: Plan, results: seq<TaskResult>, state: State, w: Barriers)
    requires PlanOk(p) && Resolve(p, results, state, w).Ok?
    ensures Resolve(p, results, state, w).value.next
         == AddRoutes(p, Routed([], map[], w), StepRoutes(p, results, state, w)).next
    ensures Resolve(p, results, state, w).value.triggers
         == AddRoutes(p, Routed([], map[], w), StepRoutes(p, results, state, w)).triggers
  {
    var direct := AllRoutes(p, results, state).value;
    var mid := AddRoutes(p, Routed([], map[], w), direct);
    forall i | 0 <= i < |p.waitingEdges|
      ensures Pending(w, p.waitingEdges[i].id) == Pending(mid.waiting, p.waitingEdges[i].id)
    {
      AddRoutesEdge(p, Routed([], map[], w), direct, p.waitingEdges[i].id);
    }
    FiredRoutesLocal(p.waitingEdges, Completed(results), w, mid.waiting);
    AddWaitingSchedule(p, p.waitingEdges, Completed(results), mid);
    AddRoutesAppend(p, Routed([], map[], w), direct, FiredRoutes(p.waitingEdges, Completed(results), w));
  }

  lemma ResolveEdge(p: Plan, results: seq<TaskResult>, state: State, w: Barriers, i: nat)
    requires PlanOk(p) && Resolve(p, results, state, w).Ok? && i < |p.waitingEdges|
    ensures var edge := p.waitingEdges[i];
            Pending(Resolve(p, results, state, w).value.waiting, edge.id)
            == NextBarrier(edge, Completed(results), Pending(w, edge.id))
  {
    var direct := AllRoutes(p, results, state).value;
    AddRoutesEdge(p, Routed([], map[], w), direct, p.waitingEdges[i].id);
    AddWaitingBarrier(p, p.waitingEdges, Completed(results), AddRoutes(p, Routed([], map[], w), direct), i);
  }

  lemma ResolveDeferred(p: Plan, results: seq<TaskResult>, state: State, w: Barriers, d: NodeId)
    requires PlanOk(p) && Resolve(p, results, state, w).Ok? && d in p.deferred
    ensures Pending(Resolve(p, results, state, w).value.waiting, DeferredKey(d))
         == Pending(w, DeferredKey(d)) + Handed(StepRoutes(p, results, state, w), d)
  {
    var direct := AllRoutes(p, results, state).value;
    var mid := AddRoutes(p, Routed([], map[], w), direct);
    AddRoutesDeferred(p, Routed([], map[], w), direct, d);
    forall i | 0 <= i < |p.waitingEdges|
      ensures Pending(w, p.waitingEdges[i].id) == Pending(mid.waiting, p.waitingEdges[i].id)
    {
      AddRoutesEdge(p, Routed([], map[], w), direct, p.waitingEdges[i].id);
    }
    FiredRoutesLocal(p.waitingEdges, Completed(results), w, mid.waiting);
    AddWaitingDeferred(p, p.waitingEdges, Completed(results), mid, d);
    HandedAppend(direct, FiredRoutes(p.waitingEdges, Completed(results), w), d);
  }

  lemma {:induction false} FiredRoutesLocal(edges: seq<WaitingEdge>, completed: set<NodeId>, w: Barriers, w': Barriers)
    requires forall i :: 0 <= i < |edges| ==> Pending(w, edges[i].id) == Pending(w', edges[i].id)
    ensures FiredRoutes(edges, completed, w) == FiredRoutes(edges, completed, w')
  {
    if edges != [] {
      FiredRoutesLocal(edges[..|edges| - 1], completed, w, w');
    }
  }

  // ----- Runs -----

  /** Everything that happens to a thread's barriers: steps, new runs, and a save followed by a restore. */
  datatype Event =
    | Stepped(step: nat, results: seq<TaskResult>, state: State)
    | Entered(taskStep: nat, state: State)
    | Reloaded

  function Happens(p: Plan, w: Barriers, event: Event): Result<Scheduled, RouteError>
  {
    match event
    case Stepped(step, results, state) => NextTasks(p, step, results, state, w)
    case Entered(taskStep, state) => EntryTasks(p, taskStep, state, w)
    case Reloaded => Ok(Scheduled([], RestoreWaiting(SaveWaiting(w, p.waitingEdges))))
  }

  /** `ws` records the barriers of a fresh thread before, between and after the events. */
  ghost predicate IsRun(p: Plan, events: seq<Event>, ws: seq<Barriers>)
  {
    && |ws| == |events| + 1 && ws[0] == map[]
    && forall k :: 0 <= k < |events| ==> Happens(p, ws[k], events[k]).Ok? && ws[k + 1] == Happens(p, ws[k], events[k]).value.waiting
  }

  function EventRoutes(p: Plan, w: Barriers, event: Event): seq<Route>
  {
    match event
    case Stepped(_, results, state) => StepRoutes(p, results, state, w)
    case Entered(_, state) => (match DefaultRoutes(p, START, state) case Ok(routes) => routes case Err(_) => [])
    case Reloaded => []
  }

  function EventCompleted(event: Event): set<NodeId>
  {
    match event
    case Stepped(_, results, _) => Completed(results)
    case _ => {}
  }

  /** No ordinary or Send task was scheduled, so the deferred nodes were released. */
  predicate Releases(p: Plan, w: Barriers, event: Event)
  {
    match event
    case Stepped(_, results, state) =>
      && Resolve(p, results, state, w).Ok? && AllSends(p, results, state).Ok?
      && Resolve(p, results, state, w).value.next == [] && AllSends(p, results, state).value == []
    case Entered(_, state) =>
      && DefaultRoutes(p, START, state).Ok?
      && AddRoutes(p, Routed([], map[], w), DefaultRoutes(p, START, state).value).next == []
    case Reloaded => false
  }

  lemma PushTasksLength(step: nat, tasks: seq<Task>, sends: seq<Send>)
    ensures |PushTasks(step, tasks, sends)| == |tasks| + |sends|
    ensures PushTasks(step, tasks, sends)[..|tasks|] == tasks
    ensures forall k :: |tasks| <= k < |tasks| + |sends| ==>
      PushTasks(step, tasks, sends)[k].input.Some? && PushTasks(step, tasks, sends)[k].id == TaskId(step, k, PushTasks(step, tasks, sends)[k].node)
  {
  }

  /** Every Send becomes one task, in order, with its own node and state and the push trigger. */
  lemma {:induction false} PushTasksExactly(step: nat, tasks: seq<Task>, sends: seq<Send>, k: nat)
    requires k < |sends|
    ensures |PushTasks(step, tasks, sends)| == |tasks| + |sends|
    ensures PushTasks(step, tasks, sends)[|tasks| + k]
         == Task(sends[k].node, TaskId(step, |tasks| + k, sends[k].node), [PUSH_TRIGGER], Some(sends[k].state))
  {
    hide TaskId;
    var init := sends[..|sends| - 1];
    PushTasksLength(step, tasks, init);
    if k < |init| {
      PushTasksExactly(step, tasks, init, k);
    }
  }

  function EventRouted(p: Plan, w: Barriers, event: Event): Routed
    requires Happens(p, w, event).Ok? && event != Reloaded
  {
    match event
    case Stepped(_, results, state) => Resolve(p, results, state, w).value
    case Entered(_, state) => AddRoutes(p, Routed([], map[], w), DefaultRoutes(p, START, state).value)
  }

  lemma HappensReleases(p: Plan, w: Barriers, event: Event)
    requires Happens(p, w, event).Ok? && event != Reloaded
    ensures Happens(p, w, event).value.waiting ==
            var before := EventRouted(p, w, event).waiting;
            if Releases(p, w, event) then before - DeferredKeys(ReadyDeferred(p, before)) else before
  {
    if event.Stepped? {
      var routed := EventRouted(p, w, event);
      PushTasksLength(event.step + 1, EdgeTasks(event.step + 1, routed.next, routed.triggers),
                      AllSends(p, event.results, event.state).value);
    }
  }

  /** One event, one edge: its barrier advances at steps and only there. */
  lemma HappensEdge(p: Plan, w: Barriers, event: Event, i: nat)
    requires PlanOk(p) && Happens(p, w, event).Ok? && event != Reloaded && i < |p.waitingEdges|
    ensures var edge := p.waitingEdges[i];
            Pending(Happens(p, w, event).value.waiting, edge.id)
            == if event.Stepped? then NextBarrier(edge, EventCompleted(event), Pending(w, edge.id)) else Pending(w, edge.id)
  {
    var id := p.waitingEdges[i].id;
    HappensReleases(p, w, event);
    match event {
      case Stepped(_, results, state) => ResolveEdge(p, results, state, w, i);
      case Entered(_, state) => AddRoutesEdge(p, Routed([], map[], w), DefaultRoutes(p, START, state).value, id);
    }
    var ready := ReadyDeferred(p, EventRouted(p, w, event).waiting);
    forall d | d in ready ensures DeferredKey(d) != id { DeferredKeyApart(d, d); }
  }

  /** One event, one deferred node: it accumulates its triggers until a release clears it. */
  lemma HappensDeferred(p: Plan, w: Barriers, event: Event, d: NodeId)
    requires PlanOk(p) && Happens(p, w, event).Ok? && event != Reloaded && d in p.deferred
    ensures Pending(EventRouted(p, w, event).waiting, DeferredKey(d))
         == Pending(w, DeferredKey(d)) + Handed(EventRoutes(p, w, event), d)
    ensures Pending(Happens(p, w, event).value.waiting, DeferredKey(d))
         == if Releases(p, w, event) then {} else Pending(w, DeferredKey(d)) + Handed(EventRoutes(p, w, event), d)
  {
    HappensReleases(p, w, event);
    match event {
      case Stepped(_, results, state) => ResolveDeferred(p, results, state, w, d);
      case Entered(_, state) => AddRoutesDeferred(p, Routed([], map[], w), DefaultRoutes(p, START, state).value, d);
    }
    var ready := ReadyDeferred(p, EventRouted(p, w, event).waiting);
    assert d in ready ==> DeferredKey(d) in DeferredKeys(ready);
    forall d' | d' in ready && DeferredKey(d') == DeferredKey(d) ensures d' == d { DeferredKeyApart(d, d'); }
  }

  // ----- The invariant between steps -----

  ghost predicate KnownKey(p: Plan, key: string)
  {
    (exists i :: 0 <= i < |p.waitingEdges| && key == p.waitingEdges[i].id) || (exists d :: d in p.deferred && key == DeferredKey(d))
  }

  ghost predicate KeysOk(p: Plan, w: Barriers)
  {
    forall key :: key in w ==> w[key] != {} && KnownKey(p, key)
  }

  /** Between steps the barrier of every edge is a strict subset of its sources. */
  ghost predicate BarriersOk(p: Plan, w: Barriers)
  {
    && KeysOk(p, w)
    && forall i :: 0 <= i < |p.waitingEdges| ==> Pending(w, p.waitingEdges[i].id) < Elements(p.waitingEdges[i].sources)
  }

  lemma {:induction false} AddRoutesKeys(p: Plan, acc: Routed, routes: seq<Route>)
    requires KeysOk(p, acc.waiting)
    ensures KeysOk(p, AddRoutes(p, acc, routes).waiting)
  {
    if routes != [] {
      AddRoutesKeys(p, acc, routes[..|routes| - 1]);
    }
  }

  lemma {:induction false} AddWaitingKeys(p: Plan, n: nat, completed: set<NodeId>, acc: Routed)
    requires KeysOk(p, acc.waiting) && n <= |p.waitingEdges|
    ensures KeysOk(p, AddWaiting(p, p.waitingEdges[..n], completed, acc).waiting)
  {
    hide KeysOk, AddEdge;
    if n > 0 {
      AddWaitingKeys(p, n - 1, completed, acc);
      assert p.waitingEdges[..n][..n - 1] == p.waitingEdges[..n - 1];
      AddEdgeKeys(p, n - 1, completed, AddWaiting(p, p.waitingEdges[..n - 1], completed, acc));
    }
  }

  lemma AddEdgeKeys(p: Plan, i: nat, completed: set<NodeId>, acc: Routed)
    requires KeysOk(p, acc.waiting) && i < |p.waitingEdges|
    ensures KeysOk(p, AddEdge(p, p.waitingEdges[i], completed, acc).waiting)
  {
    hide KeysOk, AddEdge, AddRoutes, EdgeRoutes, NextBarrier, SetPending;
    var edge := p.waitingEdges[i];
    var before := Pending(acc.waiting, edge.id);
    AddEdgeMeaning(p, edge, completed, acc);
    SetPendingKeys(p, acc.waiting, i, NextBarrier(edge, completed, before));
    AddRoutesKeys(p, acc.(waiting := SetPending(acc.waiting, edge.id, NextBarrier(edge, completed, before))), EdgeRoutes(edge, completed, before));
  }

  lemma SetPendingKeys(p: Plan, w: Barriers, i: nat, barrier: set<NodeId>)
    requires KeysOk(p, w) && i < |p.waitingEdges|
    ensures KeysOk(p, SetPending(w, p.waitingEdges[i].id, barrier))
  {
    assert KnownKey(p, p.waitingEdges[i].id);
  }

  lemma NextBarrierStrict(edge: WaitingEdge, completed: set<NodeId>, barrier: set<NodeId>)
    requires Distinct(edge.sources) && edge.sources != [] && barrier < Elements(edge.sources)
    ensures NextBarrier(edge, completed, barrier) < Elements(edge.sources)
    ensures Fires(edge, completed, barrier) <==> Elements(edge.sources) <= barrier + completed
  {
    DistinctSize(edge.sources);
    var arrived, all := Arrived(edge, completed, barrier), Elements(edge.sources);
    assert edge.sources[0] in all;
    assert arrived <= all;
    if |arrived| == |all| {
      SubsetOfSameSize(arrived, all);
    }
    if all <= barrier + completed {
      assert arrived == all;
    }
  }

  lemma SubsetOfSameSize<T>(a: set<T>, b: set<T>)
    requires a <= b && |a| == |b|
    ensures a == b
  {
    assert |b - a| == 0;
  }

  lemma BarriersKept(p: Plan, w: Barriers, event: Event)
    requires PlanOk(p) && BarriersOk(p, w) && Happens(p, w, event).Ok?
    ensures BarriersOk(p, Happens(p, w, event).value.waiting)
  {
    if event == Reloaded {
      RoundTrip(p, w);
      return;
    }
    KeysKept(p, w, event);
    hide KeysOk, Happens, NextBarrier, Pending, Elements;
    forall i | 0 <= i < |p.waitingEdges|
      ensures Pending(Happens(p, w, event).value.waiting, p.waitingEdges[i].id) < Elements(p.waitingEdges[i].sources)
    {
      HappensEdge(p, w, event, i);
      NextBarrierStrict(p.waitingEdges[i], EventCompleted(event), Pending(w, p.waitingEdges[i].id));
    }
  }

  lemma KeysKept(p: Plan, w: Barriers, event: Event)
    requires PlanOk(p) && KeysOk(p, w) && Happens(p, w, event).Ok? && event != Reloaded
    ensures KeysOk(p, Happens(p, w, event).value.waiting)
  {
    match event {
      case Stepped(_, results, state) =>
        var direct := AllRoutes(p, results, state).value;
        AddRoutesKeys(p, Routed([], map[], w), direct);
        AddWaitingKeys(p, |p.waitingEdges|, Completed(results), AddRoutes(p, Routed([], map[], w), direct));
        assert p.waitingEdges[..|p.waitingEdges|] == p.waitingEdges;
      case Entered(_, state) =>
        AddRoutesKeys(p, Routed([], map[], w), DefaultRoutes(p, START, state).value);
    }
    HappensReleases(p, w, event);
  }

  // ----- Checkpoint round trip -----

  lemma {:induction false} SaveEdgesOthers(w: Barriers, edges: seq<WaitingEdge>, key: string)
    requires forall i :: 0 <= i < |edges| ==> edges[i].id != key
    ensures key !in SaveEdges(w, edges)
  {
    hide Keep, Pending;
    if edges != [] {
      SaveEdgesOthers(w, edges[..|edges| - 1], key);
    }
  }

  /** An edge is saved with the sources its barrier holds, and not at all when it holds none. */
  lemma {:induction false} SaveEdgesAt(w: Barriers, edges: seq<WaitingEdge>, i: nat)
    requires i < |edges| && forall j, k :: 0 <= j < k < |edges| ==> edges[j].id != edges[k].id
    ensures var kept := Keep(edges[i].sources, Pending(w, edges[i].id));
            && (edges[i].id in SaveEdges(w, edges) <==> kept != [])
            && (kept != [] ==> SaveEdges(w, edges)[edges[i].id] == kept)
  {
    hide Keep, Pending;
    var init := edges[..|edges| - 1];
    if i < |init| {
      SaveEdgesAt(w, init, i);
    } else {
      SaveEdgesOthers(w, init, edges[i].id);
    }
  }

  /** Saving the barriers in a checkpoint and restoring them gives back the same barriers. */
  lemma RoundTrip(p: Plan, w: Barriers)
    requires PlanOk(p) && BarriersOk(p, w)
    ensures RestoreWaiting(SaveWaiting(w, p.waitingEdges)) == w
  {
    hide RestoreWaiting, SaveWaiting, Pending;
    var back := RestoreWaiting(SaveWaiting(w, p.waitingEdges));
    forall key ensures Pending(back, key) == Pending(w, key) {
      RoundTripKey(p, w, key);
    }
    NothingEmpty(SaveWaiting(w, p.waitingEdges));
    SameEntries(back, w);
  }

  lemma NothingEmpty(stored: map<string, seq<NodeId>>)
    ensures forall key :: key in RestoreWaiting(stored) ==> RestoreWaiting(stored)[key] != {}
  {
    forall key | key in RestoreWaiting(stored) ensures RestoreWaiting(stored)[key] != {} {
      assert stored[key][0] in RestoreWaiting(stored)[key];
    }
  }

  /** Maps without empty entries are equal when they hold the same under every key. */
  lemma SameEntries(a: Barriers, b: Barriers)
    requires (forall key :: key in a ==> a[key] != {}) && (forall key :: key in b ==> b[key] != {})
    requires forall key :: Pending(a, key) == Pending(b, key)
    ensures a == b
  {
    forall key ensures key in a <==> key in b {
      assert Pending(a, key) == Pending(b, key);
    }
    forall key | key in a ensures a[key] == b[key] {
      assert Pending(a, key) == Pending(b, key);
    }
  }

  lemma RoundTripKey(p: Plan, w: Barriers, key: string)
    requires PlanOk(p) && BarriersOk(p, w)
    ensures Pending(RestoreWaiting(SaveWaiting(w, p.waitingEdges)), key) == Pending(w, key)
  {
    if i :| 0 <= i < |p.waitingEdges| && p.waitingEdges[i].id == key {
      RoundTripEdge(p, w, i);
    } else {
      SaveEdgesOthers(w, p.waitingEdges, key);
      RoundTripDeferred(p, w, key);
    }
  }

  lemma RoundTripEdge(p: Plan, w: Barriers, i: nat)
    requires PlanOk(p) && BarriersOk(p, w) && i < |p.waitingEdges|
    ensures var key := p.waitingEdges[i].id;
            Pending(RestoreWaiting(SaveWaiting(w, p.waitingEdges)), key) == Pending(w, key)
  {
    hide KeysOk;
    var edge, key := p.waitingEdges[i], p.waitingEdges[i].id;
    SaveEdgesAt(w, p.waitingEdges, i);
    var kept := Keep(edge.sources, Pending(w, key));
    assert Pending(w, key) < Elements(edge.sources);
    assert Elements(kept) == Pending(w, key);
    assert key !in DeferredEntries(w);
  }

  lemma RoundTripDeferred(p: Plan, w: Barriers, key: string)
    requires KeysOk(p, w) && (forall i :: 0 <= i < |p.waitingEdges| ==> p.waitingEdges[i].id != key)
    requires key !in SaveEdges(w, p.waitingEdges)
    ensures Pending(RestoreWaiting(SaveWaiting(w, p.waitingEdges)), key) == Pending(w, key)
  {
    hide SaveEdges;
    if key in w {
      var d :| d in p.deferred && key == DeferredKey(d);
      DeferredKeyApart(d, d);
      assert key in DeferredEntries(w) && SaveWaiting(w, p.waitingEdges)[key] == Sorted(w[key]);
      assert Sorted(w[key]) != [] && Elements(Sorted(w[key])) == w[key];
    }
  }

  /** A thread starts with empty barriers. */
  lemma NoBarriers(p: Plan)
    requires PlanOk(p)
    ensures BarriersOk(p, map[])
  {
    assert forall i :: 0 <= i < |p.waitingEdges| ==> p.waitingEdges[i].sources[0] in Elements(p.waitingEdges[i].sources);
  }

  lemma {:induction false} RunBarriers(p: Plan, events: seq<Event>, ws: seq<Barriers>, n: nat)
    requires PlanOk(p) && IsRun(p, events, ws) && n <= |events|
    ensures BarriersOk(p, ws[n])
  {
    if n == 0 {
      NoBarriers(p);
    } else {
      RunBarriers(p, events, ws, n - 1);
      BarriersKept(p, ws[n - 1], events[n - 1]);
    }
  }

  /** Everything in sets[lo..hi]. */
  ghost function Union(sets: seq<set<NodeId>>, lo: nat, hi: nat): set<NodeId>
    requires lo <= hi <= |sets|
  {
    if lo == hi then {} else Union(sets, lo, hi - 1) + sets[hi - 1]
  }

  // ----- What a route reaches -----

  /** The scheduled nodes are exactly the ordinary destinations, once each, with exactly the triggers handed to them. */
  lemma {:induction false} AddRoutesExactly(p: Plan, w: Barriers, routes: seq<Route>, node: NodeId)
    ensures var r := AddRoutes(p, Routed([], map[], w), routes);
            && Distinct(r.next)
            && (node in r.next <==> node != END && node !in p.deferred && exists k :: 0 <= k < |routes| && routes[k].node == node)
            && (node in r.next ==> Elements(TriggersOf(r.triggers, node)) == Handed(routes, node))
            && (node !in r.next ==> node !in r.triggers)
  {
    if routes != [] {
      var init, last := routes[..|routes| - 1], routes[|routes| - 1];
      AddRoutesExactly(p, w, init, node);
      hide AddRoute, Distinct, Handed, Elements;
      HandedAppend(init, [last], node);
      assert routes == init + [last];
      AddRouteExactly(p, AddRoutes(p, Routed([], map[], w), init), last, node);
      HandedOne(last, node);
    }
  }

  lemma HandedOne(route: Route, node: NodeId)
    ensures Handed([route], node) == if route.node == node then {route.trigger} else {}
  {
  }

  /** One route schedules its ordinary destination, adds its trigger there, and touches no other node. */
  lemma AddRouteExactly(p: Plan, acc: Routed, route: Route, node: NodeId)
    requires Distinct(acc.next) && (node !in acc.next ==> node !in acc.triggers)
    ensures var r := AddRoute(p, acc, route);
            && Distinct(r.next)
            && (node in r.next <==> node in acc.next || (route.node == node && node != END && node !in p.deferred))
            && (node !in r.next ==> node !in r.triggers)
            && (route.node == node && node in r.next ==>
                  Elements(TriggersOf(r.triggers, node))
                  == (if node in acc.next || node in acc.triggers then Elements(TriggersOf(acc.triggers, node)) else {})
                     + (if node != END && node !in p.deferred then {route.trigger} else {}))
            && (route.node != node ==> TriggersOf(r.triggers, node) == TriggersOf(acc.triggers, node))
  {
    var given := TriggersOf(acc.triggers, node);
    assert Elements(AppendUnique(given, route.trigger)) == Elements(given) + {route.trigger};
  }

  /** The first route to a node. */
  ghost predicate FirstMention(routes: seq<Route>, k: nat, node: NodeId)
  {
    k < |routes| && routes[k].node == node && forall j :: 0 <= j < k ==> routes[j].node != node
  }

  /** Nodes are scheduled in the order of their first mention, so task indexes follow the routes. */
  lemma {:induction false} NextByFirstMention(p: Plan, w: Barriers, routes: seq<Route>, i: nat, j: nat) returns (a: nat, b: nat)
    requires i < j < |AddRoutes(p, Routed([], map[], w), routes).next|
    ensures var next := AddRoutes(p, Routed([], map[], w), routes).next;
            a < b && FirstMention(routes, a, next[i]) && FirstMention(routes, b, next[j])
  {
    hide AddRoutes, Distinct, Handed, Elements;
    NextComesFromRoutes(p, w, routes);
    var init, last := routes[..|routes| - 1], routes[|routes| - 1];
    var before := AddRoutes(p, Routed([], map[], w), init).next;
    NextGrows(p, Routed([], map[], w), routes);
    AddRoutesExactly(p, w, init, last.node);
    if j < |before| {
      a, b := NextByFirstMention(p, w, init, i, j);
    } else {
      b := |init|;
      assert before[i] in before;
      a := FirstMentionOf(p, w, init, before[i]);
      assert forall k :: 0 <= k < |init| ==> routes[k] == init[k];
    }
  }

  lemma NextComesFromRoutes(p: Plan, w: Barriers, routes: seq<Route>)
    ensures AddRoutes(p, Routed([], map[], w), routes).next != [] ==> routes != []
  {
  }

  lemma NextGrows(p: Plan, acc: Routed, routes: seq<Route>)
    requires routes != []
    ensures var init, last := routes[..|routes| - 1], routes[|routes| - 1];
            var before := AddRoutes(p, acc, init).next;
            || AddRoutes(p, acc, routes).next == before
            || (last.node !in before && last.node != END && last.node !in p.deferred && AddRoutes(p, acc, routes).next == before + [last.node])
  {
    hide Pending, SetPending, TriggersOf;
  }

  lemma FirstMentionOf(p: Plan, w: Barriers, routes: seq<Route>, node: NodeId) returns (a: nat)
    requires node in AddRoutes(p, Routed([], map[], w), routes).next
    ensures FirstMention(routes, a, node)
  {
    AddRoutesExactly(p, w, routes, node);
    a := 0;
    while routes[a].node != node
      invariant a < |routes| && (forall j :: 0 <= j < a ==> routes[j].node != node)
      invariant exists k :: a <= k < |routes| && routes[k].node == node
      decreases |routes| - a
    {
      a := a + 1;
    }
  }

  /** A route to a node is honoured: END ends the branch, a deferred node remembers it, others are scheduled. */
  ghost predicate Reached(p: Plan, w: Barriers, event: Event, route: Route)
    requires Happens(p, w, event).Ok? && event != Reloaded
  {
    var routed := EventRouted(p, w, event);
    || route.node == END
    || (route.node in p.deferred && route.trigger in Pending(routed.waiting, DeferredKey(route.node)))
    || (route.node in routed.next && route.trigger in TriggersOf(routed.triggers, route.node))
  }

  lemma RouteReached(p: Plan, w: Barriers, event: Event, route: Route)
    requires PlanOk(p) && Happens(p, w, event).Ok? && event != Reloaded && route in EventRoutes(p, w, event)
    ensures Reached(p, w, event, route)
  {
    var routes := EventRoutes(p, w, event);
    assert route.trigger in Handed(routes, route.node);
    if route.node in p.deferred {
      HappensDeferred(p, w, event, route.node);
    } else if route.node != END {
      var k :| 0 <= k < |routes| && routes[k] == route;
      AddRoutesExactly(p, w, routes, route.node);
      if event.Stepped? {
        ResolveSchedule(p, event.results, event.state, w);
      }
      var routed := EventRouted(p, w, event);
      assert Elements(TriggersOf(routed.triggers, route.node)) == Handed(routes, route.node);
    }
  }

  // ----- Waiting edges over every run -----

  /** The nodes that completed in each event. */
  function Completions(events: seq<Event>): (r: seq<set<NodeId>>)
    ensures |r| == |events|
  {
    seq(|events|, k requires 0 <= k < |events| => EventCompleted(events[k]))
  }

  /** All sources of the edge completed since it last fired, counting event n. */
  ghost predicate Due(edge: WaitingEdge, history: seq<set<NodeId>>, n: nat)
    requires n < |history|
    decreases n, 1
  {
    Elements(edge.sources) <= Union(history, LastFiring(edge, history, n), n + 1)
  }

  /** The number of events up to and including the edge's last firing before event n. */
  ghost function LastFiring(edge: WaitingEdge, history: seq<set<NodeId>>, n: nat): (m: nat)
    requires n <= |history|
    ensures m <= n
    decreases n, 0
  {
    if n == 0 then 0
    else if Due(edge, history, n - 1) then n
    else LastFiring(edge, history, n - 1)
  }

  lemma {:induction false} BarrierTrace(edge: WaitingEdge, history: seq<set<NodeId>>, barriers: seq<set<NodeId>>, n: nat)
    requires Distinct(edge.sources) && edge.sources != []
    requires |barriers| == |history| + 1 && n <= |history| && barriers[0] == {}
    requires forall k :: 0 <= k < |history| ==> barriers[k + 1] == NextBarrier(edge, history[k], barriers[k])
    ensures barriers[n] == Union(history, LastFiring(edge, history, n), n) * Elements(edge.sources)
    ensures barriers[n] < Elements(edge.sources)
    ensures n < |history| ==> (Fires(edge, history[n], barriers[n]) <==> Due(edge, history, n))
  {
    assert edge.sources[0] in Elements(edge.sources);
    if n > 0 {
      BarrierTrace(edge, history, barriers, n - 1);
      NextBarrierStrict(edge, history[n - 1], barriers[n - 1]);
    }
    if n < |history| {
      NextBarrierStrict(edge, history[n], barriers[n]);
    }
  }

  /** A run's barriers for one edge: events other than steps complete no node and leave the barrier alone. */
  lemma EdgeAdvances(p: Plan, w: Barriers, event: Event, i: nat)
    requires PlanOk(p) && BarriersOk(p, w) && Happens(p, w, event).Ok? && i < |p.waitingEdges|
    ensures Pending(Happens(p, w, event).value.waiting, p.waitingEdges[i].id)
         == NextBarrier(p.waitingEdges[i], EventCompleted(event), Pending(w, p.waitingEdges[i].id))
  {
    hide Happens, NextBarrier, Pending;
    var edge := p.waitingEdges[i];
    if event == Reloaded {
      ReloadedSame(p, w);
    } else {
      HappensEdge(p, w, event, i);
    }
    if !event.Stepped? {
      NothingArrives(edge, Pending(w, edge.id));
    }
  }

  lemma ReloadedSame(p: Plan, w: Barriers)
    requires PlanOk(p) && BarriersOk(p, w)
    ensures Happens(p, w, Reloaded) == Ok(Scheduled([], w))
  {
    hide BarriersOk, SaveWaiting, RestoreWaiting;
    RoundTrip(p, w);
  }

  lemma NothingArrives(edge: WaitingEdge, barrier: set<NodeId>)
    requires Distinct(edge.sources) && edge.sources != [] && barrier < Elements(edge.sources)
    ensures NextBarrier(edge, {}, barrier) == barrier
  {
    NextBarrierStrict(edge, {}, barrier);
    assert Arrived(edge, {}, barrier) == barrier;
  }

  /**
    Over every run, with saves and restores anywhere: between events the barrier of an edge holds exactly the
    sources completed since its last firing and is a strict subset of its sources, and at every event the edge
    fires exactly when its last missing source completed.
  */
  lemma WaitingBarriers(p: Plan, events: seq<Event>, ws: seq<Barriers>, i: nat, n: nat)
    requires PlanOk(p) && IsRun(p, events, ws) && i < |p.waitingEdges| && n <= |events|
    ensures var edge, history := p.waitingEdges[i], Completions(events);
            && Pending(ws[n], edge.id) == Union(history, LastFiring(edge, history, n), n) * Elements(edge.sources)
            && Pending(ws[n], edge.id) < Elements(edge.sources)
            && (n < |events| ==> (Fires(edge, history[n], Pending(ws[n], edge.id)) <==> Due(edge, history, n)))
  {
    var edge, history := p.waitingEdges[i], Completions(events);
    var barriers := seq(|ws|, k requires 0 <= k < |ws| => Pending(ws[k], edge.id));
    forall k | 0 <= k < |history| ensures barriers[k + 1] == NextBarrier(edge, history[k], barriers[k]) {
      RunBarriers(p, events, ws, k);
      EdgeAdvances(p, ws[k], events[k], i);
    }
    BarrierTrace(edge, history, barriers, n);
  }

  /**
    A waiting edge routes its target at a step exactly when all its sources have completed since the edge
    last fired; at every step in between some source was still missing.
  */
  lemma WaitingEdgeFires(p: Plan, events: seq<Event>, ws: seq<Barriers>, i: nat, n: nat)
    requires PlanOk(p) && IsRun(p, events, ws) && i < |p.waitingEdges| && n < |events| && events[n].Stepped?
    ensures var edge, history := p.waitingEdges[i], Completions(events);
            && (EdgeRoutes(edge, history[n], Pending(ws[n], edge.id)) != [] <==> Due(edge, history, n))
            && (Due(edge, history, n) ==> Reached(p, ws[n], events[n], Route(edge.target, WaitingTrigger(edge))))
            && (forall k :: LastFiring(edge, history, n) <= k < n ==> !Due(edge, history, k))
  {
    var edge, history := p.waitingEdges[i], Completions(events);
    WaitingBarriers(p, events, ws, i, n);
    NotDueSince(edge, history, n);
    if Due(edge, history, n) {
      FiredRoutesContain(p.waitingEdges, history[n], ws[n], i);
      RouteReached(p, ws[n], events[n], Route(edge.target, WaitingTrigger(edge)));
    }
  }

  lemma {:induction false} NotDueSince(edge: WaitingEdge, history: seq<set<NodeId>>, n: nat)
    requires n <= |history|
    ensures forall k :: LastFiring(edge, history, n) <= k < n ==> !Due(edge, history, k)
  {
    if n > 0 {
      NotDueSince(edge, history, n - 1);
    }
  }

  lemma {:induction false} FiredRoutesContain(edges: seq<WaitingEdge>, completed: set<NodeId>, w: Barriers, i: nat)
    requires i < |edges| && Fires(edges[i], completed, Pending(w, edges[i].id))
    ensures Route(edges[i].target, WaitingTrigger(edges[i])) in FiredRoutes(edges, completed, w)
  {
    if i < |edges| - 1 {
      FiredRoutesContain(edges[..|edges| - 1], completed, w, i);
    }
  }

  // ----- Deferred nodes over every run -----

  /** The triggers each event hands to node d. */
  ghost function HandedOver(p: Plan, events: seq<Event>, ws: seq<Barriers>, d: NodeId): (r: seq<set<NodeId>>)
    requires |ws| == |events| + 1
    ensures |r| == |events|
  {
    seq(|events|, k requires 0 <= k < |events| => Handed(EventRoutes(p, ws[k], events[k]), d))
  }

  /** The number of events up to and including the last release before event n. */
  ghost function LastRelease(p: Plan, events: seq<Event>, ws: seq<Barriers>, n: nat): (m: nat)
    requires n <= |events| && |ws| == |events| + 1
    ensures m <= n
  {
    if n == 0 then 0
    else if Releases(p, ws[n - 1], events[n - 1]) then n
    else LastRelease(p, events, ws, n - 1)
  }

  lemma DeferredAdvances(p: Plan, w: Barriers, event: Event, d: NodeId)
    requires PlanOk(p) && BarriersOk(p, w) && Happens(p, w, event).Ok? && d in p.deferred
    ensures Pending(Happens(p, w, event).value.waiting, DeferredKey(d))
         == if Releases(p, w, event) then {} else Pending(w, DeferredKey(d)) + Handed(EventRoutes(p, w, event), d)
  {
    if event == Reloaded {
      RoundTrip(p, w);
    } else {
      HappensDeferred(p, w, event, d);
    }
  }

  /** A deferred node holds exactly the triggers handed to it since the last release, across checkpoints too. */
  lemma {:induction false} DeferredHistory(p: Plan, events: seq<Event>, ws: seq<Barriers>, n: nat, d: NodeId)
    requires PlanOk(p) && IsRun(p, events, ws) && n <= |events| && d in p.deferred
    ensures Pending(ws[n], DeferredKey(d))
         == Union(HandedOver(p, events, ws, d), LastRelease(p, events, ws, n), n)
  {
    hide Happens, EventRoutes, Handed, Releases, Pending, BarriersOk, PlanOk, DeferredKey;
    if n > 0 {
      DeferredHistory(p, events, ws, n - 1, d);
      RunBarriers(p, events, ws, n - 1);
      DeferredAdvances(p, ws[n - 1], events[n - 1], d);
    } else {
      NothingPending(DeferredKey(d));
    }
  }

  lemma NothingPending(key: string)
    ensures Pending(map[], key) == {}
  {
  }

  /** The tasks an event schedules. */
  function TasksOf(p: Plan, w: Barriers, event: Event): seq<Task>
    requires Happens(p, w, event).Ok?
  {
    Happens(p, w, event).value.tasks
  }

  /** The tasks a release creates for one deferred node: one with all its triggers in order, or none. */
  lemma ReleaseFor(p: Plan, step: nat, w: Barriers, d: NodeId)
    requires d in p.deferred
    ensures var tasks, held := Release(p, step, w).tasks, Pending(w, DeferredKey(d));
            && (forall i, j :: 0 <= i < j < |tasks| ==> tasks[i].node != tasks[j].node)
            && ((exists i :: 0 <= i < |tasks| && tasks[i].node == d) <==> held != {})
            && (forall i :: 0 <= i < |tasks| && tasks[i].node == d ==> tasks[i].triggers == Sorted(held))
  {
    var ready := ReadyDeferred(p, w);
    var tasks := Release(p, step, w).tasks;
    SortedIncreases(ready);
    forall i, j | 0 <= i < j < |tasks| ensures tasks[i].node != tasks[j].node {
      LessIsStrict(Sorted(ready)[i], Sorted(ready)[j]);
    }
    if d in ready {
      var i :| 0 <= i < |Sorted(ready)| && Sorted(ready)[i] == d;
      assert tasks[i].node == d;
    }
    forall i | 0 <= i < |tasks| && tasks[i].node == d ensures d in ready {
      assert Sorted(ready)[i] in ready;
    }
  }

  /**
    Every trigger handed to a deferred node is delivered exactly once: the release that follows creates one
    task for the node whose triggers are the ones handed over since the previous release, sorted, and clears them.
  */
  lemma DeferredDelivery(p: Plan, events: seq<Event>, ws: seq<Barriers>, k: nat, d: NodeId)
    requires PlanOk(p) && IsRun(p, events, ws) && k < |events| && d in p.deferred && Releases(p, ws[k], events[k])
    ensures var tasks := TasksOf(p, ws[k], events[k]);
            var held := Union(HandedOver(p, events, ws, d), LastRelease(p, events, ws, k), k + 1);
            && (forall i, j :: 0 <= i < j < |tasks| ==> tasks[i].node != tasks[j].node)
            && ((exists i :: 0 <= i < |tasks| && tasks[i].node == d) <==> held != {})
            && (forall i :: 0 <= i < |tasks| && tasks[i].node == d ==> tasks[i].triggers == Sorted(held))
    ensures Pending(ws[k + 1], DeferredKey(d)) == {}
  {
    DeferredHistory(p, events, ws, k, d);
    HappensDeferred(p, ws[k], events[k], d);
    ReleaseTasks(p, ws[k], events[k]);
    ReleaseFor(p, if events[k].Stepped? then events[k].step + 1 else events[k].taskStep,
               EventRouted(p, ws[k], events[k]).waiting, d);
  }

  lemma ReleaseTasks(p: Plan, w: Barriers, event: Event)
    requires Happens(p, w, event).Ok? && Releases(p, w, event)
    ensures event != Reloaded
    ensures Happens(p, w, event).value
         == Release(p, if event.Stepped? then event.step + 1 else event.taskStep, EventRouted(p, w, event).waiting)
  {
  }

  lemma OrdinaryNext(p: Plan, w: Barriers, event: Event, node: NodeId)
    requires PlanOk(p) && Happens(p, w, event).Ok? && event != Reloaded && node in EventRouted(p, w, event).next
    ensures node !in p.deferred
  {
    if event.Stepped? {
      ResolveSchedule(p, event.results, event.state, w);
    }
    AddRoutesExactly(p, w, EventRoutes(p, w, event), node);
  }

  lemma TasksUnlessReleased(p: Plan, w: Barriers, event: Event)
    requires Happens(p, w, event).Ok? && event != Reloaded && !Releases(p, w, event)
    ensures TasksOf(p, w, event) != []
    ensures forall t :: t in TasksOf(p, w, event) && t.input.None? ==> t.node in EventRouted(p, w, event).next
  {
    var routed := EventRouted(p, w, event);
    if event.Stepped? {
      var edgeTasks := EdgeTasks(event.step + 1, routed.next, routed.triggers);
      PushTasksLength(event.step + 1, edgeTasks, AllSends(p, event.results, event.state).value);
      var tasks := TasksOf(p, w, event);
      forall k | 0 <= k < |tasks| && tasks[k].input.None? ensures tasks[k].node in routed.next {
        assert tasks[k] == tasks[..|edgeTasks|][k];
      }
    }
  }

  lemma ReleasedAreDeferred(p: Plan, step: nat, w: Barriers)
    ensures forall t :: t in Release(p, step, w).tasks ==> t.node in p.deferred && t.input.None?
  {
    var nodes := Sorted(ReadyDeferred(p, w));
    assert forall i :: 0 <= i < |nodes| ==> nodes[i] in ReadyDeferred(p, w);
  }

  /**
    Deferred work never shares a step with ordinary work: either an event schedules released deferred nodes
    only, or no edge-routed task is deferred. (A Send carries its own input and is not held back.)
  */
  lemma DeferredApart(p: Plan, w: Barriers, event: Event)
    requires PlanOk(p) && Happens(p, w, event).Ok? && event != Reloaded
    ensures var tasks := TasksOf(p, w, event);
            || (forall t :: t in tasks ==> t.node in p.deferred && t.input.None?)
            || (forall t :: t in tasks && t.input.None? ==> t.node !in p.deferred)
  {
    if Releases(p, w, event) {
      ReleaseTasks(p, w, event);
      ReleasedAreDeferred(p, if event.Stepped? then event.step + 1 else event.taskStep, EventRouted(p, w, event).waiting);
    } else {
      TasksUnlessReleased(p, w, event);
      forall node | node in EventRouted(p, w, event).next ensures node !in p.deferred {
        OrdinaryNext(p, w, event, node);
      }
    }
  }

  /** An event that schedules nothing leaves no deferred node pending: a run cannot finish with deferred work. */
  lemma NothingPendingAtFinish(p: Plan, w: Barriers, event: Event, d: NodeId)
    requires PlanOk(p) && Happens(p, w, event).Ok? && event != Reloaded && d in p.deferred
    requires TasksOf(p, w, event) == []
    ensures Pending(Happens(p, w, event).value.waiting, DeferredKey(d)) == {}
  {
    if !Releases(p, w, event) {
      TasksUnlessReleased(p, w, event);
    }
    HappensDeferred(p, w, event, d);
  }

  /** Every task an event schedules is stamped with the step it will run in, and task IDs are pairwise distinct. */
  lemma TasksStamped(p: Plan, w: Barriers, event: Event)
    requires Happens(p, w, event).Ok? && event != Reloaded
    ensures Stamped(TasksOf(p, w, event), if event.Stepped? then event.step + 1 else event.taskStep)
  {
    hide TaskId, Decimal, Resolve, AllSends, PushTasks, EdgeTasks, Release, Stamped, DefaultRoutes, AddRoutes;
    match event {
      case Stepped(step, results, state) =>
        var routed := Resolve(p, results, state, w).value;
        PushStamped(step + 1, routed.next, routed.triggers, AllSends(p, results, state).value);
        ReleaseStamped(p, step + 1, routed.waiting);
      case Entered(step, state) =>
        var routed := EventRouted(p, w, event);
        EdgeStamped(step, routed.next, routed.triggers);
        ReleaseStamped(p, step, routed.waiting);
    }
  }

  lemma EdgeStamped(step: nat, next: seq<NodeId>, triggers: map<NodeId, seq<NodeId>>)
    ensures Stamped(EdgeTasks(step, next, triggers), step)
  {
    hide TaskId, Decimal;
    StampedByIndex(EdgeTasks(step, next, triggers), step);
  }

  lemma PushStamped(step: nat, next: seq<NodeId>, triggers: map<NodeId, seq<NodeId>>, sends: seq<Send>)
    ensures Stamped(PushTasks(step, EdgeTasks(step, next, triggers), sends), step)
  {
    hide TaskId, Decimal;
    var edgeTasks := EdgeTasks(step, next, triggers);
    var tasks := PushTasks(step, edgeTasks, sends);
    PushTasksLength(step, edgeTasks, sends);
    forall k | 0 <= k < |edgeTasks| ensures tasks[k] == edgeTasks[k] { assert tasks[k] == tasks[..|edgeTasks|][k]; }
    StampedByIndex(tasks, step);
  }

  lemma ReleaseStamped(p: Plan, step: nat, w: Barriers)
    ensures Stamped(Release(p, step, w).tasks, step)
  {
    hide TaskId, Decimal, Sorted, ReadyDeferred;
    StampedByIndex(Release(p, step, w).tasks, step);
  }

  lemma StampedByIndex(tasks: seq<Task>, step: nat)
    requires forall k :: 0 <= k < |tasks| ==> tasks[k].id == TaskId(step, k, tasks[k].node)
    ensures Stamped(tasks, step)
  {
    forall k | 0 <= k < |tasks| ensures StampedWith(tasks[k], step) {
      assert tasks[k].id == TaskId(step, k, tasks[k].node);
    }
    forall j, k | 0 <= j < k < |tasks| ensures tasks[j].id != tasks[k].id {
      if tasks[j].id == tasks[k].id {
        TaskIdInjective(step, j, tasks[j].node, step, k, tasks[k].node);
      }
    }
  }
}
