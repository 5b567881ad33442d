/**
  The routing code as it runs: a barrier map updated in place while destinations
  and triggers are collected. Each method is proved against the functions of Routing.
*/
module Scheduler {
  import opened Prelude
  import opened Text
  import opened Graphs
  import opened Routing
  import opened RoutingRuns

  /** The barriers a map stands for: an empty entry is the same as none. */
  function View(w: map<string, set<NodeId>>): (v: Barriers)
  {
    map key | key in w && w[key] != {} :: w[key]
  }

  lemma ViewUpdate(w: map<string, set<NodeId>>, key: string, s: set<NodeId>)
    ensures View(w[key := s]) == SetPending(View(w), key, s)
    ensures Pending(View(w), key) == Pending(w, key)
  {
  }

  class RunScheduler {
    const plan: Plan
    var waiting: map<string, set<NodeId>>
    var next: seq<NodeId>
    var triggers: map<NodeId, seq<NodeId>>

    constructor (plan: Plan, restored: map<string, set<NodeId>>)
      ensures this.plan == plan && waiting == restored && next == [] && triggers == map[]
    {
      this.plan := plan;
      waiting, next, triggers := restored, [], map[];
    }

    ghost function Collected(): Routed
      reads this
    {
      Routed(next, triggers, View(waiting))
    }

    /** Records a trigger for a deferred destination; ordinary destinations are refused. */
    method DeferDestination(destination: NodeId, trigger: NodeId) returns (deferred: bool)
      modifies this`waiting
      ensures deferred <==> destination in plan.deferred
      ensures View(waiting) ==
              if deferred
              then SetPending(old(View(waiting)), DeferredKey(destination),
                              Pending(old(View(waiting)), DeferredKey(destination)) + {trigger})
              else old(View(waiting))
    {
      if destination !in plan.deferred {
        return false;
      }
      var key := DeferredKey(destination);
      if key !in waiting {
        ViewUpdate(waiting, key, {});
        waiting := waiting[key := {}];
      }
      ViewUpdate(waiting, key, waiting[key] + {trigger});
      waiting := waiting[key := waiting[key] + {trigger}];
      return true;
    }

    /** The closure `add` of resolveNextWithStates. */
    method Add(destination: NodeId, trigger: NodeId)
      modifies this
      ensures Collected() == AddRoute(plan, old(Collected()), Route(destination, trigger))
    {
      if destination == END {
        return;
      }
      var deferred := DeferDestination(destination, trigger);
      if deferred {
        return;
      }
      var known := if destination in triggers then triggers[destination] else [];
      var duplicate := false;
      for i := 0 to |known|
        invariant duplicate <==> trigger in known[..i]
      {
        if known[i] == trigger {
          duplicate := true;
        }
      }
      assert known[..|known|] == known;
      triggers := triggers[destination := if duplicate then known else known + [trigger]];
      if destination !in next {
        next := next + [destination];
      }
    }

    method AddAll(routes: seq<Route>)
      modifies this
      ensures Collected() == AddRoutes(plan, old(Collected()), routes)
    {
      for i := 0 to |routes|
        invariant Collected() == AddRoutes(plan, old(Collected()), routes[..i])
      {
        Add(routes[i].node, routes[i].trigger);
        assert routes[..i + 1][..i] == routes[..i];
      }
      assert routes[..|routes|] == routes;
    }

    /** Records a step's completions in one barrier and fires the edge when the barrier is full. */
    method Arrive(edge: WaitingEdge, results: seq<TaskResult>)
      modifies this
      ensures Collected() == AddEdge(plan, edge, Completed(results), old(Collected()))
    {
      var barrier := CollectArrivals(edge, results, if edge.id in waiting then waiting[edge.id] else {});
      ViewUpdate(waiting, edge.id, barrier);
      ViewUpdate(waiting, edge.id, {});
      if |barrier| != |edge.sources| {
        waiting := waiting[edge.id := barrier];
        return;
      }
      waiting := waiting[edge.id := {}];
      Add(edge.target, WaitingTrigger(edge));
    }

    /** resolveNextWithStates. */
    method ResolveNext(results: seq<TaskResult>, state: State) returns (failed: Option<RouteError>)
      requires next == [] && triggers == map[]
      modifies this
      ensures match Resolve(plan, results, state, old(View(waiting)))
              case Err(e) => failed == Some(e)
              case Ok(routed) => failed == None && Collected() == routed
    {
      ghost var start := Collected();
      for i := 0 to |results|
        invariant AllRoutes(plan, results[..i], state).Ok?
        invariant Collected() == AddRoutes(plan, start, AllRoutes(plan, results[..i], state).value)
      {
        assert results[..i + 1][..i] == results[..i];
        match ResultRoutes(plan, results[i], state) {
          case Err(e) =>
            FirstErrorStays(plan, results, i + 1, state);
            return Some(e);
          case Ok(routes) =>
            AddRoutesAppend(plan, start, AllRoutes(plan, results[..i], state).value, routes);
            AddAll(routes);
        }
      }
      assert results[..|results|] == results;
      ghost var direct := Collected();
      for i := 0 to |plan.waitingEdges|
        invariant Collected() == AddWaiting(plan, plan.waitingEdges[..i], Completed(results), direct)
      {
        Arrive(plan.waitingEdges[i], results);
        assert plan.waitingEdges[..i + 1][..i] == plan.waitingEdges[..i];
      }
      assert plan.waitingEdges[..|plan.waitingEdges|] == plan.waitingEdges;
      return None;
    }

    /** releaseDeferredTasks. */
    method ReleaseDeferred(step: nat) returns (tasks: seq<Task>)
      modifies this`waiting
      ensures tasks == Release(plan, step, old(View(waiting))).tasks
      ensures View(waiting) == Release(plan, step, old(View(waiting))).waiting
    {
      hide *;
      ghost var before := View(waiting);
      var ready := ReadyNodes(plan, waiting);
      var nodes := Sorted(ready);
      SortedIncreases(ready);
      tasks := [];
      ReleaseNone(before, nodes);
      for i := 0 to |nodes|
        invariant |tasks| == i && forall k :: 0 <= k < i ==> tasks[k] == DeferredTask(step, k, nodes[k], before)
        invariant View(waiting) == before - DeferredKeys(Elements(nodes[..i]))
      {
        assert nodes[i] in ready;
        ReadyHolds(plan, before, nodes[i]);
        ReleaseOne(before, waiting, nodes, i, step);
        tasks := tasks + [DeferredTask(step, i, nodes[i], waiting)];
        waiting := waiting - {DeferredKey(nodes[i])};
      }
      ReleaseDone(plan, step, before, tasks);
      assert nodes[..|nodes|] == nodes;
    }
  }

  lemma ReadyHolds(p: Plan, w: Barriers, d: NodeId)
    requires d in ReadyDeferred(p, w)
    ensures Pending(w, DeferredKey(d)) != {}
  {
  }

  lemma ReleaseNone(before: Barriers, nodes: seq<NodeId>)
    ensures before - DeferredKeys(Elements(nodes[..0])) == before
  {
  }

  lemma ReleaseDone(p: Plan, step: nat, before: Barriers, tasks: seq<Task>)
    requires var nodes := Sorted(ReadyDeferred(p, before));
             |tasks| == |nodes| && forall k :: 0 <= k < |nodes| ==> tasks[k] == DeferredTask(step, k, nodes[k], before)
    ensures Release(p, step, before)
         == Scheduled(tasks, before - DeferredKeys(Elements(Sorted(ReadyDeferred(p, before)))))
  {
    hide TaskId, Decimal, DeferredTask;
    var ready := ReadyDeferred(p, before);
    assert Elements(Sorted(ready)) == ready;
    assert tasks == Release(p, step, before).tasks;
  }

  /** The deferred nodes that hold at least one trigger. */
  function ReadyNodes(p: Plan, w: map<string, set<NodeId>>): (ready: set<NodeId>)
    ensures ready == ReadyDeferred(p, View(w))
  {
    set d | d in p.deferred && DeferredKey(d) in w && w[DeferredKey(d)] != {}
  }

  lemma ReleaseOne(before: Barriers, w: map<string, set<NodeId>>, nodes: seq<NodeId>, i: nat, step: nat)
    requires i < |nodes| && forall j, k :: 0 <= j < k < |nodes| ==> Less(nodes[j], nodes[k])
    requires View(w) == before - DeferredKeys(Elements(nodes[..i])) && Pending(before, DeferredKey(nodes[i])) != {}
    ensures DeferredTask(step, i, nodes[i], w) == DeferredTask(step, i, nodes[i], before)
    ensures View(w - {DeferredKey(nodes[i])}) == before - DeferredKeys(Elements(nodes[..i + 1]))
  {
    var key := DeferredKey(nodes[i]);
    NotReleasedYet(nodes, i);
    assert key in View(w) && View(w)[key] == before[key];
    assert DeferredKeys(Elements(nodes[..i + 1])) == DeferredKeys(Elements(nodes[..i])) + {key} by {
      assert Elements(nodes[..i + 1]) == Elements(nodes[..i]) + {nodes[i]};
    }
    assert View(w - {key}) == View(w) - {key};
  }

  lemma NotReleasedYet(nodes: seq<NodeId>, i: nat)
    requires i < |nodes| && forall j, k :: 0 <= j < k < |nodes| ==> Less(nodes[j], nodes[k])
    ensures DeferredKey(nodes[i]) !in DeferredKeys(Elements(nodes[..i]))
  {
    forall j | 0 <= j < i ensures DeferredKey(nodes[j]) != DeferredKey(nodes[i]) {
      LessIsStrict(nodes[j], nodes[i]);
      DeferredKeyApart(nodes[j], nodes[i]);
    }
  }

  /** The barrier once the completions of a step are added to it. */
  method CollectArrivals(edge: WaitingEdge, results: seq<TaskResult>, before: set<NodeId>) returns (barrier: set<NodeId>)
    ensures barrier == Arrived(edge, Completed(results), before)
  {
    barrier := before;
    for i := 0 to |results|
      invariant barrier == Arrived(edge, Completed(results[..i]), before)
    {
      var node := results[i].OutputNode();
      assert Completed(results[..i + 1]) == Completed(results[..i]) + {node};
      if node in edge.sources {
        barrier := barrier + {node};
      }
    }
    assert results[..|results|] == results;
  }

  lemma {:induction false} FirstErrorStays(p: Plan, results: seq<TaskResult>, n: nat, state: State)
    requires n <= |results| && AllRoutes(p, results[..n], state).Err?
    ensures AllRoutes(p, results, state) == AllRoutes(p, results[..n], state)
    decreases |results| - n
  {
    if n == |results| {
      assert results[..n] == results;
    } else {
      assert results[..n + 1][..n] == results[..n];
      FirstErrorStays(p, results, n + 1, state);
    }
  }
}
