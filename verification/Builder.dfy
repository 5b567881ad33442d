/**
  The graph builder: what each Add method accepts, the endpoint checks of Compile, and the
  search for nodes that cannot be reached.
*/
module Builder {
  import opened Prelude
  import opened Graphs
  import opened Routing
  import opened EngineFacts

  /** The declarations made so far. */
  datatype Draft = Draft(plan: Plan, commands: map<NodeId, seq<NodeId>>)

  const NO_GRAPH := Draft(Plan({}, map[], map[], [], map[], {}), map[])

  /** What the Add methods keep true whatever is declared, and in whichever order. */
  ghost predicate DraftOk(d: Draft)
  {
    var p := d.plan;
    && START !in p.nodes && END !in p.nodes && "" !in p.nodes && END !in p.deferred
    && (forall n, k :: n in p.edges && 0 <= k < |p.edges[n]| ==> p.edges[n][k] != START)
    && (forall n, k :: n in p.branches && 0 <= k < |p.branches[n]| ==> START !in p.branches[n][k].allowed)
    && (forall n :: n in p.sendBranches ==> START !in p.sendBranches[n].allowed && END !in p.sendBranches[n].allowed)
    && (forall i :: 0 <= i < |p.waitingEdges| ==> EdgeOk(p.waitingEdges[i], i))
  }

  ghost predicate EdgeOk(edge: WaitingEdge, i: nat)
  {
    && edge.id == EdgeId(i) && edge.target != START && |edge.sources| >= 2
    && Distinct(edge.sources) && START !in edge.sources && END !in edge.sources
  }

  datatype BuildError = Invalid | Duplicate

  /** An error handler given with a node; it may be made for another state or delta type. */
  datatype HandlerOption = NoHandler | Fitting | Misfit

  class StateGraph {
    var draft: Draft

    ghost predicate Valid()
      reads this
    {
      DraftOk(draft)
    }

    constructor ()
      ensures Valid() && draft == NO_GRAPH
    {
      draft := NO_GRAPH;
    }

    /** The refusal of a misfitting handler takes the node back, but not its deferral. */
    method AddNode(id: NodeId, deferred: bool, handler: HandlerOption) returns (failure: Option<BuildError>)
      requires Valid()
      modifies this
      ensures Valid()
      ensures var named := id != "" && id != START && id != END && id !in old(draft.plan.nodes);
              && (failure == None <==> named && handler != Misfit)
              && (!named ==> draft == old(draft))
              && (named ==>
                    draft.commands == old(draft.commands)
                    && draft.plan == old(draft.plan).(
                         nodes := old(draft.plan.nodes) + if handler != Misfit then {id} else {},
                         deferred := old(draft.plan.deferred) + if deferred then {id} else {}))
    {
      if id == "" || id == START || id == END { return Some(Invalid); }
      if id in draft.plan.nodes { return Some(Duplicate); }
      var p := draft.plan;
      draft := draft.(plan := p.(nodes := p.nodes + {id}));
      if deferred {
        draft := draft.(plan := draft.plan.(deferred := draft.plan.deferred + {id}));
      }
      if handler == Misfit {
        draft := draft.(plan := draft.plan.(nodes := draft.plan.nodes - {id}));
        assert draft.plan.nodes == p.nodes;
        return Some(Invalid);
      }
      return None;
    }

    method AddEdge(from: NodeId, to_: NodeId) returns (failure: Option<BuildError>)
      requires Valid()
      modifies this
      ensures Valid()
      ensures failure == None <==> from != "" && to_ != "" && from != END && to_ != START && to_ !in Targets(old(draft.plan.edges), from)
      ensures failure != None ==> draft == old(draft)
      ensures failure == None ==>
        draft.plan == old(draft.plan).(edges := old(draft.plan.edges)[from := Targets(old(draft.plan.edges), from) + [to_]])
    {
      if from == "" || to_ == "" || from == END || to_ == START { return Some(Invalid); }
      var existing := Targets(draft.plan.edges, from);
      if to_ in existing { return Some(Duplicate); }
      draft := draft.(plan := draft.plan.(edges := draft.plan.edges[from := existing + [to_]]));
      return None;
    }

    /** A waiting edge is numbered by its position and has at least two distinct sources. */
    method AddWaitingEdge(sources: seq<NodeId>, target: NodeId) returns (failure: Option<BuildError>)
      requires Valid()
      modifies this
      ensures Valid()
      ensures failure == None <==>
        |sources| >= 2 && target != "" && target != START && Distinct(sources)
        && "" !in sources && START !in sources && END !in sources
      ensures failure != None ==> draft == old(draft)
      ensures failure == None ==>
        draft == old(draft).(plan := old(draft.plan).(waitingEdges := old(draft.plan.waitingEdges)
          + [WaitingEdge(EdgeId(|old(draft.plan.waitingEdges)|), sources, target)]))
    {
      hide EdgeId;
      if |sources| < 2 || target == "" || target == START { return Some(Invalid); }
      var seen: set<NodeId> := {};
      for i := 0 to |sources|
        invariant draft == old(draft)
        invariant seen == Elements(sources[..i]) && Distinct(sources[..i])
        invariant "" !in sources[..i] && START !in sources[..i] && END !in sources[..i]
      {
        assert sources[..i + 1] == sources[..i] + [sources[i]];
        if sources[i] == "" || sources[i] == START || sources[i] == END {
          assert sources[i] in sources;
          return Some(Invalid);
        }
        if sources[i] in seen {
          var j :| 0 <= j < i && sources[..i][j] == sources[i];
          assert sources[j] == sources[i];
          return Some(Invalid);
        }
        seen := seen + {sources[i]};
      }
      assert sources[..|sources|] == sources;
      var edge := WaitingEdge(EdgeId(|draft.plan.waitingEdges|), sources, target);
      assert EdgeOk(edge, |draft.plan.waitingEdges|);
      draft := draft.(plan := draft.plan.(waitingEdges := draft.plan.waitingEdges + [edge]));
      return None;
    }
  }

  /** A node that is declared again after such a refusal, this time not deferred, is deferred all the same. */
  method RetriedStaysDeferred(id: NodeId) returns (g: StateGraph)
    requires id != "" && id != START && id != END
    ensures g.draft.plan.nodes == {id} && g.draft.plan.deferred == {id}
  {
    g := new StateGraph();
    var refused := g.AddNode(id, true, Misfit);
    var accepted := g.AddNode(id, false, NoHandler);
  }

  function Targets(edges: map<NodeId, seq<NodeId>>, from: NodeId): seq<NodeId>
  {
    if from in edges then edges[from] else []
  }

  // ----- Endpoint checks -----

  predicate Endpoint(p: Plan, id: NodeId)
  {
    id == START || id == END || id in p.nodes
  }

  /** Every declared endpoint is START, END or a node. */
  ghost predicate EndpointsOk(p: Plan)
  {
    && (forall n, k :: n in p.edges && 0 <= k < |p.edges[n]| ==> Endpoint(p, p.edges[n][k]))
    && (forall n, k :: n in p.branches && 0 <= k < |p.branches[n]| ==>
          forall t :: t in p.branches[n][k].allowed ==> Endpoint(p, t))
    && (forall n, t :: n in p.sendBranches && t in p.sendBranches[n].allowed ==> Endpoint(p, t))
    && (forall i :: 0 <= i < |p.waitingEdges| ==> Endpoint(p, p.waitingEdges[i].target))
  }

  lemma EdgeIdApart(i: nat)
    ensures !(DEFERRED_PREFIX <= EdgeId(i))
  {
    assert EdgeId(i)[0] == 'w' && DEFERRED_PREFIX[0] == '_';
  }

  lemma WaitingEdgesNumbered(d: Draft)
    requires DraftOk(d)
    ensures WaitingEdgesOk(d.plan.waitingEdges)
  {
    hide EdgeId;
    var edges := d.plan.waitingEdges;
    forall i, j | 0 <= i < j < |edges| ensures edges[i].id != edges[j].id {
      if EdgeId(i) == EdgeId(j) {
        EdgeIdInjective(i, j);
      }
      assert EdgeOk(edges[i], i) && EdgeOk(edges[j], j);
    }
    forall i | 0 <= i < |edges| ensures !(DEFERRED_PREFIX <= edges[i].id) && Distinct(edges[i].sources) && edges[i].sources != [] {
      assert EdgeOk(edges[i], i);
      EdgeIdApart(i);
    }
  }

  /** Deferrals left behind by refused nodes have no effect: only those of nodes count. */
  function Compiled(p: Plan): Plan
  {
    p.(deferred := p.deferred * p.nodes)
  }

  /** A graph whose endpoints check out is closed: everything routing can produce is a node or END. */
  lemma CompiledIsClosed(d: Draft)
    requires DraftOk(d) && EndpointsOk(d.plan)
    ensures PlanClosed(Compiled(d.plan))
  {
    hide EdgeId, WaitingEdgesOk;
    WaitingEdgesNumbered(d);
    var p := d.plan;
    forall n, k | n in p.branches && 0 <= k < |p.branches[n]| ensures forall t :: t in p.branches[n][k].allowed ==> Target(p, t) {
      assert START !in p.branches[n][k].allowed;
    }
    forall i | 0 <= i < |p.waitingEdges| ensures Target(p, p.waitingEdges[i].target) {
      assert EdgeOk(p.waitingEdges[i], i);
    }
    forall n | n in p.sendBranches ensures p.sendBranches[n].allowed <= p.nodes {
      forall t | t in p.sendBranches[n].allowed ensures t in p.nodes {
        assert Endpoint(p, t);
      }
    }
  }

  /** On the routes of a closed graph the plan and its compiled form do the same, whatever they hold back so far. */
  lemma {:induction false} StrayDeferrals(p: Plan, acc: Routed, routes: seq<Route>)
    requires END !in p.deferred && Known(p, routes)
    ensures AddRoutes(Compiled(p), acc, routes) == AddRoutes(p, acc, routes)
  {
    if routes != [] {
      StrayDeferrals(p, acc, routes[..|routes| - 1]);
      assert Target(p, routes[|routes| - 1].node);
    }
  }

  /** And as nothing waits for a stray, they release the same nodes. */
  lemma StraysNeverReady(p: Plan, w: Barriers)
    requires forall d :: d in p.deferred && d !in p.nodes ==> Pending(w, DeferredKey(d)) == {}
    ensures ReadyDeferred(Compiled(p), w) == ReadyDeferred(p, w)
  {
  }

  // ----- Reachability -----

  /** Every declared successor of a node; a waiting edge counts from each of its sources. */
  function Successors(d: Draft, n: NodeId): set<NodeId>
  {
    Elements(Targets(d.plan.edges, n))
    + (if n in d.plan.branches then BranchTargets(d.plan.branches[n]) else {})
    + Elements(Targets(d.commands, n))
    + WaitingTargets(d.plan.waitingEdges, n)
    + (if n in d.plan.sendBranches then d.plan.sendBranches[n].allowed else {})
  }

  function BranchTargets(branches: seq<Branch>): set<NodeId>
  {
    if branches == [] then {} else BranchTargets(branches[..|branches| - 1]) + branches[|branches| - 1].allowed
  }

  function WaitingTargets(edges: seq<WaitingEdge>, n: NodeId): set<NodeId>
  {
    if edges == [] then {}
    else WaitingTargets(edges[..|edges| - 1], n) + if n in edges[|edges| - 1].sources then {edges[|edges| - 1].target} else {}
  }

  /** A way from START through declared successors; END leads nowhere. */
  ghost predicate IsWay(d: Draft, way: seq<NodeId>)
  {
    way != [] && way[0] == START && forall k :: 0 <= k < |way| - 1 ==> way[k] != END && way[k + 1] in Successors(d, way[k])
  }

  ghost predicate Reachable(d: Draft, n: NodeId)
  {
    exists way :: IsWay(d, way) && way[|way| - 1] == n
  }

  lemma ReachableNext(d: Draft, n: NodeId, m: NodeId)
    requires Reachable(d, n) && n != END && m in Successors(d, n)
    ensures Reachable(d, m)
  {
    var way :| IsWay(d, way) && way[|way| - 1] == n;
    var longer := way + [m];
    forall k | 0 <= k < |longer| - 1 ensures longer[k] != END && longer[k + 1] in Successors(d, longer[k]) {
      if k < |way| - 1 {
        assert longer[k + 1] == way[k + 1];
      }
    }
    assert IsWay(d, longer) && longer[|longer| - 1] == m;
  }

  lemma {:induction false} WayStays(d: Draft, way: seq<NodeId>, seen: set<NodeId>, k: nat)
    requires IsWay(d, way) && k < |way| && START in seen
    requires forall x :: x in seen && x != END ==> Successors(d, x) <= seen
    ensures way[k] in seen
  {
    if k > 0 {
      WayStays(d, way, seen, k - 1);
      assert way[k - 1 + 1] in Successors(d, way[k - 1]);
    }
  }

  /** Every node any declaration mentions as a target. */
  function Mentioned(d: Draft): set<NodeId>
  {
    (set n, m | n in d.plan.edges.Keys + d.plan.branches.Keys + d.commands.Keys + d.plan.sendBranches.Keys && m in Successors(d, n) :: m)
    + (set i | 0 <= i < |d.plan.waitingEdges| :: d.plan.waitingEdges[i].target)
    + {START}
  }

  lemma {:induction false} WaitingTargetsMentioned(edges: seq<WaitingEdge>, n: NodeId, m: NodeId)
    requires m in WaitingTargets(edges, n)
    ensures exists i :: 0 <= i < |edges| && edges[i].target == m
  {
    var last := |edges| - 1;
    if m in WaitingTargets(edges[..last], n) {
      WaitingTargetsMentioned(edges[..last], n, m);
      var i :| 0 <= i < last && edges[..last][i].target == m;
      assert edges[i].target == m;
    } else {
      assert edges[last].target == m;
    }
  }

  lemma SuccessorsMentioned(d: Draft, n: NodeId)
    ensures Successors(d, n) <= Mentioned(d)
  {
    forall m | m in Successors(d, n) ensures m in Mentioned(d) {
      if n !in d.plan.edges.Keys + d.plan.branches.Keys + d.commands.Keys + d.plan.sendBranches.Keys {
        assert m in WaitingTargets(d.plan.waitingEdges, n);
        WaitingTargetsMentioned(d.plan.waitingEdges, n, m);
      }
    }
  }

  /** Whatever was reached and is not waiting in the queue has all its successors reached. */
  ghost predicate Expanded(d: Draft, reachable: set<NodeId>, queue: seq<NodeId>, but: set<NodeId>)
  {
    && (forall n :: n in queue ==> n in reachable && n != END)
    && (forall n :: n in reachable ==> Reachable(d, n))
    && (forall n :: n in reachable && n != END && n !in queue && n !in but ==> Successors(d, n) <= reachable)
  }

  /** Marks one target, and queues it unless it is END. */
  method Visit(d: Draft, current: NodeId, target: NodeId, seen: set<NodeId>, waiting: seq<NodeId>)
    returns (reachable: set<NodeId>, queue: seq<NodeId>)
    requires Expanded(d, seen, waiting, {current}) && seen <= Mentioned(d)
    requires Reachable(d, current) && current != END && target in Successors(d, current)
    ensures Expanded(d, reachable, queue, {current}) && reachable <= Mentioned(d)
    ensures reachable == seen + {target}
    ensures |Mentioned(d) - reachable| + |queue| <= |Mentioned(d) - seen| + |waiting|
  {
    hide Successors, Mentioned, Reachable, Expanded;
    reachable, queue := seen, waiting;
    if target !in seen {
      SuccessorsMentioned(d, current);
      VisitKeeps(d, current, target, seen, waiting);
      reachable := reachable + {target};
      assert Mentioned(d) - seen == (Mentioned(d) - reachable) + {target};
      if target != END {
        queue := queue + [target];
      }
    }
    assert seen + {target} == reachable;
  }

  lemma VisitKeeps(d: Draft, current: NodeId, target: NodeId, seen: set<NodeId>, waiting: seq<NodeId>)
    requires Expanded(d, seen, waiting, {current}) && Reachable(d, current) && current != END && target in Successors(d, current)
    ensures Expanded(d, seen + {target}, if target != END then waiting + [target] else waiting, {current})
  {
    hide Successors, Reachable;
    ReachableNext(d, current, target);
    SuccessorsWithin(d, seen + {target}, seen);
    var queue := if target != END then waiting + [target] else waiting;
    assert forall n :: n in queue <==> n in waiting || (n == target && target != END);
  }

  lemma SuccessorsWithin(d: Draft, reachable: set<NodeId>, seen: set<NodeId>)
    requires seen <= reachable
    ensures forall n :: Successors(d, n) <= seen ==> Successors(d, n) <= reachable
  {
    hide Successors;
  }

  /** Visits every successor of the node taken from the queue. */
  method Expand(d: Draft, current: NodeId, seen: set<NodeId>, waiting: seq<NodeId>)
    returns (reachable: set<NodeId>, queue: seq<NodeId>)
    requires Expanded(d, seen, waiting, {current}) && seen <= Mentioned(d)
    requires Reachable(d, current) && current != END
    ensures Expanded(d, reachable, queue, {}) && seen <= reachable <= Mentioned(d)
    ensures |Mentioned(d) - reachable| + |queue| <= |Mentioned(d) - seen| + |waiting|
  {
    hide Successors, Mentioned, Reachable;
    reachable, queue := seen, waiting;
    var todo := Successors(d, current);
    while todo != {}
      invariant todo <= Successors(d, current) && Successors(d, current) <= reachable + todo
      invariant Expanded(d, reachable, queue, {current}) && seen <= reachable <= Mentioned(d)
      invariant |Mentioned(d) - reachable| + |queue| <= |Mentioned(d) - seen| + |waiting|
      decreases todo
    {
      var target :| target in todo;
      reachable, queue := Visit(d, current, target, reachable, queue);
      todo := todo - {target};
    }
  }

  /** The search of Compile: breadth first from START, END is not expanded. */
  method Search(d: Draft) returns (reachable: set<NodeId>)
    ensures forall n :: n in reachable <==> Reachable(d, n)
  {
    hide Successors, Mentioned, Reachable, Expanded;
    reachable := {START};
    var queue := [START];
    StartMentioned(d);
    while queue != []
      invariant START in reachable && reachable <= Mentioned(d) && Expanded(d, reachable, queue, {})
      decreases |Mentioned(d) - reachable| + |queue|
    {
      var current := queue[0];
      TakeFirst(d, reachable, queue);
      reachable, queue := Expand(d, current, reachable, queue[1..]);
    }
    SearchDone(d, reachable);
  }

  lemma TakeFirst(d: Draft, reachable: set<NodeId>, queue: seq<NodeId>)
    requires queue != [] && Expanded(d, reachable, queue, {})
    ensures Expanded(d, reachable, queue[1..], {queue[0]}) && Reachable(d, queue[0]) && queue[0] != END
  {
    hide Successors, Reachable;
    var first, rest := queue[0], queue[1..];
    assert queue == [first] + rest;
    assert forall n :: n in queue <==> n == first || n in rest;
  }

  lemma SearchDone(d: Draft, reachable: set<NodeId>)
    requires START in reachable && Expanded(d, reachable, [], {})
    ensures forall n :: n in reachable <==> Reachable(d, n)
  {
    hide Successors;
    forall n | Reachable(d, n) ensures n in reachable {
      var way :| IsWay(d, way) && way[|way| - 1] == n;
      WayStays(d, way, reachable, |way| - 1);
    }
  }

  lemma StartMentioned(d: Draft)
    ensures START in Mentioned(d) && Expanded(d, {START}, [START], {})
  {
    assert IsWay(d, [START]) && [START][0] == START;
  }
}
