/**
  Routing one super-step's results to the next tasks: static, conditional,
  waiting, deferred and Send edges.

  `Barriers` holds, per key, the sources a waiting edge has seen and the triggers
  a deferred node has accumulated. A missing key and an empty set mean the same,
  so these functions keep only non-empty entries.
*/
module Routing {
  import opened Prelude
  import opened Text
  import opened Graphs

  type Barriers = map<string, set<NodeId>>

  datatype Route = Route(node: NodeId, trigger: NodeId)

  datatype Routed = Routed(next: seq<NodeId>, triggers: map<NodeId, seq<NodeId>>, waiting: Barriers)

  datatype Scheduled = Scheduled(tasks: seq<Task>, waiting: Barriers)

  const PUSH_TRIGGER: NodeId := "__pregel_push"

  function DeferredKey(node: NodeId): string
  {
    DEFERRED_PREFIX + node
  }

  function Pending(w: Barriers, key: string): set<NodeId>
  {
    if key in w then w[key] else {}
  }

  function SetPending(w: Barriers, key: string, s: set<NodeId>): Barriers
  {
    if s == {} then w - {key} else w[key := s]
  }

  // ----- Where each result goes -----

  function BranchTo(node: NodeId): NodeId
  {
    "branch:to:" + node
  }

  function Join(sources: seq<NodeId>): string
  {
    if sources == [] then ""
    else if |sources| == 1 then sources[0]
    else sources[0] + "+" + Join(sources[1..])
  }

  function WaitingTrigger(edge: WaitingEdge): NodeId
  {
    "join:" + Join(edge.sources) + ":" + edge.target
  }

  function DirectRoutes(destinations: seq<NodeId>): (r: seq<Route>)
  {
    seq(|destinations|, i requires 0 <= i < |destinations| => Route(destinations[i], BranchTo(destinations[i])))
  }

  function BranchRoutes(source: NodeId, branches: seq<Branch>, state: State): (r: Result<seq<Route>, RouteError>)
  {
    if branches == [] then Ok([])
    else match branches[0].router(state)
      case Err(fault) => Err(RouterFailed(fault))
      case Ok(targets) =>
        match FirstOutside(targets, branches[0].allowed)
        case Some(target) => Err(UnknownNode(target))
        case None =>
          match BranchRoutes(source, branches[1..], state)
          case Err(e) => Err(e)
          case Ok(rest) =>
            Ok(seq(|targets|, i requires 0 <= i < |targets| =>
                     Route(targets[i], "branch:" + source + ":" + branches[0].name + ":" + targets[i])) + rest)
  }

  function FirstOutside(targets: seq<NodeId>, allowed: set<NodeId>): (r: Option<NodeId>)
    ensures r.None? <==> forall t :: t in targets ==> t in allowed
  {
    if targets == [] then None
    else if targets[0] !in allowed then Some(targets[0])
    else FirstOutside(targets[1..], allowed)
  }

  function DefaultRoutes(p: Plan, source: NodeId, state: State): Result<seq<Route>, RouteError>
  {
    var fixed := DirectRoutes(if source in p.edges then p.edges[source] else []);
    match BranchRoutes(source, if source in p.branches then p.branches[source] else [], state)
    case Err(e) => Err(e)
    case Ok(conditional) => Ok(fixed + conditional)
  }

  /** validateExplicitDestinations: the first destination that is not END or a known node. */
  function InvalidDestination(p: Plan, destinations: seq<NodeId>): Option<RouteError>
  {
    if destinations == [] then None
    else if destinations[0] == END then InvalidDestination(p, destinations[1..])
    else if destinations[0] == START then Some(RouteToStart)
    else if destinations[0] !in p.nodes then Some(UnknownNode(destinations[0]))
    else InvalidDestination(p, destinations[1..])
  }

  function ResultRoutes(p: Plan, result: TaskResult, state: State): Result<seq<Route>, RouteError>
  {
    match result.cmd.goto
    case None => DefaultRoutes(p, result.OutputNode(), state)
    case Some(destinations) =>
      match InvalidDestination(p, destinations)
      case Some(e) => Err(e)
      case None => Ok(DirectRoutes(destinations))
  }

  function AllRoutes(p: Plan, results: seq<TaskResult>, state: State): Result<seq<Route>, RouteError>
  {
    if results == [] then Ok([])
    else
      match AllRoutes(p, results[..|results| - 1], state)
      case Err(e) => Err(e)
      case Ok(before) =>
        match ResultRoutes(p, results[|results| - 1], state)
        case Err(e) => Err(e)
        case Ok(routes) => Ok(before + routes)
  }

  function Completed(results: seq<TaskResult>): set<NodeId>
  {
    set r | r in results :: r.OutputNode()
  }

  // ----- Accumulating destinations -----

  function AppendUnique(s: seq<NodeId>, x: NodeId): seq<NodeId>
  {
    if x in s then s else s + [x]
  }

  function TriggersOf(triggers: map<NodeId, seq<NodeId>>, node: NodeId): seq<NodeId>
  {
    if node in triggers then triggers[node] else []
  }

  /** One destination: END is dropped, a deferred node accumulates, others are scheduled once. */
  function AddRoute(p: Plan, acc: Routed, route: Route): Routed
  {
    if route.node == END then acc
    else if route.node in p.deferred then
      var key := DeferredKey(route.node);
      acc.(waiting := SetPending(acc.waiting, key, Pending(acc.waiting, key) + {route.trigger}))
    else
      Routed(
        AppendUnique(acc.next, route.node),
        acc.triggers[route.node := AppendUnique(TriggersOf(acc.triggers, route.node), route.trigger)],
        acc.waiting)
  }

  function AddRoutes(p: Plan, acc: Routed, routes: seq<Route>): Routed
  {
    if routes == [] then acc
    else AddRoute(p, AddRoutes(p, acc, routes[..|routes| - 1]), routes[|routes| - 1])
  }

  /** The barrier of an edge once a step's completions are recorded in it. */
  function Arrived(edge: WaitingEdge, completed: set<NodeId>, barrier: set<NodeId>): set<NodeId>
  {
    barrier + (set s | s in edge.sources && s in completed)
  }

  /** One waiting edge: its barrier grows, and a full barrier is cleared and routes the target. */
  function AddEdge(p: Plan, edge: WaitingEdge, completed: set<NodeId>, acc: Routed): Routed
  {
    var barrier := Arrived(edge, completed, Pending(acc.waiting, edge.id));
    if |barrier| != |edge.sources| then
      acc.(waiting := SetPending(acc.waiting, edge.id, barrier))
    else
      AddRoute(p, acc.(waiting := SetPending(acc.waiting, edge.id, {})), Route(edge.target, WaitingTrigger(edge)))
  }

  function AddWaiting(p: Plan, edges: seq<WaitingEdge>, completed: set<NodeId>, acc: Routed): Routed
  {
    if edges == [] then acc
    else AddEdge(p, edges[|edges| - 1], completed, AddWaiting(p, edges[..|edges| - 1], completed, acc))
  }

  function Resolve(p: Plan, results: seq<TaskResult>, state: State, w: Barriers): Result<Routed, RouteError>
  {
    match AllRoutes(p, results, state)
    case Err(e) => Err(e)
    case Ok(routes) =>
      Ok(AddWaiting(p, p.waitingEdges, Completed(results), AddRoutes(p, Routed([], map[], w), routes)))
  }

  // ----- Tasks -----

  function EdgeTasks(step: nat, next: seq<NodeId>, triggers: map<NodeId, seq<NodeId>>): seq<Task>
  {
    seq(|next|, i requires 0 <= i < |next| =>
      Task(next[i], TaskId(step, i, next[i]), TriggersOf(triggers, next[i]), None))
  }

  function PushTasks(step: nat, tasks: seq<Task>, sends: seq<Send>): seq<Task>
  {
    if sends == [] then tasks
    else
      var before := PushTasks(step, tasks, sends[..|sends| - 1]);
      var send := sends[|sends| - 1];
      before + [Task(send.node, TaskId(step, |before|, send.node), [PUSH_TRIGGER], Some(send.state))]
  }

  function InvalidSend(sends: seq<Send>, allowed: set<NodeId>): Option<RouteError>
  {
    if sends == [] then None
    else if sends[0].node !in allowed then Some(UnknownNode(sends[0].node))
    else InvalidSend(sends[1..], allowed)
  }

  function ResultSends(p: Plan, result: TaskResult, state: State): Result<seq<Send>, RouteError>
  {
    match InvalidSend(result.cmd.sends, p.nodes - {START, END})
    case Some(e) => Err(e)
    case None =>
      var source := result.OutputNode();
      if source !in p.sendBranches then Ok(result.cmd.sends)
      else
        match p.sendBranches[source].router(state)
        case Err(fault) => Err(RouterFailed(fault))
        case Ok(sends) =>
          match InvalidSend(sends, p.sendBranches[source].allowed)
          case Some(e) => Err(e)
          case None => Ok(result.cmd.sends + sends)
  }

  function AllSends(p: Plan, results: seq<TaskResult>, state: State): Result<seq<Send>, RouteError>
  {
    if results == [] then Ok([])
    else
      match AllSends(p, results[..|results| - 1], state)
      case Err(e) => Err(e)
      case Ok(before) =>
        match ResultSends(p, results[|results| - 1], state)
        case Err(e) => Err(e)
        case Ok(sends) => Ok(before + sends)
  }

  function ReadyDeferred(p: Plan, w: Barriers): set<NodeId>
  {
    set d | d in p.deferred && Pending(w, DeferredKey(d)) != {}
  }

  function DeferredKeys(nodes: set<NodeId>): set<string>
  {
    set d | d in nodes :: DeferredKey(d)
  }

  function DeferredTask(step: nat, index: nat, node: NodeId, w: Barriers): Task
  {
    Task(node, TaskId(step, index, node), Sorted(Pending(w, DeferredKey(node))), None)
  }

  function Release(p: Plan, step: nat, w: Barriers): Scheduled
  {
    var ready := ReadyDeferred(p, w);
    var nodes := Sorted(ready);
    Scheduled(
      seq(|nodes|, i requires 0 <= i < |nodes| => DeferredTask(step, i, nodes[i], w)),
      w - DeferredKeys(ready))
  }

  /** resolveNextTasks: deferred nodes are released only when nothing else is scheduled. */
  function NextTasks(p: Plan, step: nat, results: seq<TaskResult>, state: State, w: Barriers)
    : Result<Scheduled, RouteError>
  {
    match Resolve(p, results, state, w)
    case Err(e) => Err(e)
    case Ok(routed) =>
      match AllSends(p, results, state)
      case Err(e) => Err(e)
      case Ok(sends) =>
        var tasks := PushTasks(step + 1, EdgeTasks(step + 1, routed.next, routed.triggers), sends);
        if tasks == [] then Ok(Release(p, step + 1, routed.waiting))
        else Ok(Scheduled(tasks, routed.waiting))
  }

  /** scheduleDefaultTasks from START: the tasks of a fresh run, or of a new run on a finished thread. */
  function EntryTasks(p: Plan, taskStep: nat, state: State, w: Barriers): Result<Scheduled, RouteError>
  {
    match DefaultRoutes(p, START, state)
    case Err(e) => Err(e)
    case Ok(routes) =>
      var routed := AddRoutes(p, Routed([], map[], w), routes);
      var tasks := EdgeTasks(taskStep, routed.next, routed.triggers);
      if tasks == [] then Ok(Release(p, taskStep, routed.waiting))
      else Ok(Scheduled(tasks, routed.waiting))
  }

  // ----- Checkpointing the barriers -----

  function Keep(sources: seq<NodeId>, seen: set<NodeId>): (r: seq<NodeId>)
    ensures forall s :: s in r <==> s in sources && s in seen
  {
    if sources == [] then []
    else if sources[0] in seen then [sources[0]] + Keep(sources[1..], seen)
    else Keep(sources[1..], seen)
  }

  function SaveEdges(w: Barriers, edges: seq<WaitingEdge>): map<string, seq<NodeId>>
  {
    if edges == [] then map[]
    else
      var edge := edges[|edges| - 1];
      var kept := Keep(edge.sources, Pending(w, edge.id));
      var before := SaveEdges(w, edges[..|edges| - 1]);
      if kept == [] then before else before[edge.id := kept]
  }

  function DeferredEntries(w: Barriers): map<string, seq<NodeId>>
  {
    map key | key in w && DEFERRED_PREFIX <= key && w[key] != {} :: Sorted(w[key])
  }

  function SaveWaiting(w: Barriers, edges: seq<WaitingEdge>): map<string, seq<NodeId>>
  {
    SaveEdges(w, edges) + DeferredEntries(w)
  }

  function RestoreWaiting(stored: map<string, seq<NodeId>>): Barriers
  {
    map key | key in stored && stored[key] != [] :: Elements(stored[key])
  }
}
