/**
  The compiled execution plan and the values that flow through it. Node bodies,
  routers and the reducer are arbitrary deterministic functions carried by the plan.
*/
module Graphs {
  import opened Prelude
  import opened Text

  type State(==, !new)
  type Delta(==, !new)
  type Fault(==, !new)
  type NodeId = string

  const START: NodeId := "__start__"
  const END: NodeId := "__end__"

  datatype Send = Send(node: NodeId, state: State)

  /** `goto` distinguishes "use the default edges" (None) from "stop this branch" (Some([])). */
  datatype Command = Command(update: Option<Delta>, goto: Option<seq<NodeId>>, sends: seq<Send>)

  /** `handledBy` is empty unless an error handler produced the command. */
  datatype TaskResult = TaskResult(node: NodeId, taskId: string, cmd: Command, handledBy: NodeId) {
    function OutputNode(): NodeId {
      if handledBy != "" then handledBy else node
    }
  }

  /** A task with an input was created by a Send; the others run on the graph state. */
  datatype Task = Task(node: NodeId, id: string, triggers: seq<NodeId>, input: Option<State>)

  datatype RouteError = RouterFailed(fault: Fault) | UnknownNode(node: NodeId) | RouteToStart

  datatype Branch = Branch(name: string, router: State -> Result<seq<NodeId>, Fault>, allowed: set<NodeId>)

  datatype SendBranch = SendBranch(router: State -> Result<seq<Send>, Fault>, allowed: set<NodeId>)

  datatype WaitingEdge = WaitingEdge(id: string, sources: seq<NodeId>, target: NodeId)

  datatype Plan = Plan(
    nodes: set<NodeId>,
    edges: map<NodeId, seq<NodeId>>,
    branches: map<NodeId, seq<Branch>>,
    waitingEdges: seq<WaitingEdge>,
    sendBranches: map<NodeId, SendBranch>,
    deferred: set<NodeId>)

  const DEFERRED_PREFIX := "__deferred__:"

  /** What the builder guarantees of the waiting edges it appends (Builder.AddWaitingEdge). */
  ghost predicate WaitingEdgesOk(edges: seq<WaitingEdge>)
  {
    && (forall i, j :: 0 <= i < j < |edges| ==> edges[i].id != edges[j].id)
    && (forall i :: 0 <= i < |edges| ==> !(DEFERRED_PREFIX <= edges[i].id))
    && (forall i :: 0 <= i < |edges| ==> Distinct(edges[i].sources) && edges[i].sources != [])
  }

  ghost predicate Distinct<T>(s: seq<T>)
  {
    forall i, j :: 0 <= i < j < |s| ==> s[i] != s[j]
  }

  function EdgeId(i: nat): string
  {
    "waiting:" + Decimal(i)
  }

  lemma EdgeIdInjective(i: nat, j: nat)
    requires EdgeId(i) == EdgeId(j)
    ensures i == j
  {
    assert EdgeId(i)[8..] == Decimal(i) && EdgeId(j)[8..] == Decimal(j);
    DecimalInjective(i, j);
  }

  function Elements<T>(s: seq<T>): (r: set<T>)
  {
    set x | x in s
  }

  lemma {:induction false} DistinctSize<T>(s: seq<T>)
    requires Distinct(s)
    ensures |Elements(s)| == |s|
  {
    if s != [] {
      var last := s[|s| - 1];
      DistinctSize(s[..|s| - 1]);
      assert Elements(s) == Elements(s[..|s| - 1]) + {last};
      assert last !in s[..|s| - 1];
    }
  }

  /** fmt.Sprintf("step:%d:task:%d:node:%s", step, index, node) */
  function TaskId(step: nat, index: nat, node: NodeId): string
  {
    "step:" + (Decimal(step) + ":" + TaskSuffix(index, node))
  }

  function TaskSuffix(index: nat, node: NodeId): string
  {
    "task:" + (Decimal(index) + ":" + ("node:" + node))
  }

  lemma TaskIdInjective(s: nat, i: nat, n: NodeId, s': nat, i': nat, n': NodeId)
    requires TaskId(s, i, n) == TaskId(s', i', n')
    ensures s == s' && i == i' && n == n'
  {
    AfterPrefix("step:", Decimal(s) + ":" + TaskSuffix(i, n), Decimal(s') + ":" + TaskSuffix(i', n'));
    BeforeColon(Decimal(s), Decimal(s'), TaskSuffix(i, n), TaskSuffix(i', n'));
    DecimalInjective(s, s');
    AfterPrefix("task:", Decimal(i) + ":" + ("node:" + n), Decimal(i') + ":" + ("node:" + n'));
    BeforeColon(Decimal(i), Decimal(i'), "node:" + n, "node:" + n');
    DecimalInjective(i, i');
    AfterPrefix("node:", n, n');
  }

  lemma AfterPrefix(p: string, a: string, b: string)
    requires p + a == p + b
    ensures a == b
  {
    assert (p + a)[|p|..] == a && (p + b)[|p|..] == b;
  }

  ghost predicate StampedWith(task: Task, step: nat)
  {
    exists i: nat :: task.id == TaskId(step, i, task.node)
  }

  /** Every task carries the step it will run in, and no two tasks share an ID. */
  ghost predicate Stamped(tasks: seq<Task>, step: nat)
  {
    && (forall k :: 0 <= k < |tasks| ==> StampedWith(tasks[k], step))
    && (forall j, k :: 0 <= j < k < |tasks| ==> tasks[j].id != tasks[k].id)
  }
}
