/**
  Concurrent children of one node that may each ask for input. A monitor lets them reach
  the shared interrupt handler in child order; the node reports one of their signals.
*/
module InterruptOrdering {
  import opened Prelude
  import opened Text
  import opened Interrupts

  /** The monitor: which children have finished, and the first that has not. */
  class Monitor {
    var done: array<bool>
    var next: nat

    ghost predicate Valid()
      reads this, done
    {
      next == FirstOpen(done[..], 0)
    }

    constructor (children: nat)
      ensures Valid() && fresh(done) && done[..] == seq(children, _ => false)
    {
      done := new bool[children](_ => false);
      next := 0;
    }

    method Done(child: nat)
      requires Valid() && child < done.Length
      modifies this, done
      ensures Valid() && done == old(done) && done[..] == old(done[..])[child := true]
    {
      FirstOpenMoves(done[..], child);
      done[child] := true;
      while next < done.Length && done[next]
        invariant next <= done.Length && done[..] == old(done[..])[child := true] && done == old(done)
        invariant FirstOpen(done[..], next) == FirstOpen(done[..], 0)
      {
        next := next + 1;
      }
    }
  }

  /** The first child from `from` on that has not finished, or the number of children. */
  function FirstOpen(done: seq<bool>, from: nat): (r: nat)
    requires from <= |done|
    ensures from <= r <= |done|
    ensures forall i :: from <= i < r ==> done[i]
    ensures r < |done| ==> !done[r]
    decreases |done| - from
  {
    if from == |done| || !done[from] then from else FirstOpen(done, from + 1)
  }

  lemma {:induction false} FirstOpenFrom(done: seq<bool>, from: nat, n: nat)
    requires from <= n <= |done| && forall i :: from <= i < n ==> done[i]
    ensures FirstOpen(done, from) == FirstOpen(done, n)
    decreases n - from
  {
    if from < n {
      FirstOpenFrom(done, from + 1, n);
    }
  }

  lemma FirstOpenMoves(done: seq<bool>, child: nat)
    requires child < |done|
    ensures FirstOpen(done, 0) <= FirstOpen(done[child := true], 0)
    ensures FirstOpen(done[child := true], FirstOpen(done, 0)) == FirstOpen(done[child := true], 0)
    ensures child != FirstOpen(done, 0) ==> FirstOpen(done[child := true], 0) == FirstOpen(done, 0)
  {
    FirstOpenFrom(done[child := true], 0, FirstOpen(done, 0));
  }

  // ----- Children as a state machine -----

  datatype Child =
    | NotStarted
    | Working             // in the tool's own code
    | AtGate(call: nat)   // waiting in the monitor with its call-th interrupt
    | Through(call: nat)  // past the monitor, about to enter the base handler
    | Ended

  /** What a suspended call raises: the control as it was then, and the call's own interrupt. */
  datatype Signal = Signal(control: Control, interrupt: Interrupt)

  /** One visit of the base handler. */
  datatype Visit = Visit(child: nat, call: nat)

  datatype State = State(
    limit: nat,
    children: seq<Child>,
    calls: seq<nat>,                   // interrupts each child has asked for so far
    done: seq<bool>,
    next: nat,
    control: Control,
    visits: seq<Visit>,
    signals: seq<Option<Signal>>,      // the signal each child's last interrupt raised, if it was suspended
    errors: seq<Option<Signal>>)       // the signals the children ended with

  datatype Step =
    | Start
    | Reach(child: nat)
    | Pass(child: nat)
    | Enter(child: nat, prompt: Json)
    | End(child: nat, interrupted: bool)

  function Initial(children: nat, limit: nat, control: Control): State
  {
    State(limit, seq(children, _ => NotStarted), seq(children, _ => 0), seq(children, _ => false), 0, control, [],
          seq(children, _ => None), seq(children, _ => None))
  }

  function Started(children: seq<Child>): nat
  {
    if children == [] then 0 else Started(children[..|children| - 1]) + if children[|children| - 1].NotStarted? then 0 else 1
  }

  function Active(children: seq<Child>): nat
  {
    if children == [] then 0
    else Active(children[..|children| - 1]) + if children[|children| - 1].NotStarted? || children[|children| - 1].Ended? then 0 else 1
  }

  function ChildScope(child: nat): string
  {
    "child:" + Decimal(child)
  }

  predicate On(s: State, c: nat)
  {
    c < |s.children| == |s.calls| == |s.done| == |s.signals| == |s.errors|
  }

  /** The errgroup starts children in index order and keeps at most `limit` of them active. */
  predicate CanStart(s: State, c: nat)
  {
    && On(s, c) && s.children[c].NotStarted? && (forall i :: 0 <= i < c ==> !s.children[i].NotStarted?)
    && Active(s.children) < s.limit
  }

  function Next(task: Task, s: State, step: Step): Option<State>
  {
    match step
    case Start =>
      var c := Started(s.children);
      if CanStart(s, c) then Some(s.(children := s.children[c := Working])) else None
    case Reach(c) =>
      if On(s, c) && s.children[c].Working? then
        Some(s.(children := s.children[c := AtGate(s.calls[c])], calls := s.calls[c := s.calls[c] + 1]))
      else None
    case Pass(c) =>
      if On(s, c) && s.children[c].AtGate? && (c == s.next || s.done[c]) then
        Some(s.(children := s.children[c := Through(s.children[c].call)]))
      else None
    case Enter(c, prompt) =>
      if On(s, c) && s.children[c].Through? then Some(Visited(task, s, c, prompt)) else None
    case End(c, interrupted) =>
      if On(s, c) && s.children[c].Working? then
        var done := s.done[c := true];
        Some(s.(children := s.children[c := Ended], done := done, next := FirstOpen(done, 0),
                errors := if interrupted then s.errors[c := s.signals[c]] else s.errors))
      else None
  }

  function Visited(task: Task, s: State, c: nat, prompt: Json): State
    requires On(s, c) && s.children[c].Through?
  {
    var coordinate := Some(Coordinate(ChildScope(c), s.children[c].call));
    var control := Asked(task, s.control, 0, coordinate, prompt);
    var reply := ReplyTo(task, s.control, 0, coordinate, prompt);
    s.(children := s.children[c := Working], control := control,
       visits := s.visits + [Visit(c, s.children[c].call)],
       signals := s.signals[c := if reply.Suspend? then Some(Signal(control, reply.interrupt)) else None])
  }

  function Run(task: Task, s: State, steps: seq<Step>): Option<State>
  {
    if steps == [] then Some(s)
    else
      match Run(task, s, steps[..|steps| - 1])
      case None => None
      case Some(before) => Next(task, before, steps[|steps| - 1])
  }

  // ----- Order and progress -----

  ghost predicate Shape(s: State)
  {
    |s.children| == |s.calls| == |s.done| == |s.signals| == |s.errors|
  }

  ghost predicate MonitorOk(s: State)
  {
    && Shape(s) && s.next == FirstOpen(s.done, 0)
    && (forall c :: 0 <= c < |s.children| ==> (s.done[c] <==> s.children[c].Ended?))
    && (forall c :: 0 <= c < |s.children| && s.children[c].Through? ==> c == s.next)
    && (forall b, c :: 0 <= b < c < |s.children| && s.children[b].NotStarted? ==> s.children[c].NotStarted?)
  }

  /** The visits so far are in child order, and none of them is ahead of the monitor. */
  ghost predicate OrderOk(s: State)
  {
    && (forall i, j :: 0 <= i < j < |s.visits| ==> s.visits[i].child <= s.visits[j].child)
    && (forall i :: 0 <= i < |s.visits| ==> s.visits[i].child <= s.next)
  }

  lemma MonitorKept(task: Task, s: State, step: Step)
    requires MonitorOk(s) && Next(task, s, step).Some?
    ensures MonitorOk(Next(task, s, step).value)
  {
    hide ChildScope, Asked, ReplyTo, Active, Started, FirstOpen;
    match step {
      case Start =>
      case Reach(c) =>
      case Pass(c) =>
      case Enter(c, prompt) =>
      case End(c, interrupted) => EndKept(task, s, c, interrupted);
    }
  }

  lemma EndKept(task: Task, s: State, c: nat, interrupted: bool)
    requires MonitorOk(s) && Next(task, s, End(c, interrupted)).Some?
    ensures MonitorOk(Next(task, s, End(c, interrupted)).value)
  {
    hide FirstOpen;
    FirstOpenMoves(s.done, c);
  }

  lemma OrderKept(task: Task, s: State, step: Step)
    requires MonitorOk(s) && OrderOk(s) && Next(task, s, step).Some?
    ensures OrderOk(Next(task, s, step).value)
  {
    hide ChildScope, Asked, ReplyTo, Active, Started, FirstOpen;
    match step {
      case Start =>
      case Reach(c) =>
      case Pass(c) =>
      case Enter(c, prompt) =>
      case End(c, interrupted) => FirstOpenMoves(s.done, c);
    }
  }

  // ----- Signals -----

  function CoordinateOf(interrupt: Interrupt): Coordinate
  {
    Coordinate(interrupt.scope, interrupt.index)
  }

  function Coordinates(control: Control): (r: seq<Coordinate>)
    ensures |r| == |control.interrupts|
  {
    seq(|control.interrupts|, i requires 0 <= i < |control.interrupts| => CoordinateOf(control.interrupts[i]))
  }

  /** A visit keeps every coordinate in its slot and adds at most its own at the end. */
  lemma AskedCoordinates(task: Task, control: Control, coordinate: Coordinate, prompt: Json)
    ensures var next := Asked(task, control, 0, Some(coordinate), prompt);
            var reply := ReplyTo(task, control, 0, Some(coordinate), prompt);
            && Coordinates(control) <= Coordinates(next)
            && (reply.Suspend? ==> CoordinateOf(reply.interrupt) == coordinate && coordinate in Coordinates(next))
  {
    var next := Asked(task, control, 0, Some(coordinate), prompt);
    var position := PositionOf(control, 0, Some(coordinate));
    assert CoordinateOf(next.interrupts[position]) == coordinate;
    assert Coordinates(next)[position] == coordinate;
  }

  ghost predicate SignalOk(control: Control, c: nat, signal: Option<Signal>)
  {
    signal.Some? ==>
      && Coordinates(signal.value.control) <= Coordinates(control)
      && signal.value.interrupt.scope == ChildScope(c)
      && CoordinateOf(signal.value.interrupt) in Coordinates(signal.value.control)
  }

  ghost predicate SignalsOk(s: State)
  {
    && Shape(s)
    && (forall c :: 0 <= c < |s.children| ==> SignalOk(s.control, c, s.signals[c]) && SignalOk(s.control, c, s.errors[c]))
  }

  lemma SignalsKept(task: Task, s: State, step: Step)
    requires SignalsOk(s) && Next(task, s, step).Some?
    ensures SignalsOk(Next(task, s, step).value)
  {
    hide Asked, ReplyTo, Active, Started, Coordinates, ChildScope, FirstOpen;
    if step.Enter? {
      AskedCoordinates(task, s.control, Coordinate(ChildScope(step.child), s.children[step.child].call), step.prompt);
    }
  }

  ghost predicate Inv(s: State)
  {
    MonitorOk(s) && OrderOk(s) && SignalsOk(s)
  }

  lemma {:induction false} RunKeeps(task: Task, s: State, steps: seq<Step>)
    requires Inv(s) && Run(task, s, steps).Some?
    ensures Inv(Run(task, s, steps).value)
  {
    hide Next, MonitorOk, OrderOk, SignalsOk;
    if steps != [] {
      RunKeeps(task, s, steps[..|steps| - 1]);
      var before, step := Run(task, s, steps[..|steps| - 1]).value, steps[|steps| - 1];
      MonitorKept(task, before, step);
      OrderKept(task, before, step);
      SignalsKept(task, before, step);
    }
  }

  ghost predicate Reaches(task: Task, children: nat, limit: nat, control: Control, steps: seq<Step>, s: State)
  {
    Run(task, Initial(children, limit, control), steps) == Some(s)
  }

  lemma ReachedOk(task: Task, children: nat, limit: nat, control: Control, steps: seq<Step>, s: State)
    requires Reaches(task, children, limit, control, steps, s)
    ensures Inv(s)
  {
    hide Next;
    assert Inv(Initial(children, limit, control));
    RunKeeps(task, Initial(children, limit, control), steps);
  }

  /** Children reach the base handler in nondecreasing index, under every interleaving and every limit. */
  lemma VisitsInOrder(task: Task, children: nat, limit: nat, control: Control, steps: seq<Step>, s: State, i: nat, j: nat)
    requires Reaches(task, children, limit, control, steps, s) && i < j < |s.visits|
    ensures s.visits[i].child <= s.visits[j].child
  {
    ReachedOk(task, children, limit, control, steps, s);
  }

  /** The loop over the children's errors: the first signal with the most pending interrupts. */
  method SelectSignal(errors: seq<Option<Signal>>) returns (r: Option<Signal>)
    ensures r.None? <==> forall c :: 0 <= c < |errors| ==> errors[c].None?
    ensures r.Some? ==> Selected(errors, r.value)
  {
    r := None;
    var most := -1;
    ghost var chosen := 0;
    for c := 0 to |errors|
      invariant most == if r.Some? then |r.value.control.interrupts| else -1
      invariant r.None? <==> forall b :: 0 <= b < c ==> errors[b].None?
      invariant r.Some? ==> FirstMost(errors, chosen, r.value)
      invariant forall b :: 0 <= b < c && errors[b].Some? ==> |errors[b].value.control.interrupts| <= most
    {
      if errors[c].Some? && |errors[c].value.control.interrupts| > most {
        r := errors[c];
        most := |errors[c].value.control.interrupts|;
        chosen := c;
      }
    }
  }

  /** The signal is the first of those that carry the most interrupts. */
  ghost predicate Selected(errors: seq<Option<Signal>>, signal: Signal)
  {
    && (exists c :: FirstMost(errors, c, signal))
    && forall c :: 0 <= c < |errors| && errors[c].Some? ==> |errors[c].value.control.interrupts| <= |signal.control.interrupts|
  }

  ghost predicate FirstMost(errors: seq<Option<Signal>>, c: int, signal: Signal)
  {
    && 0 <= c < |errors| && errors[c] == Some(signal)
    && forall b :: 0 <= b < c && errors[b].Some? ==> |errors[b].value.control.interrupts| < |signal.control.interrupts|
  }

  /** The selected signal carries the coordinate of every interrupted child. */
  lemma SelectedCarriesAll(task: Task, children: nat, limit: nat, control: Control, steps: seq<Step>, s: State, signal: Signal, c: nat)
    requires Reaches(task, children, limit, control, steps, s) && Selected(s.errors, signal)
    requires c < |s.errors| && s.errors[c].Some?
    ensures CoordinateOf(s.errors[c].value.interrupt) in Coordinates(signal.control)
    ensures s.errors[c].value.interrupt.scope == ChildScope(c)
  {
    hide Next, Coordinates, ChildScope;
    ReachedOk(task, children, limit, control, steps, s);
    var b :| FirstMost(s.errors, b, signal);
    var own := s.errors[c].value;
    assert SignalOk(s.control, b, s.errors[b]) && SignalOk(s.control, c, s.errors[c]);
    CoordinatesLength(own.control);
    CoordinatesLength(signal.control);
    PrefixContains(Coordinates(own.control), Coordinates(signal.control), Coordinates(s.control), CoordinateOf(own.interrupt));
  }

  lemma CoordinatesLength(control: Control)
    ensures |Coordinates(control)| == |control.interrupts|
  {
  }

  lemma PrefixContains(a: seq<Coordinate>, b: seq<Coordinate>, whole: seq<Coordinate>, x: Coordinate)
    requires a <= whole && b <= whole && |a| <= |b| && x in a
    ensures x in b
  {
    var i :| 0 <= i < |a| && a[i] == x;
    assert b[i] == whole[i];
  }

  // ----- No deadlock -----

  lemma {:induction false} LimitStays(task: Task, s: State, steps: seq<Step>)
    requires Run(task, s, steps).Some?
    ensures Run(task, s, steps).value.limit == s.limit
  {
    hide Asked, ReplyTo, Active, Started, ChildScope, FirstOpen;
    if steps != [] {
      LimitStays(task, s, steps[..|steps| - 1]);
    }
  }

  lemma {:induction false} StartedCount(children: seq<Child>, c: nat)
    requires c <= |children| && forall i :: 0 <= i < |children| ==> (children[i].NotStarted? <==> i >= c)
    ensures Started(children) == c
  {
    if children != [] {
      var n := |children| - 1;
      StartedCount(children[..n], if c <= n then c else n);
    }
  }

  lemma {:induction false} NoneActive(children: seq<Child>)
    requires forall i :: 0 <= i < |children| ==> children[i].NotStarted? || children[i].Ended?
    ensures Active(children) == 0
  {
    if children != [] {
      NoneActive(children[..|children| - 1]);
    }
  }

  /** All children before the first open one have ended, so it can start if it has not. */
  lemma StartEnabled(task: Task, s: State)
    requires MonitorOk(s) && s.limit >= 1 && s.next < |s.children| && s.children[s.next].NotStarted?
    ensures Next(task, s, Start).Some?
  {
    hide FirstOpen;
    StartedCount(s.children, s.next);
    NoneActive(s.children);
  }

  /**
    While a child has not ended, the first such child can move on, whatever the others do and however small
    the limit: it can start, pass the gate, enter the handler, or leave the tool's own code.
  */
  lemma NoDeadlock(task: Task, children: nat, limit: nat, control: Control, steps: seq<Step>, s: State, prompt: Json) returns (step: Step)
    requires Reaches(task, children, limit, control, steps, s) && limit >= 1
    requires exists c :: 0 <= c < |s.children| && !s.children[c].Ended?
    ensures Next(task, s, step).Some?
    ensures s.next < |s.children| && !s.children[s.next].Ended?
    ensures step == (match s.children[s.next]
                     case NotStarted => Start
                     case Working => End(s.next, false)
                     case AtGate(_) => Pass(s.next)
                     case Through(_) => Enter(s.next, prompt)
                     case Ended => step)
  {
    hide ChildScope, Asked, ReplyTo, OrderOk, SignalsOk, Started, Active;
    ReachedOk(task, children, limit, control, steps, s);
    LimitStays(task, Initial(children, limit, control), steps);
    var c := s.next;
    match s.children[c] {
      case NotStarted =>
        step := Start;
        StartEnabled(task, s);
      case Working => step := End(c, false);
      case AtGate(_) => step := Pass(c);
      case Through(_) => step := Enter(c, prompt);
    }
  }
}
