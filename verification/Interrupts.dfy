/**
  Task-local interrupts: the control a task persists, the handler behind AwaitResume, and
  the recording of answers.
*/
module Interrupts {
  import opened Prelude

  type Datum(==, !new)

  /** A raw JSON document; null is one of them. */
  datatype Json = Null | Value(datum: Datum)

  /** The place of a call inside a composite node: which child, and its how-manieth call. */
  datatype Coordinate = Coordinate(scope: string, index: nat)

  /** An unscoped interrupt has an empty scope and index 0. */
  datatype Interrupt = Interrupt(id: string, prompt: Json, scope: string, index: nat)

  /** `resumes[i]` answers `interrupts[i]`; None is a nil slot. */
  datatype Control = Control(interrupts: seq<Interrupt>, resumes: seq<Option<Json>>)

  /** Interrupt IDs are a digest of namespace, task and index. */
  datatype Task = Task(namespace: string, id: string, digest: (string, string, nat) -> string)

  datatype Reply = Answer(value: Json) | Suspend(interrupt: Interrupt)

  predicate Answered(c: Control, i: nat)
  {
    i < |c.resumes| && c.resumes[i].Some?
  }

  /** Encoding writes a nil slot as null, and decoding reads null as a document. */
  function Persisted(c: Control): (r: Control)
    ensures |r.resumes| == |c.resumes| && r.interrupts == c.interrupts
  {
    c.(resumes := seq(|c.resumes|, i requires 0 <= i < |c.resumes| => Some(if c.resumes[i].Some? then c.resumes[i].value else Null)))
  }

  // ----- The handler behind AwaitResume -----

  function Locate(interrupts: seq<Interrupt>, coordinate: Coordinate): (r: Option<nat>)
    ensures r.Some? ==> r.value < |interrupts| && Matches(interrupts[r.value], coordinate)
    ensures r.Some? ==> forall i :: 0 <= i < r.value ==> !Matches(interrupts[i], coordinate)
    ensures r.None? ==> forall i :: 0 <= i < |interrupts| ==> !Matches(interrupts[i], coordinate)
  {
    if interrupts == [] then None
    else
      match Locate(interrupts[..|interrupts| - 1], coordinate)
      case Some(i) => Some(i)
      case None => if Matches(interrupts[|interrupts| - 1], coordinate) then Some(|interrupts| - 1) else None
  }

  predicate Matches(interrupt: Interrupt, coordinate: Coordinate)
  {
    interrupt.scope == coordinate.scope && interrupt.index == coordinate.index
  }

  function NewInterrupt(task: Task, index: nat, coordinate: Option<Coordinate>, prompt: Json): Interrupt
  {
    match coordinate
    case None => Interrupt(task.digest(task.namespace, task.id, index), prompt, "", 0)
    case Some(c) => Interrupt(task.digest(task.namespace, task.id + "\0" + c.scope, c.index), prompt, c.scope, c.index)
  }

  /** The slot of a call, or None when it gets a new one. */
  function SlotOf(control: Control, index: nat, coordinate: Option<Coordinate>): Option<nat>
  {
    match coordinate
    case None => if index < |control.interrupts| then Some(index) else None
    case Some(c) => Locate(control.interrupts, c)
  }

  function Asked(task: Task, control: Control, index: nat, coordinate: Option<Coordinate>, prompt: Json): Control
  {
    var interrupt := NewInterrupt(task, index, coordinate, prompt);
    match SlotOf(control, index, coordinate)
    case Some(i) => assert i < |control.interrupts|;
      control.(interrupts := control.interrupts[i := interrupt.(id := control.interrupts[i].id)])
    case None => control.(interrupts := control.interrupts + [interrupt])
  }

  function PositionOf(control: Control, index: nat, coordinate: Option<Coordinate>): nat
  {
    match SlotOf(control, index, coordinate) case Some(i) => i case None => |control.interrupts|
  }

  function ReplyTo(task: Task, control: Control, index: nat, coordinate: Option<Coordinate>, prompt: Json): (r: Reply)
  {
    var position := PositionOf(control, index, coordinate);
    if Answered(control, position) then Answer(control.resumes[position].value)
    else
      assert position < |Asked(task, control, index, coordinate, prompt).interrupts|;
      Suspend(Asked(task, control, index, coordinate, prompt).interrupts[position])
  }

  class Handler {
    const task: Task
    var index: nat
    var control: Control

    constructor (task: Task, control: Control)
      ensures this.task == task && this.control == control && index == 0
    {
      this.task, this.control, index := task, control, 0;
    }

    /** One AwaitResume call of the node body. */
    method Await(coordinate: Option<Coordinate>, prompt: Json) returns (reply: Reply)
      modifies this
      ensures control == Asked(task, old(control), old(index), coordinate, prompt)
      ensures reply == ReplyTo(task, old(control), old(index), coordinate, prompt)
      ensures index == if coordinate.Some? then old(index) else old(index) + 1
    {
      var current := index;
      if coordinate.None? {
        index := index + 1;
      }
      var interrupt := NewInterrupt(task, current, coordinate, prompt);
      var position := 0;
      var found := coordinate.None? && current < |control.interrupts|;
      if coordinate.Some? {
        while position < |control.interrupts| && !Matches(control.interrupts[position], coordinate.value)
          invariant position <= |control.interrupts|
          invariant forall i :: 0 <= i < position ==> !Matches(control.interrupts[i], coordinate.value)
        {
          position := position + 1;
        }
        found := position < |control.interrupts|;
      } else {
        position := current;
      }
      if found {
        interrupt := interrupt.(id := control.interrupts[position].id);
        control := control.(interrupts := control.interrupts[position := interrupt]);
      } else {
        control := control.(interrupts := control.interrupts + [interrupt]);
        position := |control.interrupts| - 1;
      }
      if position < |control.resumes| && control.resumes[position].Some? {
        return Answer(control.resumes[position].value);
      }
      return Suspend(interrupt);
    }
  }

  // ----- Recording an answer -----

  function SetResumeSpec(c: Control, index: nat, value: Json): (r: Control)
    ensures r.interrupts == c.interrupts
    ensures |r.resumes| == if index < |c.resumes| then |c.resumes| else index + 1
    ensures forall i :: 0 <= i < |r.resumes| ==>
      r.resumes[i] == if i == index then Some(value) else if i < |c.resumes| then c.resumes[i] else None
  {
    if index < |c.resumes| then c.(resumes := c.resumes[index := Some(value)])
    else c.(resumes := c.resumes + seq(index - |c.resumes|, _ => None) + [Some(value)])
  }

  /** setResume pads with nil slots. */
  method SetResume(c: Control, index: nat, value: Json) returns (r: Control)
    ensures r == SetResumeSpec(c, index, value)
  {
    var resumes := c.resumes;
    while |resumes| <= index
      invariant |c.resumes| <= |resumes| && (|resumes| <= index + 1 || |resumes| == |c.resumes|)
      invariant forall i :: 0 <= i < |resumes| ==> resumes[i] == if i < |c.resumes| then c.resumes[i] else None
    {
      resumes := resumes + [None];
    }
    resumes := resumes[index := Some(value)];
    r := c.(resumes := resumes);
    assert r.resumes == SetResumeSpec(c, index, value).resumes;
  }

  /** Recording one answer and persisting the control answers exactly that interrupt when no slot is padded. */
  lemma AnswersExactlyOne(c: Control, index: nat, value: Json)
    ensures (forall i :: Answered(Persisted(SetResumeSpec(c, index, value)), i) <==> i == index || Answered(Persisted(c), i))
       <==> index <= |c.resumes|
  {
    var after := Persisted(SetResumeSpec(c, index, value));
    if index > |c.resumes| {
      assert Answered(after, |c.resumes|) && !Answered(Persisted(c), |c.resumes|);
    }
  }

  // ----- Recording several answers -----

  datatype Pick = Pick(index: nat, value: Json)

  function SetAll(c: Control, picks: seq<Pick>): Control
  {
    if picks == [] then c
    else SetResumeSpec(SetAll(c, picks[..|picks| - 1]), picks[|picks| - 1].index, picks[|picks| - 1].value)
  }

  predicate Picked(picks: seq<Pick>, i: nat)
  {
    exists k :: 0 <= k < |picks| && picks[k].index == i
  }

  lemma {:induction false} SetAllSlots(c: Control, picks: seq<Pick>, i: nat)
    ensures Answered(SetAll(c, picks), i) <==> Answered(c, i) || Picked(picks, i)
    ensures i < |SetAll(c, picks).resumes| <==> i < |c.resumes| || exists k :: 0 <= k < |picks| && i <= picks[k].index
  {
    if picks != [] {
      var init, last := picks[..|picks| - 1], picks[|picks| - 1];
      SetAllSlots(c, init, i);
      assert forall k :: 0 <= k < |init| ==> init[k] == picks[k];
      assert Picked(picks, i) <==> Picked(init, i) || last.index == i;
    }
  }

  /** No slot below a picked one is left out. */
  ghost predicate NoGaps(c: Control, picks: seq<Pick>)
  {
    forall k, i: nat :: 0 <= k < |picks| && i < picks[k].index ==> i < |c.resumes| || Picked(picks, i)
  }

  /**
    Answering several interrupts of one control by ID and persisting it answers exactly those, in any order,
    if and only if no interrupt below the last of them stays open: an open one would read back as null.
  */
  lemma AnswersExactly(c: Control, picks: seq<Pick>)
    ensures (forall i: nat :: Answered(Persisted(SetAll(c, picks)), i) <==> Answered(Persisted(c), i) || Picked(picks, i))
       <==> NoGaps(c, picks)
  {
    forall i: nat ensures Answered(Persisted(SetAll(c, picks)), i) <==> i < |c.resumes| || exists k :: 0 <= k < |picks| && i <= picks[k].index {
      SetAllSlots(c, picks, i);
    }
    if NoGaps(c, picks) {
      forall i: nat ensures Answered(Persisted(SetAll(c, picks)), i) <==> Answered(Persisted(c), i) || Picked(picks, i) {
        if k :| 0 <= k < |picks| && i <= picks[k].index {
          assert i < picks[k].index || Picked(picks, i);
        }
      }
    } else {
      var k, i: nat :| 0 <= k < |picks| && i < picks[k].index && !(i < |c.resumes| || Picked(picks, i));
      assert Answered(Persisted(SetAll(c, picks)), i) && !Answered(Persisted(c), i);
    }
  }
}
