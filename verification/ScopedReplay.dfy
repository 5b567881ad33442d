/**
  Scoped replay: the children of a composite node share one control, and each call of a
  child must receive the answer given for its own coordinate, whatever the others do.
*/
module ScopedReplay {
  import opened Prelude
  import opened Text
  import opened Interrupts
  import opened InterruptReplay

  /** A child whose body ends after at most `bound` calls. */
  datatype Child = Child(bound: nat, node: Node)

  ghost predicate ChildOk(child: Child)
  {
    forall answers: seq<Json> :: |answers| >= child.bound ==> child.node(answers).Finish?
  }

  /** fmt.Sprintf("child:%d", child), and how many calls the child has made before. */
  function Place(child: nat, call: nat): Coordinate
  {
    Coordinate("child:" + Decimal(child), call)
  }

  lemma PlaceInjective(c: nat, k: nat, c': nat, k': nat)
    requires Place(c, k) == Place(c', k')
    ensures c == c' && k == k'
  {
    assert ("child:" + Decimal(c))[6..] == Decimal(c) && ("child:" + Decimal(c'))[6..] == Decimal(c');
    DecimalInjective(c, c');
  }

  datatype Ended = Returned(outcome: Outcome, answers: seq<Json>) | Open(call: nat, answers: seq<Json>)

  /** A child's calls against the shared control, from its |answers|-th on: the control they leave, and how it ends. */
  function RunChild(task: Task, c: nat, child: Child, control: Control, answers: seq<Json>): (Control, Ended)
    requires ChildOk(child)
    decreases child.bound - |answers|
  {
    match child.node(answers)
    case Finish(outcome) => (control, Returned(outcome, answers))
    case Ask(prompt) =>
      var place := Some(Place(c, |answers|));
      var next := Asked(task, control, 0, place, prompt);
      match ReplyTo(task, control, 0, place, prompt)
      case Suspend(_) => (next, Open(|answers|, answers))
      case Answer(value) => RunChild(task, c, child, next, answers + [value])
  }

  /** The first n children, one after the other, as the monitor lets them through. */
  function RunChildren(task: Task, children: seq<Child>, control: Control, n: nat): (r: (Control, seq<Ended>))
    requires n <= |children| && forall c :: 0 <= c < |children| ==> ChildOk(children[c])
    ensures |r.1| == n
  {
    if n == 0 then (control, [])
    else
      var before := RunChildren(task, children, control, n - 1);
      var last := RunChild(task, n - 1, children[n - 1], before.0, []);
      (last.0, before.1 + [last.1])
  }

  // ----- The answers a control holds -----

  /** What a control has recorded for a coordinate. */
  function AnswerAt(control: Control, place: Coordinate): Option<Json>
  {
    match Locate(control.interrupts, place)
    case None => None
    case Some(i) => if Answered(control, i) then control.resumes[i] else None
  }

  /** Different places, no answer without an interrupt, and no nil slot. */
  ghost predicate ControlOk(control: Control)
  {
    && |control.resumes| <= |control.interrupts|
    && (forall i :: 0 <= i < |control.resumes| ==> control.resumes[i].Some?)
    && (forall i, j :: 0 <= i < j < |control.interrupts| ==> PlaceOf(control.interrupts[i]) != PlaceOf(control.interrupts[j]))
  }

  function PlaceOf(interrupt: Interrupt): Coordinate
  {
    Coordinate(interrupt.scope, interrupt.index)
  }

  /** A child on its own, with an answer for some of its calls. */
  function Walk(c: nat, child: Child, given: Coordinate -> Option<Json>, answers: seq<Json>): Ended
    requires ChildOk(child)
    decreases child.bound - |answers|
  {
    match child.node(answers)
    case Finish(outcome) => Returned(outcome, answers)
    case Ask(_) =>
      match given(Place(c, |answers|))
      case None => Open(|answers|, answers)
      case Some(value) => Walk(c, child, given, answers + [value])
  }

  /** The later control keeps every interrupt in its place, and the answers. */
  ghost predicate Extends(before: Control, after: Control)
  {
    && after.resumes == before.resumes && |before.interrupts| <= |after.interrupts|
    && forall i :: 0 <= i < |before.interrupts| ==>
         PlaceOf(after.interrupts[i]) == PlaceOf(before.interrupts[i]) && after.interrupts[i].id == before.interrupts[i].id
  }

  lemma LocateIs(interrupts: seq<Interrupt>, place: Coordinate, i: nat)
    requires i < |interrupts| && PlaceOf(interrupts[i]) == place
    requires forall j :: 0 <= j < |interrupts| && j != i ==> PlaceOf(interrupts[j]) != place
    ensures Locate(interrupts, place) == Some(i)
  {
    var found := Locate(interrupts, place);
    assert Matches(interrupts[i], place);
    assert found.Some? ==> PlaceOf(interrupts[found.value]) == place;
  }

  lemma LocateNone(interrupts: seq<Interrupt>, place: Coordinate)
    requires forall j :: 0 <= j < |interrupts| ==> PlaceOf(interrupts[j]) != place
    ensures Locate(interrupts, place) == None
  {
    hide Locate;
    assert forall i: Interrupt :: Matches(i, place) <==> PlaceOf(i) == place;
  }

  /** Interrupts that are asked for later do not change what is recorded. */
  lemma ExtendsAnswers(before: Control, after: Control, place: Coordinate)
    requires ControlOk(before) && ControlOk(after) && Extends(before, after)
    ensures AnswerAt(after, place) == AnswerAt(before, place)
  {
    hide Locate;
    if i: nat :| i < |before.interrupts| && PlaceOf(before.interrupts[i]) == place {
      LocateIs(before.interrupts, place, i);
      LocateIs(after.interrupts, place, i);
    } else {
      LocateNone(before.interrupts, place);
      if j: nat :| j < |after.interrupts| && PlaceOf(after.interrupts[j]) == place {
        LocateIs(after.interrupts, place, j);
        assert j >= |before.interrupts|;
      } else {
        LocateNone(after.interrupts, place);
      }
    }
  }

  /** One call: it gets what is recorded for its coordinate, and otherwise its prompt is stored there. */
  lemma CallAnswered(task: Task, control: Control, place: Coordinate, prompt: Json)
    requires ControlOk(control)
    ensures var next := Asked(task, control, 0, Some(place), prompt);
            ControlOk(next) && Extends(control, next) && Locate(next.interrupts, place).Some?
    ensures match ReplyTo(task, control, 0, Some(place), prompt)
            case Answer(value) => AnswerAt(control, place) == Some(value)
            case Suspend(interrupt) => AnswerAt(control, place) == None && PlaceOf(interrupt) == place && interrupt.prompt == prompt
  {
    hide Locate, ControlOk, Extends, Matches, NewInterrupt;
    match Locate(control.interrupts, place) {
      case Some(i) => AskedAgain(task, control, place, prompt, i);
      case None => AskedFirst(task, control, place, prompt);
    }
  }

  lemma AskedAgain(task: Task, control: Control, place: Coordinate, prompt: Json, i: nat)
    requires ControlOk(control) && Locate(control.interrupts, place) == Some(i)
    ensures i < |control.interrupts|
    ensures var next := Asked(task, control, 0, Some(place), prompt);
            && ControlOk(next) && Extends(control, next) && Locate(next.interrupts, place).Some?
            && |next.interrupts| == |control.interrupts| && PlaceOf(next.interrupts[i]) == place && next.interrupts[i].prompt == prompt
  {
    hide Locate;
    var next := Asked(task, control, 0, Some(place), prompt);
    assert Matches(control.interrupts[i], place);
    forall j | 0 <= j < |next.interrupts| ensures PlaceOf(next.interrupts[j]) == PlaceOf(control.interrupts[j]) {}
    LocateIs(next.interrupts, place, i);
  }

  lemma AskedFirst(task: Task, control: Control, place: Coordinate, prompt: Json)
    requires ControlOk(control) && Locate(control.interrupts, place) == None
    ensures var next := Asked(task, control, 0, Some(place), prompt);
            && ControlOk(next) && Extends(control, next) && Locate(next.interrupts, place).Some?
            && |next.interrupts| == |control.interrupts| + 1 && |control.resumes| <= |control.interrupts|
            && PlaceOf(next.interrupts[|control.interrupts|]) == place && next.interrupts[|control.interrupts|].prompt == prompt
  {
    hide Locate;
    var next := Asked(task, control, 0, Some(place), prompt);
    forall j | 0 <= j < |control.interrupts| ensures PlaceOf(control.interrupts[j]) != place {
      assert !Matches(control.interrupts[j], place);
    }
    LocateIs(next.interrupts, place, |control.interrupts|);
  }

  /** A child gets, call by call, what is recorded for its own coordinates, and stops at the first without an answer. */
  lemma {:induction false} ChildWalks(task: Task, c: nat, child: Child, control: Control, given: Coordinate -> Option<Json>, answers: seq<Json>)
    requires ChildOk(child) && ControlOk(control) && forall place :: given(place) == AnswerAt(control, place)
    ensures var r := RunChild(task, c, child, control, answers);
            && r.1 == Walk(c, child, given, answers) && ControlOk(r.0) && Extends(control, r.0)
            && (r.1.Open? ==> Locate(r.0.interrupts, Place(c, r.1.call)).Some? && AnswerAt(r.0, Place(c, r.1.call)) == None)
    decreases child.bound - |answers|
  {
    hide ControlOk, Extends, Asked, ReplyTo, AnswerAt, ChildOk;
    match child.node(answers) {
      case Finish(_) => ExtendsItself(control);
      case Ask(prompt) =>
        var place := Place(c, |answers|);
        var next := Asked(task, control, 0, Some(place), prompt);
        CallAnswered(task, control, place, prompt);
        forall x ensures given(x) == AnswerAt(next, x) {
          ExtendsAnswers(control, next, x);
        }
        match ReplyTo(task, control, 0, Some(place), prompt) {
          case Suspend(_) =>
          case Answer(value) =>
            MoreCalls(child, answers);
            ChildWalks(task, c, child, next, given, answers + [value]);
            ExtendsThen(control, next, RunChild(task, c, child, next, answers + [value]).0);
        }
    }
  }

  lemma MoreCalls(child: Child, answers: seq<Json>)
    requires ChildOk(child) && child.node(answers).Ask?
    ensures |answers| < child.bound
  {
  }

  lemma ExtendsItself(control: Control)
    ensures Extends(control, control)
  {
  }

  lemma ExtendsThen(a: Control, b: Control, c: Control)
    requires Extends(a, b) && Extends(b, c)
    ensures Extends(a, c)
  {
  }

  /** Children do not disturb one another: each runs as it would on its own with the answers recorded for it. */
  lemma {:induction false} ChildrenWalk(task: Task, children: seq<Child>, control: Control, given: Coordinate -> Option<Json>, n: nat)
    requires n <= |children| && forall c :: 0 <= c < |children| ==> ChildOk(children[c])
    requires ControlOk(control) && forall place :: given(place) == AnswerAt(control, place)
    ensures var r := RunChildren(task, children, control, n);
            && ControlOk(r.0) && Extends(control, r.0)
            && forall c :: 0 <= c < n ==> r.1[c] == Walk(c, children[c], given, [])
  {
    hide ControlOk, Extends, AnswerAt, ChildOk, Walk, RunChild;
    if n == 0 {
      ExtendsItself(control);
    } else {
      ChildrenWalk(task, children, control, given, n - 1);
      NextChild(task, n - 1, children[n - 1], control, RunChildren(task, children, control, n - 1).0, given);
    }
  }

  /** A child that runs after others have asked. */
  lemma NextChild(task: Task, c: nat, child: Child, control: Control, before: Control, given: Coordinate -> Option<Json>)
    requires ChildOk(child) && ControlOk(control) && ControlOk(before) && Extends(control, before)
    requires forall place :: given(place) == AnswerAt(control, place)
    ensures var r := RunChild(task, c, child, before, []);
            r.1 == Walk(c, child, given, []) && ControlOk(r.0) && Extends(control, r.0)
  {
    hide ControlOk, Extends, AnswerAt, ChildOk, Walk, RunChild;
    forall x ensures given(x) == AnswerAt(before, x) {
      ExtendsAnswers(control, before, x);
    }
    ChildWalks(task, c, child, before, given, []);
    ExtendsThen(control, before, RunChild(task, c, child, before, []).0);
  }

  // ----- Rounds -----

  /** Answers for interrupts of a stored control, by their position; none is answered twice, none is passed over. */
  ghost predicate PicksOk(control: Control, picks: seq<Pick>)
  {
    && (forall k :: 0 <= k < |picks| ==> |control.resumes| <= picks[k].index < |control.interrupts|)
    && NoGaps(control, picks)
  }

  function PickedFor(picks: seq<Pick>, i: nat): Option<Json>
  {
    if picks == [] then None
    else if picks[|picks| - 1].index == i then Some(picks[|picks| - 1].value)
    else PickedFor(picks[..|picks| - 1], i)
  }

  /** The answers given so far, by coordinate. */
  type Log = map<Coordinate, Json>

  function Lookup(log: Log): Coordinate -> Option<Json>
  {
    place => if place in log then Some(log[place]) else None
  }

  function Noted(control: Control, picks: seq<Pick>, log: Log): Log
    requires forall k :: 0 <= k < |picks| ==> picks[k].index < |control.interrupts|
  {
    if picks == [] then log
    else
      var last := picks[|picks| - 1];
      Noted(control, picks[..|picks| - 1], log)[PlaceOf(control.interrupts[last.index]) := last.value]
  }

  ghost predicate Records(control: Control, log: Log)
  {
    forall place :: AnswerAt(control, place) == Lookup(log)(place)
  }

  lemma {:induction false} SetAllValues(c: Control, picks: seq<Pick>, i: nat)
    requires i < |SetAll(c, picks).resumes|
    ensures SetAll(c, picks).resumes[i]
         == if PickedFor(picks, i).Some? then PickedFor(picks, i) else if i < |c.resumes| then c.resumes[i] else None
    ensures PickedFor(picks, i).Some? <==> Picked(picks, i)
  {
    if picks != [] {
      var init, last := picks[..|picks| - 1], picks[|picks| - 1];
      if i < |SetAll(c, init).resumes| {
        SetAllValues(c, init, i);
      } else {
        SetAllSlots(c, init, i);
        NotPicked(init, i);
      }
      assert Picked(picks, i) <==> Picked(init, i) || last.index == i by {
        assert forall k :: 0 <= k < |init| ==> init[k] == picks[k];
      }
    }
  }

  lemma {:induction false} NotPicked(picks: seq<Pick>, i: nat)
    requires !Picked(picks, i)
    ensures PickedFor(picks, i) == None
  {
    if picks != [] {
      var init := picks[..|picks| - 1];
      assert !Picked(init, i) by {
        assert forall k :: 0 <= k < |init| ==> init[k] == picks[k];
      }
      NotPicked(init, i);
    }
  }

  lemma {:induction false} NotedValues(control: Control, picks: seq<Pick>, log: Log, i: nat)
    requires ControlOk(control) && i < |control.interrupts|
    requires forall k :: 0 <= k < |picks| ==> picks[k].index < |control.interrupts|
    ensures Lookup(Noted(control, picks, log))(PlaceOf(control.interrupts[i]))
         == if PickedFor(picks, i).Some? then PickedFor(picks, i) else Lookup(log)(PlaceOf(control.interrupts[i]))
  {
    if picks != [] {
      NotedValues(control, picks[..|picks| - 1], log, i);
    }
  }

  lemma {:induction false} NotedElsewhere(control: Control, picks: seq<Pick>, log: Log, place: Coordinate)
    requires forall i :: 0 <= i < |control.interrupts| ==> PlaceOf(control.interrupts[i]) != place
    requires forall k :: 0 <= k < |picks| ==> picks[k].index < |control.interrupts|
    ensures Lookup(Noted(control, picks, log))(place) == Lookup(log)(place)
  {
    if picks != [] {
      NotedElsewhere(control, picks[..|picks| - 1], log, place);
    }
  }

  function Resumed(control: Control, picks: seq<Pick>): Control
  {
    Persisted(SetAll(control, picks))
  }

  /** Without gaps nothing is padded, so what is read back is what was answered. */
  lemma ResumedSlots(control: Control, picks: seq<Pick>)
    requires ControlOk(control) && PicksOk(control, picks)
    ensures var after := Resumed(control, picks);
            && after.interrupts == control.interrupts && ControlOk(after)
            && forall i: nat :: i < |control.interrupts| ==>
                 (if Answered(after, i) then after.resumes[i] else None)
                 == if PickedFor(picks, i).Some? then PickedFor(picks, i) else if Answered(control, i) then control.resumes[i] else None
  {
    hide NoGaps, SetAll, PickedFor;
    var set1, after := SetAll(control, picks), Resumed(control, picks);
    SetAllInterrupts(control, picks);
    forall i: nat | i < |set1.resumes| ensures set1.resumes[i].Some? && after.resumes[i] == set1.resumes[i] {
      NoSlotOpen(control, picks, i);
    }
    SlotsWithin(control, picks);
    forall i: nat | i < |control.interrupts|
      ensures (if Answered(after, i) then after.resumes[i] else None)
           == if PickedFor(picks, i).Some? then PickedFor(picks, i) else if Answered(control, i) then control.resumes[i] else None
    {
      if i < |set1.resumes| {
        SetAllValues(control, picks, i);
      } else {
        SetAllSlots(control, picks, i);
        NotPicked(picks, i);
      }
    }
  }

  lemma {:induction false} SetAllInterrupts(c: Control, picks: seq<Pick>)
    ensures SetAll(c, picks).interrupts == c.interrupts
  {
    if picks != [] {
      SetAllInterrupts(c, picks[..|picks| - 1]);
    }
  }

  lemma NoSlotOpen(control: Control, picks: seq<Pick>, i: nat)
    requires ControlOk(control) && NoGaps(control, picks) && i < |SetAll(control, picks).resumes|
    ensures SetAll(control, picks).resumes[i].Some?
  {
    SetAllSlots(control, picks, i);
    if i >= |control.resumes| {
      var k :| 0 <= k < |picks| && i <= picks[k].index;
      assert i == picks[k].index ==> Picked(picks, i);
    }
  }

  lemma SlotsWithin(control: Control, picks: seq<Pick>)
    requires ControlOk(control) && PicksOk(control, picks)
    ensures |SetAll(control, picks).resumes| <= |control.interrupts|
  {
    var n := |control.interrupts|;
    SetAllSlots(control, picks, n);
  }

  lemma ResumedRecords(control: Control, picks: seq<Pick>, log: Log)
    requires ControlOk(control) && PicksOk(control, picks) && Records(control, log)
    ensures ControlOk(Resumed(control, picks)) && Records(Resumed(control, picks), Noted(control, picks, log))
  {
    hide NoGaps, SetAll, PickedFor, Locate, Noted, Resumed, Lookup, Answered;
    ResumedSlots(control, picks);
    var after, notes := Resumed(control, picks), Noted(control, picks, log);
    forall place ensures AnswerAt(after, place) == Lookup(notes)(place) {
      assert AnswerAt(control, place) == Lookup(log)(place);
      if i: nat :| i < |control.interrupts| && PlaceOf(control.interrupts[i]) == place {
        LocateIs(control.interrupts, place, i);
        NotedValues(control, picks, log, i);
      } else {
        LocateNone(control.interrupts, place);
        NotedElsewhere(control, picks, log, place);
      }
    }
  }

  // ----- A composite node over any number of rounds -----

  /** The control the last execution left, how its children ended, and the answers given so far. */
  datatype Round = Round(control: Control, ended: seq<Ended>, log: Log)

  ghost predicate ChildrenOk(children: seq<Child>)
  {
    forall c :: 0 <= c < |children| ==> ChildOk(children[c])
  }

  function Executed(task: Task, children: seq<Child>, control: Control, log: Log): Round
    requires ChildrenOk(children)
  {
    var r := RunChildren(task, children, control, |children|);
    Round(r.0, r.1, log)
  }

  /** The first execution, and one more after every round of answers; None if a round passes over an interrupt. */
  ghost function Rounds(task: Task, children: seq<Child>, rounds: seq<seq<Pick>>): Option<Round>
    requires ChildrenOk(children)
  {
    if rounds == [] then Some(Executed(task, children, Control([], []), map[]))
    else
      match Rounds(task, children, rounds[..|rounds| - 1])
      case None => None
      case Some(before) =>
        var stored, picks := Persisted(before.control), rounds[|rounds| - 1];
        if PicksOk(stored, picks) then Some(Executed(task, children, Resumed(stored, picks), Noted(stored, picks, before.log)))
        else None
  }

  lemma PersistedSame(control: Control)
    requires ControlOk(control)
    ensures Persisted(control) == control
  {
    assert Persisted(control).resumes == control.resumes;
  }

  lemma ExecutedWalks(task: Task, children: seq<Child>, control: Control, log: Log)
    requires ChildrenOk(children) && ControlOk(control) && Records(control, log)
    ensures var r := Executed(task, children, control, log);
            && r.log == log && ControlOk(r.control) && Records(r.control, log) && |r.ended| == |children|
            && forall c :: 0 <= c < |children| ==> r.ended[c] == Walk(c, children[c], Lookup(log), [])
  {
    hide ControlOk, AnswerAt, Walk, ChildOk, RunChildren, Extends, Lookup;
    ChildrenWalk(task, children, control, Lookup(log), |children|);
    var r := Executed(task, children, control, log);
    forall place ensures AnswerAt(r.control, place) == Lookup(log)(place) {
      ExtendsAnswers(control, r.control, place);
    }
  }

  lemma NothingRecorded()
    ensures ControlOk(Control([], [])) && Records(Control([], []), map[])
  {
  }

  /**
    After any rounds of answers that pass over no interrupt, in every execution call k of child c receives the answer
    given for coordinate (c, k), whenever it was given and whatever the other children have asked since; the child
    is where it would be on its own with those answers.
  */
  lemma {:induction false} RoundsWalk(task: Task, children: seq<Child>, rounds: seq<seq<Pick>>)
    requires ChildrenOk(children) && Rounds(task, children, rounds).Some?
    ensures var r := Rounds(task, children, rounds).value;
            && ControlOk(r.control) && Records(r.control, r.log) && |r.ended| == |children|
            && forall c :: 0 <= c < |children| ==> r.ended[c] == Walk(c, children[c], Lookup(r.log), [])
  {
    hide ControlOk, Records, Walk, ChildOk, Executed, NoGaps, Noted, Lookup;
    if rounds == [] {
      NothingRecorded();
      ExecutedWalks(task, children, Control([], []), map[]);
    } else {
      var init, picks := rounds[..|rounds| - 1], rounds[|rounds| - 1];
      RoundsWalk(task, children, init);
      var before := Rounds(task, children, init).value;
      PersistedSame(before.control);
      ResumedRecords(before.control, picks, before.log);
      ExecutedWalks(task, children, Resumed(before.control, picks), Noted(before.control, picks, before.log));
    }
  }

  // ----- Completion -----

  /** The answers a child is to get: it asks for each of them, and then ends. */
  ghost predicate Script(child: Child, answers: seq<Json>)
  {
    child.node(answers).Finish? && forall j :: 0 <= j < |answers| ==> child.node(answers[..j]).Ask?
  }

  /** Whatever has been answered was answered from the script. */
  ghost predicate Follows(c: nat, log: Log, answers: seq<Json>)
  {
    forall k :: 0 <= k < |answers| && Place(c, k) in log ==> log[Place(c, k)] == answers[k]
  }

  lemma {:induction false} WalkFollows(c: nat, child: Child, log: Log, answers: seq<Json>, n: nat)
    requires ChildOk(child) && Script(child, answers) && Follows(c, log, answers) && n <= |answers|
    ensures Walk(c, child, Lookup(log), answers[..n]).Returned? <==> forall k :: n <= k < |answers| ==> Place(c, k) in log
    ensures Walk(c, child, Lookup(log), answers[..n]).Returned? ==>
      Walk(c, child, Lookup(log), answers[..n]) == Returned(child.node(answers).outcome, answers)
    decreases |answers| - n
  {
    hide Place;
    if n == |answers| {
      assert answers[..n] == answers;
    } else {
      assert answers[..n] + [answers[n]] == answers[..n + 1];
      WalkFollows(c, child, log, answers, n + 1);
      assert child.node(answers[..n]).Ask?;
    }
  }

  /** The node completes exactly when every coordinate of every child has been answered, and each child with its own answers. */
  lemma CompletesExactly(task: Task, children: seq<Child>, rounds: seq<seq<Pick>>, scripts: seq<seq<Json>>)
    requires ChildrenOk(children) && Rounds(task, children, rounds).Some? && |scripts| == |children|
    requires var log := Rounds(task, children, rounds).value.log;
             forall c :: 0 <= c < |children| ==> Script(children[c], scripts[c]) && Follows(c, log, scripts[c])
    ensures var r := Rounds(task, children, rounds).value;
            && |r.ended| == |children|
            && (forall c :: 0 <= c < |children| ==>
                  (r.ended[c].Returned? <==> forall k :: 0 <= k < |scripts[c]| ==> Place(c, k) in r.log)
                  && (r.ended[c].Returned? ==> r.ended[c] == Returned(children[c].node(scripts[c]).outcome, scripts[c])))
  {
    hide Walk, Place, Rounds, Follows;
    RoundsWalk(task, children, rounds);
    var r := Rounds(task, children, rounds).value;
    forall c | 0 <= c < |children|
      ensures (r.ended[c].Returned? <==> forall k :: 0 <= k < |scripts[c]| ==> Place(c, k) in r.log)
      ensures r.ended[c].Returned? ==> r.ended[c] == Returned(children[c].node(scripts[c]).outcome, scripts[c])
    {
      assert scripts[c][..0] == [];
      WalkFollows(c, children[c], r.log, scripts[c], 0);
    }
  }
}
