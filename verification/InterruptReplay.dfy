/**
  Positional replay: a node that asks for input is run again from its start after every
  answer, and each of its calls must receive the answer that belongs to it.
*/
module InterruptReplay {
  import opened Prelude
  import opened Interrupts
  import MixedResume

  type Outcome(==, !new)

  datatype Action = Ask(prompt: Json) | Finish(outcome: Outcome)

  /** A deterministic node body: what it does next is a function of the answers it has received. */
  type Node = seq<Json> -> Action

  datatype Run = Completed(outcome: Outcome) | Interrupted(control: Control, interrupt: Interrupt)

  /** The node goes on from its |answers|-th call. */
  function Replay(task: Task, node: Node, control: Control, answers: seq<Json>): Run
    requires |answers| <= |control.interrupts|
    decreases |control.resumes| - |answers|
  {
    match node(answers)
    case Finish(outcome) => Completed(outcome)
    case Ask(prompt) =>
      var next := Asked(task, control, |answers|, None, prompt);
      match ReplyTo(task, control, |answers|, None, prompt)
      case Suspend(interrupt) => Interrupted(next, interrupt)
      case Answer(value) => Replay(task, node, next, answers + [value])
  }

  /** The answers the calls of one execution receive. */
  function Delivered(task: Task, node: Node, control: Control, answers: seq<Json>): seq<Json>
    requires |answers| <= |control.interrupts|
    decreases |control.resumes| - |answers|
  {
    match node(answers)
    case Finish(_) => answers
    case Ask(prompt) =>
      match ReplyTo(task, control, |answers|, None, prompt)
      case Suspend(_) => answers
      case Answer(value) => Delivered(task, node, Asked(task, control, |answers|, None, prompt), answers + [value])
  }

  /** Running the body against a handler is the replay. */
  method Execute(task: Task, node: Node, control: Control) returns (r: Run, delivered: seq<Json>)
    ensures r == Replay(task, node, control, []) && delivered == Delivered(task, node, control, [])
  {
    var handler := new Handler(task, control);
    var answers := [];
    while true
      invariant handler.task == task && handler.index == |answers| <= |handler.control.interrupts|
      invariant Replay(task, node, handler.control, answers) == Replay(task, node, control, [])
      invariant Delivered(task, node, handler.control, answers) == Delivered(task, node, control, [])
      invariant handler.control.resumes == control.resumes
      decreases |control.resumes| - |answers|
    {
      match node(answers) {
        case Finish(outcome) => return Completed(outcome), answers;
        case Ask(prompt) =>
          var reply := handler.Await(None, prompt);
          match reply {
            case Suspend(interrupt) => return Interrupted(handler.control, interrupt), answers;
            case Answer(value) => answers := answers + [value];
          }
      }
    }
  }

  // ----- Selecting the interrupt to answer -----

  /** The only control of a checkpoint. */
  function Sole(c: Control): MixedResume.Entry
  {
    MixedResume.Entry(MixedResume.Config("", "1"), "task", c)
  }

  /** resumeInternal with one value: the selection rule of MixedResume, then the answer to the pending interrupt. */
  ghost function ResumeSingle(c: Control, value: Json): Option<Control>
  {
    var pending := MixedResume.Index([Sole(c)]);
    if MixedResume.Refusal(pending.Keys, MixedResume.Single(value)).Some? then None
    else
      assert pending.Keys != {};
      var id :| id in pending;
      MixedResume.IndexMeaning([Sole(c)], id);
      Some(SetResumeSpec(c, pending[id].index, value))
  }

  /** The prompts and answers a task has stored after k rounds. */
  function Prompts(task: Task, node: Node, answers: seq<Json>, n: nat): (r: seq<Interrupt>)
    requires n <= |answers| + 1
    requires forall j :: 0 <= j < n ==> node(answers[..j]).Ask?
    ensures |r| == n
  {
    seq(n, i requires 0 <= i < n => NewInterrupt(task, i, None, node(answers[..i]).prompt))
  }

  function Given(answers: seq<Json>): seq<Option<Json>>
  {
    seq(|answers|, i requires 0 <= i < |answers| => Some(answers[i]))
  }

  datatype Status = Waiting(control: Control) | Done(outcome: Outcome) | Rejected

  function Settle(run: Run): Status
  {
    match run
    case Completed(outcome) => Done(outcome)
    case Interrupted(control, _) => Waiting(Persisted(control))
  }

  /** A task from its first execution through `answers`, given one after the other. */
  ghost function Rounds(task: Task, node: Node, answers: seq<Json>): Status
  {
    if answers == [] then Settle(Replay(task, node, Control([], []), []))
    else
      match Rounds(task, node, answers[..|answers| - 1])
      case Waiting(control) =>
        (match ResumeSingle(control, answers[|answers| - 1])
         case None => Rejected
         case Some(resumed) => Settle(Replay(task, node, Persisted(resumed), [])))
      case _ => Rejected
  }

  ghost predicate Asks(node: Node, answers: seq<Json>, n: nat)
    requires n <= |answers| + 1
  {
    forall j :: 0 <= j < n ==> node(answers[..j]).Ask?
  }

  // ----- Replaying stored answers -----

  /** Calls 0 to i-1 find their own answers and rewrite their own prompts unchanged. */
  lemma {:induction false} ReplayReaches(task: Task, node: Node, control: Control, answers: seq<Json>, i: nat)
    requires i <= |answers| && Asks(node, answers, |answers|)
    requires control == Control(Prompts(task, node, answers, |answers|), Given(answers))
    ensures Replay(task, node, control, []) == Replay(task, node, control, answers[..i])
    ensures Delivered(task, node, control, []) == Delivered(task, node, control, answers[..i])
  {
    if i > 0 {
      ReplayReaches(task, node, control, answers, i - 1);
      var prompt := node(answers[..i - 1]).prompt;
      assert Asked(task, control, i - 1, None, prompt) == control;
      assert ReplyTo(task, control, i - 1, None, prompt) == Answer(answers[i - 1]);
      assert answers[..i - 1] + [answers[i - 1]] == answers[..i];
    } else {
      assert answers[..0] == [];
    }
  }

  lemma {:induction false} AnsweredSkipped(c: Control, n: nat)
    requires n <= |c.interrupts| && forall i :: 0 <= i < n ==> Answered(c, i)
    ensures MixedResume.IndexControl(map[], 0, c, n) == map[]
  {
    if n > 0 {
      AnsweredSkipped(c, n - 1);
    }
  }

  lemma LastPending(c: Control, value: Json)
    requires |c.interrupts| == |c.resumes| + 1 && forall i :: 0 <= i < |c.resumes| ==> c.resumes[i].Some?
    ensures ResumeSingle(c, value) == Some(c.(resumes := c.resumes + [Some(value)]))
  {
    var n := |c.resumes|;
    AnsweredSkipped(c, n);
    var index := map[c.interrupts[n].id := MixedResume.Location(0, n)];
    assert MixedResume.IndexControl(map[], 0, c, n + 1) == index;
    assert [Sole(c)][..0] == [] && MixedResume.Index([Sole(c)]) == index;
    assert index.Keys == {c.interrupts[n].id};
    assert SetResumeSpec(c, n, value).resumes == c.resumes + [Some(value)];
  }

  /** Where a task stands once its first calls have their answers: at its next prompt, or finished. */
  ghost function Stand(task: Task, node: Node, answers: seq<Json>): Status
    requires Asks(node, answers, |answers|)
  {
    match node(answers)
    case Finish(outcome) => Done(outcome)
    case Ask(prompt) =>
      assert answers[..|answers|] == answers;
      Waiting(Control(Prompts(task, node, answers, |answers| + 1), Given(answers)))
  }

  lemma ReplayStand(task: Task, node: Node, answers: seq<Json>)
    requires Asks(node, answers, |answers|)
    ensures var control := Control(Prompts(task, node, answers, |answers|), Given(answers));
            && Settle(Replay(task, node, control, [])) == Stand(task, node, answers)
            && Delivered(task, node, control, []) == answers
  {
    var n := |answers|;
    var control := Control(Prompts(task, node, answers, n), Given(answers));
    ReplayReaches(task, node, control, answers, n);
    assert answers[..n] == answers;
    if node(answers).Ask? {
      var prompt := node(answers).prompt;
      var next := Asked(task, control, n, None, prompt);
      assert next.interrupts == Prompts(task, node, answers, n + 1);
      assert Persisted(next).resumes == next.resumes;
      assert Replay(task, node, control, answers) == Interrupted(next, ReplyTo(task, control, n, None, prompt).interrupt);
    }
  }

  lemma PromptsPrefix(task: Task, node: Node, answers: seq<Json>)
    requires answers != [] && Asks(node, answers, |answers|)
    ensures Asks(node, answers[..|answers| - 1], |answers|)
    ensures Prompts(task, node, answers[..|answers| - 1], |answers|) == Prompts(task, node, answers, |answers|)
  {
    var init := answers[..|answers| - 1];
    forall j | 0 <= j < |answers| ensures init[..j] == answers[..j] {}
  }

  /**
    After any number of rounds the task stands where its answers lead: the stored control holds prompts 0 to k
    under the IDs of their first appearance and answers 0 to k-1, or the node has finished.
  */
  lemma {:induction false} RoundsStand(task: Task, node: Node, answers: seq<Json>)
    requires Asks(node, answers, |answers|)
    ensures Rounds(task, node, answers) == Stand(task, node, answers)
  {
    var k := |answers|;
    if k == 0 {
      ReplayStand(task, node, answers);
      assert answers == [] && Prompts(task, node, answers, 0) == [] && Given(answers) == [];
    } else {
      var init := answers[..k - 1];
      PromptsPrefix(task, node, answers);
      RoundsStand(task, node, init);
      assert init[..k - 1] == init;
      var stored := Control(Prompts(task, node, init, k), Given(init));
      assert Rounds(task, node, init) == Waiting(stored);
      LastPending(stored, answers[k - 1]);
      hide ResumeSingle, Replay, Delivered;
      var resumed := Control(Prompts(task, node, answers, k), Given(answers));
      assert Given(init) + [Some(answers[k - 1])] == Given(answers);
      assert Persisted(resumed).resumes == resumed.resumes;
      ReplayStand(task, node, answers);
    }
  }

  /** A node with n calls completes after exactly n answers, and each execution gives call i answer i. */
  lemma CompletesAfterExactly(task: Task, node: Node, answers: seq<Json>, k: nat)
    requires k <= |answers| && Asks(node, answers, |answers|) && node(answers).Finish?
    ensures Rounds(task, node, answers[..k]).Done? <==> k == |answers|
    ensures k < |answers| ==> Rounds(task, node, answers[..k]).Waiting?
    ensures k == |answers| ==> Rounds(task, node, answers[..k]) == Done(node(answers).outcome)
    ensures Asks(node, answers[..k], k)
    ensures Delivered(task, node, Control(Prompts(task, node, answers[..k], k), Given(answers[..k])), []) == answers[..k]
  {
    var first := answers[..k];
    forall j | 0 <= j <= k ensures first[..j] == answers[..j] {}
    assert first[..k] == first && answers[..|answers|] == answers;
    RoundsStand(task, node, first);
    ReplayStand(task, node, first);
  }
}
