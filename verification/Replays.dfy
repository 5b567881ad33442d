/**
  Invoking an old checkpoint again: which node bodies run once more. Most checkpoints are
  forked, and a fork restarts every task under a new ID. An update or fork checkpoint is
  already a branch point, so it is run itself: without the results recorded for its tasks,
  but with the failures.
*/
module Replays {
  import opened Prelude
  import opened Graphs
  import opened Envelopes
  import opened Versions
  import opened Engine
  import opened EngineFacts
  import opened Recovery
  import opened RecoveryFacts
  import opened Forks

  datatype Source = FromInput | FromLoop | FromUpdate | FromFork

  /** What the invocation goes on with; a slot of None makes it fail when the task is due. */
  datatype Replay = Replay(link: Link, slots: seq<Option<Slot>>)

  predicate Decodes(e: Program, writes: Writes, task: Task)
  {
    var result, failure := WriteKey(task.id, RESULT_INDEX), WriteKey(task.id, FAILURE_INDEX);
    && (result in writes ==> DecodeResult(e.codecs, task.id, writes[result]).Ok?)
    && (failure in writes ==> DecodeFailure(e.codecs, writes[failure]).Ok?)
  }

  /** The failures restored from the writes of a checkpoint, for the tasks it schedules. */
  function FailuresOf(writes: Writes, tasks: seq<Task>): Writes
  {
    map key | key in writes && key.index == FAILURE_INDEX && (exists i :: 0 <= i < |tasks| && tasks[i].id == key.taskId) :: writes[key]
  }

  function SlotsFor(e: Program, failures: Writes, tasks: seq<Task>): (r: seq<Option<Slot>>)
    ensures |r| == |tasks|
  {
    seq(|tasks|, i requires 0 <= i < |tasks| => RestoreSlot(e, failures, tasks[i]))
  }

  /** initializeRun with the ID of a checkpoint that is not the newest, and no resume under way. */
  function ReplayAt(e: Program, link: Link, source: Source, writes: Writes, id: Id): Option<Replay>
  {
    match Restore(e, link.c)
    case Err(_) => None
    case Ok(loop) =>
      var failures := FailuresOf(writes, loop.tasks);
      if exists i :: 0 <= i < |loop.tasks| && !Decodes(e, writes, loop.tasks[i]) then None
      else if source == FromUpdate || source == FromFork then Some(Replay(link.(loop := loop), SlotsFor(e, failures, loop.tasks)))
      else
        match Fork(e, link, None, id)
        case Err(_) => None
        case Ok(fork) => Some(Replay(fork, SlotsFor(e, failures, fork.loop.tasks)))
  }

  lemma FailuresOk(e: Program, loop: Loop, writes: Writes, i: nat)
    requires i < |loop.tasks| && TaskWritesOk(e, loop, writes, i)
    ensures TaskWritesOk(e, loop, FailuresOf(writes, loop.tasks), i)
    ensures !HasResult(FailuresOf(writes, loop.tasks), loop.tasks[i])
    ensures HasMarker(FailuresOf(writes, loop.tasks), loop.tasks[i]) <==> HasMarker(writes, loop.tasks[i])
  {
    hide RunTask, RunHandler, EncodeResult, EncodeFailure;
  }

  lemma WritesDecode(e: Program, loop: Loop, writes: Writes, i: nat)
    requires DurableProgram(e) && i < |loop.tasks| && loop.tasks[i].node in e.plan.nodes && TaskWritesOk(e, loop, writes, i)
    ensures Decodes(e, writes, loop.tasks[i])
  {
    hide EncodeResult, DecodeResult, PlanClosed;
    SlotRestored(e, loop, writes, i);
  }

  /**
    A branch point that is run again runs the body of a task exactly when no failure of it is recorded, though it
    may have succeeded before; where one is, its error handler runs, with the outcome of the uninterrupted run.
  */
  lemma BranchPointReplays(e: Program, link: Link, source: Source, writes: Writes, id: Id)
    requires DurableProgram(e) && Restore(e, link.c).Ok? && WritesOk(e, Restore(e, link.c).value, writes)
    requires source == FromUpdate || source == FromFork
    ensures var loop, r := Restore(e, link.c).value, ReplayAt(e, link, source, writes, id);
            && r.Some? && r.value.link == link.(loop := loop) && |r.value.slots| == |loop.tasks|
            && forall i :: 0 <= i < |loop.tasks| ==>
                 && r.value.slots[i].Some? && !r.value.slots[i].value.Done?
                 && (r.value.slots[i].value.Fresh? <==> !HasMarker(writes, loop.tasks[i]))
                 && (r.value.slots[i].value.Handling? ==> Attempt(e, loop, i, r.value.slots[i].value) == Outcome(e, loop, i))
  {
    hide Restore, Attempt, RunTask, RestoreSlot, TaskWritesOk, DurableProgram, HasMarker, HasResult, Fork, Decodes, FailuresOf;
    var loop := Restore(e, link.c).value;
    RestoreKnown(e, link.c);
    forall i | 0 <= i < |loop.tasks| ensures Decodes(e, writes, loop.tasks[i]) {
      assert loop.tasks[i] in loop.tasks;
      WritesDecode(e, loop, writes, i);
    }
    var failures := FailuresOf(writes, loop.tasks);
    forall i | 0 <= i < |loop.tasks|
      ensures RestoreSlot(e, failures, loop.tasks[i]).Some?
      ensures !RestoreSlot(e, failures, loop.tasks[i]).value.Done?
      ensures RestoreSlot(e, failures, loop.tasks[i]).value.Fresh? <==> !HasMarker(writes, loop.tasks[i])
      ensures RestoreSlot(e, failures, loop.tasks[i]).value.Handling? ==>
        Attempt(e, loop, i, RestoreSlot(e, failures, loop.tasks[i]).value) == Outcome(e, loop, i)
    {
      assert loop.tasks[i] in loop.tasks;
      FailuresOk(e, loop, writes, i);
      SlotRestored(e, loop, failures, i);
      SlotAttempts(e, loop, failures, i, RestoreSlot(e, failures, loop.tasks[i]).value);
    }
  }

  /** What a slot of a task without a result leads to. */
  lemma SlotAttempts(e: Program, loop: Loop, writes: Writes, i: nat, slot: Slot)
    requires i < |loop.tasks| && TaskWritesOk(e, loop, writes, i) && SlotOk(e, loop, writes, i, slot) && !HasResult(writes, loop.tasks[i])
    ensures !slot.Done? && (slot.Fresh? <==> !HasMarker(writes, loop.tasks[i]))
    ensures slot.Handling? ==> Attempt(e, loop, i, slot) == Outcome(e, loop, i)
  {
    hide RunHandler;
  }

  /** Any other checkpoint is forked, and every body of it runs again: no failure is recorded under the new IDs. */
  lemma ForkReplays(e: Program, link: Link, source: Source, writes: Writes, id: Id)
    requires ProgramOk(e) && LinkOk(e, link) && source != FromUpdate && source != FromFork
    requires ReplayAt(e, link, source, writes, id).Some?
    ensures Fork(e, link, None, id).Ok?
    ensures var r := ReplayAt(e, link, source, writes, id).value;
            && r.link == Fork(e, link, None, id).value && |r.slots| == |r.link.loop.tasks|
            && forall i :: 0 <= i < |r.slots| ==> r.slots[i] == Some(Fresh)
  {
    hide Restore, ProgramOk, Prepare, FreshTasks, Decodes;
    var loop, fork := Restore(e, link.c).value, Fork(e, link, None, id).value;
    assert fork.loop.tasks == Rescheduled(loop.step + 1, loop.tasks);
    forall i | 0 <= i < |fork.loop.tasks| ensures RestoreSlot(e, FailuresOf(writes, loop.tasks), fork.loop.tasks[i]) == Some(Fresh) {
      NewId(e, link, loop, i);
    }
  }

  /** A restarted task shares its ID with none of the tasks of the old checkpoint. */
  lemma NewId(e: Program, link: Link, loop: Loop, i: nat)
    requires LinkOk(e, link) && Restore(e, link.c) == Ok(loop) && i < |loop.tasks|
    ensures forall j :: 0 <= j < |loop.tasks| ==> loop.tasks[j].id != Rescheduled(loop.step + 1, loop.tasks)[i].id
  {
    hide Restore, TaskId, FreshTasks;
    FreshTasksStamped(e.triggers, link.c.snap, link.loop.tasks, link.loop.step);
    forall j | 0 <= j < |loop.tasks| ensures loop.tasks[j].id != Rescheduled(loop.step + 1, loop.tasks)[i].id {
      assert StampedWith(loop.tasks[j], loop.step);
      var k: nat :| loop.tasks[j].id == TaskId(loop.step, k, loop.tasks[j].node);
      if loop.tasks[j].id == TaskId(loop.step + 1, i, loop.tasks[i].node) {
        TaskIdInjective(loop.step, k, loop.tasks[j].node, loop.step + 1, i, loop.tasks[i].node);
      }
    }
  }
}
