/**
  Durability "async" and recovery together: the process runs ahead of its saver, so a crash
  leaves the calls the writer got to. That store is one a synchronous run leaves, too.
*/
module AsyncRecovery {
  import opened Prelude
  import opened Envelopes
  import opened Versions
  import opened Engine
  import opened Recovery
  import AsyncSaver

  /** A call on the saver. */
  datatype Call = Put(c: Checkpoint) | Write(id: Id, key: WriteKey, value: EncodedValue)

  function Applied(store: Store, call: Call): Store
  {
    match call
    case Put(c) => store.(saved := store.saved + [c])
    case Write(id, key, value) => store.(writes := store.writes[id := PutWrite(WritesOf(store, id), key, value)])
  }

  function ApplyAll(store: Store, calls: seq<Call>): Store
  {
    if calls == [] then store else Applied(ApplyAll(store, calls[..|calls| - 1]), calls[|calls| - 1])
  }

  /** The calls a move makes: none, or one. */
  function CallsOf(e: Program, w: World, move: Move): (r: seq<Call>)
    requires Step(e, w, move).Some?
    ensures |r| <= 1
  {
    match move
    case Start(_, _) => [Put(Step(e, w, move).value.process.current)]
    case Renewed(_, _) => [Put(Step(e, w, move).value.process.current)]
    case Advanced(_) => [Put(Step(e, w, move).value.process.current)]
    case Fail(i) =>
      var task := w.process.loop.tasks[i];
      [Write(w.process.current.snap.id, WriteKey(task.id, FAILURE_INDEX),
             EncodeFailure(e.codecs, task.node, Attempt(e, w.process.loop, i, Fresh).error).value)]
    case Finish(i) =>
      var task := w.process.loop.tasks[i];
      [Write(w.process.current.snap.id, WriteKey(task.id, RESULT_INDEX),
             EncodeResult(e.codecs, Attempt(e, w.process.loop, i, w.process.slots[i]).value).value)]
    case _ => []
  }

  lemma StepCalls(e: Program, w: World, move: Move)
    requires Step(e, w, move).Some?
    ensures Step(e, w, move).value.store == ApplyAll(w.store, CallsOf(e, w, move))
  {
    hide Begin, Renew, Restore, RestoreSlots, CommitStep, Committed, Attempt, EncodeResult, EncodeFailure, LatestIndex;
    var none: seq<Call> := [];
    assert ApplyAll(w.store, none) == w.store;
    if CallsOf(e, w, move) != [] {
      var call := CallsOf(e, w, move)[0];
      assert CallsOf(e, w, move) == [call] && [call][..0] == none;
    }
  }

  /** The calls of a sequence of moves, in order. */
  function CallsAlong(e: Program, w: World, moves: seq<Move>): seq<Call>
    requires Run(e, w, moves).Some?
  {
    if moves == [] then []
    else
      var n := |moves| - 1;
      CallsAlong(e, w, moves[..n]) + CallsOf(e, Run(e, w, moves[..n]).value, moves[n])
  }

  lemma {:induction false} ApplyConcat(store: Store, a: seq<Call>, b: seq<Call>)
    ensures ApplyAll(store, a + b) == ApplyAll(ApplyAll(store, a), b)
  {
    if b == [] {
      assert a + b == a;
    } else {
      ApplyConcat(store, a, b[..|b| - 1]);
      assert (a + b)[..|a + b| - 1] == a + b[..|b| - 1];
    }
  }

  /** Applied in order, the calls of the moves make the store the moves leave. */
  lemma {:induction false} RunCalls(e: Program, w: World, moves: seq<Move>)
    requires Run(e, w, moves).Some?
    ensures Run(e, w, moves).value.store == ApplyAll(w.store, CallsAlong(e, w, moves))
  {
    hide Step, CallsOf;
    if moves != [] {
      var n := |moves| - 1;
      RunCalls(e, w, moves[..n]);
      StepCalls(e, Run(e, w, moves[..n]).value, moves[n]);
      ApplyConcat(w.store, CallsAlong(e, w, moves[..n]), CallsOf(e, Run(e, w, moves[..n]).value, moves[n]));
    }
  }

  /** Every prefix of the calls is what some prefix of the moves makes. */
  lemma {:induction false} PrefixOfMoves(e: Program, w: World, moves: seq<Move>, calls: seq<Call>) returns (n: nat)
    requires Run(e, w, moves).Some? && calls <= CallsAlong(e, w, moves)
    ensures n <= |moves| && Run(e, w, moves[..n]).Some? && CallsAlong(e, w, moves[..n]) == calls
  {
    hide Step, CallsOf;
    if calls == CallsAlong(e, w, moves) {
      assert moves[..|moves|] == moves;
      return |moves|;
    }
    var init := moves[..|moves| - 1];
    assert calls <= CallsAlong(e, w, init);
    n := PrefixOfMoves(e, w, init, calls);
    assert init[..n] == moves[..n];
  }

  /** The calls on the underlying saver, as calls on this store. */
  function Read(read: AsyncSaver.Command -> Call, log: seq<AsyncSaver.Tagged>): (r: seq<Call>)
    ensures |r| == |log|
  {
    seq(|log|, i requires 0 <= i < |log| => read(log[i].command))
  }

  lemma ReadPrefix(read: AsyncSaver.Command -> Call, a: seq<AsyncSaver.Tagged>, b: seq<AsyncSaver.Tagged>)
    requires a <= b
    ensures Read(read, a) <= Read(read, b)
  {
  }

  /** The calls that succeeded: a failed one is the last that was made, and left nothing. */
  function Succeeded(p: AsyncSaver.Pipe): (r: seq<AsyncSaver.Tagged>)
    ensures r <= p.log
  {
    if p.firstErr.Some? && p.log != [] then p.log[..|p.log| - 1] else p.log
  }

  lemma CrashStep(e: Program, w: World)
    ensures Step(e, w, Crash) == Some(w.(process := Idle))
  {
  }
}
