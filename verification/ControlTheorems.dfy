/** What holds of the control store over every sequence of atomic operations. */
module ControlTheorems {
  import opened Prelude
  import opened ControlStore

  datatype Op =
    | CreateThread(thread: Thread)
    | DeleteThread(id: string)
    | CreateRun(run: StoredRun, key: string, hash: seq<nat>)
    | TransitionRun(threadId: string, runId: string, expected: seq<RunStatus>, next: StoredRun)
    | PruneRuns(before: int)

  function Apply(s: Store, op: Op): Store
  {
    match op
    case CreateThread(thread) => (match CreatedThread(s, thread) case Ok(after) => after case Err(_) => s)
    case DeleteThread(id) => (match DeletedThread(s, id) case Ok(after) => after case Err(_) => s)
    case CreateRun(run, key, hash) => AfterCreateRun(s, run, key, hash)
    case TransitionRun(thread, id, expected, next) => AfterTransition(s, thread, id, expected, next)
    case PruneRuns(before) => Pruned(s, before)
  }

  function ApplyAll(s: Store, ops: seq<Op>): Store
  {
    if ops == [] then s else Apply(ApplyAll(s, ops[..|ops| - 1]), ops[|ops| - 1])
  }

  // ----- Claims -----

  predicate NulFree(s: string)
  {
    '\0' !in s
  }

  /** Idempotency keys hold no NUL, which the server sees to (ValidKey); thread IDs may. */
  predicate OpOk(op: Op)
  {
    op.CreateRun? ==> NulFree(op.key)
  }

  ghost predicate Names(s: Store, k: string, t: string, key: string)
  {
    key != "" && NulFree(key) && k == ClaimKey(t, key) && t in s.runs && k in s.claims && s.claims[k].runId in s.runs[t]
  }

  ghost predicate Inv(s: Store)
  {
    && s.threads.Keys == s.runs.Keys
    && (forall k :: k in s.claims ==> exists t, key :: Names(s, k, t, key))
  }

  /** The prefix test for thread id holds of another thread's claim exactly when that thread's ID goes on after id and a NUL. */
  lemma ClaimOfExactly(id: string, t: string, key: string)
    requires NulFree(key)
    ensures ClaimOf(id, ClaimKey(t, key)) <==> id == t || id + "\0" <= t
  {
    var p, k := id + "\0", ClaimKey(t, key);
    assert k[..|t|] == t && k[|t|] == '\0';
    assert forall i :: |t| < i < |k| ==> k[i] == key[i - |t| - 1];
    if p <= k {
      assert k[|id|] == p[|id|] == '\0';
      assert forall i :: 0 <= i < |p| ==> k[i] == p[i];
      if |id| == |t| {
        assert id == p[..|id|] == k[..|t|];
      } else {
        assert p == k[..|p|] == t[..|p|];
      }
    }
    if id == t {
      assert k[..|p|] == p;
    }
    if p <= t {
      assert k[..|p|] == t[..|p|] == p;
    }
  }

  /** A claim names one thread and one key. */
  lemma ClaimParts(t: string, key: string, t': string, key': string)
    requires NulFree(key) && NulFree(key') && ClaimKey(t, key) == ClaimKey(t', key')
    ensures t == t' && key == key'
  {
    var k := ClaimKey(t, key);
    assert k[|t|] == '\0' && k[|t'|] == '\0';
    assert forall i :: |t| < i < |k| ==> k[i] == key[i - |t| - 1];
    assert forall i :: |t'| < i < |k| ==> k[i] == key'[i - |t'| - 1];
    assert t == k[..|t|] && t' == k[..|t'|] && key == k[|t| + 1..] && key' == k[|t'| + 1..];
  }

  lemma CreateRunKeeps(s: Store, run: StoredRun, key: string, hash: seq<nat>)
    requires Inv(s) && NulFree(key)
    ensures Inv(AfterCreateRun(s, run, key, hash))
  {
    var after := AfterCreateRun(s, run, key, hash);
    forall k | k in after.claims ensures exists t, b :: Names(after, k, t, b) {
      if k in s.claims && after.claims[k] == s.claims[k] {
        var t, b :| Names(s, k, t, b);
        assert Names(after, k, t, b);
      } else {
        assert Names(after, k, run.thread, key);
      }
    }
  }

  lemma DeleteKeeps(s: Store, id: string)
    requires Inv(s) && DeletedThread(s, id).Ok?
    ensures Inv(DeletedThread(s, id).value)
  {
    var after := DeletedThread(s, id).value;
    forall k | k in after.claims ensures exists t, b :: Names(after, k, t, b) {
      var t, b :| Names(s, k, t, b);
      ClaimOfExactly(id, t, b);
      assert Names(after, k, t, b);
    }
  }

  lemma PruneKeeps(s: Store, before: int)
    requires Inv(s)
    ensures Inv(Pruned(s, before))
  {
    var after := Pruned(s, before);
    forall k | k in after.claims ensures exists t, b :: Names(after, k, t, b) {
      var t, b :| Names(s, k, t, b);
      ClaimOfExactly(t, t, b);
      assert !PrunedClaim(s, t, k, before);
      assert Names(after, k, t, b);
    }
  }

  lemma CreateThreadKeeps(s: Store, thread: Thread)
    requires Inv(s) && CreatedThread(s, thread).Ok?
    ensures Inv(CreatedThread(s, thread).value)
  {
    var after := CreatedThread(s, thread).value;
    forall k | k in after.claims ensures exists t, b :: Names(after, k, t, b) {
      var t, b :| Names(s, k, t, b);
      assert Names(after, k, t, b);
    }
  }

  lemma TransitionKeeps(s: Store, thread: string, id: string, expected: seq<RunStatus>, next: StoredRun)
    requires Inv(s)
    ensures Inv(AfterTransition(s, thread, id, expected, next))
  {
    var after := AfterTransition(s, thread, id, expected, next);
    forall k | k in after.claims ensures exists t, b :: Names(after, k, t, b) {
      var t, b :| Names(s, k, t, b);
      assert Names(after, k, t, b);
    }
  }

  lemma ApplyKeeps(s: Store, op: Op)
    requires Inv(s) && OpOk(op)
    ensures Inv(Apply(s, op))
  {
    hide Inv;
    match op {
      case CreateThread(thread) => if CreatedThread(s, thread).Ok? { CreateThreadKeeps(s, thread); }
      case DeleteThread(id) => if DeletedThread(s, id).Ok? { DeleteKeeps(s, id); }
      case CreateRun(run, key, hash) => CreateRunKeeps(s, run, key, hash);
      case TransitionRun(thread, id, expected, next) => TransitionKeeps(s, thread, id, expected, next);
      case PruneRuns(before) => PruneKeeps(s, before);
    }
  }

  lemma {:induction false} ApplyAllKeeps(s: Store, ops: seq<Op>)
    requires Inv(s) && forall i :: 0 <= i < |ops| ==> OpOk(ops[i])
    ensures Inv(ApplyAll(s, ops))
  {
    hide Inv, Apply;
    if ops != [] {
      ApplyAllKeeps(s, ops[..|ops| - 1]);
      ApplyKeeps(ApplyAll(s, ops[..|ops| - 1]), ops[|ops| - 1]);
    }
  }

  ghost predicate OpsOk(ops: seq<Op>)
  {
    forall i :: 0 <= i < |ops| ==> OpOk(ops[i])
  }

  /** In every reachable store a key that replays an earlier call finds the run of that call. */
  lemma ClaimsNameRuns(ops: seq<Op>, run: StoredRun, key: string, hash: seq<nat>)
    requires OpsOk(ops) && NulFree(key)
    ensures var s := ApplyAll(EMPTY, ops);
            var reply := CreateRunReply(s, run, key, hash);
            reply.Ok? && reply.value.Replayed? ==>
              && ClaimKey(run.thread, key) in s.claims
              && reply.value.prior.Some?
              && s.claims[ClaimKey(run.thread, key)].runId in RunsIn(s, run.thread)
              && reply.value.prior.value == RunsIn(s, run.thread)[s.claims[ClaimKey(run.thread, key)].runId]
  {
    hide Apply;
    var s := ApplyAll(EMPTY, ops);
    ApplyAllKeeps(EMPTY, ops);
    var reply, k := CreateRunReply(s, run, key, hash), ClaimKey(run.thread, key);
    if reply.Ok? && reply.value.Replayed? {
      var t, b :| Names(s, k, t, b);
      ClaimParts(run.thread, key, t, b);
    }
  }

  // ----- Creation -----

  /** The stores a sequence of operations passes through, the first n operations applied. */
  function After(ops: seq<Op>, n: nat): Store
    requires n <= |ops|
  {
    ApplyAll(EMPTY, ops[..n])
  }

  /** Operation i created a run under the key. */
  ghost predicate CreatesUnder(ops: seq<Op>, i: nat, thread: string, key: string)
    requires i < |ops|
  {
    && ops[i].CreateRun? && ops[i].run.thread == thread && ops[i].key == key
    && CreateRunReply(After(ops, i), ops[i].run, key, ops[i].hash) == Ok(Created(ops[i].run))
  }

  lemma AfterStep(ops: seq<Op>, i: nat)
    requires i < |ops|
    ensures After(ops, i + 1) == Apply(After(ops, i), ops[i])
  {
    hide Apply;
    assert ops[..i + 1][..i] == ops[..i];
  }

  /** While a claim lives it keeps its hash and its run. */
  lemma ClaimKept(s: Store, op: Op, k: string)
    requires k in s.claims && k in Apply(s, op).claims
    ensures Apply(s, op).claims[k] == s.claims[k]
  {
    hide Kept, PrunedClaim;
    if op.CreateRun? && op.key == "" {
      assert Apply(s, op).claims == s.claims;
    }
  }

  lemma {:induction false} ClaimLives(ops: seq<Op>, i: nat, j: nat, k: string)
    requires i <= j <= |ops| && forall m :: i <= m <= j ==> k in After(ops, m).claims
    ensures After(ops, j).claims[k] == After(ops, i).claims[k]
  {
    hide Apply;
    if i < j {
      ClaimLives(ops, i, j - 1, k);
      AfterStep(ops, j - 1);
      ClaimKept(After(ops, j - 1), ops[j - 1], k);
    }
  }

  /**
    A key creates at most one run while its claim lives: from the creation on, every call with the key is
    answered with the created run's record, or refused for a different request.
  */
  lemma CreatedOnce(ops: seq<Op>, i: nat, j: nat, thread: string, key: string)
    requires OpsOk(ops) && i < j < |ops| && key != "" && CreatesUnder(ops, i, thread, key)
    requires forall m :: i < m <= j ==> ClaimKey(thread, key) in After(ops, m).claims
    requires ops[j].CreateRun? && ops[j].run.thread == thread && ops[j].key == key
    ensures !CreatesUnder(ops, j, thread, key)
    ensures var s := After(ops, j);
            var reply := CreateRunReply(s, ops[j].run, key, ops[j].hash);
            if ops[j].hash == ops[i].hash
            then ops[i].run.id in RunsIn(s, thread) && reply == Ok(Replayed(Some(RunsIn(s, thread)[ops[i].run.id])))
            else reply == Err(IdempotencyConflict)
  {
    hide Apply;
    var k, s := ClaimKey(thread, key), After(ops, j);
    AfterStep(ops, i);
    CreationClaims(After(ops, i), ops[i]);
    ClaimLives(ops, i + 1, j, k);
    ApplyAllKeeps(EMPTY, ops[..j]);
    assert OpOk(ops[j]);
    ClaimsNameRuns(ops[..j], ops[j].run, key, ops[j].hash);
    var t, b :| Names(s, k, t, b);
    ClaimParts(thread, key, t, b);
  }

  lemma CreationClaims(s: Store, op: Op)
    requires op.CreateRun? && op.key != "" && CreateRunReply(s, op.run, op.key, op.hash) == Ok(Created(op.run))
    ensures ClaimKey(op.run.thread, op.key) in Apply(s, op).claims
    ensures Apply(s, op).claims[ClaimKey(op.run.thread, op.key)] == Claim(op.hash, op.run.id)
  {
  }

  // ----- Pruning and status -----

  predicate HasRun(s: Store, thread: string, id: string)
  {
    id in RunsIn(s, thread)
  }

  function RunAt(s: Store, thread: string, id: string): StoredRun
    requires HasRun(s, thread, id)
  {
    RunsIn(s, thread)[id]
  }

  /** Pruning removes exactly the old terminal runs, so never a running one. */
  lemma PruneExactly(s: Store, before: int, thread: string, id: string)
    requires HasRun(s, thread, id)
    ensures HasRun(Pruned(s, before), thread, id) <==> !Prunable(RunAt(s, thread, id), before)
    ensures RunAt(s, thread, id).status == RunRunning ==>
      HasRun(Pruned(s, before), thread, id) && RunAt(Pruned(s, before), thread, id) == RunAt(s, thread, id)
  {
  }

  /** validIdempotencyKey; it also refuses other outer white space, which only shuts out more keys. */
  predicate ValidKey(key: string)
  {
    0 < |key| <= 256 && forall c :: c in key ==> c >= '!' && c != '\U{7f}'
  }

  /** The handlers that change the store, each with what it read before and the time it stamps. */
  datatype Request =
    | NewThread(thread: Thread)
    | NewRun(threadId: string, runId: string, key: string, hash: seq<nat>, empty: Output, now: int)
    | Finished(record: StoredRun, output: Option<Output>, now: int, retention: Option<int>)
    | Cancel(found: StoredRun, now: int)
    | Delete(threadId: string, listed: seq<StoredRun>, now: int)
    | Prune(before: int)

  function CancelOf(run: StoredRun, now: int): Op
  {
    TransitionRun(run.thread, run.id, [RunRunning], run.(status := RunCanceled, updatedAt := now))
  }

  /** The store calls of a request, in order; a handler may stop after any of them. */
  function Calls(request: Request): seq<Op>
  {
    match request
    case NewThread(thread) => [CreateThread(thread)]
    case NewRun(thread, run, key, hash, empty, now) =>
      if key == "" || ValidKey(key) then [CreateRun(StoredRun(run, thread, RunRunning, empty, now, now), key, hash)] else []
    case Finished(record, output, now, retention) =>
      var next := record.(updatedAt := now, status := if output.Some? then RunSuccess else RunError,
                          output := if output.Some? then output.value else record.output);
      [TransitionRun(record.thread, record.id, [RunRunning], next)]
      + (if retention.Some? then [PruneRuns(now - retention.value)] else [])
    case Cancel(found, now) => if found.status == RunRunning then [CancelOf(found, now)] else []
    case Delete(id, listed, now) => Cancels(listed, now) + [DeleteThread(id)]
    case Prune(before) => [PruneRuns(before)]
  }

  function Cancels(listed: seq<StoredRun>, now: int): seq<Op>
  {
    if listed == [] then []
    else (if listed[0].status == RunRunning then [CancelOf(listed[0], now)] else []) + Cancels(listed[1..], now)
  }

  /** Some request makes this call. */
  ghost predicate Issued(op: Op)
  {
    exists request :: op in Calls(request)
  }

  /** The handlers of the server, interleaved at their store calls in any way. */
  ghost predicate FromServer(ops: seq<Op>)
  {
    forall i :: 0 <= i < |ops| ==> Issued(ops[i])
  }

  /** The server creates running runs and changes a status only from running, to a terminal one. */
  predicate ServerOp(op: Op)
  {
    && (op.CreateRun? ==> op.run.status == RunRunning)
    && (op.TransitionRun? ==> op.expected == [RunRunning] && TerminalRun(op.next.status))
  }

  lemma {:induction false} CancelsAreServerOps(listed: seq<StoredRun>, now: int)
    ensures forall op :: op in Cancels(listed, now) ==> ServerOp(op) && OpOk(op)
  {
    if listed != [] {
      CancelsAreServerOps(listed[1..], now);
    }
  }

  lemma IssuedOp(op: Op)
    requires Issued(op)
    ensures ServerOp(op) && OpOk(op)
  {
    var request :| op in Calls(request);
    if request.Delete? {
      CancelsAreServerOps(request.listed, request.now);
    }
  }

  lemma ServerOps(ops: seq<Op>)
    requires FromServer(ops)
    ensures OpsOk(ops) && forall m :: 0 <= m < |ops| ==> ServerOp(ops[m])
  {
    hide Issued, ServerOp, OpOk;
    forall m | 0 <= m < |ops| ensures ServerOp(ops[m]) && OpOk(ops[m]) { IssuedOp(ops[m]); }
  }

  lemma StepFrozen(s: Store, op: Op, thread: string, id: string)
    requires ServerOp(op) && s.threads.Keys == s.runs.Keys && HasRun(s, thread, id) && HasRun(Apply(s, op), thread, id)
    ensures TerminalRun(RunAt(s, thread, id).status) ==> RunAt(Apply(s, op), thread, id) == RunAt(s, thread, id)
    ensures RunAt(Apply(s, op), thread, id) != RunAt(s, thread, id) ==>
      RunAt(s, thread, id).status == RunRunning && TerminalRun(RunAt(Apply(s, op), thread, id).status)
  {
    hide PrunedClaim, ClaimOf;
  }

  lemma ThreadsHaveRuns(ops: seq<Op>, n: nat)
    requires OpsOk(ops) && n <= |ops|
    ensures After(ops, n).threads.Keys == After(ops, n).runs.Keys
  {
    hide Apply;
    ApplyAllKeeps(EMPTY, ops[..n]);
  }

  /**
    Whatever requests the server handles and however their store calls interleave: as long as a run exists,
    its record leaves "running" at most once and never changes afterwards.
  */
  lemma {:induction false} StatusLeavesRunningOnce(ops: seq<Op>, i: nat, j: nat, thread: string, id: string)
    requires FromServer(ops) && i <= j <= |ops|
    requires forall m :: i <= m <= j ==> HasRun(After(ops, m), thread, id)
    requires TerminalRun(RunAt(After(ops, i), thread, id).status)
    ensures RunAt(After(ops, j), thread, id) == RunAt(After(ops, i), thread, id)
  {
    hide Apply, RunAt, HasRun, FromServer, OpsOk;
    ServerOps(ops);
    if i < j {
      StatusLeavesRunningOnce(ops, i, j - 1, thread, id);
      AfterStep(ops, j - 1);
      ThreadsHaveRuns(ops, j - 1);
      StepFrozen(After(ops, j - 1), ops[j - 1], thread, id);
    }
  }

  // ----- What a NUL in a thread ID does -----

  /** Deleting a thread forgets a key of another thread exactly when that thread's ID goes on after the deleted one and a NUL. */
  lemma DeletionForgetsExactly(s: Store, id: string, run: StoredRun, key: string, hash: seq<nat>)
    requires Inv(s) && id in s.threads && run.thread in s.threads && run.thread != id && key != "" && NulFree(key)
    requires ClaimKey(run.thread, key) in s.claims && run.id !in RunsIn(s, run.thread)
    ensures DeletedThread(s, id).Ok?
    ensures var after := DeletedThread(s, id).value;
            && RunsIn(after, run.thread) == RunsIn(s, run.thread)
            && (ClaimKey(run.thread, key) in after.claims <==> !(id + "\0" <= run.thread))
            && (CreateRunReply(after, run, key, hash) == Ok(Created(run)) <==> id + "\0" <= run.thread)
  {
    ClaimOfExactly(id, run.thread, key);
  }

  /** Pruning forgets a key exactly when it removes a run with the claimed ID in the thread, or in one whose ID the thread's goes on from. */
  lemma PruningForgetsExactly(s: Store, before: int, t: string, key: string)
    requires Inv(s) && NulFree(key) && ClaimKey(t, key) in s.claims
    ensures var k := ClaimKey(t, key);
            var id := s.claims[k].runId;
            k in Pruned(s, before).claims <==>
            !exists t' :: t' in s.runs && (t' == t || t' + "\0" <= t) && id in s.runs[t'] && Prunable(s.runs[t'][id], before)
  {
    hide ClaimOf, Kept;
    var k := ClaimKey(t, key);
    forall t' | t' in s.runs ensures ClaimOf(t', k) <==> t' == t || t' + "\0" <= t { ClaimOfExactly(t', t, key); }
    assert k in Pruned(s, before).claims <==> forall t' :: t' in s.runs ==> !PrunedClaim(s, t', k, before);
  }

  /** Deleting thread "a" makes thread "a\0b" forget key "k": the same request creates a second run. */
  lemma DeletionForgets(output: Output)
    ensures var first, second := StoredRun("1", "a\0b", RunRunning, output, 0, 0), StoredRun("2", "a\0b", RunRunning, output, 0, 0);
            var ops := [CreateThread(Thread("a", 0, 0)), CreateThread(Thread("a\0b", 0, 0)), CreateRun(first, "k", []),
                        DeleteThread("a"), CreateRun(second, "k", [])];
            && FromServer(ops) && CreatesUnder(ops, 2, "a\0b", "k") && CreatesUnder(ops, 4, "a\0b", "k")
            && HasRun(After(ops, 4), "a\0b", "1")
  {
    hide Apply, CreateRunReply, ClaimKey, Issued, HasRun;
    var first, second := StoredRun("1", "a\0b", RunRunning, output, 0, 0), StoredRun("2", "a\0b", RunRunning, output, 0, 0);
    var a, b := Thread("a", 0, 0), Thread("a\0b", 0, 0);
    var ops := [CreateThread(a), CreateThread(b), CreateRun(first, "k", []), DeleteThread("a"), CreateRun(second, "k", [])];
    ForgetfulOps(a, b, output);
    FiveOps(ops);
    var s2 := Apply(Apply(EMPTY, ops[0]), ops[1]);
    TwoThreads(a, b);
    FirstRun(s2, first);
    Forgotten(Apply(s2, ops[2]), first, second);
  }

  lemma FiveOps(ops: seq<Op>)
    requires |ops| == 5
    ensures After(ops, 2) == Apply(Apply(EMPTY, ops[0]), ops[1])
    ensures After(ops, 4) == Apply(Apply(After(ops, 2), ops[2]), ops[3])
  {
    hide Apply;
    AfterStep(ops, 0);
    AfterStep(ops, 1);
    AfterStep(ops, 2);
    AfterStep(ops, 3);
    assert ops[..0] == [];
  }

  lemma ForgetfulOps(a: Thread, b: Thread, output: Output)
    ensures Issued(CreateThread(a)) && Issued(CreateThread(b)) && Issued(DeleteThread("a"))
    ensures forall id :: Issued(CreateRun(StoredRun(id, "a\0b", RunRunning, output, 0, 0), "k", []))
  {
    assert CreateThread(a) in Calls(NewThread(a)) && CreateThread(b) in Calls(NewThread(b));
    assert DeleteThread("a") in Calls(Delete("a", [], 0));
    forall id ensures Issued(CreateRun(StoredRun(id, "a\0b", RunRunning, output, 0, 0), "k", [])) {
      assert ValidKey("k");
      assert CreateRun(StoredRun(id, "a\0b", RunRunning, output, 0, 0), "k", []) in Calls(NewRun("a\0b", id, "k", [], output, 0));
    }
  }

  lemma TwoThreads(a: Thread, b: Thread)
    requires a.id == "a" && b.id == "a\0b"
    ensures Apply(Apply(EMPTY, CreateThread(a)), CreateThread(b))
         == Store(map["a" := a, "a\0b" := b], map["a" := map[], "a\0b" := map[]], map[])
  {
  }

  lemma FirstRun(s: Store, run: StoredRun)
    requires run.thread in s.threads && run.thread in s.runs && s.runs[run.thread] == map[] && s.claims == map[]
    ensures CreateRunReply(s, run, "k", []) == Ok(Created(run))
    ensures var after := Apply(s, CreateRun(run, "k", []));
            && after.threads.Keys == s.threads.Keys && RunsIn(after, run.thread) == map[run.id := run]
            && after.claims == map[ClaimKey(run.thread, "k") := Claim([], run.id)]
  {
  }

  lemma Forgotten(s: Store, first: StoredRun, second: StoredRun)
    requires first.thread == second.thread == "a\0b" && first.id == "1" && second.id == "2"
    requires s.threads.Keys == {"a", "a\0b"} && RunsIn(s, "a\0b") == map["1" := first]
    requires s.claims == map[ClaimKey("a\0b", "k") := Claim([], "1")]
    ensures var after := Apply(s, DeleteThread("a"));
            HasRun(after, "a\0b", "1") && CreateRunReply(after, second, "k", []) == Ok(Created(second))
  {
    assert NulFree("k");
    ClaimOfExactly("a", "a\0b", "k");
    assert "a" + "\0" <= "a\0b";
  }
}
