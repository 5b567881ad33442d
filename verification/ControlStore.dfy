/**
  The shared control plane of remote threads and runs: idempotent run creation, status
  transitions by compare-and-swap, deletion and pruning, all atomic steps on three maps.
*/
module ControlStore {
  import opened Prelude

  type Output(==, !new)

  datatype RunStatus = RunRunning | RunSuccess | RunError | RunCanceled

  datatype StoredRun = StoredRun(id: string, thread: string, status: RunStatus, output: Output, createdAt: int, updatedAt: int)

  datatype Thread = Thread(id: string, createdAt: int, updatedAt: int)

  datatype Claim = Claim(hash: seq<nat>, runId: string)

  datatype Failure = Conflict | NotFound | IdempotencyConflict

  datatype Store = Store(threads: map<string, Thread>, runs: map<string, map<string, StoredRun>>, claims: map<string, Claim>)

  const EMPTY := Store(map[], map[], map[])

  function ClaimKey(thread: string, key: string): string
  {
    thread + "\0" + key
  }

  /** The prefix test that deletion and pruning use. */
  predicate ClaimOf(thread: string, claim: string)
  {
    thread + "\0" <= claim
  }

  predicate TerminalRun(status: RunStatus)
  {
    status == RunSuccess || status == RunError || status == RunCanceled
  }

  function RunsIn(s: Store, thread: string): map<string, StoredRun>
  {
    if thread in s.runs then s.runs[thread] else map[]
  }

  // ----- The operations -----

  function CreatedThread(s: Store, thread: Thread): Result<Store, Failure>
  {
    if thread.id in s.threads then Err(Conflict)
    else Ok(s.(threads := s.threads[thread.id := thread], runs := s.runs[thread.id := map[]]))
  }

  function DeletedThread(s: Store, id: string): Result<Store, Failure>
  {
    if id !in s.threads then Err(NotFound)
    else Ok(Store(s.threads - {id}, s.runs - {id}, map k | k in s.claims && !ClaimOf(id, k) :: s.claims[k]))
  }

  /** What a CreateRun call reports: the run it created, or the run an earlier call with the key created, if any. */
  datatype Creation = Created(run: StoredRun) | Replayed(prior: Option<StoredRun>)

  function CreateRunReply(s: Store, run: StoredRun, key: string, hash: seq<nat>): Result<Creation, Failure>
  {
    if run.thread !in s.threads then Err(NotFound)
    else if key != "" && ClaimKey(run.thread, key) in s.claims then
      var prior := s.claims[ClaimKey(run.thread, key)];
      if prior.hash != hash then Err(IdempotencyConflict)
      else Ok(Replayed(if prior.runId in RunsIn(s, run.thread) then Some(RunsIn(s, run.thread)[prior.runId]) else None))
    else if run.id in RunsIn(s, run.thread) then Err(Conflict)
    else Ok(Created(run))
  }

  function AfterCreateRun(s: Store, run: StoredRun, key: string, hash: seq<nat>): Store
  {
    match CreateRunReply(s, run, key, hash)
    case Ok(Created(_)) =>
      Store(if run.thread in s.threads then s.threads[run.thread := s.threads[run.thread].(updatedAt := run.updatedAt)] else s.threads,
            s.runs[run.thread := RunsIn(s, run.thread)[run.id := run]],
            if key == "" then s.claims else s.claims[ClaimKey(run.thread, key) := Claim(hash, run.id)])
    case _ => s
  }

  predicate Transitions(s: Store, thread: string, id: string, expected: seq<RunStatus>)
  {
    id in RunsIn(s, thread) && RunsIn(s, thread)[id].status in expected
  }

  function AfterTransition(s: Store, thread: string, id: string, expected: seq<RunStatus>, next: StoredRun): Store
  {
    if !Transitions(s, thread, id, expected) then s
    else
      var stored := next.(id := id, thread := thread, createdAt := RunsIn(s, thread)[id].createdAt);
      Store(if thread in s.threads then s.threads[thread := s.threads[thread].(updatedAt := next.updatedAt)] else s.threads,
            s.runs[thread := RunsIn(s, thread)[id := stored]],
            s.claims)
  }

  predicate Prunable(run: StoredRun, before: int)
  {
    TerminalRun(run.status) && run.updatedAt < before
  }

  function Kept(runs: map<string, StoredRun>, before: int): map<string, StoredRun>
  {
    map id | id in runs && !Prunable(runs[id], before) :: runs[id]
  }

  predicate PrunedClaim(s: Store, thread: string, k: string, before: int)
    requires k in s.claims && thread in s.runs
  {
    var id := s.claims[k].runId;
    ClaimOf(thread, k) && id in s.runs[thread] && Prunable(s.runs[thread][id], before)
  }

  /** The store after the threads in `done` have been pruned. */
  function PrunedIn(s: Store, done: set<string>, before: int): Store
  {
    Store(s.threads,
          map t | t in s.runs :: if t in done then Kept(s.runs[t], before) else s.runs[t],
          map k | k in s.claims && (forall t :: t in s.runs && t in done ==> !PrunedClaim(s, t, k, before)) :: s.claims[k])
  }

  function Pruned(s: Store, before: int): Store
  {
    PrunedIn(s, s.runs.Keys, before)
  }

  function PruneThread(s: Store, thread: string, before: int): Store
    requires thread in s.runs
  {
    Store(s.threads,
          s.runs[thread := Kept(s.runs[thread], before)],
          map k | k in s.claims && !PrunedClaim(s, thread, k, before) :: s.claims[k])
  }

  lemma PruneStep(s: Store, done: set<string>, thread: string, before: int)
    requires thread in s.runs && thread !in done
    ensures thread in PrunedIn(s, done, before).runs
    ensures PruneThread(PrunedIn(s, done, before), thread, before) == PrunedIn(s, done + {thread}, before)
  {
    var mid, end := PrunedIn(s, done, before), PrunedIn(s, done + {thread}, before);
    assert mid.runs[thread] == s.runs[thread];
    assert PruneThread(mid, thread, before).runs == end.runs;
    forall k | k in s.claims
      ensures k in end.claims <==> k in mid.claims && !PrunedClaim(s, thread, k, before)
    {
    }
    assert PruneThread(mid, thread, before).claims == end.claims;
  }

  lemma PruneNone(s: Store, before: int)
    ensures PrunedIn(s, {}, before) == s && Removed(s, {}, before) == {}
  {
    assert PrunedIn(s, {}, before).runs == s.runs && PrunedIn(s, {}, before).claims == s.claims;
  }

  lemma PruneThreads(s: Store, done: set<string>, before: int)
    ensures PrunedIn(s, done, before).threads == s.threads && PrunedIn(s, done, before).runs.Keys == s.runs.Keys
    ensures forall t :: t in s.runs && t !in done ==> PrunedIn(s, done, before).runs[t] == s.runs[t]
  {
  }

  function Old(runs: map<string, StoredRun>, before: int): set<string>
  {
    set id | id in runs && Prunable(runs[id], before)
  }

  /** The runs pruning removes from the threads in `done`. */
  ghost function Removed(s: Store, done: set<string>, before: int): set<(string, string)>
  {
    set t, id | t in done && t in s.runs && id in s.runs[t] && Prunable(s.runs[t][id], before) :: (t, id)
  }

  lemma {:induction false} PairsCount(t: string, ids: set<string>)
    ensures |set id | id in ids :: (t, id)| == |ids|
    decreases ids
  {
    var pairs := set id | id in ids :: (t, id);
    if ids != {} {
      var x :| x in ids;
      PairsCount(t, ids - {x});
      assert pairs == (set id | id in ids - {x} :: (t, id)) + {(t, x)};
    }
  }

  lemma RemovedStep(s: Store, done: set<string>, thread: string, before: int)
    requires thread in s.runs && thread !in done
    ensures |Removed(s, done + {thread}, before)| == |Removed(s, done, before)| + |Old(s.runs[thread], before)|
  {
    var ids := Old(s.runs[thread], before);
    var added := set id | id in ids :: (thread, id);
    PairsCount(thread, ids);
    assert Removed(s, done + {thread}, before) == Removed(s, done, before) + added;
    assert Removed(s, done, before) !! added;
  }

  /** The three maps, mutated in place under one lock. */
  class MemoryControlStore {
    var threads: map<string, Thread>
    var runs: map<string, map<string, StoredRun>>
    var claims: map<string, Claim>

    function View(): Store
      reads this
    {
      Store(threads, runs, claims)
    }

    ghost predicate Valid()
      reads this
    {
      threads.Keys == runs.Keys
    }

    constructor ()
      ensures Valid() && View() == EMPTY
    {
      threads, runs, claims := map[], map[], map[];
    }

    method CreateThread(thread: Thread) returns (failure: Option<Failure>)
      requires Valid()
      modifies this
      ensures Valid()
      ensures match CreatedThread(old(View()), thread)
              case Ok(s) => View() == s && failure == None
              case Err(e) => View() == old(View()) && failure == Some(e)
    {
      if thread.id in threads { return Some(Conflict); }
      threads := threads[thread.id := thread];
      runs := runs[thread.id := map[]];
      return None;
    }

    method DeleteThread(id: string) returns (failure: Option<Failure>)
      requires Valid()
      modifies this
      ensures Valid()
      ensures match DeletedThread(old(View()), id)
              case Ok(s) => View() == s && failure == None
              case Err(e) => View() == old(View()) && failure == Some(e)
    {
      if id !in threads { return Some(NotFound); }
      threads, runs := threads - {id}, runs - {id};
      var todo := claims.Keys;
      var kept := claims;
      while todo != {}
        invariant todo <= claims.Keys && kept.Keys <= claims.Keys && todo <= kept.Keys
        invariant forall k :: k in claims && k !in todo ==> (k in kept <==> !ClaimOf(id, k))
        invariant forall k :: k in kept ==> kept[k] == claims[k]
        invariant threads == old(threads) - {id} && runs == old(runs) - {id} && claims == old(claims)
        decreases todo
      {
        var k :| k in todo;
        if ClaimOf(id, k) { kept := kept - {k}; }
        todo := todo - {k};
      }
      assert kept == map k | k in claims && !ClaimOf(id, k) :: claims[k];
      claims := kept;
      return None;
    }

    method CreateRun(run: StoredRun, key: string, hash: seq<nat>) returns (r: Result<Creation, Failure>)
      requires Valid()
      modifies this
      ensures Valid()
      ensures r == CreateRunReply(old(View()), run, key, hash) && View() == AfterCreateRun(old(View()), run, key, hash)
    {
      if run.thread !in threads { return Err(NotFound); }
      var claim := ClaimKey(run.thread, key);
      if key != "" && claim in claims {
        var prior := claims[claim];
        if prior.hash != hash { return Err(IdempotencyConflict); }
        return Ok(Replayed(if prior.runId in runs[run.thread] then Some(runs[run.thread][prior.runId]) else None));
      }
      if run.id in runs[run.thread] { return Err(Conflict); }
      runs := runs[run.thread := runs[run.thread][run.id := run]];
      if key != "" {
        claims := claims[claim := Claim(hash, run.id)];
      }
      threads := threads[run.thread := threads[run.thread].(updatedAt := run.updatedAt)];
      return Ok(Created(run));
    }

    method TransitionRun(thread: string, id: string, expected: seq<RunStatus>, next: StoredRun)
      returns (r: Result<(StoredRun, bool), Failure>)
      requires Valid()
      modifies this
      ensures Valid()
      ensures View() == AfterTransition(old(View()), thread, id, expected, next)
      ensures r.Err? <==> id !in RunsIn(old(View()), thread)
      ensures r.Ok? ==> r.value.1 == Transitions(old(View()), thread, id, expected) && r.value.0 == RunsIn(View(), thread)[id]
    {
      if thread !in runs || id !in runs[thread] { return Err(NotFound); }
      var current := runs[thread][id];
      if current.status !in expected { return Ok((current, false)); }
      var stored := next.(id := id, thread := thread, createdAt := current.createdAt);
      runs := runs[thread := runs[thread][id := stored]];
      threads := threads[thread := threads[thread].(updatedAt := next.updatedAt)];
      return Ok((stored, true));
    }

    method PruneOne(thread: string, before: int) returns (removed: nat)
      requires Valid() && thread in runs
      modifies this
      ensures Valid() && View() == PruneThread(old(View()), thread, before)
      ensures removed == |Old(old(runs)[thread], before)|
    {
      removed := |Old(runs[thread], before)|;
      var next := PruneThread(View(), thread, before);
      runs, claims := next.runs, next.claims;
    }

    /** Removes the old terminal runs of every thread, and the claims that name them, and counts the runs. */
    method PruneRuns(before: int) returns (count: nat)
      requires Valid()
      modifies this
      ensures Valid() && View() == Pruned(old(View()), before)
      ensures count == |Removed(old(View()), old(runs).Keys, before)|
    {
      hide PrunedIn, PruneThread, PrunedClaim, Kept, Removed, Old;
      ghost var start := View();
      var todo := runs.Keys;
      count := 0;
      PruneNone(start, before);
      assert start.runs.Keys - todo == {};
      while todo != {}
        invariant Valid() && todo <= start.runs.Keys && View() == PrunedIn(start, start.runs.Keys - todo, before)
        invariant count == |Removed(start, start.runs.Keys - todo, before)|
        decreases todo
      {
        var thread :| thread in todo;
        PruneStep(start, start.runs.Keys - todo, thread, before);
        RemovedStep(start, start.runs.Keys - todo, thread, before);
        assert start.runs.Keys - todo + {thread} == start.runs.Keys - (todo - {thread});
        PruneThreads(start, start.runs.Keys - todo, before);
        var removed := PruneOne(thread, before);
        count, todo := count + removed, todo - {thread};
      }
      assert start.runs.Keys - todo == start.runs.Keys;
      assert start.runs == old(runs);
    }
  }
}
