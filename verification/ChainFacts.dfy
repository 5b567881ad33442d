/**
  Facts about whole checkpoint chains: the IDs handed out by the clock influence nothing
  but the recorded versions, and every chain is a lineage in the sense of Versions.
*/
module ChainFacts {
  import opened Prelude
  import opened Graphs
  import opened Routing
  import opened Envelopes
  import opened Versions
  import opened Engine
  import opened EngineFacts

  // ----- Two choices of IDs -----

  ghost predicate TwoIds(ids: seq<Id>, ids': seq<Id>)
  {
    |ids| == |ids'| && Distinct(ids) && Distinct(ids')
  }

  /** x and y name the same checkpoint position. */
  ghost predicate Twins(ids: seq<Id>, ids': seq<Id>, x: Id, y: Id)
    requires |ids| == |ids'|
  {
    exists j :: 0 <= j < |ids| && x == ids[j] && y == ids'[j]
  }

  lemma TwinsAgree(ids: seq<Id>, ids': seq<Id>, x: Id, y: Id, x': Id, y': Id)
    requires TwoIds(ids, ids') && Twins(ids, ids', x, y) && Twins(ids, ids', x', y')
    ensures x == x' <==> y == y'
  {
  }

  ghost predicate SameVersions(ids: seq<Id>, ids': seq<Id>, m: map<string, Id>, m': map<string, Id>)
    requires |ids| == |ids'|
  {
    m.Keys == m'.Keys && forall c :: c in m ==> Twins(ids, ids', m[c], m'[c])
  }

  ghost predicate SameSnap(ids: seq<Id>, ids': seq<Id>, s: Snapshot, s': Snapshot)
    requires |ids| == |ids'|
  {
    && s.values == s'.values
    && SameVersions(ids, ids', s.versions, s'.versions)
    && s.seen.Keys == s'.seen.Keys
    && forall n :: n in s.seen ==> SameVersions(ids, ids', s.seen[n], s'.seen[n])
  }

  lemma CommitSame(readSet: NodeId -> seq<string>, ids: seq<Id>, ids': seq<Id>, s: Snapshot, s': Snapshot,
                   values: map<string, EncodedValue>, ran: seq<NodeId>, k: nat)
    requires TwoIds(ids, ids') && k < |ids| && SameSnap(ids, ids', s, s')
    ensures SameSnap(ids, ids', Commit(readSet, s, values, ran, ids[k]), Commit(readSet, s', values, ran, ids'[k]))
  {
    assert Twins(ids, ids', ids[k], ids'[k]);
    var a, a' := StampVersions(s, values, ids[k]), StampVersions(s', values, ids'[k]);
    assert a.Keys == a'.Keys;
    var b, b' := RecordSeen(readSet, s, ran), RecordSeen(readSet, s', ran);
    assert b.Keys == b'.Keys;
    forall n | n in b ensures SameVersions(ids, ids', b[n], b'[n]) {
      if n in ran {
        assert b[n].Keys == b'[n].Keys;
      }
    }
  }

  lemma FreshSame(triggers: NodeId -> seq<string>, ids: seq<Id>, ids': seq<Id>, s: Snapshot, s': Snapshot, n: NodeId)
    requires TwoIds(ids, ids') && SameSnap(ids, ids', s, s')
    ensures IsFresh(triggers, s, n) == IsFresh(triggers, s', n)
  {
    if n in s.seen {
      forall c ensures (Version(s.versions, c) != Version(s.seen[n], c)) == (Version(s'.versions, c) != Version(s'.seen[n], c)) {
        assert c in s.seen[n] <==> c in s'.seen[n];
        assert c in s.versions <==> c in s'.versions;
        if c in s.versions && c in s.seen[n] {
          assert SameVersions(ids, ids', s.seen[n], s'.seen[n]);
          TwinsAgree(ids, ids', s.versions[c], s'.versions[c], s.seen[n][c], s'.seen[n][c]);
        }
      }
    }
  }

  lemma {:induction false} FreshTasksSame(triggers: NodeId -> seq<string>, ids: seq<Id>, ids': seq<Id>, s: Snapshot, s': Snapshot, tasks: seq<Task>)
    requires TwoIds(ids, ids') && SameSnap(ids, ids', s, s')
    ensures FreshTasks(triggers, s, tasks) == FreshTasks(triggers, s', tasks)
  {
    if tasks != [] {
      hide IsFresh, SameSnap;
      FreshTasksSame(triggers, ids, ids', s, s', tasks[..|tasks| - 1]);
      FreshSame(triggers, ids, ids', s, s', tasks[|tasks| - 1].node);
    }
  }

  /** Equal but for the names of the versions. */
  ghost predicate SameCheckpoint(ids: seq<Id>, ids': seq<Id>, c: Checkpoint, c': Checkpoint)
    requires |ids| == |ids'|
  {
    c.step == c'.step && c.next == c'.next && c.waiting == c'.waiting && SameSnap(ids, ids', c.snap, c'.snap)
  }

  ghost predicate SamePrepared(ids: seq<Id>, ids': seq<Id>, r: Result<Checkpoint, RunError>, r': Result<Checkpoint, RunError>)
    requires |ids| == |ids'|
  {
    match (r, r')
    case (Ok(c), Ok(c')) => SameCheckpoint(ids, ids', c, c')
    case (Err(x), Err(x')) => x == x'
    case _ => false
  }

  ghost predicate SameLink(ids: seq<Id>, ids': seq<Id>, link: Link, link': Link)
    requires |ids| == |ids'|
  {
    SameCheckpoint(ids, ids', link.c, link'.c) && link.loop == link'.loop && link.runs == link'.runs
  }

  ghost predicate SameOutcome(ids: seq<Id>, ids': seq<Id>, r: Result<Link, RunError>, r': Result<Link, RunError>)
    requires |ids| == |ids'|
  {
    match (r, r')
    case (Ok(link), Ok(link')) => SameLink(ids, ids', link, link')
    case (Err(x), Err(x')) => x == x'
    case _ => false
  }

  lemma PrepareSame(e: Program, ids: seq<Id>, ids': seq<Id>, s: Snapshot, s': Snapshot, state: State, tasks: seq<Task>,
                    step: SuperStep, w: Barriers, ran: seq<NodeId>, k: nat)
    requires TwoIds(ids, ids') && k < |ids| && SameSnap(ids, ids', s, s')
    ensures var r, r' := Prepare(e, s, state, tasks, step, w, ran, ids[k]), Prepare(e, s', state, tasks, step, w, ran, ids'[k]);
            && SamePrepared(ids, ids', r, r')
            && (r.Ok? ==> FreshTasks(e.triggers, r.value.snap, tasks) == FreshTasks(e.triggers, r'.value.snap, tasks))
  {
    hide SameSnap, Commit, FreshTasks, SaveWaiting, StoreTasks;
    var values := ChannelValues(e, state);
    if values.Ok? {
      CommitSame(e.readSet, ids, ids', s, s', values.value, ran, k);
      FreshTasksSame(e.triggers, ids, ids', Commit(e.readSet, s, values.value, ran, ids[k]),
                     Commit(e.readSet, s', values.value, ran, ids'[k]), tasks);
    }
  }

  lemma LinkSnaps(ids: seq<Id>, ids': seq<Id>, link: Link, link': Link)
    requires |ids| == |ids'| && SameLink(ids, ids', link, link')
    ensures SameSnap(ids, ids', link.c.snap, link'.c.snap) && link.loop == link'.loop && link.runs == link'.runs
  {
  }

  lemma AdvanceSame(e: Program, ids: seq<Id>, ids': seq<Id>, link: Link, link': Link, k: nat)
    requires TwoIds(ids, ids') && k < |ids| && SameLink(ids, ids', link, link')
    ensures SameOutcome(ids, ids', Advance(e, link, ids[k]), Advance(e, link', ids'[k]))
  {
    hide Prepare, RunTasks, NextTasks, Reduced, OutputNodes, SameCheckpoint, FreshTasks;
    LinkSnaps(ids, ids', link, link');
    var loop := link.loop;
    var results := RunTasks(e, loop.tasks, loop.step, loop.state);
    if results.Ok? && Reduced(e, loop.state, results.value).Ok? {
      var state := Reduced(e, loop.state, results.value).value;
      var scheduled := NextTasks(e.plan, loop.step, results.value, state, loop.waiting);
      if scheduled.Ok? {
        PrepareSame(e, ids, ids', link.c.snap, link'.c.snap, state, scheduled.value.tasks, loop.step, scheduled.value.waiting,
                    OutputNodes(results.value), k);
      }
    }
  }

  lemma EnterSame(e: Program, ids: seq<Id>, ids': seq<Id>, s: Snapshot, s': Snapshot, state: State, step: SuperStep, w: Barriers, runs: nat, k: nat)
    requires TwoIds(ids, ids') && k < |ids| && SameSnap(ids, ids', s, s')
    ensures SameOutcome(ids, ids', Enter(e, s, state, step, w, runs, ids[k]), Enter(e, s', state, step, w, runs, ids'[k]))
  {
    hide Prepare, EntryTasks, SameCheckpoint, SameSnap, FreshTasks;
    var scheduled := EntryTasks(e.plan, step + 1, state, w);
    if scheduled.Ok? {
      PrepareSame(e, ids, ids', s, s', state, scheduled.value.tasks, step, scheduled.value.waiting, [], k);
    }
  }

  /** Restoring reads everything except the names of the versions. */
  lemma RestoreSame(e: Program, ids: seq<Id>, ids': seq<Id>, c: Checkpoint, c': Checkpoint)
    requires |ids| == |ids'| && SameCheckpoint(ids, ids', c, c')
    ensures Restore(e, c) == Restore(e, c')
  {
  }

  lemma SuccessorSame(e: Program, h: History, ids: seq<Id>, ids': seq<Id>, link: Link, link': Link, k: nat)
    requires TwoIds(ids, ids') && k < |ids| && SameLink(ids, ids', link, link')
    ensures SameOutcome(ids, ids', Successor(e, h, link, ids[k]), Successor(e, h, link', ids'[k]))
  {
    hide Advance, Enter, SameLink, SameSnap;
    LinkSnaps(ids, ids', link, link');
    if link.loop.tasks != [] {
      AdvanceSame(e, ids, ids', link, link', k);
    } else if link.runs < |h.inputs| && e.merge(link.loop.state, h.inputs[link.runs]).Ok? {
      EnterSame(e, ids, ids', link.c.snap, link'.c.snap, e.merge(link.loop.state, h.inputs[link.runs]).value, link.loop.step,
                link.loop.waiting, link.runs + 1, k);
    }
  }

  lemma LoadedSame(e: Program, h: History, ids: seq<Id>, ids': seq<Id>, link: Link, link': Link, k: nat)
    requires |ids| == |ids'| && SameLink(ids, ids', link, link')
    ensures SameOutcome(ids, ids', Loaded(e, h, link, k), Loaded(e, h, link', k))
  {
    hide Restore, SameCheckpoint;
    RestoreSame(e, ids, ids', link.c, link'.c);
  }

  lemma FirstSame(e: Program, h: History, ids: seq<Id>, ids': seq<Id>)
    requires TwoIds(ids, ids') && ids != []
    ensures SameOutcome(ids, ids', First(e, h, ids[0]), First(e, h, ids'[0]))
  {
    hide Enter, SameLink;
    if h.inputs != [] {
      EnterSame(e, ids, ids', EMPTY, EMPTY, h.inputs[0], -1, map[], 1, 0);
    }
  }

  /** The k-th checkpoint does not depend on which IDs the checkpoints received, only its version names do. */
  lemma {:induction false} ChainSame(e: Program, h: History, ids: seq<Id>, ids': seq<Id>, k: nat)
    requires TwoIds(ids, ids') && k < |ids|
    ensures SameOutcome(ids, ids', ChainAt(e, h, ids, k), ChainAt(e, h, ids', k))
  {
    hide First, Successor, Loaded, SameLink;
    var made, made';
    if k == 0 {
      FirstSame(e, h, ids, ids');
      made, made' := First(e, h, ids[0]), First(e, h, ids'[0]);
    } else {
      ChainSame(e, h, ids, ids', k - 1);
      var before, before' := ChainAt(e, h, ids, k - 1), ChainAt(e, h, ids', k - 1);
      if before.Err? { return; }
      SuccessorSame(e, h, ids, ids', before.value, before'.value, k);
      made, made' := Successor(e, h, before.value, ids[k]), Successor(e, h, before'.value, ids'[k]);
    }
    if made.Ok? {
      LoadedSame(e, h, ids, ids', made.value, made'.value, k);
    }
  }

  /** A chain depends on the IDs of its own checkpoints only. */
  lemma {:induction false} ChainPrefix(e: Program, h: History, ids: seq<Id>, n: nat, k: nat)
    requires k < n <= |ids|
    ensures ChainAt(e, h, ids[..n], k) == ChainAt(e, h, ids, k)
    decreases k
  {
    hide First, Successor, Loaded;
    if k > 0 {
      ChainPrefix(e, h, ids, n, k - 1);
    }
  }

  /** What is there of a chain stays when further inputs arrive, and when later checkpoints are read back. */
  lemma {:induction false} ChainKeeps(e: Program, h: History, h': History, ids: seq<Id>, k: nat)
    requires k < |ids| && ChainAt(e, h, ids, k).Ok?
    requires h.inputs <= h'.inputs && forall j :: 0 <= j <= k ==> (j in h.reread <==> j in h'.reread)
    ensures ChainAt(e, h', ids, k) == ChainAt(e, h, ids, k)
    decreases k
  {
    hide Advance, Renew, Begin, ReadBack;
    if k > 0 {
      ChainKeeps(e, h, h', ids, k - 1);
    }
  }

  // ----- When it does not matter where a thread was read back -----

  /** The chain of a thread that is never read back. */
  function Plain(inputs: seq<State>): History
  {
    History(inputs, {})
  }

  /** Every run a thread begins on these inputs finds its entry tasks fresh. */
  ghost predicate EntriesFresh(e: Program, inputs: seq<State>)
  {
    forall ids: seq<Id>, k: nat :: Distinct(ids) && k < |ids| && ChainAt(e, Plain(inputs), ids, k).Ok? ==>
      Settled(e, ChainAt(e, Plain(inputs), ids, k).value)
  }

  /** Then a chain does not depend on the checkpoints at which it was read back. */
  lemma {:induction false} RereadAnywhere(e: Program, h: History, ids: seq<Id>, k: nat)
    requires ProgramOk(e) && EntriesFresh(e, h.inputs) && Distinct(ids) && k < |ids|
    ensures ChainAt(e, h, ids, k) == ChainAt(e, Plain(h.inputs), ids, k)
    decreases k
  {
    hide ProgramOk, Advance, Renew, Begin, ReadBack, Distinct, Settled;
    if k > 0 {
      RereadAnywhere(e, h, ids, k - 1);
    }
    if ChainAt(e, Plain(h.inputs), ids, k).Ok? {
      assert Settled(e, ChainAt(e, Plain(h.inputs), ids, k).value);
      ReadBackSettled(e, Plain(h.inputs), ids, k);
    }
  }

  lemma ReadBackSettled(e: Program, h: History, ids: seq<Id>, k: nat)
    requires ProgramOk(e) && k < |ids| && ChainAt(e, h, ids, k).Ok? && Settled(e, ChainAt(e, h, ids, k).value)
    ensures ReadBack(e, ChainAt(e, h, ids, k).value) == ChainAt(e, h, ids, k)
  {
    hide ProgramOk, ChainAt, Settled, Restore;
    ChainRestores(e, h, ids, k);
    SettledExactly(e, ChainAt(e, h, ids, k).value);
  }

  lemma FreshPrefix(e: Program, inputs: seq<State>, n: nat)
    requires n <= |inputs| && EntriesFresh(e, inputs)
    ensures EntriesFresh(e, inputs[..n])
  {
    hide ChainAt, Settled, Distinct;
    forall ids: seq<Id>, k: nat | Distinct(ids) && k < |ids| && ChainAt(e, Plain(inputs[..n]), ids, k).Ok?
      ensures Settled(e, ChainAt(e, Plain(inputs[..n]), ids, k).value)
    {
      ChainKeeps(e, Plain(inputs[..n]), Plain(inputs), ids, k);
    }
  }

  // ----- Programs whose entry tasks are always fresh -----

  /** No node a run can enter through listens to a channel. */
  ghost predicate EntriesUntriggered(e: Program)
  {
    forall state: State, w: Barriers, step: nat :: EntryTasks(e.plan, step, state, w).Ok? ==>
      forall t :: t in EntryTasks(e.plan, step, state, w).value.tasks ==> e.triggers(t.node) == []
  }

  lemma EnterSettled(e: Program, prev: Snapshot, state: State, step: SuperStep, w: Barriers, runs: nat, id: Id)
    requires Enter(e, prev, state, step, w, runs, id).Ok? && (EntriesUntriggered(e) || prev == EMPTY)
    ensures Settled(e, Enter(e, prev, state, step, w, runs, id).value)
  {
    hide EntryTasks, StampVersions, StoreTasks, ChannelValues;
  }

  lemma AdvanceSettled(e: Program, link: Link, id: Id)
    requires ProgramOk(e) && LoopOk(e, link.loop) && Advance(e, link, id).Ok?
    ensures Settled(e, Advance(e, link, id).value)
  {
    hide Advance, ProgramOk, Settled, LoopOk;
    AdvanceLinks(e, link, id);
    SettledExactly(e, Advance(e, link, id).value);
  }

  /**
    Entry tasks are fresh in the first run of every thread, and in every run if no node that a run can enter
    through has channel triggers.
  */
  lemma FreshEntries(e: Program, inputs: seq<State>)
    requires ProgramOk(e) && (|inputs| <= 1 || EntriesUntriggered(e))
    ensures EntriesFresh(e, inputs)
  {
    hide ProgramOk, EntriesUntriggered, Settled, Distinct, ChainAt;
    forall ids: seq<Id>, k: nat | Distinct(ids) && k < |ids| && ChainAt(e, Plain(inputs), ids, k).Ok?
      ensures Settled(e, ChainAt(e, Plain(inputs), ids, k).value)
    {
      LinkSettled(e, inputs, ids, k);
    }
  }

  lemma LinkSettled(e: Program, inputs: seq<State>, ids: seq<Id>, k: nat)
    requires ProgramOk(e) && (|inputs| <= 1 || EntriesUntriggered(e))
    requires k < |ids| && ChainAt(e, Plain(inputs), ids, k).Ok?
    ensures Settled(e, ChainAt(e, Plain(inputs), ids, k).value)
  {
    hide ProgramOk, EntriesUntriggered, Settled, Enter, Advance, LinkOk;
    if k == 0 {
      EnterSettled(e, EMPTY, inputs[0], -1, map[], 1, ids[0]);
    } else {
      var before := ChainAt(e, Plain(inputs), ids, k - 1).value;
      ChainRestores(e, Plain(inputs), ids, k - 1);
      LinkLoop(e, before);
      if before.loop.tasks != [] {
        AdvanceSettled(e, before, ids[k]);
      } else {
        RunsBegun(e, Plain(inputs), ids, k - 1);
        EnterSettled(e, before.c.snap, e.merge(before.loop.state, inputs[before.runs]).value, before.loop.step, before.loop.waiting,
                     before.runs + 1, ids[k]);
      }
    }
  }

  lemma {:induction false} RunsBegun(e: Program, h: History, ids: seq<Id>, k: nat)
    requires k < |ids| && ChainAt(e, h, ids, k).Ok?
    ensures 1 <= ChainAt(e, h, ids, k).value.runs <= |h.inputs|
  {
    hide CommitStep, Committed, EntryTasks, Prepare, Restore, RunTasks;
    if k > 0 {
      RunsBegun(e, h, ids, k - 1);
    }
  }

  // ----- Every chain is a lineage -----

  /** The nodes whose results the checkpoint after a link commits: none for the input of a new run. */
  function RanFrom(e: Program, link: Link): seq<NodeId>
  {
    match RunTasks(e, link.loop.tasks, link.loop.step, link.loop.state)
    case Err(_) => []
    case Ok(results) => OutputNodes(results)
  }

  ghost predicate ChainOk(e: Program, h: History, ids: seq<Id>)
  {
    Distinct(ids) && forall k :: 0 <= k < |ids| ==> ChainAt(e, h, ids, k).Ok?
  }

  ghost function Snapshots(e: Program, h: History, ids: seq<Id>): (r: seq<Snapshot>)
    requires ChainOk(e, h, ids)
    ensures |r| == |ids|
  {
    seq(|ids|, k requires 0 <= k < |ids| => ChainAt(e, h, ids, k).value.c.snap)
  }

  ghost function RanNodes(e: Program, h: History, ids: seq<Id>): (r: seq<seq<NodeId>>)
    requires ChainOk(e, h, ids)
    ensures |r| == |ids|
  {
    seq(|ids|, k requires 0 <= k < |ids| => if k == 0 then [] else RanFrom(e, ChainAt(e, h, ids, k - 1).value))
  }

  /** s was stamped on prev after the nodes in ran. */
  ghost predicate Extends(e: Program, prev: Snapshot, ran: seq<NodeId>, id: Id, s: Snapshot)
  {
    s.id == id && s.versions == StampVersions(prev, s.values, id) && s.seen == RecordSeen(e.readSet, prev, ran)
  }

  lemma PrepareCommits(e: Program, prev: Snapshot, state: State, tasks: seq<Task>, step: SuperStep, w: Barriers, ran: seq<NodeId>, id: Id)
    requires Prepare(e, prev, state, tasks, step, w, ran, id).Ok?
    ensures Extends(e, prev, ran, id, Prepare(e, prev, state, tasks, step, w, ran, id).value.snap)
  {
  }

  lemma AdvanceCommits(e: Program, link: Link, id: Id)
    requires Advance(e, link, id).Ok?
    ensures Extends(e, link.c.snap, RanFrom(e, link), id, Advance(e, link, id).value.c.snap)
  {
    hide Prepare, Extends, RunTasks, NextTasks, Reduced, OutputNodes, FreshTasks;
    var loop := link.loop;
    var results := RunTasks(e, loop.tasks, loop.step, loop.state).value;
    var state := Reduced(e, loop.state, results).value;
    var s := NextTasks(e.plan, loop.step, results, state, loop.waiting).value;
    PrepareCommits(e, link.c.snap, state, s.tasks, loop.step, s.waiting, OutputNodes(results), id);
  }

  lemma EnterCommits(e: Program, prev: Snapshot, state: State, step: SuperStep, w: Barriers, runs: nat, id: Id)
    requires Enter(e, prev, state, step, w, runs, id).Ok?
    ensures Extends(e, prev, [], id, Enter(e, prev, state, step, w, runs, id).value.c.snap)
  {
    hide Prepare, Extends, EntryTasks;
    var s := EntryTasks(e.plan, step + 1, state, w).value;
    PrepareCommits(e, prev, state, s.tasks, step, s.waiting, [], id);
  }

  lemma SuccessorCommits(e: Program, h: History, link: Link, id: Id)
    requires Successor(e, h, link, id).Ok?
    ensures Extends(e, link.c.snap, RanFrom(e, link), id, Successor(e, h, link, id).value.c.snap)
  {
    hide Advance, Enter, Extends;
    if link.loop.tasks != [] {
      AdvanceCommits(e, link, id);
    } else {
      assert RanFrom(e, link) == [];
      EnterCommits(e, link.c.snap, e.merge(link.loop.state, h.inputs[link.runs]).value, link.loop.step, link.loop.waiting, link.runs + 1, id);
    }
  }

  lemma FirstCommits(e: Program, h: History, id: Id)
    requires First(e, h, id).Ok?
    ensures Extends(e, EMPTY, [], id, First(e, h, id).value.c.snap)
  {
    hide Enter, Extends;
    EnterCommits(e, EMPTY, h.inputs[0], -1, map[], 1, id);
  }

  lemma LoadedCommits(e: Program, h: History, link: Link, k: nat)
    ensures Loaded(e, h, link, k).Ok? ==> Loaded(e, h, link, k).value.c == link.c
  {
    hide Restore;
  }

  lemma ChainCommits(e: Program, h: History, ids: seq<Id>, k: nat)
    requires ChainOk(e, h, ids) && k < |ids|
    ensures var chain := Snapshots(e, h, ids);
            Extends(e, Parent(chain, k), RanNodes(e, h, ids)[k], ids[k], chain[k])
  {
    hide First, Successor, Loaded, Extends, RanFrom, Distinct;
    assert ChainAt(e, h, ids, k).Ok?;
    if k == 0 {
      FirstCommits(e, h, ids[0]);
      LoadedCommits(e, h, First(e, h, ids[0]).value, 0);
    } else {
      assert ChainAt(e, h, ids, k - 1).Ok?;
      var before := ChainAt(e, h, ids, k - 1).value;
      SuccessorCommits(e, h, before, ids[k]);
      LoadedCommits(e, h, Successor(e, h, before, ids[k]).value, k);
    }
  }

  lemma ChainIsLineage(e: Program, h: History, ids: seq<Id>)
    requires ChainOk(e, h, ids)
    ensures IsLineage(e.readSet, Snapshots(e, h, ids), RanNodes(e, h, ids))
  {
    hide ChainAt, StampVersions, RecordSeen;
    var chain, ran := Snapshots(e, h, ids), RanNodes(e, h, ids);
    forall k | 0 <= k < |ids| ensures chain[k].id == ids[k] && CommittedAt(e.readSet, chain, ran, k) {
      ChainCommits(e, h, ids, k);
    }
  }

  /** n ran before, and none of its trigger channels changed at any checkpoint after the one it last ran from. */
  ghost predicate Stale(e: Program, chain: seq<Snapshot>, ran: seq<seq<NodeId>>, n: NodeId, k: nat)
    requires |ran| == |chain| && k < |chain|
  {
    e.triggers(n) != []
    && match LastRun(ran, n, k + 1)
       case None => false
       case Some(j) => forall t, m :: t in e.triggers(n) && j <= m <= k ==> !Changed(chain, t, m)
  }

  /**
    Along every chain a thread can write, over all its runs: the version of a channel is the ID of the last
    checkpoint where it changed, and a node is dropped from a checkpoint exactly when it has trigger channels, ran
    before, and none of them changed at any checkpoint after the one it last ran from.
  */
  lemma ChainVersions(e: Program, h: History, ids: seq<Id>, k: nat, c: string, n: NodeId)
    requires ChainOk(e, h, ids) && k < |ids|
    requires forall t :: t in e.triggers(n) ==> t in e.readSet(n)
    ensures var chain, ran := Snapshots(e, h, ids), RanNodes(e, h, ids);
            && Version(chain[k].versions, c)
               == (match LastChange(chain, c, k + 1) case None => None case Some(j) => Some(ids[j]))
            && (!IsFresh(e.triggers, chain[k], n) <==> Stale(e, chain, ran, n, k))
  {
    hide ChainAt;
    var chain, ran := Snapshots(e, h, ids), RanNodes(e, h, ids);
    ChainIsLineage(e, h, ids);
    VersionIsLastChange(e.readSet, chain, ran, c, k);
    ChainIds(e, h, ids);
    if e.triggers(n) != [] {
      DroppedExactlyWhenStale(e.readSet, e.triggers, chain, ran, n, k);
    }
  }

  lemma ChainIds(e: Program, h: History, ids: seq<Id>)
    requires ChainOk(e, h, ids)
    ensures forall k :: 0 <= k < |ids| ==> Snapshots(e, h, ids)[k].id == ids[k]
  {
    hide ChainAt;
    forall k | 0 <= k < |ids| ensures Snapshots(e, h, ids)[k].id == ids[k] {
      ChainCommits(e, h, ids, k);
    }
  }
}
