/**
  Channel versions: every checkpoint stamps the channels whose encoded value or
  presence changed with its own ID, and each node records the versions it ran from.
*/
module Versions {
  import opened Prelude
  import opened Text
  import opened Graphs
  import opened Envelopes

  /** Checkpoint IDs; the order of the IDs is the order of the checkpoints. */
  type Id = nat

  datatype Snapshot = Snapshot(
    id: Id,
    values: map<string, EncodedValue>,
    versions: map<string, Id>,
    seen: map<NodeId, map<string, Id>>)

  const EMPTY := Snapshot(0, map[], map[], map[])

  function Version(versions: map<string, Id>, channel: string): Option<Id>
  {
    if channel in versions then Some(versions[channel]) else None
  }

  function Value(values: map<string, EncodedValue>, channel: string): Option<EncodedValue>
  {
    if channel in values then Some(values[channel]) else None
  }

  /** The loop of prepareCheckpointWithTasks over the old and new channels. */
  function StampVersions(prev: Snapshot, values: map<string, EncodedValue>, id: Id): map<string, Id>
  {
    map c | c in values.Keys + prev.versions.Keys ::
      if c in prev.versions && Value(values, c) == Value(prev.values, c) then prev.versions[c] else id
  }

  /** The channels that receive a new version. */
  function NewVersions(prev: Snapshot, values: map<string, EncodedValue>, id: Id): map<string, Id>
  {
    map c | c in values.Keys + prev.versions.Keys && !(c in prev.versions && Value(values, c) == Value(prev.values, c)) :: id
  }

  /** The loop over the sorted channel names. */
  method StampChannels(prev: Snapshot, values: map<string, EncodedValue>, id: Id)
    returns (versions: map<string, Id>, added: map<string, Id>)
    ensures versions == StampVersions(prev, values, id) && added == NewVersions(prev, values, id)
  {
    hide StampVersions, NewVersions, Restrict, Sorted, Value;
    versions, added := map[], map[];
    var names := Sorted(values.Keys + prev.versions.Keys);
    assert names[..0] == [];
    RestrictEnds(prev, values, id);
    for i := 0 to |names|
      invariant versions == Restrict(StampVersions(prev, values, id), names[..i])
      invariant added == Restrict(NewVersions(prev, values, id), names[..i])
    {
      var channel := names[i];
      assert channel in values.Keys + prev.versions.Keys by { SortedMember(values.Keys + prev.versions.Keys, i); }
      StampOne(prev, values, id, names, i);
      if channel in prev.versions && Value(values, channel) == Value(prev.values, channel) {
        versions := versions[channel := prev.versions[channel]];
      } else {
        versions, added := versions[channel := id], added[channel := id];
      }
    }
    assert names[..|names|] == names;
  }

  lemma RestrictAll(versions: map<string, Id>, names: seq<string>)
    requires forall c :: c in versions ==> c in names
    ensures Restrict(versions, []) == map[] && Restrict(versions, names) == versions
  {
  }

  lemma RestrictEnds(prev: Snapshot, values: map<string, EncodedValue>, id: Id)
    ensures var names, all, added := Sorted(values.Keys + prev.versions.Keys), StampVersions(prev, values, id), NewVersions(prev, values, id);
            && Restrict(all, []) == map[] && Restrict(added, []) == map[]
            && Restrict(all, names) == all && Restrict(added, names) == added
  {
    hide Restrict, Value;
    var names := Sorted(values.Keys + prev.versions.Keys);
    RestrictAll(StampVersions(prev, values, id), names);
    RestrictAll(NewVersions(prev, values, id), names);
  }

  lemma SortedMember(s: set<string>, i: nat)
    requires i < |Sorted(s)|
    ensures Sorted(s)[i] in s
  {
    assert Sorted(s)[i] in Sorted(s);
  }

  /** The entries of the named channels. */
  function Restrict(versions: map<string, Id>, names: seq<string>): map<string, Id>
  {
    map c | c in versions && c in names :: versions[c]
  }

  lemma RestrictOne(versions: map<string, Id>, names: seq<string>, i: nat)
    requires i < |names|
    ensures Restrict(versions, names[..i + 1])
         == if names[i] in versions then Restrict(versions, names[..i])[names[i] := versions[names[i]]] else Restrict(versions, names[..i])
  {
    assert names[..i + 1] == names[..i] + [names[i]];
  }

  lemma StampOne(prev: Snapshot, values: map<string, EncodedValue>, id: Id, names: seq<string>, i: nat)
    requires i < |names| && names[i] in values.Keys + prev.versions.Keys
    ensures var channel, all, added := names[i], StampVersions(prev, values, id), NewVersions(prev, values, id);
            if channel in prev.versions && Value(values, channel) == Value(prev.values, channel)
            then Restrict(all, names[..i + 1]) == Restrict(all, names[..i])[channel := prev.versions[channel]]
                 && Restrict(added, names[..i + 1]) == Restrict(added, names[..i])
            else Restrict(all, names[..i + 1]) == Restrict(all, names[..i])[channel := id]
                 && Restrict(added, names[..i + 1]) == Restrict(added, names[..i])[channel := id]
  {
    hide Restrict;
    RestrictOne(StampVersions(prev, values, id), names, i);
    RestrictOne(NewVersions(prev, values, id), names, i);
  }

  /** What a node that runs from `versions` is recorded to have seen. */
  function Observed(readSet: seq<string>, versions: map<string, Id>): map<string, Id>
  {
    map c | c in readSet && c in versions :: versions[c]
  }

  function RecordSeen(readSet: NodeId -> seq<string>, prev: Snapshot, ran: seq<NodeId>): map<NodeId, map<string, Id>>
  {
    map n | n in prev.seen.Keys + Elements(ran) ::
      if n in ran then Observed(readSet(n), prev.versions) else prev.seen[n]
  }

  function Commit(readSet: NodeId -> seq<string>, prev: Snapshot, values: map<string, EncodedValue>, ran: seq<NodeId>, id: Id)
    : Snapshot
  {
    Snapshot(id, values, StampVersions(prev, values, id), RecordSeen(readSet, prev, ran))
  }

  /** freshChannelTasks keeps a task unless the node already ran and none of its trigger channels is newer. */
  predicate IsFresh(triggers: NodeId -> seq<string>, now: Snapshot, node: NodeId)
  {
    || triggers(node) == []
    || node !in now.seen
    || exists c :: c in triggers(node) && Version(now.versions, c) != Version(now.seen[node], c)
  }

  function FreshTasks(triggers: NodeId -> seq<string>, now: Snapshot, tasks: seq<Task>): (r: seq<Task>)
    ensures forall t :: t in r <==> t in tasks && IsFresh(triggers, now, t.node)
  {
    if tasks == [] then []
    else
      var before := FreshTasks(triggers, now, tasks[..|tasks| - 1]);
      if IsFresh(triggers, now, tasks[|tasks| - 1].node) then before + [tasks[|tasks| - 1]] else before
  }

  method FilterFresh(triggers: NodeId -> seq<string>, now: Snapshot, tasks: seq<Task>) returns (result: seq<Task>)
    ensures result == FreshTasks(triggers, now, tasks)
  {
    result := [];
    for i := 0 to |tasks|
      invariant result == FreshTasks(triggers, now, tasks[..i])
    {
      assert tasks[..i + 1][..i] == tasks[..i];
      var node := tasks[i].node;
      var channels := triggers(node);
      var keep := channels == [] || node !in now.seen;
      var k := 0;
      while !keep && k < |channels|
        invariant 0 <= k <= |channels|
        invariant keep ==> IsFresh(triggers, now, node)
        invariant !keep ==> channels != [] && node in now.seen
        invariant !keep ==> forall j :: 0 <= j < k ==> Version(now.versions, channels[j]) == Version(now.seen[node], channels[j])
      {
        if Version(now.versions, channels[k]) != Version(now.seen[node], channels[k]) {
          keep := true;
        }
        k := k + 1;
      }
      assert keep == IsFresh(triggers, now, node);
      if keep { result := result + [tasks[i]]; }
    }
    assert tasks[..|tasks|] == tasks;
  }

  /** Filtering keeps the order and the distinctness of task IDs. */
  lemma {:induction false} FreshTasksStamped(triggers: NodeId -> seq<string>, now: Snapshot, tasks: seq<Task>, step: nat)
    requires Stamped(tasks, step)
    ensures Stamped(FreshTasks(triggers, now, tasks), step)
  {
    hide TaskId;
    if tasks != [] {
      var init, last := tasks[..|tasks| - 1], tasks[|tasks| - 1];
      FreshTasksStamped(triggers, now, init, step);
      var before := FreshTasks(triggers, now, init);
      forall j | 0 <= j < |before| ensures before[j].id != last.id {
        assert before[j] in init;
      }
    }
  }

  // ----- Lineages -----

  function Parent(chain: seq<Snapshot>, k: nat): Snapshot
    requires k <= |chain|
  {
    if k == 0 then EMPTY else chain[k - 1]
  }

  ghost predicate CommittedAt(readSet: NodeId -> seq<string>, chain: seq<Snapshot>, ran: seq<seq<NodeId>>, k: nat)
    requires |ran| == |chain| && k < |chain|
  {
    && chain[k].versions == StampVersions(Parent(chain, k), chain[k].values, chain[k].id)
    && chain[k].seen == RecordSeen(readSet, Parent(chain, k), ran[k])
  }

  /** Checkpoint k was committed on checkpoint k - 1 by the nodes ran[k], under an ID of its own. */
  ghost predicate IsLineage(readSet: NodeId -> seq<string>, chain: seq<Snapshot>, ran: seq<seq<NodeId>>)
  {
    && |ran| == |chain|
    && (forall i, j :: 0 <= i < j < |chain| ==> chain[i].id != chain[j].id)
    && (forall k :: 0 <= k < |chain| ==> CommittedAt(readSet, chain, ran, k))
  }

  /** The channel's value or presence differs from the previous checkpoint. */
  predicate Changed(chain: seq<Snapshot>, c: string, k: nat)
    requires k < |chain|
  {
    Value(chain[k].values, c) != Value(Parent(chain, k).values, c)
  }

  /** The last checkpoint up to k that changed the channel, if any did. */
  function LastChange(chain: seq<Snapshot>, c: string, k: nat): (r: Option<nat>)
    requires k <= |chain|
    ensures r.Some? ==> r.value < k && Changed(chain, c, r.value)
    ensures forall j :: (if r.Some? then r.value + 1 else 0) <= j < k ==> !Changed(chain, c, j)
  {
    if k == 0 then None
    else if Changed(chain, c, k - 1) then Some(k - 1)
    else LastChange(chain, c, k - 1)
  }

  /** ChannelVersions[c] is the ID of the last checkpoint at which c changed. */
  lemma {:induction false} VersionIsLastChange(readSet: NodeId -> seq<string>, chain: seq<Snapshot>, ran: seq<seq<NodeId>>, c: string, k: nat)
    requires IsLineage(readSet, chain, ran) && k < |chain|
    ensures Version(chain[k].versions, c)
         == match LastChange(chain, c, k + 1) case None => None case Some(j) => Some(chain[j].id)
  {
    assert CommittedAt(readSet, chain, ran, k);
    if k > 0 {
      VersionIsLastChange(readSet, chain, ran, c, k - 1);
      if c !in chain[k - 1].versions {
        NeverPresent(chain, c, k);
      }
    }
  }

  lemma {:induction false} NeverPresent(chain: seq<Snapshot>, c: string, k: nat)
    requires k <= |chain| && LastChange(chain, c, k) == None
    ensures forall j :: 0 <= j < k ==> c !in chain[j].values
  {
    if k > 0 {
      NeverPresent(chain, c, k - 1);
      assert !Changed(chain, c, k - 1);
    }
  }

  /** The checkpoint that committed the node's last run, up to k. */
  function LastRun(ran: seq<seq<NodeId>>, n: NodeId, k: nat): (r: Option<nat>)
    requires k <= |ran|
    ensures r.Some? ==> r.value < k && n in ran[r.value]
    ensures forall j :: (if r.Some? then r.value + 1 else 0) <= j < k ==> n !in ran[j]
  {
    if k == 0 then None
    else if n in ran[k - 1] then Some(k - 1)
    else LastRun(ran, n, k - 1)
  }

  lemma {:induction false} SeenIsLastRun(readSet: NodeId -> seq<string>, chain: seq<Snapshot>, ran: seq<seq<NodeId>>, n: NodeId, k: nat)
    requires IsLineage(readSet, chain, ran) && k < |chain|
    ensures n in chain[k].seen <==> LastRun(ran, n, k + 1).Some?
    ensures n in chain[k].seen ==>
      var j := LastRun(ran, n, k + 1).value;
      chain[k].seen[n] == Observed(readSet(n), Parent(chain, j).versions)
  {
    assert CommittedAt(readSet, chain, ran, k);
    if k > 0 {
      SeenIsLastRun(readSet, chain, ran, n, k - 1);
    }
  }

  /**
    A channel-triggered node is dropped at checkpoint k exactly when it ran before and none of its trigger
    channels changed at any checkpoint after the one it last ran from.
  */
  lemma DroppedExactlyWhenStale(
    readSet: NodeId -> seq<string>, triggers: NodeId -> seq<string>, chain: seq<Snapshot>, ran: seq<seq<NodeId>>, n: NodeId, k: nat)
    requires IsLineage(readSet, chain, ran) && k < |chain|
    requires triggers(n) != [] && forall c :: c in triggers(n) ==> c in readSet(n)
    ensures !IsFresh(triggers, chain[k], n) <==>
              match LastRun(ran, n, k + 1)
              case None => false
              case Some(j) => forall c, m :: c in triggers(n) && j <= m <= k ==> !Changed(chain, c, m)
  {
    SeenIsLastRun(readSet, chain, ran, n, k);
    if n in chain[k].seen {
      var j := LastRun(ran, n, k + 1).value;
      forall c | c in triggers(n)
        ensures Version(chain[k].versions, c) == Version(chain[k].seen[n], c) <==> forall m :: j <= m <= k ==> !Changed(chain, c, m)
      {
        SameVersion(readSet, chain, ran, c, j, k);
      }
    }
  }

  /** Two checkpoints carry the same version of a channel exactly when it did not change in between. */
  lemma SameVersion(readSet: NodeId -> seq<string>, chain: seq<Snapshot>, ran: seq<seq<NodeId>>, c: string, j: nat, k: nat)
    requires IsLineage(readSet, chain, ran) && j <= k < |chain|
    ensures Version(chain[k].versions, c) == Version(Parent(chain, j).versions, c)
       <==> forall m :: j <= m <= k ==> !Changed(chain, c, m)
  {
    hide Changed, CommittedAt, LastChange;
    VersionBefore(readSet, chain, ran, c, j);
    VersionBefore(readSet, chain, ran, c, k + 1);
    if forall m :: j <= m <= k ==> !Changed(chain, c, m) {
      LastChangeStays(chain, c, j, k + 1);
    } else {
      var before, last := LastChange(chain, c, j), LastChange(chain, c, k + 1);
      assert last.Some? && last.value >= j;
    }
  }

  lemma VersionBefore(readSet: NodeId -> seq<string>, chain: seq<Snapshot>, ran: seq<seq<NodeId>>, c: string, j: nat)
    requires IsLineage(readSet, chain, ran) && j <= |chain|
    ensures Version(Parent(chain, j).versions, c)
         == match LastChange(chain, c, j) case None => None case Some(i) => Some(chain[i].id)
  {
    hide Changed, CommittedAt;
    if j > 0 {
      hide LastChange;
      VersionIsLastChange(readSet, chain, ran, c, j - 1);
    }
  }

  lemma {:induction false} LastChangeStays(chain: seq<Snapshot>, c: string, j: nat, k: nat)
    requires j <= k <= |chain| && forall m :: j <= m < k ==> !Changed(chain, c, m)
    ensures LastChange(chain, c, k) == LastChange(chain, c, j)
  {
    if j < k {
      LastChangeStays(chain, c, j, k - 1);
    }
  }
}
