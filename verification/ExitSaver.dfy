/**
  The exit saver buffers every checkpoint of a run and, on Flush, publishes one boundary
  per namespace. The buffer is specified by the sequence of calls it accepted.
*/
module ExitSaver {
  import opened Prelude
  import opened Versions
  import opened Blobs

  type Write(==, !new)
  type Rest(==, !new)

  /** A thread and a namespace in it. */
  type Scope = (string, string)

  /** A checkpoint: its channels, and everything else it holds. */
  datatype Draft = Draft(snap: Snapshot, rest: Rest)

  datatype Call =
    | Put(scope: Scope, parent: Option<Id>, draft: Draft)
    | PutWrites(scope: Scope, id: Id, writes: seq<Write>)

  // ----- What a sequence of calls means -----

  /** The drafts put in a namespace, in order. */
  function Drafts(calls: seq<Call>, scope: Scope): seq<Draft>
  {
    if calls == [] then []
    else
      var before, last := Drafts(calls[..|calls| - 1], scope), calls[|calls| - 1];
      if last.Put? && last.scope == scope then before + [last.draft] else before
  }

  function FirstParent(calls: seq<Call>, scope: Scope): Option<Option<Id>>
  {
    if calls == [] then None
    else
      var before, last := FirstParent(calls[..|calls| - 1], scope), calls[|calls| - 1];
      if before.None? && last.Put? && last.scope == scope then Some(last.parent) else before
  }

  function DraftAt(calls: seq<Call>, scope: Scope, id: Id): Option<Draft>
  {
    if calls == [] then None
    else
      var last := calls[|calls| - 1];
      if last.Put? && last.scope == scope && last.draft.snap.id == id then Some(last.draft)
      else DraftAt(calls[..|calls| - 1], scope, id)
  }

  function WritesTo(calls: seq<Call>, scope: Scope, id: Id): seq<Write>
  {
    if calls == [] then []
    else
      var before, last := WritesTo(calls[..|calls| - 1], scope, id), calls[|calls| - 1];
      if last.PutWrites? && last.scope == scope && last.id == id then before + last.writes else before
  }

  /** The namespaces in the order of their first draft. */
  function Scopes(calls: seq<Call>): seq<Scope>
  {
    if calls == [] then []
    else
      var before, last := Scopes(calls[..|calls| - 1]), calls[|calls| - 1];
      if last.Put? && last.scope !in before then before + [last.scope] else before
  }

  lemma {:induction false} ScopesMeaning(calls: seq<Call>, scope: Scope)
    ensures scope in Scopes(calls) <==> Drafts(calls, scope) != []
    ensures scope in Scopes(calls) <==> FirstParent(calls, scope).Some?
  {
    if calls != [] {
      ScopesMeaning(calls[..|calls| - 1], scope);
    }
  }

  lemma {:induction false} ScopesDistinct(calls: seq<Call>)
    ensures forall i, j :: 0 <= i < j < |Scopes(calls)| ==> Scopes(calls)[i] != Scopes(calls)[j]
  {
    if calls != [] {
      ScopesDistinct(calls[..|calls| - 1]);
    }
  }

  // ----- The underlying store -----

  datatype BaseCall =
    | BasePut(scope: Scope, parent: Option<Id>, draft: Draft, newVersions: map<string, Id>)
    | BaseWrites(scope: Scope, id: Id, writes: seq<Write>)

  datatype FlushError = NotFound | BaseFailed

  /** The base store: what it can be asked for, and the calls it accepted. */
  class Base {
    var tuples: map<(Scope, Id), Snapshot>
    var log: seq<BaseCall>

    constructor ()
      ensures tuples == map[] && log == []
    {
      tuples, log := map[], [];
    }

    method Put(scope: Scope, parent: Option<Id>, draft: Draft, newVersions: map<string, Id>, fails: bool) returns (ok: bool)
      modifies this
      ensures ok == !fails
      ensures !ok ==> tuples == old(tuples) && log == old(log)
      ensures ok ==> log == old(log) + [BasePut(scope, parent, draft, newVersions)]
      ensures ok ==> tuples == old(tuples)[(scope, draft.snap.id) := draft.snap]
    {
      ok := !fails;
      if ok {
        log := log + [BasePut(scope, parent, draft, newVersions)];
        tuples := tuples[(scope, draft.snap.id) := draft.snap];
      }
    }

    method PutWrites(scope: Scope, id: Id, writes: seq<Write>, fails: bool) returns (ok: bool)
      modifies this`log
      ensures ok == !fails
      ensures log == if ok then old(log) + [BaseWrites(scope, id, writes)] else old(log)
    {
      ok := !fails;
      if ok {
        log := log + [BaseWrites(scope, id, writes)];
      }
    }
  }

  /** The versions of the checkpoint the first draft of a namespace was parented at. */
  function BaseVersions(tuples: map<(Scope, Id), Snapshot>, scope: Scope, parent: Option<Id>): Option<map<string, Id>>
  {
    match parent
    case None => Some(map[])
    case Some(id) => if (scope, id) in tuples then Some(tuples[(scope, id)].versions) else None
  }

  /** What Flush publishes for one namespace: its last draft, at the first draft's parent, with its own writes. */
  function Boundary(tuples: map<(Scope, Id), Snapshot>, calls: seq<Call>, scope: Scope): (r: Option<seq<BaseCall>>)
    requires scope in Scopes(calls)
  {
    ScopesMeaning(calls, scope);
    var parent := FirstParent(calls, scope).value;
    var drafts := Drafts(calls, scope);
    var last := drafts[|drafts| - 1];
    var writes := WritesTo(calls, scope, last.snap.id);
    match BaseVersions(tuples, scope, parent)
    case None => None
    case Some(versions) =>
      Some([BasePut(scope, parent, last, Differing(versions, last.snap.versions))]
        + if writes == [] then [] else [BaseWrites(scope, last.snap.id, writes)])
  }

  /** The boundaries of the namespaces from number i on, the newest namespace first. */
  function Boundaries(tuples: map<(Scope, Id), Snapshot>, calls: seq<Call>, i: nat): Option<seq<BaseCall>>
    requires i <= |Scopes(calls)|
    decreases |Scopes(calls)| - i
  {
    if i == |Scopes(calls)| then Some([])
    else
      match (Boundaries(tuples, calls, i + 1), Boundary(tuples, calls, Scopes(calls)[i]))
      case (Some(before), Some(own)) => Some(before + own)
      case _ => None
  }

  // ----- The buffer and the calls it stands for -----

  ghost predicate ParentsShow(calls: seq<Call>, baseParent: map<Scope, Option<Id>>, scopeOrder: seq<Scope>)
  {
    && scopeOrder == Scopes(calls)
    && forall s: Scope :: FirstParent(calls, s) == if s in baseParent then Some(baseParent[s]) else None
  }

  ghost predicate DraftsShow(calls: seq<Call>, drafts: map<(Scope, Id), Draft>)
  {
    forall s: Scope, i: Id :: DraftAt(calls, s, i) == if (s, i) in drafts then Some(drafts[(s, i)]) else None
  }

  ghost predicate WritesShow(calls: seq<Call>, writes: map<(Scope, Id), seq<Write>>)
  {
    forall s: Scope, i: Id :: WritesTo(calls, s, i) == if (s, i) in writes then writes[(s, i)] else []
  }

  ghost predicate LatestShows(calls: seq<Call>, latest: map<Scope, Id>)
  {
    forall s: Scope :: Drafts(calls, s) != [] ==> s in latest && latest[s] == Drafts(calls, s)[|Drafts(calls, s)| - 1].snap.id
  }

  lemma PutParents(calls: seq<Call>, call: Call, baseParent: map<Scope, Option<Id>>, scopeOrder: seq<Scope>)
    requires ParentsShow(calls, baseParent, scopeOrder)
    ensures call.Put? && call.scope in baseParent ==> ParentsShow(calls + [call], baseParent, scopeOrder)
    ensures call.Put? && call.scope !in baseParent ==>
      ParentsShow(calls + [call], baseParent[call.scope := call.parent], scopeOrder + [call.scope])
    ensures call.PutWrites? ==> ParentsShow(calls + [call], baseParent, scopeOrder)
  {
    assert (calls + [call])[..|calls|] == calls;
    ScopesMeaning(calls, call.scope);
    assert FirstParent(calls, call.scope) == if call.scope in baseParent then Some(baseParent[call.scope]) else None;
  }

  lemma PutDrafts(calls: seq<Call>, call: Call, drafts: map<(Scope, Id), Draft>)
    requires DraftsShow(calls, drafts)
    ensures DraftsShow(calls + [call], if call.Put? then drafts[(call.scope, call.draft.snap.id) := call.draft] else drafts)
  {
    assert (calls + [call])[..|calls|] == calls;
  }

  lemma PutWritesOf(calls: seq<Call>, call: Call, writes: map<(Scope, Id), seq<Write>>)
    requires WritesShow(calls, writes)
    ensures call.Put? ==> WritesShow(calls + [call], writes)
    ensures call.PutWrites? ==>
      var key := (call.scope, call.id);
      WritesShow(calls + [call], writes[key := (if key in writes then writes[key] else []) + call.writes])
  {
    assert (calls + [call])[..|calls|] == calls;
    forall s: Scope, i: Id ensures WritesTo(calls, s, i) == if (s, i) in writes then writes[(s, i)] else [] {}
  }

  lemma PutLatest(calls: seq<Call>, call: Call, latest: map<Scope, Id>)
    requires LatestShows(calls, latest)
    ensures LatestShows(calls + [call], if call.Put? then latest[call.scope := call.draft.snap.id] else latest)
  {
    assert (calls + [call])[..|calls|] == calls;
  }

  /** The draft stored under the newest ID of a namespace is its last draft. */
  lemma {:induction false} LastDraft(calls: seq<Call>, scope: Scope)
    requires Drafts(calls, scope) != []
    ensures var last := Drafts(calls, scope)[|Drafts(calls, scope)| - 1];
            DraftAt(calls, scope, last.snap.id) == Some(last)
  {
    var last := calls[|calls| - 1];
    if !(last.Put? && last.scope == scope) {
      LastDraft(calls[..|calls| - 1], scope);
    }
  }

  lemma ShownParent(calls: seq<Call>, baseParent: map<Scope, Option<Id>>, scopeOrder: seq<Scope>, scope: Scope)
    requires ParentsShow(calls, baseParent, scopeOrder) && scope in Scopes(calls)
    ensures Drafts(calls, scope) != [] && scope in baseParent && FirstParent(calls, scope) == Some(baseParent[scope])
  {
    ScopesMeaning(calls, scope);
  }

  lemma {:induction false} NoDrafts(calls: seq<Call>, scope: Scope)
    ensures Drafts(calls, scope) == [] ==> forall id :: DraftAt(calls, scope, id) == None
  {
    if calls != [] {
      NoDrafts(calls[..|calls| - 1], scope);
    }
  }

  lemma ShownDraft(calls: seq<Call>, drafts: map<(Scope, Id), Draft>, latest: map<Scope, Id>, scope: Scope)
    requires DraftsShow(calls, drafts) && LatestShows(calls, latest) && Drafts(calls, scope) != []
    ensures var last := Drafts(calls, scope)[|Drafts(calls, scope)| - 1];
            && scope in latest && latest[scope] == last.snap.id
            && (scope, latest[scope]) in drafts && drafts[(scope, latest[scope])] == last
  {
    LastDraft(calls, scope);
  }

  lemma ShownWrites(calls: seq<Call>, writes: map<(Scope, Id), seq<Write>>, scope: Scope, id: Id)
    requires WritesShow(calls, writes)
    ensures WritesTo(calls, scope, id) == if (scope, id) in writes then writes[(scope, id)] else []
  {
  }

  lemma ShownAt(calls: seq<Call>, drafts: map<(Scope, Id), Draft>, scope: Scope, id: Id)
    requires DraftsShow(calls, drafts)
    ensures DraftAt(calls, scope, id) == if (scope, id) in drafts then Some(drafts[(scope, id)]) else None
  {
  }

  lemma ShownNone(calls: seq<Call>, drafts: map<(Scope, Id), Draft>, scope: Scope, id: Id)
    requires DraftsShow(calls, drafts) && Drafts(calls, scope) == []
    ensures (scope, id) !in drafts
  {
    hide DraftsShow;
    NoDrafts(calls, scope);
    ShownAt(calls, drafts, scope, id);
  }

  class ExitBuffer {
    var drafts: map<(Scope, Id), Draft>
    var writes: map<(Scope, Id), seq<Write>>
    var latest: map<Scope, Id>
    var baseParent: map<Scope, Option<Id>>
    var scopeOrder: seq<Scope>
    var flushed: bool
    ghost var calls: seq<Call>

    ghost predicate Valid()
      reads this
    {
      ParentsShow(calls, baseParent, scopeOrder) && DraftsShow(calls, drafts) && WritesShow(calls, writes) && LatestShows(calls, latest)
    }

    constructor ()
      ensures Valid() && calls == [] && !flushed
    {
      drafts, writes, latest, baseParent, scopeOrder, flushed, calls := map[], map[], map[], map[], [], false, [];
    }

    method Put(scope: Scope, parent: Option<Id>, draft: Draft) returns (ok: bool)
      requires Valid()
      modifies this
      ensures Valid() && flushed == old(flushed) && ok == !flushed
      ensures calls == if ok then old(calls) + [Call.Put(scope, parent, draft)] else old(calls)
    {
      hide ParentsShow, DraftsShow, WritesShow, LatestShows;
      if flushed { return false; }
      ghost var call := Call.Put(scope, parent, draft);
      PutParents(calls, call, baseParent, scopeOrder);
      PutDrafts(calls, call, drafts);
      PutWritesOf(calls, call, writes);
      PutLatest(calls, call, latest);
      if scope !in baseParent {
        baseParent := baseParent[scope := parent];
        scopeOrder := scopeOrder + [scope];
      }
      drafts := drafts[(scope, draft.snap.id) := draft];
      latest := latest[scope := draft.snap.id];
      calls := calls + [call];
      return true;
    }

    method PutWrites(scope: Scope, id: Id, more: seq<Write>) returns (ok: bool)
      requires Valid()
      modifies this
      ensures Valid() && flushed == old(flushed) && ok == !flushed
      ensures calls == if ok then old(calls) + [Call.PutWrites(scope, id, more)] else old(calls)
    {
      hide ParentsShow, DraftsShow, WritesShow, LatestShows;
      if flushed { return false; }
      ghost var call := Call.PutWrites(scope, id, more);
      PutParents(calls, call, baseParent, scopeOrder);
      PutDrafts(calls, call, drafts);
      PutWritesOf(calls, call, writes);
      PutLatest(calls, call, latest);
      var key := (scope, id);
      writes := writes[key := (if key in writes then writes[key] else []) + more];
      calls := calls + [call];
      return true;
    }

    /** A draft of this run reads back with every write addressed to it; others come from the base. */
    method GetTuple(scope: Scope, id: Option<Id>) returns (r: Option<(Draft, seq<Write>)>)
      requires Valid()
      ensures id.Some? ==> r == match DraftAt(calls, scope, id.value)
                                case None => None
                                case Some(draft) => Some((draft, WritesTo(calls, scope, id.value)))
      ensures id.None? && Drafts(calls, scope) != [] ==>
        var last := Drafts(calls, scope)[|Drafts(calls, scope)| - 1];
        r == Some((last, WritesTo(calls, scope, last.snap.id)))
      ensures id.None? && Drafts(calls, scope) == [] ==> r == None
    {
      hide ParentsShow, DraftsShow, WritesShow, LatestShows, Drafts, DraftAt, WritesTo;
      if id.None? {
        if Drafts(calls, scope) != [] { ShownDraft(calls, drafts, latest, scope); }
        if scope !in latest { return None; }
        if Drafts(calls, scope) == [] { ShownNone(calls, drafts, scope, latest[scope]); }
      }
      var key := (scope, if id.Some? then id.value else latest[scope]);
      ShownAt(calls, drafts, scope, key.1);
      ShownWrites(calls, writes, scope, key.1);
      if key !in drafts { return None; }
      return Some((drafts[key], if key in writes then writes[key] else []));
    }

    /** The pieces of one boundary, read from the buffer. */
    method Collect(scope: Scope) returns (parent: Option<Id>, draft: Draft, pending: seq<Write>)
      requires Valid() && scope in Scopes(calls)
      ensures FirstParent(calls, scope) == Some(parent)
      ensures Drafts(calls, scope) != [] && draft == Drafts(calls, scope)[|Drafts(calls, scope)| - 1]
      ensures pending == WritesTo(calls, scope, draft.snap.id)
    {
      hide ParentsShow, DraftsShow, WritesShow, LatestShows, Drafts, FirstParent, WritesTo, Scopes;
      ShownParent(calls, baseParent, scopeOrder, scope);
      ShownDraft(calls, drafts, latest, scope);
      var key := (scope, latest[scope]);
      ShownWrites(calls, writes, scope, latest[scope]);
      parent, draft := baseParent[scope], drafts[key];
      pending := if key in writes then writes[key] else [];
    }

    /** One boundary: an error before or after its Put leaves at most the Put behind. */
    method Publish(base: Base, scope: Scope, fails: nat -> bool, first: nat) returns (r: Result<Id, FlushError>)
      requires Valid() && scope in Scopes(calls)
      modifies base
      ensures r.Ok? ==>
        var own := Boundary(old(base.tuples), calls, scope);
        own.Some? && base.log == old(base.log) + own.value
      ensures r.Err? ==> base.log == old(base.log) || PutPublished(old(base.tuples), calls, scope, old(base.log), base.log)
      ensures forall s: Scope :: s != scope ==> Agree(old(base.tuples), base.tuples, s)
    {
      hide Drafts, WritesTo, FirstParent, Scopes, ParentsShow, DraftsShow, WritesShow, LatestShows, Differing;
      var parent, draft, pending := Collect(scope);
      var versions := BaseVersions(base.tuples, scope, parent);
      if versions.None? { return Err(NotFound); }
      var newVersions := Differing(versions.value, draft.snap.versions);
      var ok := base.Put(scope, parent, draft, newVersions, fails(first));
      if !ok { return Err(BaseFailed); }
      if pending != [] {
        ok := base.PutWrites(scope, draft.snap.id, pending, fails(first + 1));
        if !ok { return Err(BaseFailed); }
      }
      return Ok(draft.snap.id);
    }

    /**
      Publishes the boundaries, the newest namespace first. A success publishes all of them, an error a prefix,
      and a second Flush does nothing. `fails` says which calls of the base fail.
    */
    method Flush(base: Base, fails: nat -> bool) returns (r: Result<Option<(Scope, Id)>, FlushError>)
      requires Valid()
      modifies this, base
      ensures Valid() && flushed && calls == old(calls)
      ensures old(flushed) ==> r == Ok(None) && base.log == old(base.log) && base.tuples == old(base.tuples)
      ensures !old(flushed) && r.Ok? ==>
        var all := Boundaries(old(base.tuples), calls, 0);
        all.Some? && base.log == old(base.log) + all.value
      ensures r.Err? ==> exists i: nat :: i < |Scopes(calls)| && StoppedAt(old(base.tuples), calls, i, old(base.log), base.log)
    {
      hide Drafts, WritesTo, FirstParent, Scopes, DraftsShow, WritesShow, LatestShows, Boundary, PutPublished;
      if flushed { return Ok(None); }
      flushed := true;
      ghost var tuples, log := base.tuples, base.log;
      r := Ok(None);
      var i := |scopeOrder|;
      ScopesDistinct(calls);
      while i > 0
        invariant 0 <= i <= |scopeOrder| && Valid() && flushed && calls == old(calls) && r.Ok?
        invariant scopeOrder == Scopes(calls)
        invariant Boundaries(tuples, calls, i).Some? && base.log == log + Boundaries(tuples, calls, i).value
        invariant forall j :: 0 <= j < i ==> Agree(tuples, base.tuples, scopeOrder[j])
      {
        i := i - 1;
        ghost var before := base.tuples;
        BoundaryLocal(tuples, base.tuples, calls, scopeOrder[i]);
        var published := Publish(base, scopeOrder[i], fails, 2 * i);
        if published.Err? {
          assert StoppedAt(tuples, calls, i, log, base.log);
          return Err(published.error);
        }
        assert log + Boundaries(tuples, calls, i + 1).value + Boundary(tuples, calls, scopeOrder[i]).value
            == log + (Boundaries(tuples, calls, i + 1).value + Boundary(tuples, calls, scopeOrder[i]).value);
        forall j | 0 <= j < i ensures Agree(tuples, base.tuples, scopeOrder[j]) {
          assert scopeOrder[j] != scopeOrder[i] && Agree(before, base.tuples, scopeOrder[j]);
        }
        r := Ok(Some((scopeOrder[i], published.value)));
      }
    }
  }

  // ----- Flush under failures -----

  ghost predicate Agree(t: map<(Scope, Id), Snapshot>, t': map<(Scope, Id), Snapshot>, scope: Scope)
  {
    forall id: Id :: ((scope, id) in t <==> (scope, id) in t') && ((scope, id) in t ==> t[(scope, id)] == t'[(scope, id)])
  }

  lemma BoundaryLocal(t: map<(Scope, Id), Snapshot>, t': map<(Scope, Id), Snapshot>, calls: seq<Call>, scope: Scope)
    requires scope in Scopes(calls) && Agree(t, t', scope)
    ensures Boundary(t, calls, scope) == Boundary(t', calls, scope)
    ensures forall log, log' :: PutPublished(t, calls, scope, log, log') == PutPublished(t', calls, scope, log, log')
  {
  }

  /** Only the Put of a boundary reached the base. */
  ghost predicate PutPublished(t: map<(Scope, Id), Snapshot>, calls: seq<Call>, scope: Scope, log: seq<BaseCall>, log': seq<BaseCall>)
    requires scope in Scopes(calls)
  {
    Boundary(t, calls, scope).Some? && log' == log + Boundary(t, calls, scope).value[..1]
  }

  /** The boundaries after namespace i are complete; that of namespace i is missing or lacks its writes. */
  ghost predicate StoppedAt(t: map<(Scope, Id), Snapshot>, calls: seq<Call>, i: nat, log: seq<BaseCall>, log': seq<BaseCall>)
    requires i < |Scopes(calls)|
  {
    && Boundaries(t, calls, i + 1).Some?
    && var done := log + Boundaries(t, calls, i + 1).value;
       log' == done || PutPublished(t, calls, Scopes(calls)[i], done, log')
  }

  // ----- What a boundary contains -----

  function Snaps(drafts: seq<Draft>): seq<Snapshot>
  {
    seq(|drafts|, i requires 0 <= i < |drafts| => drafts[i].snap)
  }

  /** The checkpoint a namespace's drafts start from; a new namespace starts from nothing. */
  function Origin(tuples: map<(Scope, Id), Snapshot>, scope: Scope, parent: Option<Id>): Snapshot
  {
    if parent.Some? && (scope, parent.value) in tuples then tuples[(scope, parent.value)] else EMPTY
  }

  /**
    When the drafts of a namespace form a chain on the base checkpoint, the boundary is the last draft parented
    where the chain began; its new versions name exactly the channels some draft reported; a store that held
    the base checkpoint can then read the published one back; and the writes are those addressed to it.
  */
  lemma BoundaryPublishesChain(tuples: map<(Scope, Id), Snapshot>, calls: seq<Call>, scope: Scope, blobs: BlobMap, c: string)
    requires scope in Scopes(calls) && Boundary(tuples, calls, scope).Some? && FirstParent(calls, scope).Some?
    requires var origin := Origin(tuples, scope, FirstParent(calls, scope).value);
             IsDraftChain(origin, Snaps(Drafts(calls, scope))) && Holds(blobs, origin)
    ensures var own, drafts := Boundary(tuples, calls, scope).value, Drafts(calls, scope);
            var origin := Origin(tuples, scope, FirstParent(calls, scope).value);
            && drafts != [] && own != [] && own[0].BasePut?
            && own[0].parent == FirstParent(calls, scope).value && own[0].draft == drafts[|drafts| - 1]
            && (c in own[0].newVersions <==> ReportedBefore(origin, Snaps(drafts), c, |drafts|))
            && Load(PutBlobs(blobs, own[0].draft.snap.values, own[0].newVersions), own[0].draft.snap.versions) == own[0].draft.snap.values
            && var writes := WritesTo(calls, scope, own[0].draft.snap.id);
               own[1..] == if writes == [] then [] else [BaseWrites(scope, own[0].draft.snap.id, writes)]
  {
    hide IsDraftChain, Holds, ReportedBefore, PutBlobs, Load, Differing, Drafts, FirstParent, WritesTo, Scopes;
    ScopesMeaning(calls, scope);
    var drafts := Drafts(calls, scope);
    var origin := Origin(tuples, scope, FirstParent(calls, scope).value);
    DifferingIsReported(origin, Snaps(drafts), c);
    LastDraftLoads(blobs, origin, Snaps(drafts));
  }
}
