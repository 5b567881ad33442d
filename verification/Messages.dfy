/** Merging message histories: replacement in place by ID, removals, and the marker that clears the history. */
module Messages {
  import opened Prelude

  type Content(==, !new)
  type Fault(==, !new)

  datatype Message = Text(id: string, content: Content) | Removal(id: string)

  const REMOVE_ALL := "__remove_all__"

  datatype MergeError = GeneratorFailed(fault: Fault) | EmptyId | MessageNotFound(id: string)

  /** The generator: what its n-th call returns. */
  type Generator = nat -> Result<string, Fault>

  function Draw(ids: Generator, n: nat): Result<string, MergeError>
  {
    match ids(n)
    case Err(fault) => Err(GeneratorFailed(fault))
    case Ok(id) => if id == "" then Err(EmptyId) else Ok(id)
  }

  // ----- Identities -----

  /** Missing IDs are drawn from `ids`, starting with number `next`. */
  function Normalized(messages: seq<Message>, ids: Generator, next: nat): Result<(seq<Message>, nat), MergeError>
  {
    if messages == [] then Ok(([], next))
    else
      match Normalized(messages[..|messages| - 1], ids, next)
      case Err(e) => Err(e)
      case Ok((before, n)) =>
        var last := messages[|messages| - 1];
        if last.id != "" then Ok((before + [last], n))
        else match Draw(ids, n)
          case Err(e) => Err(e)
          case Ok(id) => Ok((before + [last.(id := id)], n + 1))
  }

  lemma {:induction false} NormalizedKeeps(messages: seq<Message>, ids: Generator, next: nat)
    requires Normalized(messages, ids, next).Ok?
    ensures var r := Normalized(messages, ids, next).value.0;
            && |r| == |messages|
            && forall i :: 0 <= i < |r| ==> r[i].id != "" && r[i] == messages[i].(id := r[i].id) && (messages[i].id != "" ==> r[i] == messages[i])
  {
    if messages != [] {
      NormalizedKeeps(messages[..|messages| - 1], ids, next);
    }
  }

  ghost predicate Identified(messages: seq<Message>)
  {
    forall i :: 0 <= i < |messages| ==> messages[i].id != ""
  }

  lemma NormalizedStep(messages: seq<Message>, ids: Generator, next: nat)
    requires messages != [] && Identified(messages) && Normalized(messages[..|messages| - 1], ids, next).Ok?
    ensures var before := Normalized(messages[..|messages| - 1], ids, next).value;
            Normalized(messages, ids, next) == Ok((before.0 + [messages[|messages| - 1]], before.1))
  {
    assert messages[|messages| - 1].id != "";
  }

  lemma NormalizedNothing(ids: Generator, next: nat)
    ensures Normalized([], ids, next) == Ok(([], next))
  {
  }

  lemma IdentifiedInit(messages: seq<Message>)
    requires Identified(messages) && messages != []
    ensures Identified(messages[..|messages| - 1])
  {
  }

  lemma {:induction false} NormalizedIdentified(messages: seq<Message>, ids: Generator, next: nat)
    requires Identified(messages)
    ensures Normalized(messages, ids, next) == Ok((messages, next))
  {
    hide Normalized, Identified;
    if messages == [] {
      NormalizedNothing(ids, next);
    } else {
      var init, last := messages[..|messages| - 1], messages[|messages| - 1];
      IdentifiedInit(messages);
      NormalizedIdentified(init, ids, next);
      NormalizedStep(messages, ids, next);
      assert init + [last] == messages;
    }
  }

  // ----- The merge -----

  /** The history under construction: replaced messages keep their place, removed ones stay until the end. */
  datatype Draft = Draft(merged: seq<Message>, removed: set<string>)

  function LastIndex(messages: seq<Message>, id: string): (r: Option<nat>)
    ensures r.Some? ==> r.value < |messages| && messages[r.value].id == id
    ensures r.None? <==> forall i :: 0 <= i < |messages| ==> messages[i].id != id
  {
    if messages == [] then None
    else if messages[|messages| - 1].id == id then Some(|messages| - 1)
    else LastIndex(messages[..|messages| - 1], id)
  }

  function MergeOne(d: Draft, m: Message): Result<Draft, MergeError>
  {
    match LastIndex(d.merged, m.id)
    case Some(i) =>
      if m.Removal? then Ok(d.(removed := d.removed + {m.id}))
      else Ok(Draft(d.merged[i := m], d.removed - {m.id}))
    case None =>
      if m.Removal? then Err(MessageNotFound(m.id)) else Ok(d.(merged := d.merged + [m]))
  }

  function MergeAll(d: Draft, right: seq<Message>): Result<Draft, MergeError>
  {
    if right == [] then Ok(d)
    else match MergeAll(d, right[..|right| - 1])
      case Err(e) => Err(e)
      case Ok(before) => MergeOne(before, right[|right| - 1])
  }

  function Without(messages: seq<Message>, removed: set<string>): seq<Message>
  {
    if messages == [] then []
    else
      var before, last := Without(messages[..|messages| - 1], removed), messages[|messages| - 1];
      if last.id in removed then before else before + [last]
  }

  /** The number of messages up to and including the last clearing marker. */
  function ClearedThrough(right: seq<Message>): (n: nat)
    ensures n <= |right| && (n > 0 ==> right[n - 1] == Removal(REMOVE_ALL))
    ensures forall i :: n <= i < |right| ==> right[i] != Removal(REMOVE_ALL)
  {
    if right == [] then 0
    else if right[|right| - 1] == Removal(REMOVE_ALL) then |right|
    else ClearedThrough(right[..|right| - 1])
  }

  /** AddMessages on histories whose messages all have IDs. */
  function Merged(left: seq<Message>, right: seq<Message>): Result<seq<Message>, MergeError>
  {
    if ClearedThrough(right) > 0 then Ok(right[ClearedThrough(right)..])
    else match MergeAll(Draft(left, {}), right)
      case Err(e) => Err(e)
      case Ok(d) => Ok(Without(d.merged, d.removed))
  }

  method NormalizeMessages(messages: seq<Message>, ids: Generator, next: nat) returns (r: Result<(seq<Message>, nat), MergeError>)
    ensures r == Normalized(messages, ids, next)
  {
    var result, n := [], next;
    for i := 0 to |messages|
      invariant Normalized(messages[..i], ids, next) == Ok((result, n))
    {
      assert messages[..i + 1][..i] == messages[..i];
      if messages[i].id == "" {
        var drawn := Draw(ids, n);
        if drawn.Err? {
          NormalizeFails(messages, ids, next, i + 1);
          return Err(drawn.error);
        }
        result, n := result + [messages[i].(id := drawn.value)], n + 1;
      } else {
        result := result + [messages[i]];
      }
    }
    assert messages[..|messages|] == messages;
    return Ok((result, n));
  }

  lemma {:induction false} NormalizeFails(messages: seq<Message>, ids: Generator, next: nat, n: nat)
    requires n <= |messages| && Normalized(messages[..n], ids, next).Err?
    ensures Normalized(messages, ids, next) == Normalized(messages[..n], ids, next)
    decreases |messages| - n
  {
    if n == |messages| {
      assert messages[..n] == messages;
    } else {
      assert messages[..n + 1][..n] == messages[..n];
      NormalizeFails(messages, ids, next, n + 1);
    }
  }

  /** The index of the source: where each ID was last seen. */
  ghost predicate Indexes(byId: map<string, nat>, messages: seq<Message>)
  {
    forall id :: LastIndex(messages, id) == if id in byId then Some(byId[id]) else None
  }

  method IndexById(messages: seq<Message>) returns (byId: map<string, nat>)
    ensures Indexes(byId, messages)
  {
    byId := map[];
    for i := 0 to |messages|
      invariant Indexes(byId, messages[..i])
    {
      assert messages[..i + 1][..i] == messages[..i];
      forall id ensures LastIndex(messages[..i + 1], id) == if id == messages[i].id then Some(i) else LastIndex(messages[..i], id) {}
      byId := byId[messages[i].id := i];
    }
    assert messages[..|messages|] == messages;
  }

  lemma ReplaceIndexes(byId: map<string, nat>, messages: seq<Message>, m: Message)
    requires Indexes(byId, messages) && m.id in byId
    ensures byId[m.id] < |messages| && Indexes(byId, messages[byId[m.id] := m])
  {
    var i := byId[m.id];
    assert LastIndex(messages, m.id) == Some(i);
    forall id ensures LastIndex(messages[i := m], id) == LastIndex(messages, id) {
      SameIds(messages, messages[i := m], id);
    }
  }

  lemma {:induction false} SameIds(a: seq<Message>, b: seq<Message>, id: string)
    requires |a| == |b| && forall i :: 0 <= i < |a| ==> a[i].id == b[i].id
    ensures LastIndex(a, id) == LastIndex(b, id)
  {
    if a != [] && a[|a| - 1].id != id {
      SameIds(a[..|a| - 1], b[..|b| - 1], id);
    }
  }

  lemma AppendIndexes(byId: map<string, nat>, messages: seq<Message>, m: Message)
    requires Indexes(byId, messages)
    ensures Indexes(byId[m.id := |messages|], messages + [m])
  {
    assert (messages + [m])[..|messages|] == messages;
  }

  method FindMarker(right: seq<Message>) returns (clear: nat)
    ensures clear == ClearedThrough(right)
  {
    clear := 0;
    for i := 0 to |right|
      invariant clear == ClearedThrough(right[..i])
    {
      assert right[..i + 1][..i] == right[..i];
      if right[i] == Removal(REMOVE_ALL) { clear := i + 1; }
    }
    assert right[..|right|] == right;
  }

  /** One message of the right side, against the index. */
  method PlaceOne(merged: seq<Message>, byId: map<string, nat>, removed: set<string>, m: Message)
    returns (r: Result<Draft, MergeError>, index: map<string, nat>)
    requires Indexes(byId, merged)
    ensures r == MergeOne(Draft(merged, removed), m)
    ensures r.Ok? ==> Indexes(index, r.value.merged)
  {
    index := byId;
    assert LastIndex(merged, m.id) == if m.id in byId then Some(byId[m.id]) else None;
    hide Indexes;
    if m.id in byId {
      if m.Removal? { return Ok(Draft(merged, removed + {m.id})), index; }
      ReplaceIndexes(byId, merged, m);
      return Ok(Draft(merged[byId[m.id] := m], removed - {m.id})), index;
    }
    if m.Removal? { return Err(MessageNotFound(m.id)), index; }
    AppendIndexes(byId, merged, m);
    index := byId[m.id := |merged|];
    return Ok(Draft(merged + [m], removed)), index;
  }

  method Place(left: seq<Message>, right: seq<Message>) returns (r: Result<Draft, MergeError>)
    ensures r == MergeAll(Draft(left, {}), right)
  {
    hide Indexes, MergeOne, LastIndex;
    var d := Draft(left, {});
    var byId := IndexById(left);
    for i := 0 to |right|
      invariant Indexes(byId, d.merged) && MergeAll(Draft(left, {}), right[..i]) == Ok(d)
    {
      assert right[..i + 1][..i] == right[..i];
      var placed, index := PlaceOne(d.merged, byId, d.removed, right[i]);
      if placed.Err? {
        MergeFails(Draft(left, {}), right, i + 1);
        return Err(placed.error);
      }
      d, byId := placed.value, index;
    }
    assert right[..|right|] == right;
    return Ok(d);
  }

  method DropRemoved(merged: seq<Message>, removed: set<string>) returns (result: seq<Message>)
    ensures result == Without(merged, removed)
  {
    result := [];
    for i := 0 to |merged|
      invariant result == Without(merged[..i], removed)
    {
      assert merged[..i + 1][..i] == merged[..i];
      if merged[i].id !in removed { result := result + [merged[i]]; }
    }
    assert merged[..|merged|] == merged;
  }

  /** The loops of AddMessages over identified histories. */
  method AddIdentified(left: seq<Message>, right: seq<Message>) returns (r: Result<seq<Message>, MergeError>)
    ensures r == Merged(left, right)
  {
    hide MergeAll, Without;
    var clear := FindMarker(right);
    if clear > 0 { return Ok(right[clear..]); }
    var placed := Place(left, right);
    if placed.Err? { return Err(placed.error); }
    var result := DropRemoved(placed.value.merged, placed.value.removed);
    return Ok(result);
  }

  lemma {:induction false} MergeFails(d: Draft, right: seq<Message>, n: nat)
    requires n <= |right| && MergeAll(d, right[..n]).Err?
    ensures MergeAll(d, right) == MergeAll(d, right[..n])
    decreases |right| - n
  {
    if n == |right| {
      assert right[..n] == right;
    } else {
      assert right[..n + 1][..n] == right[..n];
      MergeFails(d, right, n + 1);
    }
  }

  /** Identities for the left history first, then for the right one, then the merge. */
  function Added(left: seq<Message>, right: seq<Message>, ids: Generator): Result<seq<Message>, MergeError>
  {
    match Normalized(left, ids, 0)
    case Err(e) => Err(e)
    case Ok(l) =>
      match Normalized(right, ids, l.1)
      case Err(e) => Err(e)
      case Ok(x) => Merged(l.0, x.0)
  }

  method AddMessages(left: seq<Message>, right: seq<Message>, ids: Generator) returns (r: Result<seq<Message>, MergeError>)
    ensures r == Added(left, right, ids)
    ensures Identified(left) && Identified(right) ==> r == Merged(left, right)
  {
    if Identified(left) && Identified(right) {
      NormalizedIdentified(left, ids, 0);
      NormalizedIdentified(right, ids, 0);
    }
    var l := NormalizeMessages(left, ids, 0);
    if l.Err? { return Err(l.error); }
    var x := NormalizeMessages(right, ids, l.value.1);
    if x.Err? { return Err(x.error); }
    r := AddIdentified(l.value.0, x.value.0);
  }
}
