/**
  Resuming a thread whose pending interrupts are spread over a root checkpoint and the
  child checkpoints its subgraph controls point to.
*/
module MixedResume {
  import opened Prelude
  import opened Graphs
  import opened Interrupts

  datatype Config = Config(namespace: string, id: string)

  /** A control write; None stands for a value that does not decode. */
  datatype Write =
    | InterruptWrite(task: string, control: Option<Control>)
    | SubgraphWrite(task: string, child: Option<Config>)

  /** A static interrupt of the checkpoint, if one was written; it may not decode. */
  datatype Gate = NoGate | Gate | BrokenGate

  datatype Tuple = Tuple(scheduled: set<string>, writes: seq<Write>, gate: Gate)

  /** The checkpoints of one thread. */
  type Store = map<Config, Tuple>

  datatype ResumeError =
    | Undecodable | NotFound | NothingPending | CannotContinue | Ambiguous | EmptyCommand | NotPending
    | ForkFailed(fault: Fault) | SaveFailed

  // ----- The two walks over child checkpoints -----

  /** The walk of validateResumeBeforeFork: the writes of a checkpoint in their order, children as they come. */
  function Walk(store: Store, c: Config, visited: seq<Config>): (r: Result<seq<Config>, ResumeError>)
    requires c in store
    ensures r.Ok? ==> visited <= r.value
    decreases |store.Keys - Elements(visited)|, 0
  {
    if c in visited then Ok(visited)
    else
      FewerLeft(store, c, visited);
      WalkWrites(store, store[c], 0, visited + [c])
  }

  function WalkWrites(store: Store, t: Tuple, i: nat, visited: seq<Config>): (r: Result<seq<Config>, ResumeError>)
    requires i <= |t.writes|
    ensures r.Ok? ==> visited <= r.value
    decreases |store.Keys - Elements(visited)|, |t.writes| - i + 1
  {
    if i == |t.writes| then Ok(visited)
    else match t.writes[i]
      case InterruptWrite(task, control) =>
        if task in t.scheduled && control.None? then Err(Undecodable) else WalkWrites(store, t, i + 1, visited)
      case SubgraphWrite(_, None) => Err(Undecodable)
      case SubgraphWrite(_, Some(child)) =>
        if child !in store then Err(NotFound)
        else
          match Walk(store, child, visited)
          case Err(e) => Err(e)
          case Ok(after) =>
            SubsetSize(store.Keys - Elements(after), store.Keys - Elements(visited));
            WalkWrites(store, t, i + 1, after)
  }

  /** The walk of resumeInternal: all interrupt writes of a checkpoint first, then its children. */
  function ResumeWalk(store: Store, c: Config, visited: seq<Config>): (r: Result<seq<Config>, ResumeError>)
    requires c in store
    ensures r.Ok? ==> visited <= r.value
    decreases |store.Keys - Elements(visited)|, 0
  {
    if c in visited then Ok(visited)
    else
      FewerLeft(store, c, visited);
      if !Decodable(store[c], 0) then Err(Undecodable) else ResumeChildren(store, store[c], 0, visited + [c])
  }

  /** addControls reads every interrupt write of a scheduled task, from number i on. */
  predicate Decodable(t: Tuple, i: nat)
    requires i <= |t.writes|
  {
    forall k :: i <= k < |t.writes| && t.writes[k].InterruptWrite? && t.writes[k].task in t.scheduled ==> t.writes[k].control.Some?
  }

  function ResumeChildren(store: Store, t: Tuple, i: nat, visited: seq<Config>): (r: Result<seq<Config>, ResumeError>)
    requires i <= |t.writes|
    ensures r.Ok? ==> visited <= r.value
    decreases |store.Keys - Elements(visited)|, |t.writes| - i + 1
  {
    if i == |t.writes| then Ok(visited)
    else match t.writes[i]
      case InterruptWrite(_, _) => ResumeChildren(store, t, i + 1, visited)
      case SubgraphWrite(_, None) => Err(Undecodable)
      case SubgraphWrite(_, Some(child)) =>
        if child !in store then Err(NotFound)
        else
          match ResumeWalk(store, child, visited)
          case Err(e) => Err(e)
          case Ok(after) =>
            SubsetSize(store.Keys - Elements(after), store.Keys - Elements(visited));
            ResumeChildren(store, t, i + 1, after)
  }

  /** Each checkpoint is walked once, so fewer are left after it. */
  lemma FewerLeft(store: Store, c: Config, visited: seq<Config>)
    requires c in store && c !in visited
    ensures |store.Keys - Elements(visited + [c])| < |store.Keys - Elements(visited)|
  {
    assert c in store.Keys - Elements(visited);
    assert store.Keys - Elements(visited + [c]) == store.Keys - Elements(visited) - {c};
  }

  lemma SubsetSize<T>(a: set<T>, b: set<T>)
    requires a <= b
    ensures |a| <= |b|
  {
    assert b == a + (b - a);
  }

  // ----- What the walk visits -----

  predicate Links(store: Store, a: Config, b: Config)
  {
    a in store && exists i :: 0 <= i < |store[a].writes| && LinkAt(store[a], i, b)
  }

  predicate LinkAt(t: Tuple, i: nat, b: Config)
    requires i < |t.writes|
  {
    t.writes[i].SubgraphWrite? && t.writes[i].child == Some(b)
  }

  ghost predicate IsPath(store: Store, path: seq<Config>)
  {
    path != [] && forall k :: 0 <= k < |path| - 1 ==> Links(store, path[k], path[k + 1])
  }

  /** b is a, or a descendant of a through subgraph controls. */
  ghost predicate Reach(store: Store, a: Config, b: Config)
  {
    exists path :: IsPath(store, path) && path[0] == a && path[|path| - 1] == b
  }

  lemma ReachSelf(store: Store, a: Config)
    ensures Reach(store, a, a)
  {
    assert IsPath(store, [a]);
  }

  lemma ReachVia(store: Store, a: Config, b: Config, c: Config)
    requires Links(store, a, b) && Reach(store, b, c)
    ensures Reach(store, a, c)
  {
    var path :| IsPath(store, path) && path[0] == b && path[|path| - 1] == c;
    var longer := [a] + path;
    forall k | 0 <= k < |longer| - 1 ensures Links(store, longer[k], longer[k + 1]) {
      if k > 0 {
        assert longer[k] == path[k - 1] && longer[k + 1] == path[k];
      }
    }
    assert IsPath(store, longer);
  }

  /** Everything the walk must be able to read at one checkpoint. */
  predicate WriteOk(store: Store, t: Tuple, i: nat)
    requires i < |t.writes|
  {
    match t.writes[i]
    case InterruptWrite(task, control) => task in t.scheduled ==> control.Some?
    case SubgraphWrite(_, child) => child.Some? && child.value in store
  }

  ghost predicate Good(store: Store, c: Config)
  {
    c in store && forall i :: 0 <= i < |store[c].writes| ==> WriteOk(store, store[c], i)
  }

  /** What is true of every checkpoint visited since `before`. */
  ghost predicate Explored(store: Store, origin: Config, before: seq<Config>, after: seq<Config>)
  {
    && (forall x :: x in after && x !in before ==> Reach(store, origin, x) && Good(store, x))
    && (forall x, y :: x in after && x !in before && Links(store, x, y) ==> y in after)
  }

  lemma {:induction false} WalkMeaning(store: Store, c: Config, visited: seq<Config>)
    requires c in store
    ensures var r := Walk(store, c, visited);
            && (r.Ok? ==> c in r.value && Explored(store, c, visited, r.value) && (Distinct(visited) ==> Distinct(r.value)))
            && (r.Err? ==> exists x :: Reach(store, c, x) && !Good(store, x))
    decreases |store.Keys - Elements(visited)|, 0
  {
    hide Explored, WritesWalked, Reach, Good, Distinct;
    if c !in visited {
      FewerLeft(store, c, visited);
      WalkWritesMeaning(store, c, 0, visited + [c]);
      CheckpointWalked(store, c, visited, Walk(store, c, visited));
    } else {
      NothingExplored(store, c, visited);
    }
  }

  lemma NothingExplored(store: Store, c: Config, visited: seq<Config>)
    ensures Explored(store, c, visited, visited)
  {
  }

  /** A checkpoint is explored once its writes are. */
  lemma CheckpointWalked(store: Store, c: Config, visited: seq<Config>, r: Result<seq<Config>, ResumeError>)
    requires c in store && c !in visited && WritesWalked(store, c, 0, visited + [c], r)
    requires r.Ok? ==> visited + [c] <= r.value
    ensures r.Ok? ==> c in r.value && Explored(store, c, visited, r.value) && (Distinct(visited) ==> Distinct(r.value))
    ensures r.Err? ==> exists x :: Reach(store, c, x) && !Good(store, x)
  {
    hide Reach;
    if r.Ok? {
      assert (visited + [c])[|visited|] == c && c in r.value;
      ReachSelf(store, c);
      assert Good(store, c);
      assert forall y :: Links(store, c, y) ==> y in r.value;
      assert forall x :: x in visited + [c] <==> x in visited || x == c;
    }
  }

  lemma ExploredVia(store: Store, c: Config, child: Config, before: seq<Config>, after: seq<Config>)
    requires Links(store, c, child) && Explored(store, child, before, after)
    ensures Explored(store, c, before, after)
  {
    hide Reach, Good, Links;
    forall x | Reach(store, child, x) ensures Reach(store, c, x) { ReachVia(store, c, child, x); }
  }

  lemma ExploredThen(store: Store, c: Config, a: seq<Config>, b: seq<Config>, d: seq<Config>)
    requires Explored(store, c, a, b) && Explored(store, c, b, d) && b <= d
    ensures Explored(store, c, a, d)
  {
    hide Reach, Good, Links;
    assert forall x :: x in b ==> x in d;
  }

  /** The writes of c from number i on are readable, and their children are among those visited. */
  ghost predicate WritesDone(store: Store, c: Config, i: nat, after: seq<Config>)
    requires c in store && i <= |store[c].writes|
  {
    && (forall k :: i <= k < |store[c].writes| ==> WriteOk(store, store[c], k))
    && (forall k, y :: i <= k < |store[c].writes| && LinkAt(store[c], k, y) ==> y in after)
  }

  /** What the walk over the writes of c from number i on amounts to. */
  ghost predicate WritesWalked(store: Store, c: Config, i: nat, visited: seq<Config>, r: Result<seq<Config>, ResumeError>)
    requires c in store && i <= |store[c].writes|
  {
    match r
    case Ok(after) => Explored(store, c, visited, after) && WritesDone(store, c, i, after) && (Distinct(visited) ==> Distinct(after))
    case Err(_) => exists x :: Reach(store, c, x) && !Good(store, x)
  }

  lemma {:induction false} WalkWritesMeaning(store: Store, c: Config, i: nat, visited: seq<Config>)
    requires c in store && i <= |store[c].writes|
    ensures WritesWalked(store, c, i, visited, WalkWrites(store, store[c], i, visited))
    decreases |store.Keys - Elements(visited)|, |store[c].writes| - i + 1
  {
    hide WritesWalked, Explored, Good, Reach, Distinct, Links;
    var t := store[c];
    if i == |t.writes| {
      AllWalked(store, c, visited);
    } else {
      if !WriteOk(store, t, i) {
        Unreadable(store, c, i, visited, WalkWrites(store, t, i, visited));
      } else if t.writes[i].InterruptWrite? {
        WalkWritesMeaning(store, c, i + 1, visited);
        WritesWalkedBack(store, c, i, visited, WalkWrites(store, t, i + 1, visited));
      } else {
        var child := t.writes[i].child.value;
        WalkMeaning(store, child, visited);
        var inner := Walk(store, child, visited);
        if inner.Ok? {
          SubsetSize(store.Keys - Elements(inner.value), store.Keys - Elements(visited));
          WalkWritesMeaning(store, c, i + 1, inner.value);
        }
        ChildWalked(store, c, i, child, visited, inner);
      }
    }
  }

  lemma AllWalked(store: Store, c: Config, visited: seq<Config>)
    requires c in store
    ensures WritesWalked(store, c, |store[c].writes|, visited, Ok(visited))
  {
    hide Reach, Good, Distinct;
  }

  lemma Unreadable(store: Store, c: Config, i: nat, visited: seq<Config>, r: Result<seq<Config>, ResumeError>)
    requires c in store && i < |store[c].writes| && !WriteOk(store, store[c], i) && r.Err?
    ensures WritesWalked(store, c, i, visited, r)
  {
    hide Reach;
    ReachSelf(store, c);
    assert !Good(store, c);
  }

  lemma WritesWalkedBack(store: Store, c: Config, i: nat, visited: seq<Config>, r: Result<seq<Config>, ResumeError>)
    requires c in store && i < |store[c].writes| && store[c].writes[i].InterruptWrite? && WriteOk(store, store[c], i)
    requires WritesWalked(store, c, i + 1, visited, r)
    ensures WritesWalked(store, c, i, visited, r)
  {
    hide Explored, Good, Reach, Distinct;
  }

  /** A child's walk, followed by the walk over the rest of the writes. */
  lemma ChildWalked(store: Store, c: Config, i: nat, child: Config, visited: seq<Config>, inner: Result<seq<Config>, ResumeError>)
    requires c in store && i < |store[c].writes| && child in store && LinkAt(store[c], i, child)
    requires inner == Walk(store, child, visited)
    requires inner.Ok? ==> Explored(store, child, visited, inner.value) && child in inner.value && (Distinct(visited) ==> Distinct(inner.value))
    requires inner.Err? ==> exists x :: Reach(store, child, x) && !Good(store, x)
    requires inner.Ok? ==> WritesWalked(store, c, i + 1, inner.value, WalkWrites(store, store[c], i + 1, inner.value))
    ensures WritesWalked(store, c, i, visited, WalkWrites(store, store[c], i, visited))
  {
    hide Explored, Good, Reach, Distinct, Walk;
    assert Links(store, c, child);
    if inner.Err? {
      var x :| Reach(store, child, x) && !Good(store, x);
      ReachVia(store, c, child, x);
    } else {
      ExploredVia(store, c, child, visited, inner.value);
      var r := WalkWrites(store, store[c], i + 1, inner.value);
      if r.Ok? {
        ExploredThen(store, c, visited, inner.value, r.value);
        assert child in r.value;
      }
    }
  }

  lemma {:induction false} PathVisited(store: Store, path: seq<Config>, visited: seq<Config>, k: nat)
    requires IsPath(store, path) && k < |path| && path[0] in visited
    requires forall x, y :: x in visited && Links(store, x, y) ==> y in visited
    ensures path[k] in visited
  {
    if k > 0 {
      PathVisited(store, path, visited, k - 1);
      assert Links(store, path[k - 1], path[k - 1 + 1]);
    }
  }

  /**
    The walk terminates on every store, cyclic ones included, and visits every descendant exactly once; it
    fails exactly when one of them cannot be read.
  */
  lemma WalkVisitsDescendants(store: Store, root: Config)
    requires root in store
    ensures Walk(store, root, []).Ok? <==> forall x :: Reach(store, root, x) ==> Good(store, x)
    ensures Walk(store, root, []).Ok? ==>
      var v := Walk(store, root, []).value;
      Distinct(v) && forall x :: x in v <==> Reach(store, root, x)
  {
    WalkMeaning(store, root, []);
    var r := Walk(store, root, []);
    if r.Ok? {
      forall x | Reach(store, root, x) ensures x in r.value {
        var path :| IsPath(store, path) && path[0] == root && path[|path| - 1] == x;
        PathVisited(store, path, r.value, |path| - 1);
      }
    }
  }

  // ----- Pending interrupts -----

  datatype Entry = Entry(config: Config, task: string, control: Control)

  /** The controls of the scheduled tasks among the first n writes. */
  function EntriesOf(c: Config, t: Tuple, n: nat): seq<Entry>
    requires n <= |t.writes|
  {
    if n == 0 then []
    else
      var before := EntriesOf(c, t, n - 1);
      match t.writes[n - 1]
      case InterruptWrite(task, Some(control)) => if task in t.scheduled then before + [Entry(c, task, control)] else before
      case _ => before
  }

  /** addControls along the walk. */
  function Entries(store: Store, visited: seq<Config>): seq<Entry>
  {
    if visited == [] then []
    else
      var c := visited[|visited| - 1];
      Entries(store, visited[..|visited| - 1]) + if c in store then EntriesOf(c, store[c], |store[c].writes|) else []
  }

  datatype Location = Location(entry: nat, index: nat)

  function IndexControl(index: map<string, Location>, e: nat, control: Control, n: nat): map<string, Location>
    requires n <= |control.interrupts|
  {
    if n == 0 then index
    else
      var before := IndexControl(index, e, control, n - 1);
      if Answered(control, n - 1) then before else before[control.interrupts[n - 1].id := Location(e, n - 1)]
  }

  /** interruptIndex: where each pending interrupt is, by ID. */
  function Index(entries: seq<Entry>): map<string, Location>
  {
    if entries == [] then map[]
    else
      var n := |entries| - 1;
      IndexControl(Index(entries[..n]), n, entries[n].control, |entries[n].control.interrupts|)
  }

  /** Interrupt i of control is open under this ID. */
  predicate Open(control: Control, i: nat, id: string)
  {
    i < |control.interrupts| && !Answered(control, i) && control.interrupts[i].id == id
  }

  lemma {:induction false} IndexControlMeaning(index: map<string, Location>, e: nat, control: Control, n: nat, id: string)
    requires n <= |control.interrupts|
    ensures id in IndexControl(index, e, control, n) <==> id in index || exists i :: 0 <= i < n && Open(control, i, id)
    ensures id in IndexControl(index, e, control, n) ==>
      var at := IndexControl(index, e, control, n)[id];
      (at.entry == e && Open(control, at.index, id)) || (id in index && at == index[id])
  {
    if n > 0 {
      IndexControlMeaning(index, e, control, n - 1, id);
      assert Open(control, n - 1, id) <==> !Answered(control, n - 1) && control.interrupts[n - 1].id == id;
    }
  }

  ghost predicate OpenIn(entries: seq<Entry>, id: string)
  {
    exists e, i :: 0 <= e < |entries| && Open(entries[e].control, i, id)
  }

  lemma {:induction false} IndexMeaning(entries: seq<Entry>, id: string)
    ensures id in Index(entries) <==> OpenIn(entries, id)
    ensures id in Index(entries) ==>
      var at := Index(entries)[id];
      at.entry < |entries| && Open(entries[at.entry].control, at.index, id)
  {
    if entries != [] {
      var n := |entries| - 1;
      IndexMeaning(entries[..n], id);
      IndexControlMeaning(Index(entries[..n]), n, entries[n].control, |entries[n].control.interrupts|, id);
      assert forall e :: 0 <= e < n ==> entries[..n][e] == entries[e];
    }
  }

  // ----- Validation before the fork -----

  function OpenIds(control: Control): set<string>
  {
    set i | 0 <= i < |control.interrupts| && !Answered(control, i) :: control.interrupts[i].id
  }

  function TuplePending(t: Tuple, n: nat): set<string>
    requires n <= |t.writes|
  {
    if n == 0 then {}
    else
      var before := TuplePending(t, n - 1);
      match t.writes[n - 1]
      case InterruptWrite(task, Some(control)) => if task in t.scheduled then before + OpenIds(control) else before
      case _ => before
  }

  /** The set validateResumeBeforeFork collects. */
  function PendingSet(store: Store, visited: seq<Config>): set<string>
  {
    if visited == [] then {}
    else
      var c := visited[|visited| - 1];
      PendingSet(store, visited[..|visited| - 1]) + if c in store then TuplePending(store[c], |store[c].writes|) else {}
  }

  lemma OpenInAppend(a: seq<Entry>, b: seq<Entry>, id: string)
    ensures OpenIn(a + b, id) <==> OpenIn(a, id) || OpenIn(b, id)
  {
    if OpenIn(a, id) {
      var e, i :| 0 <= e < |a| && Open(a[e].control, i, id);
      assert (a + b)[e] == a[e];
    }
    if OpenIn(b, id) {
      var e, i :| 0 <= e < |b| && Open(b[e].control, i, id);
      assert (a + b)[|a| + e] == b[e];
    }
  }

  lemma OpenIdsMeaning(entry: Entry, id: string)
    ensures id in OpenIds(entry.control) <==> OpenIn([entry], id)
  {
    if id in OpenIds(entry.control) {
      var i: nat :| i < |entry.control.interrupts| && !Answered(entry.control, i) && entry.control.interrupts[i].id == id;
      assert Open([entry][0].control, i, id);
    }
  }

  lemma {:induction false} TuplePendingMeaning(c: Config, t: Tuple, n: nat, id: string)
    requires n <= |t.writes|
    ensures id in TuplePending(t, n) <==> OpenIn(EntriesOf(c, t, n), id)
  {
    if n > 0 {
      TuplePendingMeaning(c, t, n - 1, id);
      match t.writes[n - 1] {
        case InterruptWrite(task, Some(control)) =>
          OpenIdsMeaning(Entry(c, task, control), id);
          OpenInAppend(EntriesOf(c, t, n - 1), [Entry(c, task, control)], id);
        case _ =>
      }
    }
  }

  lemma {:induction false} PendingSetMeaning(store: Store, visited: seq<Config>, id: string)
    ensures id in PendingSet(store, visited) <==> OpenIn(Entries(store, visited), id)
  {
    hide OpenIn, TuplePending, EntriesOf;
    if visited != [] {
      var init, c := visited[..|visited| - 1], visited[|visited| - 1];
      PendingSetMeaning(store, init, id);
      if c in store {
        TuplePendingMeaning(c, store[c], |store[c].writes|, id);
        OpenInAppend(Entries(store, init), EntriesOf(c, store[c], |store[c].writes|), id);
      } else {
        assert Entries(store, visited) == Entries(store, init);
      }
    } else {
      assert !OpenIn([], id) by { OpenInNothing(id); }
    }
  }

  lemma OpenInNothing(id: string)
    ensures !OpenIn([], id)
  {
  }

  datatype ResumeCommand = Single(value: Json) | ById(values: map<string, Json>) | Continue

  /** The selection rule; None accepts. */
  function Refusal(pending: set<string>, command: ResumeCommand): Option<ResumeError>
  {
    if pending == {} then Some(NothingPending)
    else match command
      case Continue => Some(CannotContinue)
      case Single(_) => if |pending| != 1 then Some(Ambiguous) else None
      case ById(values) =>
        if values == map[] then Some(EmptyCommand)
        else if values.Keys <= pending then None
        else Some(NotPending)
  }

  /** validateResumeBeforeFork; None accepts. */
  function Validate(store: Store, root: Config, command: ResumeCommand): Option<ResumeError>
    requires root in store
  {
    match Walk(store, root, [])
    case Err(e) => Some(e)
    case Ok(visited) => Refusal(PendingSet(store, visited), command)
  }

  /** The selection of resumeInternal on a stored checkpoint; None accepts. A static interrupt goes on when nothing else is pending. */
  function Select(store: Store, root: Config, command: ResumeCommand): Option<ResumeError>
    requires root in store
  {
    match ResumeWalk(store, root, [])
    case Err(e) => Some(e)
    case Ok(visited) =>
      var pending := Index(Entries(store, visited)).Keys;
      if store[root].gate == BrokenGate then Some(Undecodable)
      else if store[root].gate == Gate && pending == {} then None
      else Refusal(pending, command)
  }

  // ----- The two walks agree -----

  lemma {:induction false} WalksAgree(store: Store, c: Config, visited: seq<Config>)
    requires c in store
    ensures Walk(store, c, visited).Ok? <==> ResumeWalk(store, c, visited).Ok?
    ensures Walk(store, c, visited).Ok? ==> Walk(store, c, visited) == ResumeWalk(store, c, visited)
    decreases |store.Keys - Elements(visited)|, 0
  {
    if c !in visited {
      FewerLeft(store, c, visited);
      WritesAgree(store, store[c], 0, visited + [c]);
    }
  }

  /** Reading interrupts as they come fails exactly when reading them first does, or the children fail. */
  lemma {:induction false} WritesAgree(store: Store, t: Tuple, i: nat, visited: seq<Config>)
    requires i <= |t.writes|
    ensures WalkWrites(store, t, i, visited).Ok? <==> Decodable(t, i) && ResumeChildren(store, t, i, visited).Ok?
    ensures WalkWrites(store, t, i, visited).Ok? ==> WalkWrites(store, t, i, visited) == ResumeChildren(store, t, i, visited)
    decreases |store.Keys - Elements(visited)|, |t.writes| - i + 1
  {
    if i < |t.writes| {
      match t.writes[i] {
        case InterruptWrite(_, _) => WritesAgree(store, t, i + 1, visited);
        case SubgraphWrite(_, child) =>
          if child.Some? && child.value in store {
            WalksAgree(store, child.value, visited);
            var after := Walk(store, child.value, visited);
            if after.Ok? {
              SubsetSize(store.Keys - Elements(after.value), store.Keys - Elements(visited));
              WritesAgree(store, t, i + 1, after.value);
            }
          }
      }
    }
  }

  // ----- Where they name different errors -----

  /** The checkpoints the first walk has open when it fails, from c down. */
  function Stop(store: Store, c: Config, visited: seq<Config>): seq<Config>
    requires c in store
    decreases |store.Keys - Elements(visited)|, 0
  {
    if c in visited then []
    else
      FewerLeft(store, c, visited);
      [c] + StopWrites(store, store[c], 0, visited + [c])
  }

  function StopWrites(store: Store, t: Tuple, i: nat, visited: seq<Config>): seq<Config>
    requires i <= |t.writes|
    decreases |store.Keys - Elements(visited)|, |t.writes| - i + 1
  {
    if i == |t.writes| || !WriteOk(store, t, i) then []
    else match t.writes[i]
      case InterruptWrite(_, _) => StopWrites(store, t, i + 1, visited)
      case SubgraphWrite(_, child) =>
        match Walk(store, child.value, visited)
        case Err(_) => Stop(store, child.value, visited)
        case Ok(after) =>
          SubsetSize(store.Keys - Elements(after), store.Keys - Elements(visited));
          StopWrites(store, t, i + 1, after)
  }

  /** A write that makes the first walk fail, and how. */
  predicate Stops(store: Store, t: Tuple, error: ResumeError)
  {
    exists i :: 0 <= i < |t.writes| && !WriteOk(store, t, i) && error == if Missing(store, t, i) then NotFound else Undecodable
  }

  predicate Missing(store: Store, t: Tuple, i: nat)
    requires i < |t.writes|
  {
    t.writes[i].SubgraphWrite? && t.writes[i].child.Some? && t.writes[i].child.value !in store
  }

  /** The open checkpoints are a path from c to one whose write cannot be read. */
  ghost predicate StopsAt(store: Store, c: Config, open: seq<Config>, error: ResumeError)
  {
    && IsPath(store, open) && open[0] == c
    && open[|open| - 1] in store && Stops(store, store[open[|open| - 1]], error)
  }

  lemma {:induction false} StopIsPath(store: Store, c: Config, visited: seq<Config>)
    requires c in store && Walk(store, c, visited).Err?
    ensures StopsAt(store, c, Stop(store, c, visited), Walk(store, c, visited).error)
    decreases |store.Keys - Elements(visited)|, 0
  {
    hide StopsAt, Stops;
    FewerLeft(store, c, visited);
    StopWritesIsPath(store, c, 0, visited + [c]);
  }

  lemma {:induction false} StopWritesIsPath(store: Store, c: Config, i: nat, visited: seq<Config>)
    requires c in store && i <= |store[c].writes| && WalkWrites(store, store[c], i, visited).Err?
    ensures StopsAt(store, c, [c] + StopWrites(store, store[c], i, visited), WalkWrites(store, store[c], i, visited).error)
    decreases |store.Keys - Elements(visited)|, |store[c].writes| - i + 1
  {
    hide StopsAt, Stops, Links;
    var t := store[c];
    if !WriteOk(store, t, i) {
      StopsHere(store, c, i, WalkWrites(store, t, i, visited).error);
    } else if t.writes[i].InterruptWrite? {
      StopWritesIsPath(store, c, i + 1, visited);
    } else {
      var child := t.writes[i].child.value;
      var inner := Walk(store, child, visited);
      if inner.Ok? {
        SubsetSize(store.Keys - Elements(inner.value), store.Keys - Elements(visited));
        StopWritesIsPath(store, c, i + 1, inner.value);
      } else {
        StopIsPath(store, child, visited);
        LinksAt(store, c, i, child);
        StopsBelow(store, c, child, Stop(store, child, visited), inner.error);
      }
    }
  }

  lemma StopsHere(store: Store, c: Config, i: nat, error: ResumeError)
    requires c in store && i < |store[c].writes| && !WriteOk(store, store[c], i)
    requires error == if Missing(store, store[c], i) then NotFound else Undecodable
    ensures StopsAt(store, c, [c] + [], error)
  {
    assert [c] + [] == [c];
  }

  lemma LinksAt(store: Store, c: Config, i: nat, child: Config)
    requires c in store && i < |store[c].writes| && LinkAt(store[c], i, child)
    ensures Links(store, c, child)
  {
  }

  lemma StopsBelow(store: Store, c: Config, child: Config, open: seq<Config>, error: ResumeError)
    requires Links(store, c, child) && StopsAt(store, child, open, error)
    ensures StopsAt(store, c, [c] + open, error)
  {
    hide Links, Stops;
    var longer := [c] + open;
    forall k | 0 <= k < |longer| - 1 ensures Links(store, longer[k], longer[k + 1]) {
      if k > 0 { assert longer[k] == open[k - 1] && longer[k + 1] == open[k]; }
    }
  }

  /** An interrupt of one of these checkpoints does not decode. */
  ghost predicate SomeBroken(store: Store, open: seq<Config>)
  {
    exists x :: x in open && x in store && !Decodable(store[x], 0)
  }

  lemma SomeBrokenBelow(store: Store, c: Config, open: seq<Config>)
    requires c in store
    ensures SomeBroken(store, [c] + open) <==> !Decodable(store[c], 0) || SomeBroken(store, open)
  {
    hide Decodable;
    assert forall x :: x in [c] + open <==> x == c || x in open;
    if !Decodable(store[c], 0) {
      assert c in [c] + open;
    }
  }

  /** The error of the second walk, where the first has the error e with these checkpoints open. */
  ghost function Second(store: Store, open: seq<Config>, e: ResumeError): ResumeError
  {
    if e == NotFound && SomeBroken(store, open) then Undecodable else e
  }

  lemma {:induction false} ErrorsOf(store: Store, c: Config, visited: seq<Config>)
    requires c in store && Walk(store, c, visited).Err?
    ensures ResumeWalk(store, c, visited) == Err(Second(store, Stop(store, c, visited), Walk(store, c, visited).error))
    decreases |store.Keys - Elements(visited)|, 0
  {
    hide SomeBroken, Decodable;
    FewerLeft(store, c, visited);
    SomeBrokenBelow(store, c, StopWrites(store, store[c], 0, visited + [c]));
    WalkErrors(store, c, visited);
    if Decodable(store[c], 0) {
      ErrorsOfWrites(store, store[c], 0, visited + [c]);
    }
  }

  lemma WalkErrors(store: Store, c: Config, visited: seq<Config>)
    requires c in store && Walk(store, c, visited).Err?
    ensures Walk(store, c, visited).error == NotFound || Walk(store, c, visited).error == Undecodable
  {
    hide Stop, Walk, IsPath, WriteOk;
    StopIsPath(store, c, visited);
  }

  lemma {:induction false} ErrorsOfWrites(store: Store, t: Tuple, i: nat, visited: seq<Config>)
    requires i <= |t.writes| && Decodable(t, i) && WalkWrites(store, t, i, visited).Err?
    ensures ResumeChildren(store, t, i, visited) == Err(Second(store, StopWrites(store, t, i, visited), WalkWrites(store, t, i, visited).error))
    decreases |store.Keys - Elements(visited)|, |t.writes| - i + 1
  {
    hide SomeBroken;
    if !WriteOk(store, t, i) {
      NoneBroken(store);
    } else if t.writes[i].InterruptWrite? {
      ErrorsOfWrites(store, t, i + 1, visited);
    } else {
      var child := t.writes[i].child.value;
      var inner := Walk(store, child, visited);
      WalksAgree(store, child, visited);
      if inner.Ok? {
        SubsetSize(store.Keys - Elements(inner.value), store.Keys - Elements(visited));
        ErrorsOfWrites(store, t, i + 1, inner.value);
      } else {
        ErrorsOf(store, child, visited);
      }
    }
  }

  lemma NoneBroken(store: Store)
    ensures !SomeBroken(store, [])
  {
  }

  /**
    On a tree that cannot be read, the two walks name different errors exactly when the dry run ends at a missing
    child below a checkpoint, still open, with an interrupt that does not decode. The selection then reports that
    interrupt; it never reports a missing child where the dry run reports an interrupt.
  */
  lemma WalksDifferExactly(store: Store, root: Config)
    requires root in store
    ensures Walk(store, root, []) != ResumeWalk(store, root, []) <==>
      Walk(store, root, []) == Err(NotFound) && SomeBroken(store, Stop(store, root, []))
    ensures ResumeWalk(store, root, []) == Err(NotFound) ==> Walk(store, root, []) == Err(NotFound)
    ensures Walk(store, root, []).Err? ==> StopsAt(store, root, Stop(store, root, []), Walk(store, root, []).error)
  {
    hide Walk, ResumeWalk, Stop, SomeBroken, StopsAt;
    WalksAgree(store, root, []);
    if Walk(store, root, []).Err? {
      ErrorsOf(store, root, []);
      StopIsPath(store, root, []);
    }
  }

  /** A store on which they do: a missing child before an undecodable interrupt. */
  lemma WalksDiffer(task: string, child: Config)
    requires child != Config("", "1")
    ensures var root := Config("", "1");
            var store := map[root := Tuple({task}, [SubgraphWrite(task, Some(child)), InterruptWrite(task, None)], NoGate)];
            Walk(store, root, []) == Err(NotFound) && ResumeWalk(store, root, []) == Err(Undecodable)
  {
    var root := Config("", "1");
    var t := Tuple({task}, [SubgraphWrite(task, Some(child)), InterruptWrite(task, None)], NoGate);
    var store := map[root := t];
    assert !Decodable(t, 0) by { assert t.writes[1].InterruptWrite?; }
  }

  lemma SamePending(store: Store, visited: seq<Config>)
    ensures PendingSet(store, visited) == Index(Entries(store, visited)).Keys
  {
    forall id ensures id in PendingSet(store, visited) <==> id in Index(Entries(store, visited)) {
      PendingSetMeaning(store, visited, id);
      IndexMeaning(Entries(store, visited), id);
    }
  }

  /** Something in the tree under root waits for an answer. */
  predicate SomethingPending(store: Store, root: Config)
    requires root in store
  {
    Walk(store, root, []).Ok? && PendingSet(store, Walk(store, root, []).value) != {}
  }

  /**
    The dry run before a fork and the selection that records answers walk the tree in different orders, yet on
    every store they visit the same checkpoints and accept the same commands, but for a static interrupt with
    nothing else pending, which only the selection accepts. Where the tree is readable they give the same reason;
    where it is not, they do unless the walks differ.
  */
  lemma ValidateIsSelect(store: Store, root: Config, command: ResumeCommand)
    requires root in store && store[root].gate != BrokenGate
    ensures Validate(store, root, command) == None <==> Select(store, root, command) == None && SomethingPending(store, root)
    ensures ResumeWalk(store, root, []).Ok? && (store[root].gate == NoGate || SomethingPending(store, root)) ==>
      Validate(store, root, command) == Select(store, root, command)
    ensures ResumeWalk(store, root, []).Err? ==>
      (Validate(store, root, command) == Select(store, root, command)
       <==> !(Walk(store, root, []) == Err(NotFound) && SomeBroken(store, Stop(store, root, []))))
  {
    hide Walk, ResumeWalk, PendingSet, Index, Entries, SomeBroken, Stop;
    WalksAgree(store, root, []);
    WalksDifferExactly(store, root);
    if Walk(store, root, []).Ok? {
      SamePending(store, Walk(store, root, []).value);
    }
  }
}
