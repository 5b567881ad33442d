/**
  A resume that also updates or reroutes the thread first forks the interrupted checkpoint
  tree. The fork keeps every interrupt under its ID and drops the answers given so far.
*/
module ResumeFork {
  import opened Prelude
  import opened Graphs
  import opened Interrupts
  import opened MixedResume

  /** Where the fork puts each checkpoint, and how it renames the tasks of each: only those of the root get new IDs. */
  datatype Naming = Naming(image: Config -> Config, rename: (Config, string) -> string)

  ghost predicate NamingOk(store: Store, n: Naming)
  {
    && (forall a, b :: n.image(a) == n.image(b) ==> a == b)
    && (forall a :: n.image(a) !in store)
    && (forall c, a, b :: n.rename(c, a) == n.rename(c, b) ==> a == b)
  }

  function ForkWrite(n: Naming, c: Config, w: Write): Write
  {
    match w
    case InterruptWrite(task, None) => InterruptWrite(n.rename(c, task), None)
    case InterruptWrite(task, Some(control)) => InterruptWrite(n.rename(c, task), Some(Control(control.interrupts, [])))
    case SubgraphWrite(task, None) => SubgraphWrite(n.rename(c, task), None)
    case SubgraphWrite(task, Some(child)) => SubgraphWrite(n.rename(c, task), Some(n.image(child)))
  }

  function ForkTuple(n: Naming, c: Config, t: Tuple): (r: Tuple)
    ensures |r.writes| == |t.writes|
  {
    Tuple(set task | task in t.scheduled :: n.rename(c, task),
          seq(|t.writes|, i requires 0 <= i < |t.writes| => ForkWrite(n, c, t.writes[i])),
          NoGate)
  }

  function ForkStore(store: Store, all: seq<Config>, n: Naming): Store
    requires NamingOk(store, n) && forall c :: c in all ==> c in store
  {
    store + map c | c in all :: n.image(c) := ForkTuple(n, c, store[c])
  }

  function Image(n: Naming, visited: seq<Config>): (r: seq<Config>)
    ensures |r| == |visited| && forall i :: 0 <= i < |visited| ==> r[i] == n.image(visited[i])
  {
    seq(|visited|, i requires 0 <= i < |visited| => n.image(visited[i]))
  }

  lemma ForkAt(store: Store, all: seq<Config>, n: Naming, c: Config)
    requires NamingOk(store, n) && (forall x :: x in all ==> x in store) && c in all
    ensures n.image(c) in ForkStore(store, all, n) && ForkStore(store, all, n)[n.image(c)] == ForkTuple(n, c, store[c])
  {
    hide ForkTuple;
    var added := map x | x in all :: n.image(x) := ForkTuple(n, x, store[x]);
    assert n.image(c) in added;
  }

  lemma ImageMember(store: Store, n: Naming, visited: seq<Config>, c: Config)
    requires NamingOk(store, n)
    ensures n.image(c) in Image(n, visited) <==> c in visited
  {
    if c in visited {
      var i :| 0 <= i < |visited| && visited[i] == c;
      assert Image(n, visited)[i] == n.image(c);
    }
  }

  ghost predicate Within(visited: seq<Config>, all: seq<Config>)
  {
    forall c :: c in visited ==> c in all
  }

  /** The walk over the fork mirrors the walk over the source. */
  lemma {:induction false} ForkWalk(store: Store, all: seq<Config>, n: Naming, c: Config, visited: seq<Config>)
    requires NamingOk(store, n) && (forall x :: x in all ==> x in store) && c in store && c in all
    requires Walk(store, c, visited).Ok? && Within(Walk(store, c, visited).value, all)
    ensures n.image(c) in ForkStore(store, all, n)
    ensures Walk(ForkStore(store, all, n), n.image(c), Image(n, visited)) == Ok(Image(n, Walk(store, c, visited).value))
    decreases |store.Keys - Elements(visited)|, 0
  {
    hide ForkStore, NamingOk, ForkTuple;
    ForkAt(store, all, n, c);
    ImageMember(store, n, visited, c);
    if c !in visited {
      FewerLeft(store, c, visited);
      assert Image(n, visited) + [n.image(c)] == Image(n, visited + [c]);
      ForkWalkWrites(store, all, n, c, 0, visited + [c]);
    }
  }

  lemma {:induction false} ForkWalkWrites(store: Store, all: seq<Config>, n: Naming, c: Config, i: nat, visited: seq<Config>)
    requires NamingOk(store, n) && (forall x :: x in all ==> x in store) && c in store && c in all && i <= |store[c].writes|
    requires WalkWrites(store, store[c], i, visited).Ok? && Within(WalkWrites(store, store[c], i, visited).value, all)
    ensures WalkWrites(ForkStore(store, all, n), ForkTuple(n, c, store[c]), i, Image(n, visited))
         == Ok(Image(n, WalkWrites(store, store[c], i, visited).value))
    decreases |store.Keys - Elements(visited)|, |store[c].writes| - i + 1
  {
    hide ForkStore, ForkTuple, NamingOk, Explored, Good, Reach, Distinct, Walk, Within;
    var t := store[c];
    if i < |t.writes| {
      ForkWriteAt(n, c, t, i);
      match t.writes[i] {
        case InterruptWrite(task, control) =>
          RenamedScheduled(store, n, c, t, task);
          ForkWalkWrites(store, all, n, c, i + 1, visited);
        case SubgraphWrite(_, child) =>
          var after := Walk(store, child.value, visited).value;
          ChildWithin(store, t, i, child.value, visited, all);
          ForkWalk(store, all, n, child.value, visited);
          SubsetSize(store.Keys - Elements(after), store.Keys - Elements(visited));
          ForkWalkWrites(store, all, n, c, i + 1, after);
      }
    }
  }

  /** What a child's walk visits, the walk over the writes has visited. */
  lemma ChildWithin(store: Store, t: Tuple, i: nat, child: Config, visited: seq<Config>, all: seq<Config>)
    requires i < |t.writes| && t.writes[i].SubgraphWrite? && t.writes[i].child == Some(child) && child in store
    requires WalkWrites(store, t, i, visited).Ok? && Within(WalkWrites(store, t, i, visited).value, all)
    ensures Walk(store, child, visited).Ok?
    ensures Within(Walk(store, child, visited).value, all) && child in all
  {
    hide Explored, Good, Reach, Distinct;
    WalkMeaning(store, child, visited);
    var after := Walk(store, child, visited).value;
    assert after <= WalkWrites(store, t, i, visited).value;
    assert forall x :: x in after ==> x in WalkWrites(store, t, i, visited).value;
  }

  lemma ForkWriteAt(n: Naming, c: Config, t: Tuple, i: nat)
    requires i < |t.writes|
    ensures |ForkTuple(n, c, t).writes| == |t.writes| && ForkTuple(n, c, t).writes[i] == ForkWrite(n, c, t.writes[i])
  {
  }

  lemma RenamedScheduled(store: Store, n: Naming, c: Config, t: Tuple, task: string)
    requires NamingOk(store, n)
    ensures n.rename(c, task) in ForkTuple(n, c, t).scheduled <==> task in t.scheduled
  {
  }

  // ----- What is pending on the fork -----

  function InterruptIds(control: Control): set<string>
  {
    set i | 0 <= i < |control.interrupts| :: control.interrupts[i].id
  }

  function TupleIds(t: Tuple, n: nat): set<string>
    requires n <= |t.writes|
  {
    if n == 0 then {}
    else
      var before := TupleIds(t, n - 1);
      match t.writes[n - 1]
      case InterruptWrite(task, Some(control)) => if task in t.scheduled then before + InterruptIds(control) else before
      case _ => before
  }

  /** Every interrupt of the tree, answered or not. */
  function AllIds(store: Store, visited: seq<Config>): set<string>
  {
    if visited == [] then {}
    else
      var c := visited[|visited| - 1];
      AllIds(store, visited[..|visited| - 1]) + if c in store then TupleIds(store[c], |store[c].writes|) else {}
  }

  lemma {:induction false} ForkTuplePending(store: Store, n: Naming, c: Config, t: Tuple, k: nat)
    requires NamingOk(store, n) && k <= |t.writes|
    ensures TuplePending(ForkTuple(n, c, t), k) == TupleIds(t, k)
  {
    if k > 0 {
      ForkTuplePending(store, n, c, t, k - 1);
      match t.writes[k - 1] {
        case InterruptWrite(task, Some(control)) =>
          RenamedScheduled(store, n, c, t, task);
          assert OpenIds(Control(control.interrupts, [])) == InterruptIds(control);
        case _ =>
      }
    }
  }

  lemma {:induction false} ForkPending(store: Store, all: seq<Config>, n: Naming, visited: seq<Config>)
    requires NamingOk(store, n) && (forall x :: x in all ==> x in store) && Within(visited, all)
    ensures PendingSet(ForkStore(store, all, n), Image(n, visited)) == AllIds(store, visited)
  {
    hide NamingOk, ForkStore, TuplePending, TupleIds, ForkTuple;
    if visited != [] {
      var init, c := visited[..|visited| - 1], visited[|visited| - 1];
      assert Within(init, all) && c in all && c in store;
      ForkPending(store, all, n, init);
      assert Image(n, visited)[..|visited| - 1] == Image(n, init);
      ForkAt(store, all, n, c);
      ForkedPending(store, n, c, store[c]);
    }
  }

  lemma ForkedPending(store: Store, n: Naming, c: Config, t: Tuple)
    requires NamingOk(store, n)
    ensures |ForkTuple(n, c, t).writes| == |t.writes| && TuplePending(ForkTuple(n, c, t), |t.writes|) == TupleIds(t, |t.writes|)
  {
    ForkTuplePending(store, n, c, t, |t.writes|);
  }

  lemma {:induction false} TuplePendingWithin(t: Tuple, n: nat)
    requires n <= |t.writes|
    ensures TuplePending(t, n) <= TupleIds(t, n)
  {
    if n > 0 {
      TuplePendingWithin(t, n - 1);
    }
  }

  lemma {:induction false} PendingWithin(store: Store, visited: seq<Config>)
    ensures PendingSet(store, visited) <= AllIds(store, visited)
  {
    hide TuplePending, TupleIds;
    if visited != [] {
      PendingWithin(store, visited[..|visited| - 1]);
      var c := visited[|visited| - 1];
      if c in store {
        TuplePendingWithin(store[c], |store[c].writes|);
      }
    }
  }

  /** The checkpoints of the tree under root, all of them readable. */
  ghost predicate IsTree(store: Store, root: Config, all: seq<Config>)
  {
    root in store && Walk(store, root, []) == Ok(all)
  }

  lemma TreeInStore(store: Store, root: Config, all: seq<Config>)
    requires IsTree(store, root, all)
    ensures root in all && forall x :: x in all ==> x in store
  {
    WalkMeaning(store, root, []);
  }

  /** A fork leaves every checkpoint of the source as it was, and has every interrupt of the source pending. */
  lemma ForkMeaning(store: Store, root: Config, all: seq<Config>, n: Naming)
    requires NamingOk(store, n) && IsTree(store, root, all)
    ensures forall x :: x in all ==> x in store
    ensures var fork := ForkStore(store, all, n);
            && (forall x :: x in store ==> x in fork && fork[x] == store[x])
            && IsTree(fork, n.image(root), Image(n, all)) && fork[n.image(root)].gate == NoGate
            && PendingSet(fork, Image(n, all)) == AllIds(store, all)
  {
    hide Walk, PendingSet, AllIds, ForkStore, NamingOk;
    TreeInStore(store, root, all);
    ForkWalk(store, all, n, root, []);
    ForkPending(store, all, n, all);
    ForkKeepsSource(store, all, n);
    ForkAt(store, all, n, root);
    assert Image(n, []) == [];
  }

  lemma ForkKeepsSource(store: Store, all: seq<Config>, n: Naming)
    requires NamingOk(store, n) && forall x :: x in all ==> x in store
    ensures forall x :: x in store ==> x in ForkStore(store, all, n) && ForkStore(store, all, n)[x] == store[x]
  {
    hide ForkTuple;
  }

  /**
    A command the validation accepts is accepted again on the fork exactly when it names its interrupts, or when
    the tree holds one interrupt in all: dropping earlier answers makes a single value ambiguous otherwise.
  */
  lemma AcceptedAgainExactly(store: Store, root: Config, all: seq<Config>, n: Naming, command: ResumeCommand)
    requires NamingOk(store, n) && IsTree(store, root, all) && Validate(store, root, command) == None
    ensures forall x :: x in all ==> x in store
    ensures var fork := ForkStore(store, all, n);
            && n.image(root) in fork
            && (Select(fork, n.image(root), command) == None <==> command.ById? || |AllIds(store, all)| == 1)
  {
    hide ForkStore, NamingOk, Walk, ResumeWalk, PendingSet, AllIds, Index;
    ForkMeaning(store, root, all, n);
    PendingWithin(store, all);
    var fork := ForkStore(store, all, n);
    ValidateIsSelect(fork, n.image(root), command);
    WalksAgree(fork, n.image(root), []);
  }

  /** None of the tuple's interrupts has been answered. */
  ghost predicate Unanswered(t: Tuple)
  {
    forall i, k: nat :: 0 <= i < |t.writes| && t.writes[i].InterruptWrite? && t.writes[i].control.Some? ==> !Answered(t.writes[i].control.value, k)
  }

  ghost predicate NoAnswers(store: Store, all: seq<Config>)
  {
    forall c :: c in all && c in store ==> Unanswered(store[c])
  }

  lemma {:induction false} UnansweredPending(t: Tuple, n: nat)
    requires n <= |t.writes| && Unanswered(t)
    ensures TuplePending(t, n) == TupleIds(t, n)
  {
    if n > 0 {
      UnansweredPending(t, n - 1);
      match t.writes[n - 1] {
        case InterruptWrite(task, Some(control)) =>
          forall k: nat ensures !Answered(control, k) {
            assert t.writes[n - 1].control == Some(control);
          }
          assert OpenIds(control) == InterruptIds(control);
        case _ =>
      }
    }
  }

  lemma {:induction false} NoAnswersPending(store: Store, all: seq<Config>)
    requires NoAnswers(store, all)
    ensures PendingSet(store, all) == AllIds(store, all)
  {
    hide TuplePending, TupleIds, Unanswered;
    if all != [] {
      NoAnswersPending(store, all[..|all| - 1]);
      var c := all[|all| - 1];
      if c in store {
        UnansweredPending(store[c], |store[c].writes|);
      }
    }
  }

  /** In particular it is accepted again when no interrupt of the tree had been answered. */
  lemma AcceptedWithoutAnswers(store: Store, root: Config, all: seq<Config>, n: Naming, command: ResumeCommand)
    requires NamingOk(store, n) && IsTree(store, root, all) && Validate(store, root, command) == None && NoAnswers(store, all)
    ensures forall x :: x in all ==> x in store
    ensures n.image(root) in ForkStore(store, all, n)
    ensures Select(ForkStore(store, all, n), n.image(root), command) == None
  {
    hide ForkStore, NamingOk, PendingSet, AllIds, Index;
    AcceptedAgainExactly(store, root, all, n, command);
    NoAnswersPending(store, all);
  }

  const ROOT := Config("", "1")

  /** A task with two interrupts, of which the first has its answer. */
  function HalfAnswered(a: Interrupt, b: Interrupt, value: Json): Store
  {
    map[ROOT := Tuple({"t"}, [InterruptWrite("t", Some(Control([a, b], [Some(value)])))], NoGate)]
  }

  lemma HalfAnsweredTree(a: Interrupt, b: Interrupt, value: Json)
    ensures IsTree(HalfAnswered(a, b, value), ROOT, [ROOT])
    ensures PendingSet(HalfAnswered(a, b, value), [ROOT]) == {b.id}
    ensures AllIds(HalfAnswered(a, b, value), [ROOT]) == {a.id, b.id}
  {
    var control := Control([a, b], [Some(value)]);
    var store := HalfAnswered(a, b, value);
    var t := store[ROOT];
    assert WalkWrites(store, t, 1, [ROOT]) == Ok([ROOT]);
    assert WalkWrites(store, t, 0, [ROOT]) == Ok([ROOT]);
    assert [] + [ROOT] == [ROOT] && [ROOT][..0] == [];
    assert !Answered(control, 1) && Answered(control, 0);
    assert OpenIds(control) == {control.interrupts[1].id};
    assert InterruptIds(control) == {control.interrupts[0].id, control.interrupts[1].id};
    assert TuplePending(t, 0) == {} && TupleIds(t, 0) == {};
    assert TuplePending(t, 1) == {b.id} && TupleIds(t, 1) == {a.id, b.id};
  }

  /** With an earlier answer, one value is accepted before the fork and refused on it. */
  lemma EarlierAnswerRefused(a: Interrupt, b: Interrupt, value: Json, n: Naming)
    requires a.id != b.id && NamingOk(HalfAnswered(a, b, value), n)
    ensures var store := HalfAnswered(a, b, value);
            && Validate(store, ROOT, Single(value)) == None
            && n.image(ROOT) in ForkStore(store, [ROOT], n)
            && Select(ForkStore(store, [ROOT], n), n.image(ROOT), Single(value)) == Some(Ambiguous)
  {
    hide NamingOk, PendingSet, AllIds, ForkStore, HalfAnswered;
    var store := HalfAnswered(a, b, value);
    HalfAnsweredTree(a, b, value);
    ForkMeaning(store, ROOT, [ROOT], n);
    assert a.id in {a.id, b.id} && |{a.id, b.id}| == 2;
    ValidateIsSelect(ForkStore(store, [ROOT], n), n.image(ROOT), Single(value));
    WalksAgree(ForkStore(store, [ROOT], n), n.image(ROOT), []);
  }

  // ----- A fork that breaks off -----

  /** What the saver has taken when one of its calls fails: checkpoints, and the writes of some of them. */
  datatype Broken = Broken(puts: set<Config>, written: set<Config>)

  function PartialFork(store: Store, all: seq<Config>, n: Naming, broken: Broken): Store
    requires NamingOk(store, n) && forall c :: c in all ==> c in store
  {
    store + map c | c in all && c in broken.puts ::
      n.image(c) := if c in broken.written then ForkTuple(n, c, store[c]) else ForkTuple(n, c, store[c]).(writes := [])
  }

  /** Every checkpoint is still there as it was. */
  ghost predicate Keeps(store: Store, after: Store)
  {
    forall x :: x in store ==> x in after && after[x] == store[x]
  }

  lemma PartialKeeps(store: Store, all: seq<Config>, n: Naming, broken: Broken)
    requires NamingOk(store, n) && forall c :: c in all ==> c in store
    ensures Keeps(store, PartialFork(store, all, n, broken))
  {
    hide ForkTuple;
  }

  /** A tree that can be read is read the same whatever else is stored. */
  lemma {:induction false} WalkKept(store: Store, after: Store, c: Config, visited: seq<Config>)
    requires Keeps(store, after) && c in store && Walk(store, c, visited).Ok?
    ensures Walk(after, c, visited) == Walk(store, c, visited)
    decreases |store.Keys - Elements(visited)|, 0
  {
    if c !in visited {
      FewerLeft(store, c, visited);
      WritesKept(store, after, store[c], 0, visited + [c]);
    }
  }

  lemma {:induction false} WritesKept(store: Store, after: Store, t: Tuple, i: nat, visited: seq<Config>)
    requires Keeps(store, after) && i <= |t.writes| && WalkWrites(store, t, i, visited).Ok?
    ensures WalkWrites(after, t, i, visited) == WalkWrites(store, t, i, visited)
    decreases |store.Keys - Elements(visited)|, |t.writes| - i + 1
  {
    if i < |t.writes| {
      match t.writes[i] {
        case InterruptWrite(_, _) => WritesKept(store, after, t, i + 1, visited);
        case SubgraphWrite(_, child) =>
          WalkKept(store, after, child.value, visited);
          var more := Walk(store, child.value, visited).value;
          SubsetSize(store.Keys - Elements(more), store.Keys - Elements(visited));
          WritesKept(store, after, t, i + 1, more);
      }
    }
  }

  lemma {:induction false} PendingKept(store: Store, after: Store, visited: seq<Config>)
    requires Keeps(store, after) && forall x :: x in visited ==> x in store
    ensures PendingSet(after, visited) == PendingSet(store, visited)
  {
    hide TuplePending;
    if visited != [] {
      PendingKept(store, after, visited[..|visited| - 1]);
      assert visited[|visited| - 1] in visited;
    }
  }

  /** A fork that breaks off leaves a branch behind; the tree it started from still accepts the command. */
  lemma BrokenForkKeeps(store: Store, root: Config, all: seq<Config>, n: Naming, broken: Broken, command: ResumeCommand)
    requires NamingOk(store, n) && IsTree(store, root, all) && Validate(store, root, command) == None
    ensures forall x :: x in all ==> x in store
    ensures var after := PartialFork(store, all, n, broken);
            Keeps(store, after) && IsTree(after, root, all) && Validate(after, root, command) == None
  {
    hide PartialFork, NamingOk, Walk, PendingSet, Keeps;
    TreeInStore(store, root, all);
    var after := PartialFork(store, all, n, broken);
    PartialKeeps(store, all, n, broken);
    WalkKept(store, after, root, []);
    PendingKept(store, after, all);
    KeptMember(store, after, root);
  }

  lemma KeptMember(store: Store, after: Store, c: Config)
    requires Keeps(store, after) && c in store
    ensures c in after
  {
  }

  /** The command of a thread that both updates the state and answers interrupts. */
  class Thread {
    var store: Store

    constructor (store: Store)
      ensures this.store == store
    {
      this.store := store;
    }

    /**
      A refused command leaves the store as it was; an accepted one publishes the fork before it selects. `failed`
      is what the fork finds wrong with the rest of the command before it publishes anything: an update the reducer
      refuses, an unknown destination, a checkpoint that cannot be restored; `broken` is how far the fork comes when
      a call of the saver fails. Such a fork leaves a branch, and the command can be given again.
    */
    method InvokeCommand(root: Config, command: ResumeCommand, n: Naming, failed: Option<Fault>, broken: Option<Broken>)
      returns (refusal: Option<ResumeError>)
      requires NamingOk(store, n)
      modifies this
      ensures root !in old(store) ==> refusal == Some(NotFound) && store == old(store)
      ensures root in old(store) && Validate(old(store), root, command).Some? ==>
        refusal == Validate(old(store), root, command) && store == old(store)
      ensures root in old(store) && Validate(old(store), root, command).None? && failed.Some? ==>
        refusal == Some(ForkFailed(failed.value)) && store == old(store)
      ensures root in old(store) && Validate(old(store), root, command).None? && failed.None? && broken.Some? ==>
        && Walk(old(store), root, []).Ok?
        && var all := Walk(old(store), root, []).value;
           && (forall x :: x in all ==> x in old(store))
           && refusal == Some(SaveFailed) && store == PartialFork(old(store), all, n, broken.value)
           && Keeps(old(store), store) && root in store && Validate(store, root, command).None?
      ensures root in old(store) && Validate(old(store), root, command).None? && failed.None? && broken.None? ==>
        && Walk(old(store), root, []).Ok?
        && var all := Walk(old(store), root, []).value;
           && (forall x :: x in all ==> x in old(store))
           && store == ForkStore(old(store), all, n)
           && (refusal == None <==> command.ById? || |AllIds(old(store), all)| == 1)
    {
      hide ForkStore, PartialFork, NamingOk, Walk, ResumeWalk, PendingSet, AllIds, Index, Keeps;
      if root !in store { return Some(NotFound); }
      refusal := Validate(store, root, command);
      if refusal.Some? { return; }
      if failed.Some? { return Some(ForkFailed(failed.value)); }
      var all := Walk(store, root, []).value;
      TreeInStore(store, root, all);
      if broken.Some? {
        BrokenForkKeeps(store, root, all, n, broken.value, command);
        store := PartialFork(store, all, n, broken.value);
        return Some(SaveFailed);
      }
      AcceptedAgainExactly(store, root, all, n, command);
      store := ForkStore(store, all, n);
      refusal := Select(store, n.image(root), command);
    }
  }
}
