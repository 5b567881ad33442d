/** What a durable attempt promises over every sequence of calls on a thread. */
module FunctionalTheorems {
  import opened Prelude
  import opened Text
  import opened Functional

  // ----- Task IDs -----

  lemma AfterLastColon(a: string, d: string, a': string, d': string)
    requires a + ":" + d == a' + ":" + d' && ':' !in d && ':' !in d'
    ensures a == a' && d == d'
  {
    var s := a + ":" + d;
    assert s[|a|] == ':' && s[|a'|] == ':';
    assert forall i :: |a| < i < |s| ==> s[i] == d[i - |a| - 1];
    assert forall i :: |a'| < i < |s| ==> s[i] == d'[i - |a'| - 1];
    assert |a| == |a'|;
    assert s[..|a|] == a && s[..|a'|] == a' && s[|a| + 1..] == d && s[|a'| + 1..] == d';
  }

  lemma TaskNameInjective(a: string, n: nat, b: string, m: nat)
    requires TaskName(a, n) == TaskName(b, m)
    ensures a == b && n == m
  {
    DecimalNoColon(n);
    DecimalNoColon(m);
    AfterLastColon("task:" + a, Decimal(n), "task:" + b, Decimal(m));
    assert ("task:" + a)[5..] == a && ("task:" + b)[5..] == b;
    DecimalInjective(n, m);
  }

  // ----- What an attempt has stored -----

  /** Every event of the trace is what the body asked for. */
  ghost predicate TraceOk(f: Workflow, hash: string, previous: Option<Saved>, trace: Trace)
  {
    forall i :: 0 <= i < |trace| ==> SeenOk(f, hash, previous, trace, i)
  }

  ghost predicate SeenOk(f: Workflow, hash: string, previous: Option<Saved>, trace: Trace, i: nat)
    requires i < |trace|
  {
    match f.act(hash, previous, trace[..i])
    case Submits(task) => trace[i] == Submitted(task)
    case Awaits(n) => trace[i].Awaited? && trace[i].n == n && n < |CallsIn(trace[..i])|
    case Asks => trace[i].Answered? || trace[i].Suspended?
    case _ => false
  }

  /** Event i, if it is an answer or none, is what is stored under the number of the interrupt. */
  ghost predicate AskSupported(trace: Trace, answers: Answers, i: nat)
    requires i < |trace|
  {
    && (trace[i].Answered? ==> AsksIn(trace[..i]) in answers && answers[AsksIn(trace[..i])] == Some(trace[i].answer))
    && (trace[i].Suspended? ==> AsksIn(trace[..i]) in answers && answers[AsksIn(trace[..i])] == None)
  }

  /** What the body was told is stored, and only this invocation has added to what it was given. */
  ghost predicate AsksOk(w: World)
    requires w.current.InCall? && w.current.attempt < |w.saved|
  {
    var trace, answers := w.current.trace, w.saved[w.current.attempt].answers;
    && (forall i :: 0 <= i < |trace| ==> AskSupported(trace, answers, i))
    && (forall k :: k in w.current.given ==> k in answers && answers[k] == w.current.given[k])
    && (forall k :: k in answers && k !in w.current.given ==> k < AsksIn(trace) && answers[k] == None)
  }

  /** In the first m events, the awaited results of persistent tasks and the answers are the stored ones. */
  ghost predicate Supported(f: Workflow, trace: Trace, writes: map<string, Stored>, answers: Answers, m: nat)
    requires m <= |trace|
  {
    forall i :: 0 <= i < m ==> (trace[i].Awaited? ==> AwaitSupported(f, trace, writes, i)) && AskSupported(trace, answers, i)
  }

  ghost predicate AwaitSupported(f: Workflow, trace: Trace, writes: map<string, Stored>, i: nat)
    requires i < |trace| && trace[i].Awaited?
  {
    var n := trace[i].n;
    n < |CallsIn(trace)|
    && (CallsIn(trace)[n].persistent ==>
          var id := NameOf(CallsIn(trace)[n], n);
          id in writes && f.decode(writes[id].output) == Some(trace[i].value))
  }

  /** The result of a called task, and the envelope stored for it. */
  ghost predicate ResultStored(f: Workflow, w: World, writes: map<string, Stored>, n: nat)
    requires Called(w, n) && n in w.current.results
  {
    CallOf(w, n).persistent ==>
      && IdOf(w, n) in writes
      && var stored := writes[IdOf(w, n)];
         stored.name == CallOf(w, n).name && stored.key == CallOf(w, n).key && f.decode(stored.output) == Some(w.current.results[n])
  }

  /** Everything stored was recovered by this invocation or produced in it. */
  ghost predicate Produced(w: World, t: string)
    requires w.current.InCall?
  {
    t in w.current.recovered || exists n :: Called(w, n) && n in w.current.results && IdOf(w, n) == t
  }

  ghost predicate ResultsOk(f: Workflow, w: World, writes: map<string, Stored>)
    requires w.current.InCall?
  {
    && (forall t :: t in w.current.recovered ==> t in writes && writes[t] == w.current.recovered[t])
    && (forall t :: t in writes ==> Produced(w, t))
    && (forall n :: n in w.current.results ==> Called(w, n) && ResultStored(f, w, writes, n))
  }

  ghost predicate AwaitsOk(w: World)
    requires w.current.InCall?
  {
    var trace := w.current.trace;
    forall i :: 0 <= i < |trace| && trace[i].Awaited? ==>
      Called(w, trace[i].n) && trace[i].n in w.current.results && w.current.results[trace[i].n] == trace[i].value
  }

  ghost predicate Inv(f: Workflow, w: World)
  {
    && LineageOk(w.saved) && CallOk(w)
    && (w.current.InCall? ==>
          && TraceOk(f, w.current.inputHash, w.current.previous, w.current.trace) && AwaitsOk(w)
          && ResultsOk(f, w, w.saved[w.current.attempt].writes) && AsksOk(w))
  }

  lemma CallsGrow(trace: Trace, seen: Seen)
    ensures CallsIn(trace + [seen]) == if seen.Submitted? then CallsIn(trace) + [seen.task] else CallsIn(trace)
    ensures AsksIn(trace + [seen]) == AsksIn(trace) + if seen.Answered? || seen.Suspended? then 1 else 0
  {
    assert (trace + [seen])[..|trace|] == trace;
  }

  lemma {:induction false} CallsPrefix(trace: Trace, m: nat)
    requires m <= |trace|
    ensures CallsIn(trace[..m]) <= CallsIn(trace)
    decreases |trace|
  {
    if m < |trace| {
      var init := trace[..|trace| - 1];
      CallsPrefix(init, m);
      assert init[..m] == trace[..m];
    } else {
      assert trace[..m] == trace;
    }
  }

  lemma SeeKeeps(f: Workflow, w: World, seen: Seen)
    requires Inv(f, w) && w.current.InCall?
    requires match ActOf(f, w)
             case Submits(task) => seen == Submitted(task)
             case Awaits(n) => Called(w, n) && n in w.current.results && seen == Awaited(n, w.current.results[n])
             case Asks => seen.Answered? || seen.Suspended?
             case _ => false
    requires seen.Answered? || seen.Suspended? ==> AskSupported(w.current.trace + [seen], w.saved[w.current.attempt].answers, |w.current.trace|)
    ensures Inv(f, See(w, seen))
  {
    hide LineageOk, TraceOk, AwaitsOk, ResultsOk, CallsIn, AsksOk, AskSupported;
    TraceGrows(f, w.current.inputHash, w.current.previous, w.current.trace, seen);
    CallsGrow(w.current.trace, seen);
    AwaitsGrow(f, w, seen);
    AsksGrow(w, seen);
    ResultsStay(f, w, seen, w.saved[w.current.attempt].writes);
  }

  lemma TraceGrows(f: Workflow, hash: string, previous: Option<Saved>, trace: Trace, seen: Seen)
    requires TraceOk(f, hash, previous, trace)
    requires match f.act(hash, previous, trace)
             case Submits(task) => seen == Submitted(task)
             case Awaits(n) => seen.Awaited? && seen.n == n && n < |CallsIn(trace)|
             case Asks => seen.Answered? || seen.Suspended?
             case _ => false
    ensures TraceOk(f, hash, previous, trace + [seen])
  {
    hide CallsIn;
    var after := trace + [seen];
    forall i | 0 <= i < |after| ensures SeenOk(f, hash, previous, after, i) {
      if i < |trace| {
        assert after[..i] == trace[..i];
        assert SeenOk(f, hash, previous, trace, i);
      } else {
        assert after[..i] == trace;
      }
    }
  }

  lemma AwaitsGrow(f: Workflow, w: World, seen: Seen)
    requires w.current.InCall? && AwaitsOk(w)
    requires seen.Awaited? ==> Called(w, seen.n) && seen.n in w.current.results && w.current.results[seen.n] == seen.value
    ensures AwaitsOk(See(w, seen))
  {
    hide CallsIn;
    CallsGrow(w.current.trace, seen);
  }

  lemma AsksGrow(w: World, seen: Seen)
    requires w.current.InCall? && w.current.attempt < |w.saved| && AsksOk(w)
    requires seen.Answered? || seen.Suspended? ==> AskSupported(w.current.trace + [seen], w.saved[w.current.attempt].answers, |w.current.trace|)
    ensures AsksOk(See(w, seen))
  {
    hide AsksIn;
    var trace, after, answers := w.current.trace, w.current.trace + [seen], w.saved[w.current.attempt].answers;
    CallsGrow(trace, seen);
    forall i | 0 <= i < |after| ensures AskSupported(after, answers, i) {
      if i < |trace| {
        assert AskSupported(trace, answers, i) && after[..i] == trace[..i];
      }
    }
  }

  /** The body asks: the answer it was given, or a prompt that is now stored. */
  lemma AskKeeps(f: Workflow, w: World)
    requires Inv(f, w) && w.current.InCall? && ActOf(f, w).Asks?
    ensures Inv(f, DoAsk(w))
  {
    hide LineageOk, TraceOk, AwaitsOk, ResultsOk, CallsIn, AsksIn, AsksOk, AskSupported;
    var trace, k, attempt := w.current.trace, AsksIn(w.current.trace), w.saved[w.current.attempt];
    if k in w.current.given {
      var seen := if w.current.given[k].Some? then Answered(w.current.given[k].value) else Suspended;
      GivenAsks(w, seen);
      SeeKeeps(f, w, seen);
    } else {
      var answers := attempt.answers[k := None];
      var w' := w.(saved := w.saved[w.current.attempt := attempt.(answers := answers)]);
      RewriteKeeps(w.saved, w.current.attempt, attempt.writes, answers);
      SameResults(f, w, w');
      TraceGrows(f, w.current.inputHash, w.current.previous, trace, Suspended);
      AwaitsGrow(f, w', Suspended);
      ResultsStay(f, w', Suspended, attempt.writes);
      PromptAsks(w);
    }
  }

  lemma GivenAsks(w: World, seen: Seen)
    requires w.current.InCall? && w.current.attempt < |w.saved| && AsksOk(w) && AsksIn(w.current.trace) in w.current.given
    requires var given := w.current.given[AsksIn(w.current.trace)]; seen == if given.Some? then Answered(given.value) else Suspended
    ensures AskSupported(w.current.trace + [seen], w.saved[w.current.attempt].answers, |w.current.trace|)
  {
    hide AsksIn;
    assert (w.current.trace + [seen])[..|w.current.trace|] == w.current.trace;
  }

  lemma SameResults(f: Workflow, w: World, w': World)
    requires w.current.InCall? && w.current.attempt < |w.saved| && w'.current == w.current && |w'.saved| == |w.saved|
    requires w'.saved[w.current.attempt].writes == w.saved[w.current.attempt].writes
    requires ResultsOk(f, w, w.saved[w.current.attempt].writes) && AwaitsOk(w)
    ensures ResultsOk(f, w', w'.saved[w'.current.attempt].writes) && AwaitsOk(w')
  {
    hide TaskName, CallsIn;
    var writes := w.saved[w.current.attempt].writes;
    forall t | t in writes ensures Produced(w', t) {
      assert Produced(w, t);
      if t !in w.current.recovered {
        var n :| Called(w, n) && n in w.current.results && IdOf(w, n) == t;
        assert Called(w', n) && IdOf(w', n) == t;
      }
    }
    forall n | n in w'.current.results ensures Called(w', n) && ResultStored(f, w', writes, n) {
      assert Called(w, n) && ResultStored(f, w, writes, n);
    }
  }

  /** A new prompt has a number of its own. */
  lemma PromptAsks(w: World)
    requires w.current.InCall? && w.current.attempt < |w.saved| && AsksOk(w) && AsksIn(w.current.trace) !in w.current.given
    ensures AsksOk(DoAsk(w))
  {
    hide AsksIn;
    var trace, k, answers := w.current.trace, AsksIn(w.current.trace), w.saved[w.current.attempt].answers;
    var after := trace + [Suspended];
    CallsGrow(trace, Suspended);
    var stored := answers[k := None];
    forall i | 0 <= i < |after| ensures AskSupported(after, stored, i) {
      if i < |trace| {
        assert AskSupported(trace, answers, i) && after[..i] == trace[..i];
        AsksBefore(trace, i);
      } else {
        assert after[..i] == trace;
      }
    }
  }

  lemma {:induction false} AsksBefore(trace: Trace, i: nat)
    requires i < |trace|
    ensures AsksIn(trace[..i]) <= AsksIn(trace)
    ensures trace[i].Answered? || trace[i].Suspended? ==> AsksIn(trace[..i]) < AsksIn(trace)
    decreases |trace|
  {
    var init := trace[..|trace| - 1];
    if i < |init| {
      AsksBefore(init, i);
      assert init[..i] == trace[..i];
    }
  }

  lemma StaysCalled(w: World, seen: Seen, n: nat)
    requires Called(w, n)
    ensures Called(See(w, seen), n) && CallOf(See(w, seen), n) == CallOf(w, n) && IdOf(See(w, seen), n) == IdOf(w, n)
  {
    hide TaskName, CallsIn;
    CallsGrow(w.current.trace, seen);
  }

  lemma StaysProduced(w: World, seen: Seen, t: string)
    requires w.current.InCall? && Produced(w, t)
    ensures Produced(See(w, seen), t)
  {
    hide IdOf, Called;
    if t !in w.current.recovered {
      var n :| Called(w, n) && n in w.current.results && IdOf(w, n) == t;
      StaysCalled(w, seen, n);
    }
  }

  lemma StaysStored(f: Workflow, w: World, seen: Seen, writes: map<string, Stored>, n: nat)
    requires Called(w, n) && n in w.current.results && ResultStored(f, w, writes, n)
    ensures Called(See(w, seen), n) && ResultStored(f, See(w, seen), writes, n)
  {
    hide IdOf, CallOf, CallsIn;
    StaysCalled(w, seen, n);
  }

  lemma ResultsStay(f: Workflow, w: World, seen: Seen, writes: map<string, Stored>)
    requires w.current.InCall? && ResultsOk(f, w, writes)
    ensures ResultsOk(f, See(w, seen), writes)
  {
    hide Produced, ResultStored, Called;
    var w' := See(w, seen);
    forall t | t in writes ensures Produced(w', t) {
      StaysProduced(w, seen, t);
    }
    forall n | n in w'.current.results ensures Called(w', n) && ResultStored(f, w', writes, n) {
      StaysStored(f, w, seen, writes, n);
    }
  }

  /** A task that gets its result, and perhaps its envelope, leaves the others alone. */
  lemma ResultKeeps(f: Workflow, w: World, n: nat, value: Output, writes: map<string, Stored>)
    requires Inv(f, w) && w.current.InCall? && Called(w, n) && n !in w.current.results
    requires var before := w.saved[w.current.attempt].writes;
             && (writes == before || (IdOf(w, n) !in before && writes.Keys == before.Keys + {IdOf(w, n)} && CallOf(w, n).persistent))
             && forall t :: t in before ==> writes[t] == before[t]
    requires ResultStored(f, w.(current := w.current.(results := w.current.results[n := value])), writes, n)
    ensures var w' := World(w.saved[w.current.attempt := w.saved[w.current.attempt].(writes := writes)],
                            w.current.(results := w.current.results[n := value]));
            Inv(f, w')
  {
    hide TaskName, LineageOk, TraceOk, AsksIn, AskSupported, ResultsOk, ResultStored, Produced, IdOf, CallsIn;
    RewriteKeeps(w.saved, w.current.attempt, writes, w.saved[w.current.attempt].answers);
    NewResult(f, w, n, value, writes);
  }

  lemma NewResult(f: Workflow, w: World, n: nat, value: Output, writes: map<string, Stored>)
    requires w.current.InCall? && Called(w, n) && n !in w.current.results && w.current.attempt < |w.saved|
    requires ResultsOk(f, w, w.saved[w.current.attempt].writes)
    requires var before := w.saved[w.current.attempt].writes;
             && (writes == before || (IdOf(w, n) !in before && writes.Keys == before.Keys + {IdOf(w, n)} && CallOf(w, n).persistent))
             && forall t :: t in before ==> writes[t] == before[t]
    requires ResultStored(f, w.(current := w.current.(results := w.current.results[n := value])), writes, n)
    ensures ResultsOk(f, World(w.saved[w.current.attempt := w.saved[w.current.attempt].(writes := writes)],
                               w.current.(results := w.current.results[n := value])), writes)
  {
    hide IdOf, ResultStored, Produced;
    var w' := World(w.saved[w.current.attempt := w.saved[w.current.attempt].(writes := writes)],
                    w.current.(results := w.current.results[n := value]));
    var before := w.saved[w.current.attempt].writes;
    forall t | t in writes ensures Produced(w', t) {
      if t in before {
        ResultProduced(w, w', n, value, t);
      } else {
        OwnProduced(w, w', n, t);
      }
    }
    forall m | m in w'.current.results ensures Called(w', m) && ResultStored(f, w', writes, m) {
      if m != n {
        ResultStoredStill(f, w, w', n, value, writes, m);
      } else {
        OwnStored(f, w, w', n, value, writes);
      }
    }
  }

  lemma ResultProduced(w: World, w': World, n: nat, value: Output, t: string)
    requires w.current.InCall? && w'.current == w.current.(results := w.current.results[n := value]) && Produced(w, t)
    ensures Produced(w', t)
  {
    hide TaskName, CallsIn;
    if t !in w.current.recovered {
      var m :| Called(w, m) && m in w.current.results && IdOf(w, m) == t;
      assert Called(w', m) && IdOf(w', m) == t;
    }
  }

  lemma OwnProduced(w: World, w': World, n: nat, t: string)
    requires Called(w, n) && w'.current.InCall? && w'.current == w.current.(results := w'.current.results)
    requires n in w'.current.results && IdOf(w, n) == t
    ensures Produced(w', t)
  {
    hide TaskName, CallsIn;
    assert Called(w', n) && IdOf(w', n) == t;
  }

  lemma ResultStoredStill(f: Workflow, w: World, w': World, n: nat, value: Output, writes: map<string, Stored>, m: nat)
    requires w.current.InCall? && w.current.attempt < |w.saved| && m != n && m in w.current.results
    requires w'.current == w.current.(results := w.current.results[n := value])
    requires ResultsOk(f, w, w.saved[w.current.attempt].writes)
    requires forall t :: t in w.saved[w.current.attempt].writes ==> t in writes && writes[t] == w.saved[w.current.attempt].writes[t]
    ensures Called(w', m) && m in w'.current.results && ResultStored(f, w', writes, m)
  {
    hide TaskName, CallsIn, Produced;
    assert Called(w, m) && ResultStored(f, w, w.saved[w.current.attempt].writes, m);
  }

  lemma OwnStored(f: Workflow, w: World, w': World, n: nat, value: Output, writes: map<string, Stored>)
    requires Called(w, n) && w'.current == w.current.(results := w.current.results[n := value])
    requires ResultStored(f, w.(current := w.current.(results := w.current.results[n := value])), writes, n)
    ensures Called(w', n) && ResultStored(f, w', writes, n)
  {
    hide TaskName, CallsIn;
  }

  lemma ExecuteKeeps(f: Workflow, w: World, n: nat, value: Output)
    requires WorkflowOk(f) && Inv(f, w) && DoExecute(f, w, n, value).Some?
    ensures Inv(f, DoExecute(f, w, n, value).value)
  {
    hide LineageOk, TraceOk, AwaitsOk, AsksOk;
    var task, id := CallOf(w, n), IdOf(w, n);
    var attempt := w.saved[w.current.attempt];
    if !task.persistent {
      ResultKeeps(f, w, n, value, attempt.writes);
      assert w.saved[w.current.attempt := attempt.(writes := attempt.writes)] == w.saved;
    } else {
      NotStoredYet(f, w, n);
      assert f.decode(f.encode(value)) == Some(value);
      var writes := attempt.writes[id := Stored(task.name, task.key, f.encode(value))];
      ResultKeeps(f, w, n, value, writes);
    }
  }

  /** A persistent task that may run has nothing stored, since task IDs differ from call to call. */
  lemma NotStoredYet(f: Workflow, w: World, n: nat)
    requires Inv(f, w) && MayExecute(w, n) && CallOf(w, n).persistent
    ensures IdOf(w, n) !in w.saved[w.current.attempt].writes
  {
    hide LineageOk, TraceOk, AwaitsOk, AsksOk, TaskName;
    var id := IdOf(w, n);
    if id in w.saved[w.current.attempt].writes {
      assert Produced(w, id);
      var m :| Called(w, m) && m in w.current.results && IdOf(w, m) == id;
      TaskNameInjective(CallOf(w, m).name, m, CallOf(w, n).name, n);
      assert false;
    }
  }

  lemma RecoverKeeps(f: Workflow, w: World, n: nat)
    requires Inv(f, w) && DoRecover(f, w, n).Some?
    ensures Inv(f, DoRecover(f, w, n).value)
  {
    hide LineageOk, TraceOk, AwaitsOk, AsksOk;
    var attempt := w.saved[w.current.attempt];
    var value := DoRecover(f, w, n).value.current.results[n];
    ResultKeeps(f, w, n, value, attempt.writes);
    assert w.saved[w.current.attempt := attempt.(writes := attempt.writes)] == w.saved;
  }

  lemma StepKeeps(f: Workflow, w: World, move: Move)
    requires WorkflowOk(f) && Inv(f, w) && Next(f, w, move).Some?
    ensures Inv(f, Next(f, w, move).value)
  {
    hide LineageOk, CallOk, TraceOk, AwaitsOk, ResultsOk, AsksOk, AskSupported, CallsIn, AsksIn;
    NextKeeps(f, w, move);
    match move {
      case Invoke(hash) => InvokeInv(f, w, hash);
      case Recover(n) => RecoverKeeps(f, w, n);
      case Execute(n, value) => ExecuteKeeps(f, w, n, value);
      case Submit => SeeKeeps(f, w, Submitted(ActOf(f, w).task));
      case Await => SeeKeeps(f, w, Awaited(ActOf(f, w).n, w.current.results[ActOf(f, w).n]));
      case Ask => AskKeeps(f, w);
      case Finish =>
      case Resume(_) =>
      case Stop =>
    }
  }

  lemma InvokeInv(f: Workflow, w: World, hash: string)
    requires Inv(f, w) && DoInvoke(w, hash).Some?
    ensures Inv(f, DoInvoke(w, hash).value)
  {
    hide LineageOk, CallsIn, AsksIn;
    NextKeeps(f, w, Invoke(hash));
  }

  lemma {:induction false} RunKeeps(f: Workflow, w: World, moves: seq<Move>)
    requires WorkflowOk(f) && Inv(f, w) && Run(f, w, moves).Some?
    ensures Inv(f, Run(f, w, moves).value)
  {
    hide Inv, Next;
    if moves != [] {
      RunKeeps(f, w, moves[..|moves| - 1]);
      StepKeeps(f, Run(f, w, moves[..|moves| - 1]).value, moves[|moves| - 1]);
    }
  }

  ghost predicate Reaches(f: Workflow, moves: seq<Move>, w: World)
  {
    Run(f, NOTHING, moves) == Some(w)
  }

  lemma ReachedInv(f: Workflow, moves: seq<Move>, w: World)
    requires WorkflowOk(f) && Reaches(f, moves, w)
    ensures Inv(f, w)
  {
    hide Next;
    RunKeeps(f, NOTHING, moves);
  }

  // ----- The promises -----

  /** Every invocation gets the value saved by the latest complete checkpoint, whatever failed in between. */
  lemma PreviousIsLatestSave(f: Workflow, moves: seq<Move>, w: World)
    requires WorkflowOk(f) && Reaches(f, moves, w) && w.current.InCall?
    ensures w.current.previous == LatestSave(w.saved)
  {
    hide Next, TraceOk, AwaitsOk, ResultsOk;
    ReachedInv(f, moves, w);
    LastOk(w.saved);
  }

  /** Checkpoint k is still there, with the same identity and everything it had stored. */
  ghost predicate Keeps(w: World, w': World, k: nat)
    requires k < |w.saved|
  {
    && k < |w'.saved|
    && w'.saved[k].status == w.saved[k].status && w'.saved[k].previous == w.saved[k].previous
    && forall t :: t in w.saved[k].writes ==> t in w'.saved[k].writes && w'.saved[k].writes[t] == w.saved[k].writes[t]
  }

  lemma StepKeepsStored(f: Workflow, w: World, move: Move, k: nat)
    requires k < |w.saved| && Next(f, w, move).Some?
    ensures Keeps(w, Next(f, w, move).value, k)
  {
    hide TaskName, CallsIn;
  }

  /** No answer that w has is given again. */
  ghost predicate NotReanswered(w: World, moves: seq<Move>)
    requires w.current.InCall? && w.current.attempt < |w.saved|
  {
    var answers := w.saved[w.current.attempt].answers;
    forall i, k :: 0 <= i < |moves| && moves[i].Resume? && k in moves[i].answers ==> !(k in answers && answers[k].Some?)
  }

  ghost predicate AnswersStand(before: Answers, after: Answers)
  {
    forall k :: k in before && before[k].Some? ==> k in after && after[k] == before[k]
  }

  lemma StepKeepsAnswers(f: Workflow, w: World, move: Move, j: nat, k: nat)
    requires Inv(f, w) && Next(f, w, move).Some? && j < |w.saved|
    requires k in w.saved[j].answers && w.saved[j].answers[k].Some?
    requires move.Resume? ==> k !in move.answers
    ensures j < |Next(f, w, move).value.saved|
    ensures var after := Next(f, w, move).value.saved[j].answers; k in after && after[k] == w.saved[j].answers[k]
  {
    hide TaskName, CallsIn, LineageOk, TraceOk, AwaitsOk, ResultsOk, AskSupported, AsksIn;
  }

  lemma {:induction false} RunKeepsAnswers(f: Workflow, w: World, moves: seq<Move>)
    requires WorkflowOk(f) && Inv(f, w) && w.current.InCall? && w.current.attempt < |w.saved| && Run(f, w, moves).Some?
    requires NotReanswered(w, moves)
    ensures w.current.attempt < |Run(f, w, moves).value.saved|
    ensures AnswersStand(w.saved[w.current.attempt].answers, Run(f, w, moves).value.saved[w.current.attempt].answers)
  {
    hide Next, Inv;
    if moves != [] {
      var init, last, j := moves[..|moves| - 1], moves[|moves| - 1], w.current.attempt;
      RunKeepsAnswers(f, w, init);
      RunKeeps(f, w, init);
      var before := Run(f, w, init).value;
      StepKeepsStored(f, before, last, j);
      forall k | k in w.saved[j].answers && w.saved[j].answers[k].Some?
        ensures var after := Next(f, before, last).value.saved[j].answers; k in after && after[k] == w.saved[j].answers[k]
      {
        assert last == moves[|moves| - 1];
        StepKeepsAnswers(f, before, last, j, k);
      }
    }
  }

  lemma {:induction false} RunKeepsStored(f: Workflow, w: World, moves: seq<Move>, k: nat)
    requires k < |w.saved| && Run(f, w, moves).Some?
    ensures Keeps(w, Run(f, w, moves).value, k)
  {
    hide Next;
    if moves != [] {
      RunKeepsStored(f, w, moves[..|moves| - 1], k);
      StepKeepsStored(f, Run(f, w, moves[..|moves| - 1]).value, moves[|moves| - 1], k);
    }
  }

  /** In the first m events, the results awaited are those of persistent tasks, and every question was answered. */
  ghost predicate Settled(trace: Trace, m: nat)
    requires m <= |trace|
  {
    forall i :: 0 <= i < m ==>
      && (trace[i].Awaited? ==> trace[i].n < |CallsIn(trace)| && CallsIn(trace)[trace[i].n].persistent)
      && !trace[i].Suspended?
  }

  /** Two traces of one body that are supported by the same writes and answers agree as long as the first is settled. */
  lemma {:induction false} SameTrace(f: Workflow, hash: string, previous: Option<Saved>, writes: map<string, Stored>,
                                     answers: Answers, a: Trace, b: Trace, m: nat)
    requires m <= |a| && m <= |b| && TraceOk(f, hash, previous, a) && TraceOk(f, hash, previous, b)
    requires Supported(f, a, writes, answers, m) && Supported(f, b, writes, answers, m) && Settled(a, m)
    ensures a[..m] == b[..m]
  {
    hide TaskName, AsksIn, CallsIn, AskSupported, AwaitSupported, SeenOk;
    if m > 0 {
      SameTrace(f, hash, previous, writes, answers, a, b, m - 1);
      assert SeenOk(f, hash, previous, a, m - 1) && SeenOk(f, hash, previous, b, m - 1);
      SameEvent(f, hash, previous, writes, answers, a, b, m - 1);
      assert a[..m] == a[..m - 1] + [a[m - 1]] && b[..m] == b[..m - 1] + [b[m - 1]];
    }
  }

  /** After the same events the body does the same, and is told the same. */
  lemma SameEvent(f: Workflow, hash: string, previous: Option<Saved>, writes: map<string, Stored>,
                  answers: Answers, a: Trace, b: Trace, m: nat)
    requires m < |a| && m < |b| && a[..m] == b[..m] && SeenOk(f, hash, previous, a, m) && SeenOk(f, hash, previous, b, m)
    requires AskSupported(a, answers, m) && AskSupported(b, answers, m)
    requires a[m].Awaited? ==> AwaitSupported(f, a, writes, m) && a[m].n < |CallsIn(a)| && CallsIn(a)[a[m].n].persistent
    requires b[m].Awaited? ==> AwaitSupported(f, b, writes, m)
    requires !a[m].Suspended?
    ensures a[m] == b[m]
  {
    hide TaskName, AsksIn, CallsIn;
    CallsPrefix(a, m);
    CallsPrefix(b, m);
  }

  lemma TraceSupported(f: Workflow, w: World, writes: map<string, Stored>, answers: Answers, m: nat)
    requires Inv(f, w) && w.current.InCall? && m <= |w.current.trace|
    requires forall t :: t in w.saved[w.current.attempt].writes ==> t in writes && writes[t] == w.saved[w.current.attempt].writes[t]
    requires answers == w.saved[w.current.attempt].answers
             || (AnswersStand(w.saved[w.current.attempt].answers, answers) && Settled(w.current.trace, m))
    ensures Supported(f, w.current.trace, writes, answers, m)
  {
    hide TaskName, LineageOk, TraceOk, AsksIn;
    var trace := w.current.trace;
    forall i | 0 <= i < m
      ensures (trace[i].Awaited? ==> AwaitSupported(f, trace, writes, i)) && AskSupported(trace, answers, i)
    {
      if trace[i].Awaited? { assert ResultStored(f, w, w.saved[w.current.attempt].writes, trace[i].n); }
      assert AskSupported(trace, w.saved[w.current.attempt].answers, i);
    }
  }

  /** Later than w, another invocation of the same attempt, with no answer changed in between. */
  ghost predicate Reinvoked(f: Workflow, moves: seq<Move>, w: World, more: seq<Move>, w': World)
  {
    && Reaches(f, moves, w) && Run(f, w, more) == Some(w')
    && w.current.InCall? && w'.current.InCall? && w'.current.attempt == w.current.attempt
    && w.current.attempt < |w.saved| && NotReanswered(w, more)
  }

  /**
    As long as the body of an attempt awaits results of persistent tasks only and has its questions answered, every
    later invocation of the attempt sees the same: it submits the same tasks with the same inputs, gets the same
    results and is given the same answers.
  */
  lemma ReplayAgrees(f: Workflow, moves: seq<Move>, w: World, more: seq<Move>, w': World, m: nat)
    requires WorkflowOk(f) && Reinvoked(f, moves, w, more, w')
    requires m <= |w.current.trace| && m <= |w'.current.trace| && Settled(w.current.trace, m)
    ensures w'.current.trace[..m] == w.current.trace[..m]
  {
    hide Next, LineageOk, TraceOk, AwaitsOk, ResultsOk, AsksOk, Supported, Settled, AnswersStand, NotReanswered;
    ReachedInv(f, moves, w);
    RunKeeps(f, w, more);
    RunKeepsStored(f, w, more, w.current.attempt);
    RunKeepsAnswers(f, w, more);
    var writes, answers := w'.saved[w'.current.attempt].writes, w'.saved[w'.current.attempt].answers;
    TraceSupported(f, w, writes, answers, m);
    TraceSupported(f, w', writes, answers, m);
    SameTrace(f, w.current.inputHash, w.current.previous, writes, answers, w.current.trace, w'.current.trace, m);
  }

  /** The place in the trace where the n-th task is submitted. */
  lemma {:induction false} SubmittedAt(trace: Trace, n: nat) returns (p: nat)
    requires n < |CallsIn(trace)|
    ensures p < |trace| && |CallsIn(trace[..p])| == n && trace[p] == Submitted(CallsIn(trace)[n])
  {
    var init := trace[..|trace| - 1];
    if n < |CallsIn(init)| {
      p := SubmittedAt(init, n);
      assert init[..p] == trace[..p];
    } else {
      p := |trace| - 1;
    }
  }

  /** The trace is settled up to where the n-th task is submitted. */
  ghost predicate CallSettled(trace: Trace, n: nat)
  {
    forall p :: 0 <= p < |trace| && |CallsIn(trace[..p])| <= n ==> Settled(trace, p)
  }

  lemma SameCall(f: Workflow, moves: seq<Move>, w: World, more: seq<Move>, w': World, n: nat)
    requires WorkflowOk(f) && Reinvoked(f, moves, w, more, w')
    requires Called(w, n) && Called(w', n) && CallSettled(w.current.trace, n)
    ensures CallOf(w', n) == CallOf(w, n)
  {
    hide Inv, Reinvoked, Settled, CallsIn;
    BothInCall(f, moves, w, more, w');
    var a, b := w.current.trace, w'.current.trace;
    var p := SubmittedAt(a, n);
    var q := SubmittedAt(b, n);
    assert Settled(a, p);
    if q < p {
      NotEarlier(f, moves, w, more, w', p, q);
    }
    ReplayAgrees(f, moves, w, more, w', p);
    NextCall(f, moves, w, more, w', p);
    assert a[..p] == b[..p] && b[p] == a[p];
    CallsGrow(b[..p], b[p]);
    assert b[..p + 1] == b[..p] + [b[p]];
    CallsPrefix(b, p + 1);
  }

  lemma BothInCall(f: Workflow, moves: seq<Move>, w: World, more: seq<Move>, w': World)
    requires Reinvoked(f, moves, w, more, w')
    ensures w.current.InCall? && w'.current.InCall? && w'.current.attempt == w.current.attempt
  {
    hide Run, Reaches;
  }

  /** The later invocation does not submit a task where the earlier one had not come to it yet. */
  lemma NotEarlier(f: Workflow, moves: seq<Move>, w: World, more: seq<Move>, w': World, p: nat, q: nat)
    requires WorkflowOk(f) && Reinvoked(f, moves, w, more, w')
    requires q < p < |w.current.trace| && q < |w'.current.trace| && Settled(w.current.trace, p)
    requires w'.current.trace[q].Submitted?
    ensures |CallsIn(w'.current.trace[..q])| < |CallsIn(w.current.trace[..p])|
  {
    hide Inv, Reinvoked, Settled, CallsIn;
    BothInCall(f, moves, w, more, w');
    var a, b := w.current.trace, w'.current.trace;
    AwaitsBefore(a, p, q);
    ReplayAgrees(f, moves, w, more, w', q);
    NextCall(f, moves, w, more, w', q);
    assert a[..q] == b[..q];
    CallsGrow(a[..q], a[q]);
    assert a[..q + 1] == a[..q] + [a[q]];
    CallsBefore(a, p, q + 1);
  }

  lemma AwaitsBefore(trace: Trace, p: nat, q: nat)
    requires q <= p <= |trace| && Settled(trace, p)
    ensures Settled(trace, q)
  {
  }

  lemma CallsBefore(trace: Trace, p: nat, q: nat)
    requires q <= p <= |trace|
    ensures |CallsIn(trace[..q])| <= |CallsIn(trace[..p])|
  {
    CallsPrefix(trace[..p], q);
    assert trace[..p][..q] == trace[..q];
  }

  /** Where two invocations have seen the same, a submission by one is a submission by the other. */
  lemma NextCall(f: Workflow, moves: seq<Move>, w: World, more: seq<Move>, w': World, m: nat)
    requires WorkflowOk(f) && Reinvoked(f, moves, w, more, w')
    requires m < |w.current.trace| && m < |w'.current.trace| && w.current.trace[..m] == w'.current.trace[..m]
    ensures w.current.trace[m].Submitted? || w'.current.trace[m].Submitted? ==> w.current.trace[m] == w'.current.trace[m]
  {
    hide Next, LineageOk, AwaitsOk, ResultsOk;
    ReachedInv(f, moves, w);
    RunKeeps(f, w, more);
    RunKeepsStored(f, w, more, w.current.attempt);
    assert SeenOk(f, w.current.inputHash, w.current.previous, w.current.trace, m);
    assert SeenOk(f, w.current.inputHash, w.current.previous, w'.current.trace, m);
  }

  /**
    Once an attempt has the result of a persistent task that was submitted on persistent results only, no later
    invocation of the attempt runs the task again: it makes the same call, and has the same result or recovers it.
  */
  lemma StoredTaskReused(f: Workflow, moves: seq<Move>, w: World, more: seq<Move>, w': World, n: nat)
    requires WorkflowOk(f) && Reinvoked(f, moves, w, more, w')
    requires Called(w, n) && n in w.current.results && CallOf(w, n).persistent && CallSettled(w.current.trace, n)
    requires Called(w', n)
    ensures CallOf(w', n) == CallOf(w, n) && !MayExecute(w', n)
    ensures n in w'.current.results ==> w'.current.results[n] == w.current.results[n]
    ensures Waiting(w', n) ==>
      DoRecover(f, w', n).Some? && DoRecover(f, w', n).value.current.results[n] == w.current.results[n]
  {
    hide Next, LineageOk, TraceOk, AwaitsOk, TaskName, CallSettled, CallsIn;
    SameCall(f, moves, w, more, w', n);
    ReachedInv(f, moves, w);
    RunKeeps(f, w, more);
    RunKeepsStored(f, w, more, w.current.attempt);
    var writes, id := w'.saved[w'.current.attempt].writes, IdOf(w, n);
    assert ResultStored(f, w, w.saved[w.current.attempt].writes, n);
    assert Produced(w', id);
    if n !in w'.current.results && id !in w'.current.recovered {
      var m :| Called(w', m) && m in w'.current.results && IdOf(w', m) == id;
      TaskNameInjective(CallOf(w', m).name, m, CallOf(w, n).name, n);
      assert false;
    }
    if n in w'.current.results {
      assert ResultStored(f, w', writes, n);
    }
  }

  // ----- Replaying without work -----

  /** An invocation of the attempt of w has come as far as w's first m events, and may recover what w stored. */
  ghost predicate Replays(w: World, w': World, m: nat)
    requires w.current.InCall? && m <= |w.current.trace|
  {
    && w'.current.InCall? && w'.saved == w.saved && w'.current.attempt == w.current.attempt
    && w'.current.inputHash == w.current.inputHash && w'.current.previous == w.current.previous
    && w'.current.trace == w.current.trace[..m] && w'.current.attempt < |w.saved|
    && w'.current.recovered == w.saved[w.current.attempt].writes && w'.current.given == w.saved[w.current.attempt].answers
  }

  ghost predicate NoWork(moves: seq<Move>)
  {
    forall i :: 0 <= i < |moves| ==> moves[i] in [Submit, Await, Ask] || moves[i].Recover?
  }

  lemma RunOne(f: Workflow, w: World, move: Move)
    ensures Run(f, w, [move]) == Next(f, w, move)
  {
    hide Next;
    assert [move][..0] == [] && Run(f, w, []) == Some(w);
  }

  lemma {:induction false} RunConcat(f: Workflow, w: World, a: seq<Move>, b: seq<Move>)
    requires Run(f, w, a).Some?
    ensures Run(f, w, a + b) == Run(f, Run(f, w, a).value, b)
  {
    hide Next;
    if b == [] {
      assert a + b == a;
    } else {
      RunConcat(f, w, a, b[..|b| - 1]);
      assert (a + b)[..|a + b| - 1] == a + b[..|b| - 1];
    }
  }

  /** The stored result of an awaited task can be recovered, if it is not there yet. */
  lemma RecoverAwaited(f: Workflow, w: World, w': World, m: nat) returns (moves: seq<Move>, w'': World)
    requires WorkflowOk(f) && Inv(f, w) && Inv(f, w') && w.current.InCall? && m < |w.current.trace| && Replays(w, w', m) && Settled(w.current.trace, m + 1)
    requires w.current.trace[m].Awaited?
    ensures Run(f, w', moves) == Some(w'') && NoWork(moves) && Inv(f, w'') && Replays(w, w'', m)
    ensures var n := w.current.trace[m].n;
            Called(w'', n) && n in w''.current.results && w''.current.results[n] == w.current.trace[m].value
  {
    hide TaskName, LineageOk, Next, Run, AsksOk;
    var n, writes := w.current.trace[m].n, w.saved[w.current.attempt].writes;
    assert SeenOk(f, w.current.inputHash, w.current.previous, w.current.trace, m);
    CallsPrefix(w.current.trace, m);
    assert Called(w', n) && CallOf(w', n) == CallOf(w, n);
    assert ResultStored(f, w, writes, n);
    if n in w'.current.results {
      assert ResultStored(f, w', writes, n);
      NothingRuns(f, w');
      return [], w';
    }
    RecoverOne(f, w', n);
    RunOne(f, w', Recover(n));
    RecoverKeeps(f, w', n);
    moves, w'' := [Recover(n)], DoRecover(f, w', n).value;
  }

  lemma RecoverOne(f: Workflow, w: World, n: nat)
    requires Called(w, n) && n !in w.current.results && w.current.attempt < |w.saved| && CallOf(w, n).persistent
    requires IdOf(w, n) in w.current.recovered
    requires var stored := w.current.recovered[IdOf(w, n)];
             stored.name == CallOf(w, n).name && stored.key == CallOf(w, n).key && f.decode(stored.output).Some?
    ensures DoRecover(f, w, n).Some? && Next(f, w, Recover(n)) == DoRecover(f, w, n)
    ensures DoRecover(f, w, n).value == w.(current := w.current.(results := w.current.results[n := f.decode(w.current.recovered[IdOf(w, n)].output).value]))
  {
    hide TaskName, CallsIn;
  }

  lemma NothingRuns(f: Workflow, w: World)
    ensures Run(f, w, []) == Some(w)
  {
  }

  lemma ReplayOne(f: Workflow, w: World, w': World, m: nat) returns (moves: seq<Move>, w'': World)
    requires WorkflowOk(f) && Inv(f, w) && Inv(f, w') && w.current.InCall? && m < |w.current.trace| && Replays(w, w', m) && Settled(w.current.trace, m + 1)
    ensures Run(f, w', moves) == Some(w'') && NoWork(moves) && Inv(f, w'') && Replays(w, w'', m + 1)
  {
    hide TaskName, LineageOk, Run, CallsIn, Inv;
    var seen := w.current.trace[m];
    TraceEvent(f, w, m);
    assert w.current.trace[..m + 1] == w.current.trace[..m] + [seen];
    if seen.Submitted? {
      moves, w'' := [Submit], See(w', seen);
      RunOne(f, w', Submit);
      SeeKeeps(f, w', seen);
    } else if seen.Answered? {
      GivenAgain(f, w, w', m);
      moves, w'' := [Ask], See(w', seen);
      RunOne(f, w', Ask);
      AskKeeps(f, w');
    } else {
      NotSuspended(w.current.trace, m);
      var first, ready := RecoverAwaited(f, w, w', m);
      RunOne(f, ready, Await);
      SeeKeeps(f, ready, seen);
      moves, w'' := first + [Await], See(ready, seen);
      RunConcat(f, w', first, [Await]);
    }
  }

  lemma NotSuspended(trace: Trace, m: nat)
    requires m < |trace| && Settled(trace, m + 1)
    ensures !trace[m].Suspended?
  {
  }

  /** The answer a trace was given is given again. */
  lemma GivenAgain(f: Workflow, w: World, w': World, m: nat)
    requires Inv(f, w) && w.current.InCall? && m < |w.current.trace| && Replays(w, w', m) && w.current.trace[m].Answered?
    ensures ActOf(f, w').Asks? && Next(f, w', Ask) == Some(See(w', w.current.trace[m]))
    ensures DoAsk(w') == See(w', w.current.trace[m])
  {
    hide LineageOk, ResultsOk, AwaitsOk, AsksIn, CallsIn;
    assert SeenOk(f, w.current.inputHash, w.current.previous, w.current.trace, m);
    assert AskSupported(w.current.trace, w.saved[w.current.attempt].answers, m);
  }

  lemma TraceEvent(f: Workflow, w: World, m: nat)
    requires Inv(f, w) && w.current.InCall? && m < |w.current.trace|
    ensures SeenOk(f, w.current.inputHash, w.current.previous, w.current.trace, m)
  {
    hide LineageOk, ResultsOk, AwaitsOk;
  }

  lemma {:induction false} ReplayFrom(f: Workflow, w: World, w': World, m: nat) returns (moves: seq<Move>, w'': World)
    requires WorkflowOk(f) && Inv(f, w) && Inv(f, w') && w.current.InCall? && m <= |w.current.trace| && Replays(w, w', m)
    requires Settled(w.current.trace, |w.current.trace|)
    ensures Run(f, w', moves) == Some(w'') && NoWork(moves) && Replays(w, w'', |w.current.trace|)
    decreases |w.current.trace| - m
  {
    hide Inv, Run, Settled;
    if m == |w.current.trace| {
      NothingRuns(f, w');
      return [], w';
    }
    AwaitsBefore(w.current.trace, |w.current.trace|, m + 1);
    var first, next := ReplayOne(f, w, w', m);
    var rest;
    rest, w'' := ReplayFrom(f, w, next, m + 1);
    moves := first + rest;
    RunConcat(f, w', first, rest);
  }

  /**
    If an invocation stops and its input is invoked again, the new invocation can come to the same point without
    executing any task, provided the results awaited so far are those of persistent tasks.
  */
  lemma ReplayWithoutWork(f: Workflow, moves: seq<Move>, w: World) returns (more: seq<Move>, w': World)
    requires WorkflowOk(f) && Reaches(f, moves, w) && w.current.InCall? && Settled(w.current.trace, |w.current.trace|)
    ensures Run(f, w, [Stop, Invoke(w.current.inputHash)] + more) == Some(w') && NoWork(more)
    ensures w'.current.InCall? && w'.current.trace == w.current.trace && w'.saved == w.saved && w'.current.attempt == w.current.attempt
  {
    hide Run, LineageOk, TraceOk, AwaitsOk, ResultsOk, Settled;
    ReachedInv(f, moves, w);
    var again := [Stop, Invoke(w.current.inputHash)];
    var stopped := w.(current := Idle);
    RunOne(f, w, Stop);
    RunOne(f, stopped, Invoke(w.current.inputHash));
    assert again == [Stop] + [Invoke(w.current.inputHash)];
    RunConcat(f, w, [Stop], [Invoke(w.current.inputHash)]);
    var invoked := Run(f, w, again).value;
    RunKeeps(f, w, again);
    assert Replays(w, invoked, 0);
    more, w' := ReplayFrom(f, w, invoked, 0);
    RunConcat(f, w, again, more);
    assert w.current.trace[..|w.current.trace|] == w.current.trace;
  }

  // ----- Why the awaited results must be persistent -----

  /** Draws a value with a task that is not persistent, then passes it to one that is. */
  function DrawThenUse(keyOf: Output -> string, encode: Output -> Encoded, decode: Encoded -> Option<Output>): Workflow
  {
    Workflow(
      (hash: string, previous: Option<Saved>, trace: Trace) =>
        if |trace| == 0 then Submits(TaskCall("draw", "", false))
        else if |trace| == 1 then Awaits(0)
        else if |trace| == 2 && trace[1].Awaited? then Submits(TaskCall("use", keyOf(trace[1].value), true))
        else Fails,
      encode, decode)
  }

  function Drawn(value: Output): seq<Move>
  {
    [Submit, Execute(0, value), Await, Submit]
  }

  /** An invocation that has drawn a value. */
  ghost predicate HasDrawn(keyOf: Output -> string, w: World, value: Output)
  {
    && w.current.InCall? && CallsIn(w.current.trace) == [TaskCall("draw", "", false), TaskCall("use", keyOf(value), true)]
    && w.current.results == map[0 := value] && w.current.attempt < |w.saved|
  }

  lemma Draws(keyOf: Output -> string, encode: Output -> Encoded, decode: Encoded -> Option<Output>, w: World, value: Output)
    requires w.current.InCall? && w.current.trace == [] && w.current.results == map[] && w.current.attempt < |w.saved|
    ensures var after := Run(DrawThenUse(keyOf, encode, decode), w, Drawn(value));
            && after.Some? && after.value.saved == w.saved && HasDrawn(keyOf, after.value, value)
            && after.value.current.attempt == w.current.attempt && after.value.current.recovered == w.current.recovered
  {
    hide TaskName, Run, CallsIn;
    var f, draw, use := DrawThenUse(keyOf, encode, decode), TaskCall("draw", "", false), TaskCall("use", keyOf(value), true);
    var one: Trace := [Submitted(draw)];
    var two: Trace := [Submitted(draw), Awaited(0, value)];
    DrawTraces(value, draw, use);
    assert w.current.trace + [Submitted(draw)] == one && one + [Awaited(0, value)] == two;
    var w1 := See(w, Submitted(draw));
    var w2 := w1.(current := w1.current.(results := map[0 := value]));
    var w3 := See(w2, Awaited(0, value));
    assert w1.current.results[0 := value] == map[0 := value];
    assert Next(f, w, Submit) == Some(w1) && Next(f, w1, Execute(0, value)) == Some(w2);
    assert Next(f, w2, Await) == Some(w3) && Next(f, w3, Submit) == Some(See(w3, Submitted(use)));
    RunFour(f, w, w1, w2, w3, Submit, Execute(0, value), Await, Submit);
  }

  lemma DrawTraces(value: Output, draw: TaskCall, use: TaskCall)
    ensures var one: Trace, two: Trace := [Submitted(draw)], [Submitted(draw), Awaited(0, value)];
            CallsIn(one) == [draw] && CallsIn(two) == [draw] && CallsIn(two + [Submitted(use)]) == [draw, use]
  {
    var none: Trace := [];
    var one: Trace, two: Trace := [Submitted(draw)], [Submitted(draw), Awaited(0, value)];
    CallsGrow(none, Submitted(draw));
    CallsGrow(one, Awaited(0, value));
    CallsGrow(two, Submitted(use));
    assert none + [Submitted(draw)] == one && one + [Awaited(0, value)] == two && CallsIn(none) == [];
  }

  lemma RunFour(f: Workflow, w: World, w1: World, w2: World, w3: World, a: Move, b: Move, c: Move, d: Move)
    requires Next(f, w, a) == Some(w1) && Next(f, w1, b) == Some(w2) && Next(f, w2, c) == Some(w3)
    ensures Run(f, w, [a, b, c, d]) == Next(f, w3, d)
  {
    hide Next, Run;
    RunOne(f, w, a);
    RunOne(f, w1, b);
    RunOne(f, w2, c);
    RunOne(f, w3, d);
    RunConcat(f, w, [a], [b]);
    RunConcat(f, w, [a] + [b], [c]);
    RunConcat(f, w, [a] + [b] + [c], [d]);
    assert [a, b, c, d] == [a] + [b] + [c] + [d];
  }

  /**
    After a stop the second invocation draws another value, calls the second task with another input, and is stuck:
    the stored result belongs to the first input, so the task is neither recovered nor run.
  */
  lemma DrawnDiffers(keyOf: Output -> string, encode: Output -> Encoded, decode: Encoded -> Option<Output>,
                     a: Output, b: Output, result: Output, hash: string) returns (moves: seq<Move>, w: World)
    requires (forall v: Output :: decode(encode(v)) == Some(v)) && keyOf(a) != keyOf(b) && keyOf(a) != ""
    ensures WorkflowOk(DrawThenUse(keyOf, encode, decode)) && Reaches(DrawThenUse(keyOf, encode, decode), moves, w)
    ensures Waiting(w, 1) && !MayExecute(w, 1) && DoRecover(DrawThenUse(keyOf, encode, decode), w, 1).None?
  {
    hide TaskName, Run, CallsIn;
    var f := DrawThenUse(keyOf, encode, decode);
    var w0 := World([Checkpoint(0, Running(hash), None, map[], map[])], InCall(hash, None, 0, 1, map[], map[], [], map[]));
    RunOne(f, NOTHING, Invoke(hash));
    Draws(keyOf, encode, decode, w0, a);
    var w1 := Run(f, w0, Drawn(a)).value;
    var id, stored := TaskName("use", 1), Stored("use", keyOf(a), encode(result));
    assert CallOf(w1, 1) == TaskCall("use", keyOf(a), true);
    RunOne(f, w1, Execute(1, result));
    var w2 := Next(f, w1, Execute(1, result)).value;
    assert w2.saved[0].writes == map[][id := stored];
    RunOne(f, w2, Stop);
    var idle := w2.(current := Idle);
    RunOne(f, idle, Invoke(hash));
    var w3 := Next(f, idle, Invoke(hash)).value;
    Draws(keyOf, encode, decode, w3, b);
    w := Run(f, w3, Drawn(b)).value;
    assert CallOf(w, 1) == TaskCall("use", keyOf(b), true);
    moves := [Invoke(hash)] + Drawn(a) + [Execute(1, result)] + [Stop] + [Invoke(hash)] + Drawn(b);
    RunConcat(f, NOTHING, [Invoke(hash)], Drawn(a));
    RunConcat(f, NOTHING, [Invoke(hash)] + Drawn(a), [Execute(1, result)]);
    RunConcat(f, NOTHING, [Invoke(hash)] + Drawn(a) + [Execute(1, result)], [Stop]);
    RunConcat(f, NOTHING, [Invoke(hash)] + Drawn(a) + [Execute(1, result)] + [Stop], [Invoke(hash)]);
    RunConcat(f, NOTHING, [Invoke(hash)] + Drawn(a) + [Execute(1, result)] + [Stop] + [Invoke(hash)], Drawn(b));
  }

  // ----- Why answers must stand -----

  /** Asks, then passes the answer to a persistent task. */
  function AskThenUse(keyOf: Answer -> string, encode: Output -> Encoded, decode: Encoded -> Option<Output>): Workflow
  {
    Workflow(
      (hash: string, previous: Option<Saved>, trace: Trace) =>
        if |trace| == 0 then Asks
        else if |trace| == 1 && trace[0].Answered? then Submits(TaskCall("use", keyOf(trace[0].answer), true))
        else Fails,
      encode, decode)
  }

  lemma RunFurther(f: Workflow, w0: World, moves: seq<Move>, w: World, move: Move)
    requires Run(f, w0, moves) == Some(w)
    ensures Run(f, w0, moves + [move]) == Next(f, w, move)
  {
    hide Next;
    assert (moves + [move])[..|moves|] == moves;
  }

  /** The one attempt of the thread, with its first interrupt answered. */
  function Attempted(hash: string, writes: map<string, Stored>, answer: Answer): World
  {
    World([Checkpoint(0, Running(hash), None, writes, map[0 := Some(answer)])], Idle)
  }

  /** The attempt invoked again, with this trace. */
  function Reached(hash: string, writes: map<string, Stored>, answer: Answer, trace: Trace): World
  {
    World(Attempted(hash, writes, answer).saved, InCall(hash, None, 0, 1, writes, map[0 := Some(answer)], trace, map[]))
  }

  /** The attempt invoked again up to where the answer has been passed on. */
  function Passed(keyOf: Answer -> string, hash: string, writes: map<string, Stored>, answer: Answer): World
  {
    Reached(hash, writes, answer, [Answered(answer), Submitted(TaskCall("use", keyOf(answer), true))])
  }

  lemma PassInvoke(f: Workflow, hash: string, writes: map<string, Stored>, answer: Answer)
    ensures Next(f, Attempted(hash, writes, answer), Invoke(hash)) == Some(Reached(hash, writes, answer, []))
  {
  }

  lemma PassAsk(f: Workflow, hash: string, writes: map<string, Stored>, answer: Answer, none: Trace)
    requires none == [] && f.act(hash, None, none) == Asks
    ensures Next(f, Reached(hash, writes, answer, none), Ask) == Some(Reached(hash, writes, answer, none + [Answered(answer)]))
  {
    hide CallsIn;
    NoneSeen();
  }

  lemma PassSubmit(f: Workflow, hash: string, writes: map<string, Stored>, answer: Answer, one: Trace, task: TaskCall)
    requires f.act(hash, None, one) == Submits(task)
    ensures Next(f, Reached(hash, writes, answer, one), Submit) == Some(Reached(hash, writes, answer, one + [Submitted(task)]))
  {
    hide CallsIn;
  }

  lemma PassTraces(answer: Answer, task: TaskCall)
    ensures var none: Trace := []; none + [Answered(answer)] == [Answered(answer)]
    ensures [Answered(answer)] + [Submitted(task)] == [Answered(answer), Submitted(task)]
    ensures CallsIn([Answered(answer), Submitted(task)]) == [task]
  {
    hide CallsIn;
    NoneSeen();
    var none: Trace, one: Trace := [], [Answered(answer)];
    assert none + [Answered(answer)] == one;
    CallsGrow(none, Answered(answer));
    CallsGrow(one, Submitted(task));
  }

  lemma Passes(keyOf: Answer -> string, encode: Output -> Encoded, decode: Encoded -> Option<Output>,
               hash: string, writes: map<string, Stored>, answer: Answer)
    ensures Run(AskThenUse(keyOf, encode, decode), Attempted(hash, writes, answer), [Invoke(hash), Ask, Submit])
         == Some(Passed(keyOf, hash, writes, answer))
    ensures CallsIn(Passed(keyOf, hash, writes, answer).current.trace) == [TaskCall("use", keyOf(answer), true)]
  {
    hide Run, Next, CallsIn, Attempted;
    var f, w0, none: Trace := AskThenUse(keyOf, encode, decode), Attempted(hash, writes, answer), [];
    var one := none + [Answered(answer)];
    PassTraces(answer, TaskCall("use", keyOf(answer), true));
    PassInvoke(f, hash, writes, answer);
    PassAsk(f, hash, writes, answer, none);
    PassSubmit(f, hash, writes, answer, one, TaskCall("use", keyOf(answer), true));
    RunOne(f, w0, Invoke(hash));
    RunFurther(f, w0, [Invoke(hash)], Reached(hash, writes, answer, none), Ask);
    RunFurther(f, w0, [Invoke(hash)] + [Ask], Reached(hash, writes, answer, one), Submit);
    assert [Invoke(hash)] + [Ask] + [Submit] == [Invoke(hash), Ask, Submit];
  }

  lemma NoneSeen()
    ensures CallsIn([]) == [] && AsksIn([]) == 0
  {
  }

  /**
    An answer that is given again, with another value, takes the invocation to another call: the stored result
    belongs to the first answer, so the task is neither recovered nor run.
  */
  lemma ReansweredDiffers(keyOf: Answer -> string, encode: Output -> Encoded, decode: Encoded -> Option<Output>,
                          a: Answer, b: Answer, result: Output, hash: string) returns (moves: seq<Move>, w: World)
    requires (forall v: Output :: decode(encode(v)) == Some(v)) && keyOf(a) != keyOf(b) && keyOf(a) != ""
    ensures WorkflowOk(AskThenUse(keyOf, encode, decode)) && Reaches(AskThenUse(keyOf, encode, decode), moves, w)
    ensures Waiting(w, 0) && !MayExecute(w, 0) && DoRecover(AskThenUse(keyOf, encode, decode), w, 0).None?
  {
    hide TaskName, Run, CallsIn;
    var f := AskThenUse(keyOf, encode, decode);
    var first := FirstAnswer(keyOf, encode, decode, a, hash);
    Passes(keyOf, encode, decode, hash, map[], a);
    var w1 := Passed(keyOf, hash, map[], a);
    RunConcat(f, NOTHING, first, [Invoke(hash), Ask, Submit]);
    moves := first + [Invoke(hash), Ask, Submit];
    var writes := map[TaskName("use", 0) := Stored("use", keyOf(a), encode(result))];
    UseExecutes(keyOf, encode, decode, a, result, hash, w1, writes);
    RunFurther(f, NOTHING, moves, w1, Execute(0, result));
    moves := moves + [Execute(0, result)];
    RunFurther(f, NOTHING, moves, Next(f, w1, Execute(0, result)).value, Stop);
    moves := moves + [Stop];
    GivesAgain(hash, writes, a, b);
    RunFurther(f, NOTHING, moves, Attempted(hash, writes, a), Resume(map[0 := b]));
    moves := moves + [Resume(map[0 := b])];
    Passes(keyOf, encode, decode, hash, writes, b);
    RunConcat(f, NOTHING, moves, [Invoke(hash), Ask, Submit]);
    moves, w := moves + [Invoke(hash), Ask, Submit], Passed(keyOf, hash, writes, b);
  }

  lemma GivesAgain(hash: string, writes: map<string, Stored>, a: Answer, b: Answer)
    ensures DoResume(Attempted(hash, writes, a), map[0 := b]) == Some(Attempted(hash, writes, b))
  {
    var w := Attempted(hash, writes, a);
    assert map[0 := b].Keys == {0} && w.saved[0].answers.Keys == {0};
    assert Given(map[0 := Some(a)], map[0 := b]) == map[0 := Some(b)];
    assert w.saved[0 := w.saved[0].(answers := map[0 := Some(b)])] == Attempted(hash, writes, b).saved;
  }

  lemma UseExecutes(keyOf: Answer -> string, encode: Output -> Encoded, decode: Encoded -> Option<Output>,
                    a: Answer, result: Output, hash: string, w: World, writes: map<string, Stored>)
    requires keyOf(a) != "" && writes == map[TaskName("use", 0) := Stored("use", keyOf(a), encode(result))]
    requires w == Passed(keyOf, hash, map[], a)
    ensures Next(AskThenUse(keyOf, encode, decode), w, Execute(0, result)).Some?
    ensures Next(AskThenUse(keyOf, encode, decode), w, Execute(0, result)).value.saved == Attempted(hash, writes, a).saved
  {
    hide TaskName, CallsIn, Run;
    Passes(keyOf, encode, decode, hash, map[], a);
    assert CallOf(w, 0) == TaskCall("use", keyOf(a), true) && IdOf(w, 0) == TaskName("use", 0);
    assert w.saved[0].writes[TaskName("use", 0) := Stored("use", keyOf(a), encode(result))] == writes;
    var after := DoExecute(AskThenUse(keyOf, encode, decode), w, 0, result).value;
    assert after.saved == [w.saved[0].(writes := writes)];
  }

  lemma AnswersFirst(hash: string, w: World, a: Answer)
    requires w == World([Checkpoint(0, Running(hash), None, map[], map[0 := None])], Idle)
    ensures DoResume(w, map[0 := a]) == Some(Attempted(hash, map[], a))
  {
    assert map[0 := a].Keys == {0} && w.saved[0].answers.Keys == {0};
    assert Given(map[0 := None], map[0 := a]) == map[0 := Some(a)];
    assert w.saved[0 := w.saved[0].(answers := map[0 := Some(a)])] == Attempted(hash, map[], a).saved;
  }

  /** The body asks for the first time, stops, and is given an answer. */
  lemma FirstAnswer(keyOf: Answer -> string, encode: Output -> Encoded, decode: Encoded -> Option<Output>, a: Answer, hash: string)
    returns (moves: seq<Move>)
    ensures Run(AskThenUse(keyOf, encode, decode), NOTHING, moves) == Some(Attempted(hash, map[], a))
  {
    hide Run, CallsIn;
    var f := AskThenUse(keyOf, encode, decode);
    NoneSeen();
    var w1 := Next(f, NOTHING, Invoke(hash)).value;
    var w2 := Next(f, w1, Ask).value;
    assert w2.saved == [Checkpoint(0, Running(hash), None, map[], map[0 := None])];
    var w3 := w2.(current := Idle);
    AnswersFirst(hash, w3, a);
    RunOne(f, NOTHING, Invoke(hash));
    moves := [Invoke(hash)];
    RunFurther(f, NOTHING, moves, w1, Ask);
    moves := moves + [Ask];
    RunFurther(f, NOTHING, moves, w2, Stop);
    moves := moves + [Stop];
    RunFurther(f, NOTHING, moves, w3, Resume(map[0 := a]));
    moves := moves + [Resume(map[0 := a])];
  }
}
