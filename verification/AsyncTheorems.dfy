/** What the asynchronous saver promises, over every interleaving. */
module AsyncTheorems {
  import opened Prelude
  import opened AsyncSaver

  ghost predicate Reaches(n: nat, steps: seq<Step>, s: State)
  {
    Run(Initial(n), steps) == Some(s)
  }

  lemma ReachedOk(n: nat, steps: seq<Step>, s: State)
    requires Reaches(n, steps, s)
    ensures Inv(s)
  {
    hide Inv, Initial;
    InitialOk(n);
    RunKeeps(Initial(n), steps);
  }

  // ----- Order and failure -----

  lemma StepFrozen(s: State, step: Step)
    requires s.pipe.firstErr.Some? && Next(s, step).Some?
    ensures Next(s, step).value.pipe.log == s.pipe.log && Next(s, step).value.pipe.firstErr == s.pipe.firstErr
  {
    hide LockFree;
  }

  lemma {:induction false} RunFrozen(s: State, steps: seq<Step>)
    requires s.pipe.firstErr.Some? && Run(s, steps).Some?
    ensures Run(s, steps).value.pipe.log == s.pipe.log && Run(s, steps).value.pipe.firstErr == s.pipe.firstErr
  {
    hide Next;
    if steps != [] {
      RunFrozen(s, steps[..|steps| - 1]);
      StepFrozen(Run(s, steps[..|steps| - 1]).value, steps[|steps| - 1]);
    }
  }

  /**
    The underlying saver has been called with exactly a prefix of the accepted commands, in queue order;
    after its first failure it is never called again and the error stays.
  */
  lemma PrefixApplied(n: nat, steps: seq<Step>, s: State, more: seq<Step>)
    requires Reaches(n, steps, s) && Run(s, more).Some?
    ensures |s.pipe.log| <= |s.pipe.queue| && s.pipe.log == s.pipe.queue[..|s.pipe.log|]
    ensures s.pipe.firstErr.Some? ==> Run(s, more).value.pipe.log == s.pipe.log && Run(s, more).value.pipe.firstErr == s.pipe.firstErr
  {
    ReachedOk(n, steps, s);
    if s.pipe.firstErr.Some? {
      RunFrozen(s, more);
    }
  }

  lemma StepAfterFlush(s: State, step: Step)
    requires Inv(s) && s.pipe.closed && Next(s, step).Some?
    ensures Next(s, step).value.pipe.queue == s.pipe.queue && Next(s, step).value.pipe.closed
  {
    assert s.pipe.closed && LockFree(s);
    hide Inv;
    match step {
      case Send(c) =>
      case Take =>
      case Execute(_) =>
      case Exit =>
      case BeginFlush =>
      case EndFlush =>
      case _ =>
        hide Next, LockFree;
        PipeSteps(s, step);
    }
  }

  lemma {:induction false} RunAfterFlush(s: State, steps: seq<Step>)
    requires Inv(s) && s.pipe.closed && Run(s, steps).Some?
    ensures Run(s, steps).value.pipe.queue == s.pipe.queue && Run(s, steps).value.pipe.closed
  {
    hide Next, Inv;
    if steps != [] {
      RunAfterFlush(s, steps[..|steps| - 1]);
      RunKeeps(s, steps[..|steps| - 1]);
      StepAfterFlush(Run(s, steps[..|steps| - 1]).value, steps[|steps| - 1]);
    }
  }

  /** When Flush returns nil, every accepted command has been applied, and none will be accepted later. */
  lemma FlushApplied(n: nat, steps: seq<Step>, s: State, more: seq<Step>)
    requires Reaches(n, steps, s) && s.pipe.flush == Flushed(None) && Run(s, more).Some?
    ensures s.pipe.log == s.pipe.queue && Run(s, more).value.pipe.queue == s.pipe.queue
  {
    ReachedOk(n, steps, s);
    RunAfterFlush(s, more);
    assert s.pipe.queue[..|s.pipe.queue|] == s.pipe.queue;
  }

  // ----- What readers and the store see -----

  /** A checkpoint put in this run reads back as its last Put with every write recorded for it so far. */
  lemma OverlayReads(n: nat, steps: seq<Step>, s: State, config: Config)
    requires Reaches(n, steps, s)
    ensures config.id != "" && LastPut(s.buffers.begun, config).Some? ==>
      GetTuple(s, config) == Found(LastPut(s.buffers.begun, config).value, AllWrites(s.buffers.begun, config))
    ensures config.id == "" && NewestPut(s.buffers.begun, (config.thread, config.namespace)).Some? ==>
      var newest := config.(id := NewestPut(s.buffers.begun, (config.thread, config.namespace)).value);
      LastPut(s.buffers.begun, newest).Some? && GetTuple(s, config) == Found(LastPut(s.buffers.begun, newest).value, AllWrites(s.buffers.begun, newest))
    ensures config.id != "" && LastPut(s.buffers.begun, config).None? ==> !GetTuple(s, config).Found?
  {
    ReachedOk(n, steps, s);
    var scope := (config.thread, config.namespace);
    assert NewestPut(s.buffers.begun, scope) == if scope in s.buffers.latest then Some(s.buffers.latest[scope]) else None;
    if NewestPut(s.buffers.begun, scope).Some? {
      NewestWasPut(s.buffers.begun, scope);
    }
    var key := if config.id == "" && scope in s.buffers.latest then config.(id := s.buffers.latest[scope]) else config;
    assert LastPut(s.buffers.begun, key) == if key in s.buffers.drafts then Some(s.buffers.drafts[key]) else None;
    assert AllWrites(s.buffers.begun, key) == WritesFor(s.buffers.writes, key);
  }

  lemma {:induction false} NewestWasPut(log: seq<Tagged>, scope: (string, string))
    requires NewestPut(log, scope).Some?
    ensures LastPut(log, Config(scope.0, scope.1, NewestPut(log, scope).value)).Some?
  {
    if log[|log| - 1].command.PutCommand? {
      var c := log[|log| - 1].command.config;
      if (c.thread, c.namespace) != scope {
        NewestWasPut(log[..|log| - 1], scope);
      }
    } else {
      NewestWasPut(log[..|log| - 1], scope);
    }
  }

  /**
    The commands of one caller that are accepted keep their order, whatever is refused in between; none is lost
    without an error and none is duplicated.
  */
  lemma CallerOrder(n: nat, steps: seq<Step>, s: State, c: nat)
    requires Reaches(n, steps, s) && c < |s.callers|
    ensures multiset(Of(s.buffers.begun, c)) == multiset(Of(s.pipe.queue, c)) + multiset(Of(s.dropped, c)) + multiset(InFlight(s.callers[c]))
    ensures Subsequence(Of(s.pipe.queue, c), Of(s.buffers.begun, c))
    ensures Of(s.dropped, c) == [] ==> Of(s.buffers.begun, c) == Of(s.pipe.queue, c) + InFlight(s.callers[c])
  {
    hide Subsequence, Of;
    ReachedOk(n, steps, s);
    assert CallerOk(s, c);
    var queue := Of(s.pipe.queue, c);
    if s.callers[c].Ready? {
      assert queue + [] == queue;
    } else {
      SubsequenceShorter(queue, Of(s.buffers.begun, c), s.callers[c].command);
    }
  }

  ghost predicate OnlyCaller(log: seq<Tagged>, c: nat)
  {
    forall i :: 0 <= i < |log| ==> log[i].caller == c
  }

  lemma {:induction false} OfOnly(log: seq<Tagged>, c: nat)
    requires OnlyCaller(log, c)
    ensures |Of(log, c)| == |log| && forall i :: 0 <= i < |log| ==> log[i] == Tagged(c, Of(log, c)[i])
  {
    if log != [] {
      OfOnly(log[..|log| - 1], c);
    }
  }

  lemma StepOnly(s: State, step: Step)
    requires |s.callers| == 1 && OnlyCaller(s.buffers.begun, 0) && OnlyCaller(s.pipe.queue, 0) && OnlyCaller(s.dropped, 0) && Next(s, step).Some?
    ensures var s' := Next(s, step).value;
            |s'.callers| == 1 && OnlyCaller(s'.buffers.begun, 0) && OnlyCaller(s'.pipe.queue, 0) && OnlyCaller(s'.dropped, 0)
  {
    hide LockFree;
    match step {
      case Record(c, command) =>
      case Lock(c) =>
      case Send(c) =>
      case GiveUp(c) =>
      case _ =>
    }
  }

  lemma {:induction false} RunOnly(steps: seq<Step>)
    requires Run(Initial(1), steps).Some?
    ensures var s := Run(Initial(1), steps).value;
            |s.callers| == 1 && OnlyCaller(s.buffers.begun, 0) && OnlyCaller(s.pipe.queue, 0) && OnlyCaller(s.dropped, 0)
  {
    hide Next;
    if steps != [] {
      RunOnly(steps[..|steps| - 1]);
      StepOnly(Run(Initial(1), steps[..|steps| - 1]).value, steps[|steps| - 1]);
    }
  }

  /** With one caller, a Flush without error leaves the store exactly as direct calls in program order would. */
  lemma LooksSynchronous(steps: seq<Step>, s: State)
    requires Reaches(1, steps, s) && s.pipe.flush == Flushed(None) && s.callers == [Ready] && s.dropped == []
    ensures s.pipe.log == s.buffers.begun
  {
    RunOnly(steps);
    FlushApplied(1, steps, s, []);
    CallerOrder(1, steps, s, 0);
    OfOnly(s.buffers.begun, 0);
    OfOnly(s.pipe.queue, 0);
  }

  /** The writer drains a queue of two. */
  lemma DrainTwo(s0: State, steps: seq<Step>, s: State) returns (more: seq<Step>, s': State)
    requires Run(s0, steps) == Some(s) && |s.pipe.queue| == 2 && s.pipe.taken == 0 && s.pipe.writer == Receiving && s.pipe.firstErr == None && s.pipe.log == []
    ensures Run(s0, more) == Some(s') && s'.buffers.begun == s.buffers.begun && s'.pipe.log == s.pipe.queue
  {
    hide Next, Run;
    var mid;
    more, mid := DrainOne(s0, steps, s);
    more, s' := DrainOne(s0, more, mid);
    assert [s.pipe.queue[0]] + [s.pipe.queue[1]] == s.pipe.queue;
  }

  /** The writer takes the next command and applies it. */
  lemma DrainOne(s0: State, steps: seq<Step>, s: State) returns (more: seq<Step>, s': State)
    requires Run(s0, steps) == Some(s) && s.pipe.taken < |s.pipe.queue| && s.pipe.writer == Receiving && s.pipe.firstErr == None
    ensures Run(s0, more) == Some(s') && s'.buffers == s.buffers && s'.pipe.queue == s.pipe.queue && s'.pipe.taken == s.pipe.taken + 1
    ensures s'.pipe.writer == Receiving && s'.pipe.firstErr == None && s'.pipe.log == s.pipe.log + [s.pipe.queue[s.pipe.taken]]
  {
    hide Run, LockFree;
    var s1 := Next(s, Take).value;
    s' := Next(s1, Execute(None)).value;
    more := RunMore(s0, steps, s, Take);
    more := RunMore(s0, more, s1, Execute(None));
  }

  lemma SendFrom(s0: State, steps: seq<Step>, s: State, c: nat, a: Command) returns (more: seq<Step>, s': State)
    requires Run(s0, steps) == Some(s) && c < |s.callers| && LockFree(s) && s.callers[c] == Recorded(a)
    requires !s.pipe.closed && s.pipe.firstErr == None && |s.pipe.queue| < s.pipe.taken + CAPACITY
    ensures Run(s0, more) == Some(s') && s' == s.(callers := s.callers[c := Ready], pipe := s.pipe.(queue := s.pipe.queue + [Tagged(c, a)]))
  {
    var locked := s.(callers := s.callers[c := Sending(a)]);
    assert Next(s, Lock(c)) == Some(locked);
    s' := s.(callers := s.callers[c := Ready], pipe := s.pipe.(queue := s.pipe.queue + [Tagged(c, a)]));
    assert locked.callers[c := Ready] == s.callers[c := Ready];
    assert Next(locked, Send(c)) == Some(s');
    hide Next;
    more := RunMore(s0, steps, s, Lock(c));
    more := RunMore(s0, more, locked, Send(c));
  }

  /** Across callers there is no such order: two commands can reach the store in the other order. */
  lemma CallersReorder(a: Command, b: Command) returns (steps: seq<Step>, s: State)
    ensures Reaches(2, steps, s) && s.buffers.begun == [Tagged(0, a), Tagged(1, b)] && s.pipe.log == [Tagged(1, b), Tagged(0, a)]
  {
    hide Next, Run, Initial;
    var s0 := Initial(2);
    steps, s := RecordTwo(a, b);
    steps, s := SendFrom(s0, steps, s, 1, b);
    steps, s := SendFrom(s0, steps, s, 0, a);
    steps, s := DrainTwo(s0, steps, s);
  }

  lemma RecordTwo(a: Command, b: Command) returns (steps: seq<Step>, s: State)
    ensures Run(Initial(2), steps) == Some(s)
    ensures s.buffers.begun == [Tagged(0, a), Tagged(1, b)] && s.callers == [Recorded(a), Recorded(b)] && s.pipe == Initial(2).pipe
    ensures !s.pipe.closed && s.pipe.firstErr == None && s.pipe.queue == [] && s.pipe.taken == 0 && s.pipe.writer == Receiving && s.pipe.log == []
  {
    hide Run, LockFree;
    var s0 := Initial(2);
    var s1 := Next(s0, Record(0, a)).value;
    s := Next(s1, Record(1, b)).value;
    assert Run(s0, []) == Some(s0) by { NothingRuns(s0); }
    steps := RunMore(s0, [], s0, Record(0, a));
    steps := RunMore(s0, steps, s1, Record(1, b));
    assert [] + [Tagged(0, a)] + [Tagged(1, b)] == [Tagged(0, a), Tagged(1, b)];
  }

  lemma NothingRuns(s: State)
    ensures Run(s, []) == Some(s)
  {
  }

  lemma RunMore(s0: State, steps: seq<Step>, s: State, step: Step) returns (more: seq<Step>)
    requires Run(s0, steps) == Some(s) && Next(s, step).Some?
    ensures more == steps + [step] && Run(s0, more) == Next(s, step)
  {
    hide Next;
    more := steps + [step];
    assert more[..|more| - 1] == steps;
  }

  // ----- No deadlock -----

  /** Steps that the callers in a call, the writer and a waiting Flush take on their own. */
  predicate Internal(step: Step)
  {
    step.Lock? || step.Send? || step.Take? || step.Execute? || step.Exit? || step.EndFlush?
  }

  function Weight(caller: Caller): nat
  {
    match caller case Ready => 0 case Recorded(_) => 4 case Sending(_) => 3
  }

  function Weights(callers: seq<Caller>): nat
  {
    if callers == [] then 0 else Weights(callers[..|callers| - 1]) + Weight(callers[|callers| - 1])
  }

  /** The work left if no further call is made. */
  function WorkLeft(s: State): int
  {
    Weights(s.callers) + 2 * (|s.pipe.queue| - s.pipe.taken)
    + (match s.pipe.writer case Holding(_) => 2 case Receiving => 1 case Exited => 0)
    + (if s.pipe.flush.Waiting? then 1 else 0)
  }

  lemma {:induction false} WeightsUpdate(callers: seq<Caller>, c: nat, caller: Caller)
    requires c < |callers|
    ensures Weights(callers[c := caller]) == Weights(callers) - Weight(callers[c]) + Weight(caller)
  {
    var n := |callers| - 1;
    if c == n {
      assert callers[c := caller][..n] == callers[..n];
    } else {
      assert callers[c := caller][..n] == callers[..n][c := caller];
      WeightsUpdate(callers[..n], c, caller);
    }
  }

  lemma CallShrinks(s: State, step: Step)
    requires Inv(s) && (step.Lock? || step.Send?) && Next(s, step).Some?
    ensures WorkLeft(Next(s, step).value) < WorkLeft(s)
  {
    hide Inv, LockFree, Weights;
    WeightsUpdate(s.callers, step.caller, Ready);
    if step.Lock? {
      WeightsUpdate(s.callers, step.caller, Sending(s.callers[step.caller].command));
    }
  }

  lemma WorkShrinks(s: State, step: Step)
    requires Inv(s) && Internal(step) && Next(s, step).Some?
    ensures 0 <= WorkLeft(Next(s, step).value) < WorkLeft(s)
  {
    NextKeeps(s, step);
    WorkPositive(Next(s, step).value);
    hide Inv, LockFree, Weights;
    match step {
      case Lock(c) => CallShrinks(s, step);
      case Send(c) => CallShrinks(s, step);
      case Take =>
      case Execute(_) =>
      case Exit =>
      case EndFlush =>
    }
  }

  predicate AtRest(s: State)
  {
    !s.pipe.flush.Waiting? && forall c :: 0 <= c < |s.callers| ==> s.callers[c].Ready?
  }

  /** While a call or a Flush is under way, somebody can move: a full channel cannot block for ever. */
  lemma NoDeadlock(s: State) returns (step: Step)
    requires Inv(s) && !AtRest(s)
    ensures Internal(step) && Next(s, step).Some?
  {
    hide OverlayOk, CallerOk;
    if c :| 0 <= c < |s.callers| && s.callers[c].Sending? {
      assert !s.pipe.closed;
      step := if |s.pipe.queue| < s.pipe.taken + CAPACITY then Send(c) else if s.pipe.writer.Holding? then Execute(None) else Take;
    } else if c :| 0 <= c < |s.callers| && s.callers[c].Recorded? {
      step := Lock(c);
    } else {
      step := if s.pipe.writer.Holding? then Execute(None) else if s.pipe.writer.Exited? then EndFlush
              else if s.pipe.taken < |s.pipe.queue| then Take else Exit;
    }
  }

  lemma WorkPositive(s: State)
    requires Inv(s)
    ensures WorkLeft(s) >= 0
  {
  }

  lemma FlushStays(s: State, step: Step)
    requires Internal(step) && Next(s, step).Some?
    ensures s.pipe.flush != NotFlushing ==> Next(s, step).value.pipe.flush != NotFlushing
  {
    hide LockFree;
  }

  lemma {:induction false} RunFirst(s: State, step: Step, rest: seq<Step>)
    requires Next(s, step).Some?
    ensures Run(s, [step] + rest) == Run(Next(s, step).value, rest)
  {
    hide Next;
    if rest == [] {
      assert [step] + rest == [step] && [step][..0] == [];
      assert Run(s, []) == Some(s);
    } else {
      RunFirst(s, step, rest[..|rest| - 1]);
      assert ([step] + rest)[..|rest|] == [step] + rest[..|rest| - 1];
    }
  }

  /**
    Every call and every Flush that has begun can return without help. Together with WorkShrinks, which
    bounds the steps of every schedule, and NoDeadlock, no schedule of them runs for ever or gets stuck.
  */
  lemma {:induction false} CallsReturn(s: State) returns (steps: seq<Step>, s': State)
    requires Inv(s)
    ensures Run(s, steps) == Some(s') && AtRest(s') && Inv(s') && |steps| <= WorkLeft(s)
    ensures forall i :: 0 <= i < |steps| ==> Internal(steps[i])
    ensures s.pipe.flush != NotFlushing ==> s'.pipe.flush.Flushed?
    decreases WorkLeft(s)
  {
    hide Inv, Next;
    WorkPositive(s);
    if AtRest(s) {
      return [], s;
    }
    var step := NoDeadlock(s);
    WorkShrinks(s, step);
    NextKeeps(s, step);
    assert s.pipe.flush != NotFlushing ==> Next(s, step).value.pipe.flush != NotFlushing by { FlushStays(s, step); }
    var rest;
    rest, s' := CallsReturn(Next(s, step).value);
    steps := [step] + rest;
    RunFirst(s, step, rest);
  }
}
