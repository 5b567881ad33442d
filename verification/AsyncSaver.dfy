/**
  The asynchronous saver: callers record a command in memory, then enqueue it for a single
  writer thread. The steps below are the critical sections of the callers, of the writer
  and of Flush, so a run of the model is one interleaving of them.
*/
module AsyncSaver {
  import opened Prelude

  type Payload(==, !new)
  type Write(==, !new)
  type SaveError(==, !new)

  datatype Config = Config(thread: string, namespace: string, id: string)

  /** One call of the underlying saver. */
  datatype Command =
    | PutCommand(parent: Config, config: Config, payload: Payload)
    | WritesCommand(config: Config, writes: seq<Write>)

  datatype Tagged = Tagged(caller: nat, command: Command)

  datatype Draft = Draft(parent: Config, payload: Payload)

  /** Where a caller is: not in a call, between its two critical sections, or holding the enqueue lock. */
  datatype Caller = Ready | Recorded(command: Command) | Sending(command: Command)

  datatype Writer = Receiving | Holding(item: Tagged) | Exited

  datatype Flush = NotFlushing | Waiting | Flushed(error: Option<SaveError>)

  const CAPACITY: nat := 64

  /** What callers and readers share: the drafts, and the commands in the order they were recorded. */
  datatype Buffers = Buffers(
    drafts: map<Config, Draft>,
    writes: map<Config, seq<Write>>,
    latest: map<(string, string), string>,
    begun: seq<Tagged>)

  /** The command channel and the writer behind it. */
  datatype Pipe = Pipe(
    queue: seq<Tagged>,      // everything ever accepted by the channel
    taken: nat,              // how many of them the writer has received
    writer: Writer,
    log: seq<Tagged>,        // the calls made on the underlying saver
    firstErr: Option<SaveError>,
    closed: bool,
    flush: Flush)

  datatype State = State(
    buffers: Buffers,
    pipe: Pipe,
    callers: seq<Caller>,
    cancelled: bool,
    dropped: seq<Tagged>)    // commands whose call returned an error

  datatype Step =
    | Record(caller: nat, command: Command)
    | Lock(caller: nat)
    | Send(caller: nat)
    | GiveUp(caller: nat)
    | Take
    | Execute(failure: Option<SaveError>)
    | Exit
    | Cancel
    | BeginFlush
    | EndFlush

  function Initial(callers: nat): State
  {
    State(Buffers(map[], map[], map[], []), Pipe([], 0, Receiving, [], None, false, NotFlushing),
          seq(callers, _ => Ready), false, [])
  }

  predicate LockFree(s: State)
  {
    forall c :: 0 <= c < |s.callers| ==> !s.callers[c].Sending?
  }

  function WritesFor(writes: map<Config, seq<Write>>, config: Config): seq<Write>
  {
    if config in writes then writes[config] else []
  }

  function RecordIn(b: Buffers, item: Tagged): Buffers
  {
    match item.command
    case PutCommand(parent, config, payload) =>
      Buffers(b.drafts[config := Draft(parent, payload)], b.writes, b.latest[(config.thread, config.namespace) := config.id], b.begun + [item])
    case WritesCommand(config, more) =>
      b.(writes := b.writes[config := WritesFor(b.writes, config) + more], begun := b.begun + [item])
  }

  function SetCaller(s: State, c: nat, caller: Caller): State
    requires c < |s.callers|
  {
    s.(callers := s.callers[c := caller])
  }

  function Refuse(s: State, c: nat): State
    requires c < |s.callers| && !s.callers[c].Ready?
  {
    SetCaller(s, c, Ready).(dropped := s.dropped + [Tagged(c, s.callers[c].command)])
  }

  /** The writer applies what it holds unless a command has failed before. */
  function Executed(p: Pipe, failure: Option<SaveError>): Pipe
    requires p.writer.Holding?
  {
    if p.firstErr.Some? then p.(writer := Receiving)
    else p.(writer := Receiving, log := p.log + [p.writer.item], firstErr := failure)
  }

  function Next(s: State, step: Step): Option<State>
  {
    match step
    case Record(c, command) =>
      if c < |s.callers| && s.callers[c].Ready? then
        Some(SetCaller(s, c, Recorded(command)).(buffers := RecordIn(s.buffers, Tagged(c, command))))
      else None
    case Lock(c) =>
      if c < |s.callers| && s.callers[c].Recorded? && LockFree(s) then
        Some(if s.pipe.closed || s.pipe.firstErr.Some? then Refuse(s, c) else SetCaller(s, c, Sending(s.callers[c].command)))
      else None
    case Send(c) =>
      if c < |s.callers| && s.callers[c].Sending? && |s.pipe.queue| < s.pipe.taken + CAPACITY then
        Some(SetCaller(s, c, Ready).(pipe := s.pipe.(queue := s.pipe.queue + [Tagged(c, s.callers[c].command)])))
      else None
    case GiveUp(c) =>
      if c < |s.callers| && s.callers[c].Sending? && s.cancelled then Some(Refuse(s, c)) else None
    case Take =>
      if s.pipe.writer.Receiving? && s.pipe.taken < |s.pipe.queue| then
        Some(s.(pipe := s.pipe.(writer := Holding(s.pipe.queue[s.pipe.taken]), taken := s.pipe.taken + 1)))
      else None
    case Execute(failure) =>
      if s.pipe.writer.Holding? then Some(s.(pipe := Executed(s.pipe, failure))) else None
    case Exit =>
      if s.pipe.writer.Receiving? && s.pipe.closed && s.pipe.taken == |s.pipe.queue| then
        Some(s.(pipe := s.pipe.(writer := Exited)))
      else None
    case Cancel => Some(s.(cancelled := true))
    case BeginFlush =>
      if LockFree(s) && !s.pipe.flush.Waiting? then Some(s.(pipe := s.pipe.(closed := true, flush := Waiting))) else None
    case EndFlush =>
      if s.pipe.flush.Waiting? && s.pipe.writer.Exited? then
        Some(s.(pipe := s.pipe.(flush := Flushed(s.pipe.firstErr)), cancelled := true))
      else None
  }

  function Run(s: State, steps: seq<Step>): Option<State>
  {
    if steps == [] then Some(s)
    else
      match Run(s, steps[..|steps| - 1])
      case None => None
      case Some(before) => Next(before, steps[|steps| - 1])
  }

  datatype Lookup = Found(draft: Draft, writes: seq<Write>) | Failed(error: SaveError) | AskBase

  /** GetTuple; an empty ID asks for the newest draft of the namespace. */
  function GetTuple(s: State, config: Config): Lookup
  {
    var scope := (config.thread, config.namespace);
    var id := if config.id == "" && scope in s.buffers.latest then s.buffers.latest[scope] else config.id;
    var key := config.(id := id);
    if key in s.buffers.drafts then Found(s.buffers.drafts[key], WritesFor(s.buffers.writes, key))
    else if s.pipe.firstErr.Some? then Failed(s.pipe.firstErr.value)
    else AskBase
  }

  // ----- What a log of commands means -----

  function LastPut(log: seq<Tagged>, config: Config): Option<Draft>
  {
    if log == [] then None
    else
      match log[|log| - 1].command
      case PutCommand(parent, c, payload) => if c == config then Some(Draft(parent, payload)) else LastPut(log[..|log| - 1], config)
      case WritesCommand(_, _) => LastPut(log[..|log| - 1], config)
  }

  function AllWrites(log: seq<Tagged>, config: Config): seq<Write>
  {
    if log == [] then []
    else
      match log[|log| - 1].command
      case PutCommand(_, _, _) => AllWrites(log[..|log| - 1], config)
      case WritesCommand(c, more) => AllWrites(log[..|log| - 1], config) + (if c == config then more else [])
  }

  function NewestPut(log: seq<Tagged>, scope: (string, string)): Option<string>
  {
    if log == [] then None
    else
      match log[|log| - 1].command
      case PutCommand(_, c, _) => if (c.thread, c.namespace) == scope then Some(c.id) else NewestPut(log[..|log| - 1], scope)
      case WritesCommand(_, _) => NewestPut(log[..|log| - 1], scope)
  }

  /** One caller's commands, in order. */
  function Of(log: seq<Tagged>, caller: nat): seq<Command>
  {
    if log == [] then []
    else
      var before := Of(log[..|log| - 1], caller);
      if log[|log| - 1].caller == caller then before + [log[|log| - 1].command] else before
  }

  function InFlight(caller: Caller): seq<Command>
  {
    if caller.Ready? then [] else [caller.command]
  }

  // ----- The invariant -----

  ghost predicate QueueOk(p: Pipe)
  {
    && p.taken <= |p.queue| <= p.taken + CAPACITY
    && (p.writer.Holding? ==> p.taken > 0 && p.writer.item == p.queue[p.taken - 1])
    && (p.writer.Exited? ==> p.closed && p.taken == |p.queue|)
  }

  function Handled(p: Pipe): int
  {
    if p.writer.Holding? then p.taken - 1 else p.taken
  }

  /** The underlying saver has seen a prefix of the queue, which a failure freezes. */
  ghost predicate LogOk(p: Pipe)
  {
    && |p.log| <= Handled(p) && |p.log| <= |p.queue| && p.log == p.queue[..|p.log|]
    && (p.firstErr.None? ==> |p.log| == Handled(p))
    && (p.firstErr.Some? ==> p.log != [])
  }

  ghost predicate LockOk(s: State)
  {
    && (forall c, d :: 0 <= c < d < |s.callers| ==> !(s.callers[c].Sending? && s.callers[d].Sending?))
    && (s.pipe.closed ==> LockFree(s))
  }

  ghost predicate FlushOk(p: Pipe)
  {
    && (p.flush != NotFlushing ==> p.closed)
    && (p.flush.Flushed? ==> p.writer.Exited? && p.flush.error == p.firstErr)
  }

  /** The buffers show every command recorded so far. */
  ghost predicate OverlayOk(b: Buffers)
  {
    && (forall c: Config :: LastPut(b.begun, c) == if c in b.drafts then Some(b.drafts[c]) else None)
    && (forall c: Config :: AllWrites(b.begun, c) == WritesFor(b.writes, c))
    && (forall n: (string, string) :: NewestPut(b.begun, n) == if n in b.latest then Some(b.latest[n]) else None)
  }

  /** a is b with some elements left out. */
  ghost predicate Subsequence<T>(a: seq<T>, b: seq<T>)
  {
    if a == [] then true
    else
      b != [] && ((a[|a| - 1] == b[|b| - 1] && Subsequence(a[..|a| - 1], b[..|b| - 1])) || Subsequence(a, b[..|b| - 1]))
  }

  lemma SubsequenceBoth<T>(a: seq<T>, b: seq<T>, x: T)
    requires Subsequence(a, b)
    ensures Subsequence(a + [x], b + [x])
  {
    assert (a + [x])[..|a|] == a && (b + [x])[..|b|] == b;
  }

  lemma {:induction false} SubsequenceShorter<T>(a: seq<T>, b: seq<T>, x: T)
    requires Subsequence(a + [x], b)
    ensures Subsequence(a, b)
  {
    var init := b[..|b| - 1];
    assert (a + [x])[..|a|] == a;
    if Subsequence(a + [x], init) {
      SubsequenceShorter(a, init, x);
    }
    assert Subsequence(a, init) ==> Subsequence(a, b);
  }

  /** No begun command is lost or duplicated; those accepted keep their order. */
  ghost predicate Balanced(begun: seq<Command>, queue: seq<Command>, dropped: seq<Command>, inFlight: seq<Command>)
  {
    && multiset(begun) == multiset(queue) + multiset(dropped) + multiset(inFlight)
    && Subsequence(queue + inFlight, begun)
    && (dropped == [] ==> begun == queue + inFlight)
  }

  ghost predicate CallerOk(s: State, c: nat)
    requires c < |s.callers|
  {
    Balanced(Of(s.buffers.begun, c), Of(s.pipe.queue, c), Of(s.dropped, c), InFlight(s.callers[c]))
  }

  ghost predicate Inv(s: State)
  {
    && QueueOk(s.pipe) && LogOk(s.pipe) && FlushOk(s.pipe) && OverlayOk(s.buffers) && LockOk(s)
    && forall c :: 0 <= c < |s.callers| ==> CallerOk(s, c)
  }

  lemma InitialOk(callers: nat)
    ensures Inv(Initial(callers))
  {
  }

  lemma OfAppend(log: seq<Tagged>, item: Tagged, c: nat)
    ensures Of(log + [item], c) == if item.caller == c then Of(log, c) + [item.command] else Of(log, c)
  {
    assert (log + [item])[..|log|] == log;
  }

  /** Steps of the callers before they reach the channel leave the pipe alone. */
  lemma PipeSteps(s: State, step: Step)
    requires Next(s, step).Some? && (step.Record? || step.Lock? || step.GiveUp? || step.Cancel?)
    ensures Next(s, step).value.pipe == s.pipe
  {
    hide LockFree;
  }

  lemma PipeKept(s: State, step: Step)
    requires QueueOk(s.pipe) && LogOk(s.pipe) && FlushOk(s.pipe) && Next(s, step).Some? && (s.pipe.closed ==> LockFree(s))
    ensures var p := Next(s, step).value.pipe; QueueOk(p) && LogOk(p) && FlushOk(p)
  {
    match step {
      case Send(c) => SendKept(s, c);
      case Execute(failure) => ExecuteKept(s.pipe, failure);
      case Take => hide LockFree;
      case Exit => hide LockFree;
      case BeginFlush => hide LockFree;
      case EndFlush => hide LockFree;
      case _ =>
        hide Next, QueueOk, LogOk, FlushOk;
        PipeSteps(s, step);
    }
  }

  lemma SendKept(s: State, c: nat)
    requires QueueOk(s.pipe) && LogOk(s.pipe) && FlushOk(s.pipe) && Next(s, Send(c)).Some? && (s.pipe.closed ==> LockFree(s))
    ensures var p := Next(s, Send(c)).value.pipe; QueueOk(p) && LogOk(p) && FlushOk(p)
  {
    assert !s.pipe.closed;
    assert Next(s, Send(c)).value.pipe.queue[..|s.pipe.log|] == s.pipe.queue[..|s.pipe.log|];
  }

  lemma ExecuteKept(p: Pipe, failure: Option<SaveError>)
    requires QueueOk(p) && LogOk(p) && FlushOk(p) && p.writer.Holding?
    ensures QueueOk(Executed(p, failure)) && LogOk(Executed(p, failure)) && FlushOk(Executed(p, failure))
  {
    if p.firstErr.None? {
      assert p.queue[..|p.log|] + [p.queue[|p.log|]] == p.queue[..|p.log| + 1];
    }
  }

  lemma LockKept(s: State, step: Step)
    requires LockOk(s) && Next(s, step).Some?
    ensures LockOk(Next(s, step).value) && |Next(s, step).value.callers| == |s.callers|
  {
    hide RecordIn, Executed;
    match step {
      case Record(c, command) =>
      case Lock(c) =>
      case Send(c) =>
      case GiveUp(c) =>
      case Execute(_) => ExecutedClosed(s.pipe);
      case _ =>
    }
  }

  lemma ExecutedClosed(p: Pipe)
    ensures p.writer.Holding? ==> forall failure :: Executed(p, failure).closed == p.closed
  {
  }

  lemma PutRecorded(b: Buffers, item: Tagged, c: Config)
    requires LastPut(b.begun, c) == if c in b.drafts then Some(b.drafts[c]) else None
    ensures var b' := RecordIn(b, item); LastPut(b'.begun, c) == if c in b'.drafts then Some(b'.drafts[c]) else None
  {
    assert (b.begun + [item])[..|b.begun|] == b.begun;
  }

  lemma WritesRecorded(b: Buffers, item: Tagged, c: Config)
    requires AllWrites(b.begun, c) == WritesFor(b.writes, c)
    ensures AllWrites(RecordIn(b, item).begun, c) == WritesFor(RecordIn(b, item).writes, c)
  {
    AllWritesAppend(b.begun, item, c);
    hide AllWrites;
    if item.command.WritesCommand? && item.command.config == c {
      assert RecordIn(b, item).writes[c] == WritesFor(b.writes, c) + item.command.writes;
    }
  }

  lemma AllWritesAppend(log: seq<Tagged>, item: Tagged, c: Config)
    ensures AllWrites(log + [item], c)
         == AllWrites(log, c) + if item.command.WritesCommand? && item.command.config == c then item.command.writes else []
  {
    assert (log + [item])[..|log|] == log;
    assert AllWrites(log, c) + [] == AllWrites(log, c);
  }

  lemma LatestRecorded(b: Buffers, item: Tagged, n: (string, string))
    requires NewestPut(b.begun, n) == if n in b.latest then Some(b.latest[n]) else None
    ensures var b' := RecordIn(b, item); NewestPut(b'.begun, n) == if n in b'.latest then Some(b'.latest[n]) else None
  {
    assert (b.begun + [item])[..|b.begun|] == b.begun;
  }

  lemma OverlayRecorded(b: Buffers, item: Tagged)
    requires OverlayOk(b)
    ensures OverlayOk(RecordIn(b, item))
  {
    hide LastPut, AllWrites, NewestPut, RecordIn, WritesFor;
    var b' := RecordIn(b, item);
    forall c: Config ensures LastPut(b'.begun, c) == if c in b'.drafts then Some(b'.drafts[c]) else None {
      PutRecorded(b, item, c);
    }
    forall c: Config ensures AllWrites(b'.begun, c) == WritesFor(b'.writes, c) {
      WritesRecorded(b, item, c);
    }
    forall n: (string, string) ensures NewestPut(b'.begun, n) == if n in b'.latest then Some(b'.latest[n]) else None {
      LatestRecorded(b, item, n);
    }
  }

  lemma OverlayKept(s: State, step: Step)
    requires OverlayOk(s.buffers) && Next(s, step).Some?
    ensures OverlayOk(Next(s, step).value.buffers)
  {
    hide LockFree, OverlayOk, RecordIn, Executed;
    match step {
      case Record(c, command) => OverlayRecorded(s.buffers, Tagged(c, command));
      case _ =>
    }
  }

  lemma BalancedRecord(begun: seq<Command>, queue: seq<Command>, dropped: seq<Command>, x: Command)
    requires Balanced(begun, queue, dropped, [])
    ensures Balanced(begun + [x], queue, dropped, [x])
  {
    assert queue + [] == queue;
    SubsequenceBoth(queue, begun, x);
  }

  lemma BalancedLeave(begun: seq<Command>, queue: seq<Command>, dropped: seq<Command>, x: Command)
    requires Balanced(begun, queue, dropped, [x])
    ensures Balanced(begun, queue + [x], dropped, []) && Balanced(begun, queue, dropped + [x], [])
  {
    assert queue + [x] + [] == queue + [x] && queue + [] == queue;
    SubsequenceShorter(queue, begun, x);
  }

  lemma RecordBegun(b: Buffers, item: Tagged)
    ensures RecordIn(b, item).begun == b.begun + [item]
  {
  }

  lemma CallerRecords(s: State, step: Step, c: nat)
    requires c < |s.callers| && CallerOk(s, c) && step.Record? && Next(s, step).Some?
    requires |Next(s, step).value.callers| == |s.callers|
    ensures CallerOk(Next(s, step).value, c)
  {
    hide LockFree, Of, Balanced;
    OfAppend(s.buffers.begun, Tagged(step.caller, step.command), c);
    RecordBegun(s.buffers, Tagged(step.caller, step.command));
    if step.caller == c {
      BalancedRecord(Of(s.buffers.begun, c), Of(s.pipe.queue, c), Of(s.dropped, c), step.command);
    }
  }

  lemma CallerLeaves(s: State, step: Step, c: nat)
    requires c < |s.callers| && CallerOk(s, c) && Next(s, step).Some? && |Next(s, step).value.callers| == |s.callers|
    requires step.Lock? || step.Send? || step.GiveUp?
    ensures CallerOk(Next(s, step).value, c)
  {
    hide LockFree, Of, Balanced, RecordIn;
    var item := Tagged(step.caller, s.callers[step.caller].command);
    OfAppend(s.dropped, item, c);
    OfAppend(s.pipe.queue, item, c);
    if step.caller == c {
      BalancedLeave(Of(s.buffers.begun, c), Of(s.pipe.queue, c), Of(s.dropped, c), item.command);
    }
  }

  lemma ExecutedQueue(p: Pipe)
    ensures p.writer.Holding? ==> forall failure :: Executed(p, failure).queue == p.queue
  {
  }

  /** What one step does to a caller's commands. */
  lemma CallerKept(s: State, step: Step, c: nat)
    requires c < |s.callers| && CallerOk(s, c) && Next(s, step).Some? && |Next(s, step).value.callers| == |s.callers|
    ensures CallerOk(Next(s, step).value, c)
  {
    if step.Record? {
      hide *;
      CallerRecords(s, step, c);
    } else if step.Lock? || step.Send? || step.GiveUp? {
      hide *;
      CallerLeaves(s, step, c);
    } else {
      hide LockFree, Of, Balanced, RecordIn, Refuse, SetCaller, Executed;
      ExecutedQueue(s.pipe);
    }
  }

  lemma ClosedLock(s: State)
    requires LockOk(s)
    ensures s.pipe.closed ==> LockFree(s)
  {
  }

  lemma NextKeeps(s: State, step: Step)
    requires Inv(s) && Next(s, step).Some?
    ensures Inv(Next(s, step).value)
  {
    hide QueueOk, LogOk, LockOk, FlushOk, OverlayOk, CallerOk, Next;
    assert s.pipe.closed ==> LockFree(s) by { ClosedLock(s); }
    PipeKept(s, step);
    LockKept(s, step);
    OverlayKept(s, step);
    forall c | 0 <= c < |s.callers| ensures CallerOk(Next(s, step).value, c) {
      CallerKept(s, step, c);
    }
  }

  lemma {:induction false} RunKeeps(s: State, steps: seq<Step>)
    requires Inv(s) && Run(s, steps).Some?
    ensures Inv(Run(s, steps).value)
  {
    hide Inv, Next;
    if steps != [] {
      RunKeeps(s, steps[..|steps| - 1]);
      NextKeeps(Run(s, steps[..|steps| - 1]).value, steps[|steps| - 1]);
    }
  }
}
