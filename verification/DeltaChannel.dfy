/**
  A channel that is checkpointed as its log of writes: applying the writes step by step,
  and rebuilding the value from the log of all steps at once.
*/
module DeltaChannel {
  import opened Prelude

  type Value(==, !new)
  type Update(==, !new)
  type Fault(==, !new)

  datatype Write = Regular(update: Update) | Overwrite(value: Value)

  datatype UpdateError = TwoOverwrites | ReducerFailed(fault: Fault)

  type Reducer = (Value, seq<Update>) -> Result<Value, Fault>

  /** The regular updates of a batch, in order. */
  function Updates(writes: seq<Write>): seq<Update>
  {
    if writes == [] then []
    else
      var before := Updates(writes[..|writes| - 1]);
      match writes[|writes| - 1] case Regular(u) => before + [u] case Overwrite(_) => before
  }

  function Overwrites(writes: seq<Write>): nat
  {
    if writes == [] then 0 else Overwrites(writes[..|writes| - 1]) + if writes[|writes| - 1].Overwrite? then 1 else 0
  }

  /** The value after the last overwrite, and the updates that follow it. */
  function Base(value: Value, writes: seq<Write>): Value
  {
    if writes == [] then value
    else match writes[|writes| - 1] case Overwrite(v) => v case Regular(_) => Base(value, writes[..|writes| - 1])
  }

  function Trailing(writes: seq<Write>): seq<Update>
  {
    if writes == [] then []
    else match writes[|writes| - 1] case Overwrite(_) => [] case Regular(u) => Trailing(writes[..|writes| - 1]) + [u]
  }

  /** The reducer is not called without updates. */
  function Reduce(reducer: Reducer, value: Value, updates: seq<Update>): Result<Value, UpdateError>
  {
    if updates == [] then Ok(value)
    else match reducer(value, updates) case Ok(v) => Ok(v) case Err(f) => Err(ReducerFailed(f))
  }

  /** One step: an overwrite takes the place of every other write of the step. */
  function Updated(reducer: Reducer, value: Value, writes: seq<Write>): Result<Value, UpdateError>
  {
    if Overwrites(writes) > 1 then Err(TwoOverwrites)
    else if Overwrites(writes) == 1 then Ok(Base(value, writes))
    else Reduce(reducer, value, Updates(writes))
  }

  /** The log of all steps: the last overwrite is the reset point, and only later updates are reduced. */
  function Replayed(reducer: Reducer, value: Value, writes: seq<Write>): Result<Value, UpdateError>
  {
    Reduce(reducer, Base(value, writes), Trailing(writes))
  }

  class Channel {
    var value: Value
    var present: bool
    const reducer: Reducer

    constructor (initial: Value, reducer: Reducer)
      ensures value == initial && present && this.reducer == reducer
    {
      value, present, this.reducer := initial, true, reducer;
    }

    /** Applies one step; a refused step changes nothing. */
    method Update(writes: seq<Write>) returns (r: Result<bool, UpdateError>)
      modifies this
      ensures match Updated(reducer, old(value), writes)
              case Ok(v) => value == v && r == Ok(writes != []) && present == (old(present) || writes != [])
              case Err(e) => value == old(value) && present == old(present) && r == Err(e)
    {
      if writes == [] { return Ok(false); }
      var overwrite := -1;
      for i := 0 to |writes|
        invariant -1 <= overwrite < i
        invariant overwrite == -1 ==> Overwrites(writes[..i]) == 0 && Base(value, writes[..i]) == value
        invariant overwrite >= 0 ==> writes[overwrite].Overwrite? && Overwrites(writes[..i]) == 1
        invariant overwrite >= 0 ==> Base(value, writes[..i]) == writes[overwrite].value
      {
        assert writes[..i + 1][..i] == writes[..i];
        if writes[i].Overwrite? {
          if overwrite >= 0 {
            OverwritesGrow(writes, i + 1);
            return Err(TwoOverwrites);
          }
          overwrite := i;
        }
      }
      assert writes[..|writes|] == writes;
      if overwrite >= 0 {
        value, present := writes[overwrite].value, true;
        return Ok(true);
      }
      var updates := CollectUpdates(writes, 0);
      assert writes[0..] == writes;
      AllRegular(writes);
      match reducer(value, updates) {
        case Err(f) => return Err(ReducerFailed(f));
        case Ok(next) =>
          value, present := next, true;
          return Ok(true);
      }
    }

    /** Rebuilds the value from the writes of all ancestors; an error changes nothing. */
    method ReplayWrites(writes: seq<Write>) returns (failure: Option<UpdateError>)
      modifies this
      ensures match Replayed(reducer, old(value), writes)
              case Ok(v) => value == v && failure == None && present == (old(present) || writes != [])
              case Err(e) => value == old(value) && present == old(present) && failure == Some(e)
    {
      if writes == [] { return None; }
      var start, base := 0, value;
      for i := 0 to |writes|
        invariant 0 <= start <= i
        invariant base == Base(value, writes[..i]) && Trailing(writes[..i]) == Updates(writes[start..i])
        invariant Overwrites(writes[start..i]) == 0
      {
        assert writes[..i + 1][..i] == writes[..i];
        if writes[i].Overwrite? {
          base, start := writes[i].value, i + 1;
        } else {
          assert writes[start..i + 1][..i - start] == writes[start..i];
        }
      }
      assert writes[..|writes|] == writes;
      var updates := CollectUpdates(writes, start);
      if updates != [] {
        match reducer(base, updates) {
          case Err(f) => return Some(ReducerFailed(f));
          case Ok(next) => base := next;
        }
      }
      value, present := base, true;
      return None;
    }
  }

  method CollectUpdates(writes: seq<Write>, start: nat) returns (updates: seq<Update>)
    requires start <= |writes|
    ensures updates == Updates(writes[start..])
  {
    updates := [];
    for i := start to |writes|
      invariant updates == Updates(writes[start..i])
    {
      assert writes[start..i + 1][..i - start] == writes[start..i];
      if writes[i].Regular? {
        updates := updates + [writes[i].update];
      }
    }
    assert writes[start..|writes|] == writes[start..];
  }

  lemma {:induction false} OverwritesGrow(writes: seq<Write>, n: nat)
    requires n <= |writes|
    ensures Overwrites(writes) >= Overwrites(writes[..n])
  {
    if n == |writes| {
      assert writes[..n] == writes;
    } else {
      OverwritesGrow(writes[..|writes| - 1], n);
      assert writes[..|writes| - 1][..n] == writes[..n];
    }
  }

  lemma {:induction false} AllRegular(writes: seq<Write>)
    requires Overwrites(writes) == 0
    ensures |Updates(writes)| == |writes|
  {
    if writes != [] {
      AllRegular(writes[..|writes| - 1]);
    }
  }

  // ----- Step by step against all at once -----

  function Concat(steps: seq<seq<Write>>): seq<Write>
  {
    if steps == [] then [] else Concat(steps[..|steps| - 1]) + steps[|steps| - 1]
  }

  function StepByStep(reducer: Reducer, value: Value, steps: seq<seq<Write>>): Result<Value, UpdateError>
  {
    if steps == [] then Ok(value)
    else match StepByStep(reducer, value, steps[..|steps| - 1])
      case Err(e) => Err(e)
      case Ok(v) => Updated(reducer, v, steps[|steps| - 1])
  }

  /** The updates of the steps after the last one that overwrites. */
  function Later(steps: seq<seq<Write>>): seq<Update>
  {
    if steps == [] then []
    else if Overwrites(steps[|steps| - 1]) > 0 then []
    else Later(steps[..|steps| - 1]) + Updates(steps[|steps| - 1])
  }

  /** The regular writes that the last overwriting step has after its overwrite. */
  function Residue(steps: seq<seq<Write>>): seq<Update>
  {
    if steps == [] then []
    else if Overwrites(steps[|steps| - 1]) > 0 then Trailing(steps[|steps| - 1])
    else Residue(steps[..|steps| - 1])
  }

  lemma {:induction false} TrailingAppend(value: Value, a: seq<Write>, b: seq<Write>)
    ensures Overwrites(b) > 0 ==> Trailing(a + b) == Trailing(b) && forall v :: Base(value, a + b) == Base(v, b)
    ensures Overwrites(b) == 0 ==> Trailing(a + b) == Trailing(a) + Updates(b) && Base(value, a + b) == Base(value, a)
  {
    if b == [] {
      assert a + b == a;
    } else {
      TrailingAppend(value, a, b[..|b| - 1]);
      assert (a + b)[..|a + b| - 1] == a + b[..|b| - 1];
    }
  }

  lemma {:induction false} LogShape(value: Value, steps: seq<seq<Write>>)
    ensures Trailing(Concat(steps)) == Residue(steps) + Later(steps)
  {
    if steps != [] {
      var init, last := steps[..|steps| - 1], steps[|steps| - 1];
      LogShape(value, init);
      TrailingAppend(value, Concat(init), last);
    }
  }

  /** Reducing one batch after another is reducing them together. */
  ghost predicate Composes(reducer: Reducer)
  {
    forall v, a, b :: Reduce(reducer, v, a).Ok? ==>
      Reduce(reducer, v, a + b) == Reduce(reducer, Reduce(reducer, v, a).value, b)
  }

  /** Applying the steps reduces exactly the later updates onto the last overwrite. */
  lemma {:induction false} StepByStepMeaning(reducer: Reducer, value: Value, steps: seq<seq<Write>>)
    requires Composes(reducer) && StepByStep(reducer, value, steps).Ok?
    ensures StepByStep(reducer, value, steps) == Reduce(reducer, Base(value, Concat(steps)), Later(steps))
  {
    if steps != [] {
      var init, last := steps[..|steps| - 1], steps[|steps| - 1];
      StepByStepMeaning(reducer, value, init);
      TrailingAppend(value, Concat(init), last);
    }
  }

  /**
    Rebuilding from the log of all steps gives the same value as applying them one by one when the last step
    that overwrites has no regular write after its overwrite; earlier steps do not matter.
  */
  lemma ReplayAgrees(reducer: Reducer, value: Value, steps: seq<seq<Write>>)
    requires Composes(reducer) && StepByStep(reducer, value, steps).Ok? && Residue(steps) == []
    ensures Replayed(reducer, value, Concat(steps)) == StepByStep(reducer, value, steps)
  {
    StepByStepMeaning(reducer, value, steps);
    LogShape(value, steps);
    assert [] + Later(steps) == Later(steps);
  }

  /** A reducer that loses nothing, such as appending. */
  ghost predicate KeepsAll(reducer: Reducer)
  {
    forall v, a, b :: Reduce(reducer, v, a).Ok? && Reduce(reducer, v, a) == Reduce(reducer, v, b) ==> a == b
  }

  /** For a reducer that loses nothing the condition is also necessary. */
  lemma ReplayAgreesExactly(reducer: Reducer, value: Value, steps: seq<seq<Write>>)
    requires Composes(reducer) && KeepsAll(reducer) && StepByStep(reducer, value, steps).Ok?
    ensures Replayed(reducer, value, Concat(steps)) == StepByStep(reducer, value, steps) <==> Residue(steps) == []
  {
    StepByStepMeaning(reducer, value, steps);
    LogShape(value, steps);
    if Residue(steps) == [] {
      ReplayAgrees(reducer, value, steps);
    } else {
      assert |Residue(steps) + Later(steps)| > |Later(steps)|;
    }
  }

  /** Restoring a snapshot and replaying the writes since gives the value of replaying everything. */
  lemma SnapshotAnywhere(reducer: Reducer, value: Value, steps: seq<seq<Write>>, n: nat)
    requires Composes(reducer) && StepByStep(reducer, value, steps).Ok? && n <= |steps| && Residue(steps[n..]) == []
    ensures StepByStep(reducer, value, steps[..n]).Ok?
    ensures Replayed(reducer, StepByStep(reducer, value, steps[..n]).value, Concat(steps[n..])) == StepByStep(reducer, value, steps)
  {
    StepsSplit(reducer, value, steps, n);
    ReplayAgrees(reducer, StepByStep(reducer, value, steps[..n]).value, steps[n..]);
  }

  lemma {:induction false} StepsSplit(reducer: Reducer, value: Value, steps: seq<seq<Write>>, n: nat)
    requires n <= |steps| && StepByStep(reducer, value, steps).Ok?
    ensures StepByStep(reducer, value, steps[..n]).Ok?
    ensures StepByStep(reducer, StepByStep(reducer, value, steps[..n]).value, steps[n..]) == StepByStep(reducer, value, steps)
  {
    hide Updated;
    if n == |steps| {
      assert steps[..n] == steps && steps[n..] == [];
    } else {
      var init := steps[..|steps| - 1];
      StepsSplit(reducer, value, init, n);
      assert init[..n] == steps[..n] && steps[n..][..|steps| - n - 1] == init[n..];
    }
  }
}
