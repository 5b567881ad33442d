/**
  Exactly when two merges of message histories equal one: what a second merge does to the
  IDs that the first one removed.
*/
module MessageOrder {
  import opened Prelude
  import opened Messages
  import opened MessageTheorems

  // ----- The order of different IDs -----

  /** x comes before the last y. */
  predicate Before(ids: seq<string>, x: string, y: string)
  {
    if ids == [] then false
    else if ids[|ids| - 1] == y then x in ids[..|ids| - 1]
    else Before(ids[..|ids| - 1], x, y)
  }

  lemma {:induction false} BeforeMembers(ids: seq<string>, x: string, y: string)
    requires Before(ids, x, y)
    ensures x in ids && y in ids
  {
    if ids[|ids| - 1] != y {
      BeforeMembers(ids[..|ids| - 1], x, y);
    }
  }

  lemma BeforeAppend(ids: seq<string>, last: string, x: string, y: string)
    ensures Before(ids + [last], x, y) == if last == y then x in ids else Before(ids, x, y)
  {
    assert (ids + [last])[..|ids|] == ids;
  }

  lemma {:induction false} SurvivingBefore(ids: seq<string>, removed: set<string>, x: string, y: string)
    requires x !in removed && y !in removed
    ensures Before(Surviving(ids, removed), x, y) <==> Before(ids, x, y)
    ensures x in Surviving(ids, removed) <==> x in ids
  {
    if ids != [] {
      var init, last := ids[..|ids| - 1], ids[|ids| - 1];
      SurvivingBefore(init, removed, x, y);
      BeforeAppend(Surviving(init, removed), last, x, y);
    }
  }

  lemma {:induction false} SurvivingMembers(ids: seq<string>, removed: set<string>, x: string)
    ensures x in Surviving(ids, removed) <==> x in ids && x !in removed
  {
    if ids != [] {
      SurvivingMembers(ids[..|ids| - 1], removed, x);
    }
  }

  /** Mentioned by a message of the right side. */
  predicate Mentioned(right: seq<Message>, id: string)
  {
    exists i :: 0 <= i < |right| && right[i].id == id
  }

  /** x is mentioned before y is. */
  predicate MentionedBefore(right: seq<Message>, x: string, y: string)
  {
    Before(Roster([], right), x, y)
  }

  lemma {:induction false} RosterMembers(ids: seq<string>, right: seq<Message>, x: string)
    ensures x in Roster(ids, right) <==> x in ids || Mentioned(right, x)
  {
    if right != [] {
      var init, m := right[..|right| - 1], right[|right| - 1];
      RosterMembers(ids, init, x);
      assert Mentioned(right, x) <==> Mentioned(init, x) || m.id == x by {
        if Mentioned(init, x) {
          var i :| 0 <= i < |init| && init[i].id == x;
          assert right[i].id == x;
        }
      }
    }
  }

  /** The IDs on the left keep their order, and come before new ones in the order of their first mention. */
  lemma {:induction false} RosterBefore(ids: seq<string>, right: seq<Message>, x: string, y: string)
    requires x != y
    ensures Before(Roster(ids, right), x, y) <==>
      if y in ids then Before(ids, x, y) else Mentioned(right, y) && (x in ids || MentionedBefore(right, x, y))
  {
    if right == [] {
      if Before(ids, x, y) { BeforeMembers(ids, x, y); }
    } else {
      var init, m := right[..|right| - 1], right[|right| - 1];
      RosterBefore(ids, init, x, y);
      RosterMembers(ids, init, m.id);
      RosterMembers(ids, init, x);
      RosterMembers([], init, m.id);
      RosterMembers([], init, x);
      BeforeAppend(Roster(ids, init), m.id, x, y);
      BeforeAppend(Roster([], init), m.id, x, y);
      MentionedLast(init, m, y);
      MentionedLast(init, m, x);
      assert init + [m] == right;
    }
  }

  lemma MentionedLast(init: seq<Message>, m: Message, x: string)
    ensures Mentioned(init + [m], x) <==> Mentioned(init, x) || m.id == x
  {
    var right := init + [m];
    if Mentioned(init, x) {
      var i :| 0 <= i < |init| && init[i].id == x;
      assert right[i].id == x;
    }
    if m.id == x { assert right[|init|].id == x; }
  }

  /** Sequences of the same different IDs in the same order are equal. */
  lemma {:induction false} SameOrder(a: seq<string>, b: seq<string>)
    requires AllDifferent(a) && AllDifferent(b) && forall x :: x in a <==> x in b
    requires forall x, y :: x in a && y in a && x != y && Before(a, x, y) ==> Before(b, x, y)
    ensures a == b
  {
    if a == [] {
      FirstIsIn(b);
    } else {
      assert a[0] in b;
      var init, z, last := a[..|a| - 1], a[|a| - 1], b[|b| - 1];
      LastIsLast(a, b);
      var init' := b[..|b| - 1];
      forall x ensures x in init <==> x in init' {
        InitMembers(a, x);
        InitMembers(b, x);
      }
      forall x, y | x in init && y in init && x != y && Before(init, x, y) ensures Before(init', x, y) {
        InitMembers(a, x);
        InitMembers(a, y);
        assert x in a && y in a && y != z && Before(a, x, y);
      }
      SameOrder(init, init');
    }
  }

  lemma FirstIsIn(ids: seq<string>)
    ensures ids == [] || ids[0] in ids
  {
  }

  lemma InitMembers(ids: seq<string>, x: string)
    requires AllDifferent(ids) && ids != []
    ensures x in ids[..|ids| - 1] <==> x in ids && x != ids[|ids| - 1]
  {
  }

  lemma LastIsLast(a: seq<string>, b: seq<string>)
    requires AllDifferent(a) && AllDifferent(b) && a != [] && b != [] && forall x :: x in a <==> x in b
    requires forall x, y :: x in a && y in a && x != y && Before(a, x, y) ==> Before(b, x, y)
    ensures a[|a| - 1] == b[|b| - 1]
  {
    var z, last := a[|a| - 1], b[|b| - 1];
    assert last in b && z in a;
    if z != last {
      InitMembers(a, last);
      LastNotBefore(b, z);
    }
  }

  lemma LastNotBefore(ids: seq<string>, y: string)
    requires AllDifferent(ids) && ids != [] && y != ids[|ids| - 1]
    ensures !Before(ids, ids[|ids| - 1], y)
  {
    InitMembers(ids, ids[|ids| - 1]);
    if Before(ids, ids[|ids| - 1], y) {
      BeforeMembers(ids[..|ids| - 1], ids[|ids| - 1], y);
    }
  }

  // ----- Histories with different IDs -----

  lemma {:induction false} FindAt(messages: seq<Message>, i: nat)
    requires UniqueIds(messages) && i < |messages|
    ensures Find(messages, messages[i].id) == Some(messages[i])
  {
    var found := LastIndex(messages, messages[i].id);
    assert found.Some? && messages[found.value].id == messages[i].id;
  }

  lemma SameHistory(a: seq<Message>, b: seq<Message>)
    requires UniqueIds(a) && UniqueIds(b) && Ids(a) == Ids(b) && forall id :: Find(a, id) == Find(b, id)
    ensures a == b
  {
    hide Find;
    assert |a| == |Ids(a)| == |b|;
    forall i | 0 <= i < |a| ensures a[i] == b[i] {
      assert a[i].id == Ids(a)[i] == Ids(b)[i] == b[i].id;
      FindAt(a, i);
      FindAt(b, i);
    }
  }

  lemma UniqueIdsDiffer(messages: seq<Message>)
    ensures UniqueIds(messages) <==> AllDifferent(Ids(messages))
  {
    if AllDifferent(Ids(messages)) {
      forall i, j | 0 <= i < j < |messages| ensures messages[i].id != messages[j].id {
        assert Ids(messages)[i] != Ids(messages)[j];
      }
    }
  }

  // ----- Where two merges fail and one does not -----

  /** Message i of r2 removes an ID that r1 has removed and no message of r2 has revived. */
  predicate RemovesAgain(r1: seq<Message>, r2: seq<Message>, i: nat)
    requires i < |r2|
  {
    r2[i].Removal? && RemovedBy(r1, r2[i].id) && !Mentioned(r2[..i], r2[i].id)
  }

  /** The second merge stops at a message the one merge goes past. */
  ghost predicate Stumbles(left: seq<Message>, r1: seq<Message>, r2: seq<Message>)
  {
    exists i :: 0 <= i < |r2| && RemovesAgain(r1, r2, i) && Merged(left, r1 + r2[..i]).Ok?
  }

  lemma {:induction false} RosterAppend(ids: seq<string>, a: seq<Message>, b: seq<Message>)
    ensures Roster(ids, a + b) == Roster(Roster(ids, a), b)
  {
    if b == [] {
      assert a + b == a;
    } else {
      RosterAppend(ids, a, b[..|b| - 1]);
      assert (a + b)[..|a + b| - 1] == a + b[..|b| - 1];
    }
  }

  lemma {:induction false} LastMentionAppend(a: seq<Message>, b: seq<Message>, id: string)
    ensures LastMention(a + b, id) == if LastMention(b, id).Some? then LastMention(b, id) else LastMention(a, id)
  {
    if b == [] {
      assert a + b == a;
    } else {
      LastMentionAppend(a, b[..|b| - 1], id);
      assert (a + b)[..|a + b| - 1] == a + b[..|b| - 1];
    }
  }

  lemma {:induction false} LastMentionMentions(right: seq<Message>, id: string)
    ensures LastMention(right, id).Some? <==> Mentioned(right, id)
  {
    if right != [] {
      LastMentionMentions(right[..|right| - 1], id);
      MentionedLast(right[..|right| - 1], right[|right| - 1], id);
      assert right[..|right| - 1] + [right[|right| - 1]] == right;
    }
  }

  /** The IDs the first merge leaves. */
  lemma FirstIds(left: seq<Message>, r1: seq<Message>, id: string)
    requires ClearedThrough(r1) == 0 && Merged(left, r1).Ok?
    ensures id in Ids(Merged(left, r1).value) <==> id in Roster(Ids(left), r1) && !RemovedBy(r1, id)
    ensures RemovedBy(r1, id) ==> id in Roster(Ids(left), r1)
  {
    hide Roster, Surviving, LastMention, MergeAll, Without;
    var d := MergeAll(Draft(left, {}), r1).value;
    DraftMeaning(left, r1, id);
    WithoutIds(d.merged, d.removed);
    SurvivingMembers(Roster(Ids(left), r1), d.removed, id);
    RosterMembers(Ids(left), r1, id);
    LastMentionMentions(r1, id);
  }

  /** Message n of r2 fails for a draft exactly when it removes an ID the draft does not have. */
  lemma NextFails(left: seq<Message>, right: seq<Message>, m: Message)
    requires MergeAll(Draft(left, {}), right).Ok?
    ensures var r := MergeAll(Draft(left, {}), right + [m]);
            && (r.Err? <==> m.Removal? && m.id !in Roster(Ids(left), right))
            && (r.Err? ==> r.error == MessageNotFound(m.id))
  {
    hide Roster;
    assert (right + [m])[..|right|] == right;
    LastStepFails(left, right + [m]);
  }

  /** As long as the second merge has not stumbled, both fail at the same message. */
  lemma {:induction false} InStep(left: seq<Message>, r1: seq<Message>, r2: seq<Message>, n: nat)
    requires ClearedThrough(r1) == 0 && Merged(left, r1).Ok? && n <= |r2|
    requires forall i :: 0 <= i < n && RemovesAgain(r1, r2, i) ==> MergeAll(Draft(left, {}), r1 + r2[..i]).Err?
    ensures var one, two := MergeAll(Draft(left, {}), r1 + r2[..n]), MergeAll(Draft(Merged(left, r1).value, {}), r2[..n]);
            (one.Ok? <==> two.Ok?) && (one.Err? ==> one.error == two.error)
  {
    hide Roster, MergeOne, RemovedBy, Without, ClearedThrough, MergeAll, RemovesAgain;
    if n == 0 {
      assert r1 + r2[..0] == r1 && r2[..0] == [];
      NothingMerged(Draft(Merged(left, r1).value, {}));
    } else {
      var init, m := r2[..n - 1], r2[n - 1];
      InStep(left, r1, r2, n - 1);
      assert r2[..n] == init + [m] && r1 + r2[..n] == (r1 + init) + [m];
      if MergeAll(Draft(left, {}), r1 + init).Ok? {
        NextInStep(left, r1, r2, n - 1);
      } else {
        StaysFailed(Draft(left, {}), r1 + init, m);
        StaysFailed(Draft(Merged(left, r1).value, {}), init, m);
      }
    }
  }

  lemma NothingMerged(d: Draft)
    ensures MergeAll(d, []) == Ok(d)
  {
  }

  lemma StaysFailed(d: Draft, right: seq<Message>, m: Message)
    requires MergeAll(d, right).Err?
    ensures MergeAll(d, right + [m]) == MergeAll(d, right)
  {
    assert (right + [m])[..|right|] == right;
  }

  lemma NextInStep(left: seq<Message>, r1: seq<Message>, r2: seq<Message>, n: nat)
    requires ClearedThrough(r1) == 0 && Merged(left, r1).Ok? && n < |r2| && !RemovesAgain(r1, r2, n)
    requires MergeAll(Draft(left, {}), r1 + r2[..n]).Ok? && MergeAll(Draft(Merged(left, r1).value, {}), r2[..n]).Ok?
    ensures var m := r2[n];
            var one, two := MergeAll(Draft(left, {}), r1 + r2[..n] + [m]), MergeAll(Draft(Merged(left, r1).value, {}), r2[..n] + [m]);
            (one.Ok? <==> two.Ok?) && (one.Err? ==> one.error == two.error)
  {
    hide Roster, RemovedBy, Without, ClearedThrough, MergeAll, Merged, Mentioned;
    var first, init, m := Merged(left, r1).value, r2[..n], r2[n];
    NextFails(left, r1 + init, m);
    NextFails(first, init, m);
    FirstIds(left, r1, m.id);
    RosterAppend(Ids(left), r1, init);
    RosterMembers(Roster(Ids(left), r1), init, m.id);
    RosterMembers(Ids(first), init, m.id);
  }

  /** An ID the draft has is never reported missing. */
  lemma {:induction false} NeverMissing(d: Draft, right: seq<Message>, id: string)
    requires LastIndex(d.merged, id).Some?
    ensures MergeAll(d, right) != Err(MessageNotFound(id))
    ensures MergeAll(d, right).Ok? ==> LastIndex(MergeAll(d, right).value.merged, id).Some?
  {
    if right != [] {
      var init, m := right[..|right| - 1], right[|right| - 1];
      NeverMissing(d, init, id);
      if MergeAll(d, init).Ok? {
        var before := MergeAll(d, init).value;
        match LastIndex(before.merged, m.id) {
          case Some(i) => SameIds(before.merged, before.merged[i := m], id);
          case None => LastIndexAppend(before.merged, m, id);
        }
      }
    }
  }

  /** The first message at which the second merge stumbles. */
  lemma {:induction false} FirstStumble(left: seq<Message>, r1: seq<Message>, r2: seq<Message>, n: nat) returns (k: nat)
    requires n < |r2| && RemovesAgain(r1, r2, n) && MergeAll(Draft(left, {}), r1 + r2[..n]).Ok?
    ensures k < |r2| && RemovesAgain(r1, r2, k) && MergeAll(Draft(left, {}), r1 + r2[..k]).Ok?
    ensures forall i :: 0 <= i < k && RemovesAgain(r1, r2, i) ==> MergeAll(Draft(left, {}), r1 + r2[..i]).Err?
  {
    hide RemovesAgain, MergeAll;
    if exists i: nat :: i < n && RemovesAgain(r1, r2, i) && MergeAll(Draft(left, {}), r1 + r2[..i]).Ok? {
      var i: nat :| i < n && RemovesAgain(r1, r2, i) && MergeAll(Draft(left, {}), r1 + r2[..i]).Ok?;
      k := FirstStumble(left, r1, r2, i);
    } else {
      k := n;
    }
  }

  /** From there on the merges differ. */
  lemma StumbleDiffers(left: seq<Message>, r1: seq<Message>, r2: seq<Message>, k: nat)
    requires ClearedThrough(r1) == 0 && Merged(left, r1).Ok? && k < |r2| && RemovesAgain(r1, r2, k)
    requires MergeAll(Draft(left, {}), r1 + r2[..k]).Ok?
    requires forall i :: 0 <= i < k && RemovesAgain(r1, r2, i) ==> MergeAll(Draft(left, {}), r1 + r2[..i]).Err?
    ensures MergeAll(Draft(Merged(left, r1).value, {}), r2) == Err(MessageNotFound(r2[k].id))
    ensures MergeAll(Draft(left, {}), r1 + r2) != Err(MessageNotFound(r2[k].id))
  {
    TwoStumbles(left, r1, r2, k);
    OneGoesOn(left, r1, r2, k);
  }

  lemma TwoStumbles(left: seq<Message>, r1: seq<Message>, r2: seq<Message>, k: nat)
    requires ClearedThrough(r1) == 0 && Merged(left, r1).Ok? && k < |r2| && RemovesAgain(r1, r2, k)
    requires MergeAll(Draft(left, {}), r1 + r2[..k]).Ok?
    requires forall i :: 0 <= i < k && RemovesAgain(r1, r2, i) ==> MergeAll(Draft(left, {}), r1 + r2[..i]).Err?
    ensures MergeAll(Draft(Merged(left, r1).value, {}), r2) == Err(MessageNotFound(r2[k].id))
  {
    hide Roster, MergeOne, RemovedBy, MergeAll, Without, ClearedThrough;
    var first, m := Merged(left, r1).value, r2[k];
    InStep(left, r1, r2, k);
    assert r2[..k + 1] == r2[..k] + [m];
    NextFails(first, r2[..k], m);
    FirstIds(left, r1, m.id);
    RosterMembers(Ids(first), r2[..k], m.id);
    MergeFails(Draft(first, {}), r2, k + 1);
  }

  lemma OneGoesOn(left: seq<Message>, r1: seq<Message>, r2: seq<Message>, k: nat)
    requires ClearedThrough(r1) == 0 && Merged(left, r1).Ok? && k < |r2| && RemovesAgain(r1, r2, k)
    requires MergeAll(Draft(left, {}), r1 + r2[..k]).Ok?
    ensures MergeAll(Draft(left, {}), r1 + r2) != Err(MessageNotFound(r2[k].id))
  {
    hide Roster, MergeOne, RemovedBy, MergeAll, Without, ClearedThrough;
    var done, id := r1 + r2[..k], r2[k].id;
    FirstIds(left, r1, id);
    RosterAppend(Ids(left), r1, r2[..k]);
    RosterMembers(Roster(Ids(left), r1), r2[..k], id);
    var d := MergeAll(Draft(left, {}), done).value;
    DraftMeaning(left, done, id);
    IdsMember(d.merged, id);
    MergeAllAppend(Draft(left, {}), done, r2[k..]);
    assert done + r2[k..] == r1 + r2;
    NeverMissing(d, r2[k..], id);
  }

  // ----- Where the orders differ -----

  /** In the one merge y stands behind x, which r1 removes and r2 revives; the two merges put x behind y. */
  ghost predicate Overtakes(left: seq<Message>, r1: seq<Message>, r2: seq<Message>, x: string, y: string)
  {
    && x != y && RemovedBy(r1, x) && Mentioned(r2, x) && !RemovedBy(r2, x) && !RemovedBy(r1 + r2, y)
    && Before(Roster(Ids(left), r1 + r2), x, y)
    && ((y in Roster(Ids(left), r1) && !RemovedBy(r1, y)) || !MentionedBefore(r2, x, y))
  }

  ghost predicate Overtaken(left: seq<Message>, r1: seq<Message>, r2: seq<Message>)
  {
    exists x, y :: Overtakes(left, r1, r2, x, y)
  }

  /** Two IDs of the final history, in the order of the one merge and of the two. */
  lemma OrderOf(left: seq<Message>, r1: seq<Message>, r2: seq<Message>, x: string, y: string)
    requires ClearedThrough(r1) == 0 && Merged(left, r1).Ok? && x != y
    requires !RemovedBy(r1 + r2, x) && !RemovedBy(r1 + r2, y)
    ensures var one, two := Roster(Ids(left), r1 + r2), Roster(Ids(Merged(left, r1).value), r2);
            Overtakes(left, r1, r2, x, y) <==> Before(one, x, y) && !Before(two, x, y)
  {
    hide Roster, MergeAll, Without, ClearedThrough, LastMention;
    var base, first := Roster(Ids(left), r1), Ids(Merged(left, r1).value);
    RosterAppend(Ids(left), r1, r2);
    RosterBefore(base, r2, x, y);
    RosterBefore(first, r2, x, y);
    FirstIds(left, r1, x);
    FirstIds(left, r1, y);
    FirstBefore(left, r1, x, y);
    LastMentionAppend(r1, r2, x);
    LastMentionAppend(r1, r2, y);
    LastMentionMentions(r2, x);
    LastMentionMentions(r2, y);
    if Before(base, x, y) { BeforeMembers(base, x, y); }
  }

  lemma FirstBefore(left: seq<Message>, r1: seq<Message>, x: string, y: string)
    requires ClearedThrough(r1) == 0 && Merged(left, r1).Ok?
    ensures var base, first := Roster(Ids(left), r1), Ids(Merged(left, r1).value);
            Before(first, x, y) <==> Before(base, x, y) && !RemovedBy(r1, x) && !RemovedBy(r1, y)
  {
    hide Roster, Surviving, LastMention, MergeAll, Without, Before;
    var d := MergeAll(Draft(left, {}), r1).value;
    DraftMeaning(left, r1, x);
    DraftMeaning(left, r1, y);
    WithoutIds(d.merged, d.removed);
    if !RemovedBy(r1, x) && !RemovedBy(r1, y) {
      SurvivingBefore(Roster(Ids(left), r1), d.removed, x, y);
    } else if Before(Ids(Merged(left, r1).value), x, y) {
      BeforeMembers(Ids(Merged(left, r1).value), x, y);
      FirstIds(left, r1, x);
      FirstIds(left, r1, y);
    }
  }

  /** Two IDs of a merged history, in its order and in that of the roster. */
  lemma MergedBefore(left: seq<Message>, right: seq<Message>, x: string, y: string)
    requires ClearedThrough(right) == 0 && Merged(left, right).Ok?
    ensures x in Ids(Merged(left, right).value) <==> x in Roster(Ids(left), right) && !RemovedBy(right, x)
    ensures !RemovedBy(right, x) && !RemovedBy(right, y) ==>
      (Before(Ids(Merged(left, right).value), x, y) <==> Before(Roster(Ids(left), right), x, y))
  {
    hide Roster, Surviving, LastMention, MergeAll, Without, Before;
    FirstIds(left, right, x);
    FirstBefore(left, right, x, y);
  }

  /** Both ways hold the same message for every ID. */
  lemma SameMessages(left: seq<Message>, r1: seq<Message>, r2: seq<Message>, id: string)
    requires ClearedThrough(r1) == 0 && ClearedThrough(r2) == 0 && ClearedThrough(r1 + r2) == 0
    requires Merged(left, r1).Ok? && Merged(Merged(left, r1).value, r2).Ok? && Merged(left, r1 + r2).Ok?
    ensures Find(Merged(Merged(left, r1).value, r2).value, id) == Find(Merged(left, r1 + r2).value, id)
    ensures id in Ids(Merged(Merged(left, r1).value, r2).value) <==> id in Ids(Merged(left, r1 + r2).value)
    ensures id in Ids(Merged(left, r1 + r2).value) ==> !RemovedBy(r1 + r2, id) && !RemovedBy(r2, id)
  {
    hide Roster, Surviving, LastMention, MergeAll, Without, ClearedThrough;
    var one, two := Merged(left, r1 + r2).value, Merged(Merged(left, r1).value, r2).value;
    MergeMeaning(left, r1, id);
    MergeMeaning(Merged(left, r1).value, r2, id);
    MergeMeaning(left, r1 + r2, id);
    LastMentionAppend(r1, r2, id);
    IdsMember(one, id);
    IdsMember(two, id);
  }

  lemma SameIfOrdered(left: seq<Message>, r1: seq<Message>, r2: seq<Message>)
    requires ClearedThrough(r1) == 0 && ClearedThrough(r2) == 0 && ClearedThrough(r1 + r2) == 0 && UniqueIds(left)
    requires Merged(left, r1).Ok? && Merged(Merged(left, r1).value, r2).Ok? && Merged(left, r1 + r2).Ok?
    ensures Merged(Merged(left, r1).value, r2) == Merged(left, r1 + r2) <==> !Overtaken(left, r1, r2)
  {
    hide Roster, Surviving, LastMention, MergeAll, Without, ClearedThrough, Before, Overtakes, Find, Merged;
    var one, two := Merged(left, r1 + r2).value, Merged(Merged(left, r1).value, r2).value;
    AllUnique(left, r1, r2);
    UniqueIdsDiffer(one);
    UniqueIdsDiffer(two);
    forall id ensures (id in Ids(one) <==> id in Ids(two)) && Find(one, id) == Find(two, id) {
      SameMessages(left, r1, r2, id);
    }
    forall x, y | x != y && x in Ids(one) && y in Ids(one)
      ensures Overtakes(left, r1, r2, x, y) <==> Before(Ids(one), x, y) && !Before(Ids(two), x, y)
    {
      FinalOrder(left, r1, r2, x, y);
    }
    if !Overtaken(left, r1, r2) {
      SameOrder(Ids(one), Ids(two));
      SameHistory(one, two);
    } else {
      var x, y :| Overtakes(left, r1, r2, x, y);
      OvertakenMembers(left, r1, r2, x, y);
      FinalOrder(left, r1, r2, x, y);
    }
  }

  lemma AllUnique(left: seq<Message>, r1: seq<Message>, r2: seq<Message>)
    requires ClearedThrough(r1) == 0 && ClearedThrough(r2) == 0 && ClearedThrough(r1 + r2) == 0 && UniqueIds(left)
    requires Merged(left, r1).Ok? && Merged(Merged(left, r1).value, r2).Ok? && Merged(left, r1 + r2).Ok?
    ensures UniqueIds(Merged(left, r1 + r2).value) && UniqueIds(Merged(Merged(left, r1).value, r2).value)
  {
    hide Roster, Surviving, LastMention, MergeAll, Without, ClearedThrough, Find;
    MergeMeaning(left, r1, "");
    MergeMeaning(Merged(left, r1).value, r2, "");
    MergeMeaning(left, r1 + r2, "");
  }

  lemma FinalOrder(left: seq<Message>, r1: seq<Message>, r2: seq<Message>, x: string, y: string)
    requires ClearedThrough(r1) == 0 && ClearedThrough(r2) == 0 && ClearedThrough(r1 + r2) == 0 && x != y
    requires Merged(left, r1).Ok? && Merged(Merged(left, r1).value, r2).Ok? && Merged(left, r1 + r2).Ok?
    requires x in Ids(Merged(left, r1 + r2).value) && y in Ids(Merged(left, r1 + r2).value)
    ensures Overtakes(left, r1, r2, x, y) <==>
      Before(Ids(Merged(left, r1 + r2).value), x, y) && !Before(Ids(Merged(Merged(left, r1).value, r2).value), x, y)
  {
    hide Roster, Surviving, LastMention, MergeAll, Without, ClearedThrough, Before, Overtakes, Find, Merged, RemovedBy;
    SameMessages(left, r1, r2, x);
    SameMessages(left, r1, r2, y);
    OrderOf(left, r1, r2, x, y);
    MergedBefore(left, r1 + r2, x, y);
    MergedBefore(Merged(left, r1).value, r2, x, y);
  }

  lemma OvertakenMembers(left: seq<Message>, r1: seq<Message>, r2: seq<Message>, x: string, y: string)
    requires ClearedThrough(r1 + r2) == 0 && Merged(left, r1 + r2).Ok? && Overtakes(left, r1, r2, x, y)
    ensures x in Ids(Merged(left, r1 + r2).value) && y in Ids(Merged(left, r1 + r2).value) && x != y
  {
    hide Roster, LastMention, MergeAll, Without, ClearedThrough, Before, Merged;
    BeforeMembers(Roster(Ids(left), r1 + r2), x, y);
    MergedBefore(left, r1 + r2, x, y);
    MergedBefore(left, r1 + r2, y, x);
    LastMentionAppend(r1, r2, x);
    LastMentionMentions(r2, x);
  }

  /**
    Merging r1 and then r2 is merging r1 followed by r2 exactly when r2 does not remove again what r1 has removed,
    before anything else fails, and no ID that r1 removes and r2 revives is overtaken.
  */
  lemma MergeTwiceExactly(left: seq<Message>, r1: seq<Message>, r2: seq<Message>)
    requires ClearedThrough(r1) == 0 && ClearedThrough(r2) == 0 && UniqueIds(left) && Merged(left, r1).Ok?
    ensures Merged(Merged(left, r1).value, r2) == Merged(left, r1 + r2) <==>
      !Stumbles(left, r1, r2) && (Merged(left, r1 + r2).Ok? ==> !Overtaken(left, r1, r2))
  {
    hide Roster, MergeAll, Without, ClearedThrough, RemovesAgain, Overtaken;
    NoMarkerAppend(r1, r2);
    forall i | 0 <= i < |r2| ensures Merged(left, r1 + r2[..i]).Ok? <==> MergeAll(Draft(left, {}), r1 + r2[..i]).Ok? {
      NoMarkerPrefix(r2, i);
      NoMarkerAppend(r1, r2[..i]);
    }
    if Stumbles(left, r1, r2) {
      var i :| 0 <= i < |r2| && RemovesAgain(r1, r2, i) && Merged(left, r1 + r2[..i]).Ok?;
      var k := FirstStumble(left, r1, r2, i);
      StumbleDiffers(left, r1, r2, k);
    } else {
      assert r2[..|r2|] == r2;
      InStep(left, r1, r2, |r2|);
      if Merged(left, r1 + r2).Ok? {
        SameIfOrdered(left, r1, r2);
      }
    }
  }

  lemma NoMarkerPrefix(right: seq<Message>, n: nat)
    requires ClearedThrough(right) == 0 && n <= |right|
    ensures ClearedThrough(right[..n]) == 0
  {
    assert forall i :: 0 <= i < n ==> right[i] != Removal(REMOVE_ALL);
  }
}
