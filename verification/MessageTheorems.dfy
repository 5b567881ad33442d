/** What a merge of message histories means, independent of the loops that compute it. */
module MessageTheorems {
  import opened Prelude
  import opened Messages

  function Ids(messages: seq<Message>): (r: seq<string>)
    ensures |r| == |messages| && forall i :: 0 <= i < |r| ==> r[i] == messages[i].id
  {
    seq(|messages|, i requires 0 <= i < |messages| => messages[i].id)
  }

  ghost predicate UniqueIds(messages: seq<Message>)
  {
    forall i, j :: 0 <= i < j < |messages| ==> messages[i].id != messages[j].id
  }

  // ----- IDs and order -----

  /** The IDs of a draft after the merge: those on the left, then each new ID at its first mention. */
  function Roster(ids: seq<string>, right: seq<Message>): seq<string>
  {
    if right == [] then ids
    else
      var before, id := Roster(ids, right[..|right| - 1]), right[|right| - 1].id;
      if id in before then before else before + [id]
  }

  /** The last word the right side has on an ID. */
  function LastMention(right: seq<Message>, id: string): Option<Message>
  {
    if right == [] then None
    else if right[|right| - 1].id == id then Some(right[|right| - 1])
    else LastMention(right[..|right| - 1], id)
  }

  function Find(messages: seq<Message>, id: string): Option<Message>
  {
    match LastIndex(messages, id) case None => None case Some(i) => Some(messages[i])
  }

  lemma IdsMember(messages: seq<Message>, id: string)
    ensures id in Ids(messages) <==> LastIndex(messages, id).Some?
  {
    if LastIndex(messages, id).Some? {
      assert Ids(messages)[LastIndex(messages, id).value] == id;
    }
  }

  /** What the draft holds for an ID and whether it is marked removed, by the last mention. */
  lemma {:induction false} DraftMeaning(left: seq<Message>, right: seq<Message>, id: string)
    requires MergeAll(Draft(left, {}), right).Ok?
    ensures var d := MergeAll(Draft(left, {}), right).value;
            && Ids(d.merged) == Roster(Ids(left), right)
            && (forall x :: x in d.removed ==> x in Ids(d.merged))
            && (id in d.removed <==> LastMention(right, id).Some? && LastMention(right, id).value.Removal?)
            && (id !in d.removed ==>
                  Find(d.merged, id) == if LastMention(right, id).Some? then LastMention(right, id) else Find(left, id))
  {
    if right != [] {
      var init, m := right[..|right| - 1], right[|right| - 1];
      DraftMeaning(left, init, id);
      MergeOneMeaning(MergeAll(Draft(left, {}), init).value, m, id);
    }
  }

  lemma MergeOneMeaning(d: Draft, m: Message, id: string)
    requires MergeOne(d, m).Ok? && forall x :: x in d.removed ==> x in Ids(d.merged)
    ensures var after := MergeOne(d, m).value;
            && (forall x :: x in after.removed ==> x in Ids(after.merged))
            && Ids(after.merged) == (if m.id in Ids(d.merged) then Ids(d.merged) else Ids(d.merged) + [m.id])
            && (id == m.id ==> (id in after.removed <==> m.Removal?) && (m.Text? ==> Find(after.merged, id) == Some(m)))
            && (id != m.id ==> (id in after.removed <==> id in d.removed) && Find(after.merged, id) == Find(d.merged, id))
  {
    hide Find;
    IdsMember(d.merged, m.id);
    match LastIndex(d.merged, m.id) {
      case Some(i) =>
        if m.Text? {
          FindReplaced(d.merged, i, m, id);
        }
      case None =>
        FindAppend(d.merged, m, id);
        assert Ids(d.merged + [m]) == Ids(d.merged) + [m.id];
    }
  }

  lemma FindReplaced(messages: seq<Message>, i: nat, m: Message, id: string)
    requires LastIndex(messages, m.id) == Some(i)
    ensures Find(messages[i := m], id) == if id == m.id then Some(m) else Find(messages, id)
    ensures Ids(messages[i := m]) == Ids(messages)
  {
    SameIds(messages, messages[i := m], id);
  }

  ghost predicate AllDifferent(ids: seq<string>)
  {
    forall i, j :: 0 <= i < j < |ids| ==> ids[i] != ids[j]
  }

  lemma {:induction false} RosterUnique(ids: seq<string>, right: seq<Message>)
    requires AllDifferent(ids)
    ensures AllDifferent(Roster(ids, right))
  {
    if right != [] {
      RosterUnique(ids, right[..|right| - 1]);
      var before := Roster(ids, right[..|right| - 1]);
      forall i | 0 <= i < |before| && right[|right| - 1].id !in before ensures before[i] != right[|right| - 1].id {
        assert before[i] in before;
      }
    }
  }

  function Surviving(ids: seq<string>, removed: set<string>): seq<string>
  {
    if ids == [] then []
    else
      var before, last := Surviving(ids[..|ids| - 1], removed), ids[|ids| - 1];
      if last in removed then before else before + [last]
  }

  lemma {:induction false} WithoutIds(messages: seq<Message>, removed: set<string>)
    ensures Ids(Without(messages, removed)) == Surviving(Ids(messages), removed)
  {
    if messages != [] {
      var init, last := messages[..|messages| - 1], messages[|messages| - 1];
      WithoutIds(init, removed);
      assert Ids(messages)[..|messages| - 1] == Ids(init);
      assert Ids(Without(init, removed) + [last]) == Ids(Without(init, removed)) + [last.id];
    }
  }

  lemma FindAppend(messages: seq<Message>, last: Message, id: string)
    ensures Find(messages + [last], id) == if last.id == id then Some(last) else Find(messages, id)
  {
    LastIndexAppend(messages, last, id);
  }

  lemma {:induction false} WithoutFind(messages: seq<Message>, removed: set<string>, id: string)
    ensures Find(Without(messages, removed), id) == if id in removed then None else Find(messages, id)
  {
    if messages != [] {
      hide Without, Find;
      var init, last := messages[..|messages| - 1], messages[|messages| - 1];
      WithoutFind(init, removed, id);
      assert init + [last] == messages;
      WithoutAppend(init, last, removed);
      FindAppend(init, last, id);
      if last.id !in removed {
        FindAppend(Without(init, removed), last, id);
      }
    } else {
      FindNothing(removed, id);
    }
  }

  lemma FindNothing(removed: set<string>, id: string)
    ensures Without([], removed) == [] && Find([], id) == None
  {
  }

  lemma {:induction false} WithoutUnique(messages: seq<Message>, removed: set<string>)
    requires UniqueIds(messages)
    ensures UniqueIds(Without(messages, removed)) && forall m :: m in Without(messages, removed) ==> m in messages
  {
    if messages != [] {
      var init, last := messages[..|messages| - 1], messages[|messages| - 1];
      WithoutUnique(init, removed);
      var before := Without(init, removed);
      forall i | 0 <= i < |before| ensures before[i].id != last.id {
        assert before[i] in init;
      }
    }
  }

  /**
    The merge of two identified histories without a clearing marker: unique IDs stay unique, the surviving IDs
    keep their order with new ones after them, and every ID has the last message that mentions it.
  */
  lemma MergeMeaning(left: seq<Message>, right: seq<Message>, id: string)
    requires ClearedThrough(right) == 0 && Merged(left, right).Ok?
    ensures var r := Merged(left, right).value;
            && (UniqueIds(left) ==> UniqueIds(r))
            && (exists removed: set<string> ::
                  && (forall x :: x in removed <==> LastMention(right, x).Some? && LastMention(right, x).value.Removal?)
                  && Ids(r) == Surviving(Roster(Ids(left), right), removed))
            && Find(r, id) == (match LastMention(right, id)
                               case None => Find(left, id)
                               case Some(m) => if m.Removal? then None else Some(m))
  {
    hide Roster, Surviving, Find, LastMention, Without;
    var d := MergeAll(Draft(left, {}), right).value;
    DraftMeaning(left, right, id);
    WithoutIds(d.merged, d.removed);
    WithoutFind(d.merged, d.removed, id);
    forall x ensures x in d.removed <==> LastMention(right, x).Some? && LastMention(right, x).value.Removal? {
      DraftMeaning(left, right, x);
    }
    if UniqueIds(left) {
      RosterUnique(Ids(left), right);
      assert UniqueIds(d.merged) by {
        forall i, j | 0 <= i < j < |d.merged| ensures d.merged[i].id != d.merged[j].id {
          assert Ids(d.merged)[i] != Ids(d.merged)[j];
        }
      }
      WithoutUnique(d.merged, d.removed);
    }
  }

  /** Position i removes an ID that no message before it has. */
  predicate Premature(left: seq<Message>, right: seq<Message>, i: nat)
    requires i < |right|
  {
    right[i].Removal? && right[i].id !in Roster(Ids(left), right[..i])
  }

  lemma LastStepFails(left: seq<Message>, right: seq<Message>)
    requires right != [] && MergeAll(Draft(left, {}), right[..|right| - 1]).Ok?
    ensures MergeAll(Draft(left, {}), right).Err? <==> Premature(left, right, |right| - 1)
  {
    var init, m := right[..|right| - 1], right[|right| - 1];
    DraftMeaning(left, init, m.id);
    IdsMember(MergeAll(Draft(left, {}), init).value.merged, m.id);
  }

  lemma {:induction false} MergeAllFails(left: seq<Message>, right: seq<Message>)
    ensures MergeAll(Draft(left, {}), right).Err? <==> exists i :: 0 <= i < |right| && Premature(left, right, i)
  {
    if right != [] {
      var n := |right| - 1;
      MergeAllFails(left, right[..n]);
      hide MergeOne, Roster;
      forall i | 0 <= i < n ensures Premature(left, right[..n], i) <==> Premature(left, right, i) {
        assert right[..n][..i] == right[..i];
      }
      if MergeAll(Draft(left, {}), right[..n]).Ok? {
        LastStepFails(left, right);
      }
    }
  }

  /** The merge fails exactly when a removal comes before any message with its ID. */
  lemma MergeFailsExactly(left: seq<Message>, right: seq<Message>)
    requires ClearedThrough(right) == 0
    ensures Merged(left, right).Err? <==> exists i :: 0 <= i < |right| && Premature(left, right, i)
  {
    MergeAllFails(left, right);
  }

  // ----- Two merges against one -----

  /** d is e with the messages in gone still present and marked removed. */
  ghost predicate Ahead(d: Draft, e: Draft, gone: set<string>)
  {
    e.merged == Without(d.merged, gone) && d.removed == e.removed + gone
  }

  /** Filtering out other IDs does not hide a message. */
  lemma {:induction false} WithoutIndex(messages: seq<Message>, gone: set<string>, id: string)
    requires id !in gone
    ensures LastIndex(messages, id).Some? <==> LastIndex(Without(messages, gone), id).Some?
  {
    if messages != [] {
      var init, last := messages[..|messages| - 1], messages[|messages| - 1];
      WithoutIndex(init, gone, id);
      var before := Without(init, gone);
      assert (before + [last])[..|before|] == before;
    }
  }

  /** The message takes the place of the last one with its ID. */
  function Replaced(messages: seq<Message>, m: Message): seq<Message>
  {
    match LastIndex(messages, m.id) case None => messages case Some(i) => messages[i := m]
  }

  lemma ReplacedAppend(messages: seq<Message>, last: Message, m: Message)
    ensures Replaced(messages + [last], m) == if last.id == m.id then messages + [m] else Replaced(messages, m) + [last]
  {
    hide LastIndex;
    LastIndexAppend(messages, last, m.id);
    if last.id == m.id {
      assert (messages + [last])[|messages| := m] == messages + [m];
    } else if LastIndex(messages, m.id).Some? {
      var i := LastIndex(messages, m.id).value;
      assert (messages + [last])[i := m] == messages[i := m] + [last];
    }
  }

  /** Replacing in place commutes with the filter. */
  lemma {:induction false} WithoutReplaced(messages: seq<Message>, gone: set<string>, m: Message)
    requires m.id !in gone
    ensures Without(Replaced(messages, m), gone) == Replaced(Without(messages, gone), m)
  {
    if messages != [] {
      var init, last := messages[..|messages| - 1], messages[|messages| - 1];
      WithoutReplaced(init, gone, m);
      hide Without, Replaced;
      assert messages == init + [last];
      WithoutAppend(init, last, gone);
      ReplacedAppend(init, last, m);
      ReplacedAppend(Without(init, gone), last, m);
      WithoutAppend(init, m, gone);
      WithoutAppend(Replaced(init, m), last, gone);
    }
  }

  lemma WithoutAppend(messages: seq<Message>, last: Message, gone: set<string>)
    ensures Without(messages + [last], gone) == if last.id in gone then Without(messages, gone) else Without(messages, gone) + [last]
  {
    assert (messages + [last])[..|messages|] == messages;
  }

  lemma LastIndexAppend(messages: seq<Message>, last: Message, id: string)
    ensures LastIndex(messages + [last], id) == if last.id == id then Some(|messages|) else LastIndex(messages, id)
  {
    assert (messages + [last])[..|messages|] == messages;
  }

  lemma MergeOneAhead(d: Draft, e: Draft, gone: set<string>, m: Message)
    requires Ahead(d, e, gone) && m.id !in gone
    ensures MergeOne(d, m).Ok? <==> MergeOne(e, m).Ok?
    ensures MergeOne(d, m).Ok? ==> Ahead(MergeOne(d, m).value, MergeOne(e, m).value, gone)
    ensures MergeOne(d, m).Err? ==> MergeOne(d, m).error == MergeOne(e, m).error
  {
    WithoutIndex(d.merged, gone, m.id);
    if LastIndex(d.merged, m.id).Some? {
      WithoutReplaced(d.merged, gone, m);
    } else if m.Text? {
      assert (d.merged + [m])[..|d.merged|] == d.merged;
    }
  }

  lemma {:induction false} MergeAllAhead(d: Draft, e: Draft, gone: set<string>, right: seq<Message>)
    requires Ahead(d, e, gone) && forall i :: 0 <= i < |right| ==> right[i].id !in gone
    ensures MergeAll(d, right).Ok? <==> MergeAll(e, right).Ok?
    ensures MergeAll(d, right).Ok? ==> Ahead(MergeAll(d, right).value, MergeAll(e, right).value, gone)
    ensures MergeAll(d, right).Err? ==> MergeAll(d, right).error == MergeAll(e, right).error
  {
    hide MergeOne, Ahead;
    if right != [] {
      var init := right[..|right| - 1];
      MergeAllAhead(d, e, gone, init);
      if MergeAll(d, init).Ok? {
        MergeOneAhead(MergeAll(d, init).value, MergeAll(e, init).value, gone, right[|right| - 1]);
      }
    }
  }

  lemma {:induction false} MergeAllAppend(d: Draft, a: seq<Message>, b: seq<Message>)
    requires MergeAll(d, a).Ok?
    ensures MergeAll(d, a + b) == MergeAll(MergeAll(d, a).value, b)
  {
    hide MergeOne;
    if b == [] {
      assert a + b == a;
    } else {
      MergeAllAppend(d, a, b[..|b| - 1]);
      assert (a + b)[..|a + b| - 1] == a + b[..|b| - 1];
    }
  }

  lemma {:induction false} WithoutTwice(messages: seq<Message>, a: set<string>, b: set<string>)
    ensures Without(Without(messages, a), b) == Without(messages, b + a)
  {
    if messages != [] {
      var init, last := messages[..|messages| - 1], messages[|messages| - 1];
      WithoutTwice(init, a, b);
      var before := Without(init, a);
      assert (before + [last])[..|before|] == before;
    }
  }

  /** The first merge left this ID removed. */
  predicate RemovedBy(right: seq<Message>, id: string)
  {
    LastMention(right, id).Some? && LastMention(right, id).value.Removal?
  }

  lemma {:induction false} NoMarkerAppend(a: seq<Message>, b: seq<Message>)
    requires ClearedThrough(a) == 0 && ClearedThrough(b) == 0
    ensures ClearedThrough(a + b) == 0
  {
    assert forall i :: 0 <= i < |a + b| ==> (a + b)[i] != Removal(REMOVE_ALL);
  }

  /**
    Merging r1 and then r2 is merging r1 followed by r2, whenever r2 mentions no ID that r1 left removed.
    Failures agree as well.
  */
  lemma MergeTwice(left: seq<Message>, r1: seq<Message>, r2: seq<Message>)
    requires ClearedThrough(r1) == 0 && ClearedThrough(r2) == 0 && Merged(left, r1).Ok?
    requires forall i :: 0 <= i < |r2| ==> !RemovedBy(r1, r2[i].id)
    ensures Merged(Merged(left, r1).value, r2) == Merged(left, r1 + r2)
  {
    hide MergeAll, MergeOne, Without, LastMention;
    var d := MergeAll(Draft(left, {}), r1).value;
    var first := Without(d.merged, d.removed);
    NoMarkerAppend(r1, r2);
    MergeAllAppend(Draft(left, {}), r1, r2);
    forall i | 0 <= i < |r2| ensures r2[i].id !in d.removed {
      DraftMeaning(left, r1, r2[i].id);
    }
    MergeAllAhead(d, Draft(first, {}), d.removed, r2);
    if MergeAll(d, r2).Ok? {
      var both, second := MergeAll(d, r2).value, MergeAll(Draft(first, {}), r2).value;
      assert Ahead(both, second, d.removed);
      WithoutTwice(both.merged, d.removed, second.removed);
    }
  }

  /** Reviving a removed ID in a second merge moves it to the end; in one merge it keeps its place. */
  lemma RevivalMoves(a: Message, b: Message)
    requires a.Text? && b.Text? && a.id != b.id && a.id != REMOVE_ALL
    ensures Merged([a, b], [Removal(a.id)]) == Ok([b])
    ensures Merged([b], [a]) == Ok([b, a])
    ensures Merged([a, b], [Removal(a.id), a]) == Ok([a, b])
  {
    hide MergeAll, LastIndex, Without, ClearedThrough;
    NoMarkers([Removal(a.id)]);
    NoMarkers([a]);
    NoMarkers([Removal(a.id), a]);
    TwoIndexes(a, b);
    RevivalDrafts(a, b);
    WithoutTwo(a, b, {});
    WithoutTwo(b, a, {});
    WithoutTwo(a, b, {a.id});
    assert [] + [b] == [b] && [b] + [a] == [b, a] && [a] + [b] == [a, b];
  }

  lemma NoMarkers(right: seq<Message>)
    requires forall i :: 0 <= i < |right| ==> right[i] != Removal(REMOVE_ALL)
    ensures ClearedThrough(right) == 0
  {
  }

  lemma TwoIndexes(a: Message, b: Message)
    requires a.id != b.id
    ensures LastIndex([a, b], a.id) == Some(0) && LastIndex([b], a.id) == None
  {
    assert [a, b][..1] == [a];
  }

  lemma WithoutTwo(a: Message, b: Message, removed: set<string>)
    ensures Without([a, b], removed) == (if a.id in removed then [] else [a]) + (if b.id in removed then [] else [b])
  {
    assert [a, b][..1] == [a] && [a][..0] == [];
    assert Without([], removed) == [];
    assert Without([a], removed) == if a.id in removed then [] else [a];
  }

  lemma RevivalDrafts(a: Message, b: Message)
    requires a.Text? && b.Text? && a.id != b.id
    requires LastIndex([a, b], a.id) == Some(0) && LastIndex([b], a.id) == None
    ensures MergeAll(Draft([a, b], {}), [Removal(a.id)]) == Ok(Draft([a, b], {a.id}))
    ensures MergeAll(Draft([b], {}), [a]) == Ok(Draft([b, a], {}))
    ensures MergeAll(Draft([a, b], {}), [Removal(a.id), a]) == Ok(Draft([a, b], {}))
  {
    var gone, start := Removal(a.id), Draft([a, b], {});
    assert [gone][..0] == [] && [a][..0] == [] && [gone, a][..1] == [gone];
    assert MergeAll(start, []) == Ok(start) && MergeAll(Draft([b], {}), []) == Ok(Draft([b], {}));
    assert MergeOne(start, gone) == Ok(Draft([a, b], {a.id})) by { assert {} + {a.id} == {a.id}; }
    assert MergeOne(Draft([b], {}), a) == Ok(Draft([b, a], {})) by { assert [b] + [a] == [b, a]; }
    assert MergeOne(Draft([a, b], {a.id}), a) == Ok(start) by {
      assert [a, b][0 := a] == [a, b] && {a.id} - {a.id} == {};
    }
  }
}
