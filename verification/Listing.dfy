/**
  Listing checkpoints through a buffer: the base store is asked for its newest matching
  checkpoints, the matching buffered ones are laid over them, and the limit is applied again.
*/
module Listing {
  import opened Text

  datatype Key = Key(thread: string, namespace: string, id: string)

  type Tuple(==, !new)

  type Tuples = map<Key, Tuple>

  /** The order of every listing: by ID from the greatest down, then by thread, then by namespace. */
  predicate Newer(a: Key, b: Key)
  {
    || Less(b.id, a.id)
    || (a.id == b.id && (Less(a.thread, b.thread) || (a.thread == b.thread && Less(a.namespace, b.namespace))))
  }

  lemma NewerIsStrict(a: Key, b: Key)
    ensures !(Newer(a, b) && Newer(b, a)) && (Newer(a, b) || Newer(b, a) || a == b) && !Newer(a, a)
  {
    hide Less;
    LessIsStrict(a.id, b.id);
    LessIsStrict(a.thread, b.thread);
    LessIsStrict(a.namespace, b.namespace);
    LessIsStrict(a.id, a.id);
    LessIsStrict(a.thread, a.thread);
    LessIsStrict(a.namespace, a.namespace);
  }

  lemma NewerTransitive(a: Key, b: Key, c: Key)
    requires Newer(a, b) && Newer(b, c)
    ensures Newer(a, c)
  {
    hide Less;
    if Less(b.id, a.id) && Less(c.id, b.id) {
      LessTransitive(c.id, b.id, a.id);
    } else if a.id == b.id == c.id {
      if Less(a.thread, b.thread) && Less(b.thread, c.thread) {
        LessTransitive(a.thread, b.thread, c.thread);
      } else if a.thread == b.thread == c.thread {
        LessTransitive(a.namespace, b.namespace, c.namespace);
      }
    }
  }

  predicate IsNewest(keys: set<Key>, top: Key)
  {
    top in keys && forall x :: x in keys && x != top ==> Newer(top, x)
  }

  function Newest(keys: set<Key>): (r: Key)
    requires keys != {}
    ensures IsNewest(keys, r)
  {
    HasNewest(keys);
    OnlyNewest(keys);
    var r :| IsNewest(keys, r);
    r
  }

  lemma OnlyNewest(keys: set<Key>)
    ensures forall a, b :: IsNewest(keys, a) && IsNewest(keys, b) ==> a == b
  {
    hide Newer;
    forall a, b | IsNewest(keys, a) && IsNewest(keys, b) ensures a == b { NewerIsStrict(a, b); }
  }

  lemma {:induction false} HasNewest(keys: set<Key>)
    requires keys != {}
    ensures exists r :: IsNewest(keys, r)
    decreases |keys|
  {
    hide Newer;
    var some :| some in keys;
    if keys == {some} {
      assert IsNewest(keys, some);
    } else {
      assert keys - {some} != {};
      HasNewest(keys - {some});
      var best :| IsNewest(keys - {some}, best);
      NewerIsStrict(some, best);
      var top := if Newer(some, best) then some else best;
      forall x | x in keys && x != top ensures Newer(top, x) {
        if x != some && top == some && x != best {
          NewerTransitive(some, best, x);
        }
      }
      assert IsNewest(keys, top);
    }
  }

  lemma OneNewest(keys: set<Key>, top: Key)
    requires IsNewest(keys, top)
    ensures keys != {} && Newest(keys) == top
  {
    hide Newer;
    NewerIsStrict(Newest(keys), top);
  }

  /** The newest `limit` of the keys, newest first. */
  function Latest(keys: set<Key>, limit: nat): (r: seq<Key>)
    ensures |r| <= limit && forall x :: x in r ==> x in keys
    decreases limit
  {
    if limit == 0 || keys == {} then []
    else [Newest(keys)] + Latest(keys - {Newest(keys)}, limit - 1)
  }

  ghost predicate Descends(list: seq<Key>)
  {
    forall i, j :: 0 <= i < j < |list| ==> Newer(list[i], list[j])
  }

  lemma {:induction false} LatestDescends(keys: set<Key>, limit: nat)
    ensures Descends(Latest(keys, limit))
    decreases limit
  {
    hide Newer;
    if limit > 0 && keys != {} {
      var top := Newest(keys);
      var rest := Latest(keys - {top}, limit - 1);
      LatestDescends(keys - {top}, limit - 1);
      forall j | 0 <= j < |rest| ensures Newer(top, rest[j]) {
        assert rest[j] in keys - {top};
      }
    }
  }

  /** A limit of zero lists everything. */
  function Limit(keys: set<Key>, limit: nat): nat
  {
    if limit == 0 then |keys| else limit
  }

  function List(tuples: Tuples, limit: nat): (r: seq<Key>)
  {
    Latest(tuples.Keys, Limit(tuples.Keys, limit))
  }

  function Among(tuples: Tuples, keys: seq<Key>): Tuples
  {
    map k | k in tuples && k in keys :: tuples[k]
  }

  /** What of a store matches the options: thread, namespace, ID, upper bound and metadata. */
  function Matching(tuples: Tuples, matches: (Key, Tuple) -> bool): Tuples
  {
    map k | k in tuples && matches(k, tuples[k]) :: tuples[k]
  }

  /** What the base returns, with the matching drafts laid over it. */
  function Overlaid(stored: Tuples, drafts: Tuples, matches: (Key, Tuple) -> bool, limit: nat): Tuples
  {
    Among(Matching(stored, matches), List(Matching(stored, matches), limit)) + Matching(drafts, matches)
  }

  /** listWithBufferedTuples. */
  function ListBuffered(stored: Tuples, drafts: Tuples, matches: (Key, Tuple) -> bool, limit: nat): seq<Key>
  {
    List(Overlaid(stored, drafts, matches, limit), limit)
  }

  // ----- Limiting twice is limiting once -----

  lemma {:induction false} FewerAreFirst(keys: set<Key>, limit: nat)
    requires limit > 0
    ensures forall x :: x in Latest(keys, limit - 1) ==> x in Latest(keys, limit)
    decreases limit
  {
    hide Newest;
    if limit > 1 && keys != {} {
      FewerAreFirst(keys - {Newest(keys)}, limit - 1);
    }
  }

  lemma SameNewest(a: set<Key>, b: set<Key>)
    requires a <= b && b != {} && Newest(b) in a
    ensures a != {} && Newest(a) == Newest(b)
  {
    OneNewest(a, Newest(b));
  }

  lemma NewestOfPart(s: set<Key>, d: set<Key>)
    requires s + d != {} && Newest(s + d) in s
    ensures s != {} && Newest(s) == Newest(s + d)
  {
    OneNewest(s, Newest(s + d));
  }

  /** Leaving out keys of s beyond its newest `limit` does not change the newest `limit` of a union. */
  lemma {:induction false} OldOnesDoNotMatter(s: set<Key>, kept: set<Key>, d: set<Key>, limit: nat)
    requires kept <= s && forall x :: x in Latest(s, limit) ==> x in kept
    ensures Latest(kept + d, limit) == Latest(s + d, limit)
    decreases limit
  {
    hide Newer, Newest, IsNewest;
    if limit > 0 && s + d != {} {
      var top := Newest(s + d);
      NewestIn(s + d);
      if top in s {
        NewestOfPart(s, d);
        assert Latest(s, limit)[0] == top;
      }
      assert top in kept + d;
      SameNewest(kept + d, s + d);
      FewerAreFirst(s, limit);
      forall x | x in Latest(s - {top}, limit - 1) ensures x in kept - {top} {
        if top in s {
          assert Latest(s, limit) == [top] + Latest(s - {top}, limit - 1);
          assert x in s - {top};
        } else {
          assert s - {top} == s;
        }
      }
      OldOnesDoNotMatter(s - {top}, kept - {top}, d - {top}, limit - 1);
      assert (s - {top}) + (d - {top}) == (s + d) - {top} && (kept - {top}) + (d - {top}) == (kept + d) - {top};
    } else if limit > 0 {
      assert kept + d == {};
    }
  }

  lemma {:induction false} LatestAll(keys: set<Key>, limit: nat)
    requires limit >= |keys|
    ensures forall x :: x in keys ==> x in Latest(keys, limit)
    decreases limit
  {
    hide Newest, Newer, IsNewest;
    if keys != {} {
      var top := Newest(keys);
      assert top in keys by { NewestIn(keys); }
      LatestAll(keys - {top}, limit - 1);
      assert forall x :: x in keys ==> x == top || x in keys - {top};
    }
  }

  lemma NewestIn(keys: set<Key>)
    requires keys != {}
    ensures Newest(keys) in keys
  {
  }

  /** What the base is asked for: at least its newest `limit`, and everything without a limit. */
  lemma FirstKeys(stored: Tuples, limit: nat)
    ensures var first := Among(stored, List(stored, limit)).Keys;
            && first <= stored.Keys && (limit == 0 ==> first == stored.Keys)
            && forall x :: x in Latest(stored.Keys, Limit(stored.Keys, limit)) ==> x in first
  {
    hide Latest;
    LatestAll(stored.Keys, |stored.Keys|);
  }

  /**
    The listing through a buffer shows exactly the newest matching checkpoints of base and buffer together, newest
    first, although the base was asked for a limited number only.
  */
  lemma BufferedListing(stored: Tuples, drafts: Tuples, matches: (Key, Tuple) -> bool, limit: nat)
    ensures ListBuffered(stored, drafts, matches, limit) == List(Matching(stored, matches) + Matching(drafts, matches), limit)
    ensures Descends(ListBuffered(stored, drafts, matches, limit))
  {
    hide Latest, Among, Matching, Descends;
    var s, d := Matching(stored, matches), Matching(drafts, matches);
    var first := Among(s, List(s, limit));
    FirstKeys(s, limit);
    assert (first + d).Keys == first.Keys + d.Keys && (s + d).Keys == s.Keys + d.Keys;
    if limit > 0 {
      OldOnesDoNotMatter(s.Keys, first.Keys, d.Keys, limit);
    }
    LatestDescends((first + d).Keys, Limit((first + d).Keys, limit));
  }

  /** A buffered checkpoint is shown in place of the stored one with its key. */
  lemma BufferedShown(stored: Tuples, drafts: Tuples, matches: (Key, Tuple) -> bool, limit: nat, k: Key)
    requires k in ListBuffered(stored, drafts, matches, limit)
    ensures k in Overlaid(stored, drafts, matches, limit)
    ensures Overlaid(stored, drafts, matches, limit)[k] == (Matching(stored, matches) + Matching(drafts, matches))[k]
  {
    hide Latest;
  }

  /** A stored checkpoint matches although the draft that replaces it does not. */
  predicate Outdated(stored: Tuples, drafts: Tuples, matches: (Key, Tuple) -> bool, k: Key)
  {
    k in stored && k in drafts && matches(k, stored[k]) && !matches(k, drafts[k])
  }

  /** The whole listing is that of the store with the drafts in it, exactly when no outdated checkpoint matches. */
  lemma BufferedIsMergedExactly(stored: Tuples, drafts: Tuples, matches: (Key, Tuple) -> bool)
    ensures ListBuffered(stored, drafts, matches, 0) == List(Matching(stored + drafts, matches), 0) <==>
            forall k :: !Outdated(stored, drafts, matches, k)
  {
    hide Latest, Matching, Outdated, ListBuffered;
    var merged, both := Matching(stored + drafts, matches), Matching(stored, matches) + Matching(drafts, matches);
    BufferedListing(stored, drafts, matches, 0);
    LatestAll(both.Keys, |both.Keys|);
    LatestAll(merged.Keys, |merged.Keys|);
    forall k ensures (k in both <==> k in merged || Outdated(stored, drafts, matches, k)) && !(k in merged && Outdated(stored, drafts, matches, k)) {
      OutdatedKey(stored, drafts, matches, k);
    }
    if k :| Outdated(stored, drafts, matches, k) {
      assert k in List(both, 0) && k !in List(merged, 0);
    } else {
      assert both.Keys == merged.Keys;
    }
  }

  lemma OutdatedKey(stored: Tuples, drafts: Tuples, matches: (Key, Tuple) -> bool, k: Key)
    ensures var merged, both := Matching(stored + drafts, matches), Matching(stored, matches) + Matching(drafts, matches);
            && (k in both <==> k in merged || Outdated(stored, drafts, matches, k))
            && !(k in merged && Outdated(stored, drafts, matches, k))
  {
  }
}
