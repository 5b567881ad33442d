/**
  Channel blobs: a store keeps the value of a channel once per version, so a checkpoint
  is put with the versions that are new and read back by looking its versions up.
*/
module Blobs {
  import opened Prelude
  import opened Envelopes
  import opened Versions

  /** Values by channel and version; `None` records that the channel was absent. */
  type BlobMap = map<(string, Id), Option<EncodedValue>>

  function PutBlobs(blobs: BlobMap, values: map<string, EncodedValue>, added: map<string, Id>): BlobMap
  {
    blobs + map c | c in added :: (c, added[c]) := Value(values, c)
  }

  /** Loading skips the channels whose blob is missing. */
  function Load(blobs: BlobMap, versions: map<string, Id>): map<string, EncodedValue>
  {
    map c | c in versions && (c, versions[c]) in blobs && blobs[(c, versions[c])].Some? :: blobs[(c, versions[c])].value
  }

  // ----- Chains of drafts -----

  /** The snapshot before the k-th draft. */
  function Before(base: Snapshot, drafts: seq<Snapshot>, k: nat): Snapshot
    requires k <= |drafts|
  {
    if k == 0 then base else drafts[k - 1]
  }

  /** The versions that preparing draft k reports as new. */
  function Reported(base: Snapshot, drafts: seq<Snapshot>, k: nat): map<string, Id>
    requires k < |drafts|
  {
    NewVersions(Before(base, drafts, k), drafts[k].values, drafts[k].id)
  }

  /** Each draft was stamped on the one before it, under an ID that was never used before. */
  ghost predicate IsDraftChain(base: Snapshot, drafts: seq<Snapshot>)
  {
    && (forall k :: 0 <= k < |drafts| ==>
          drafts[k].versions == StampVersions(Before(base, drafts, k), drafts[k].values, drafts[k].id))
    && (forall j, k :: 0 <= j < k < |drafts| ==> drafts[j].id != drafts[k].id)
    && (forall c, k :: c in base.versions && 0 <= k < |drafts| ==> base.versions[c] != drafts[k].id)
  }

  /** The versions of a that b does not share. */
  function Differing(base: map<string, Id>, versions: map<string, Id>): map<string, Id>
  {
    map c | c in versions && Version(base, c) != Version(versions, c) :: versions[c]
  }

  ghost predicate ReportedBefore(base: Snapshot, drafts: seq<Snapshot>, c: string, n: nat)
    requires n <= |drafts|
  {
    exists k :: 0 <= k < n && c in Reported(base, drafts, k)
  }

  lemma DraftStep(base: Snapshot, drafts: seq<Snapshot>, c: string, k: nat)
    requires IsDraftChain(base, drafts) && k < |drafts|
    ensures var prev, now := Before(base, drafts, k), drafts[k];
            && now.values.Keys <= now.versions.Keys
            && (c in Reported(base, drafts, k) ==> c in now.versions && now.versions[c] == now.id)
            && (c !in Reported(base, drafts, k) ==> Version(now.versions, c) == Version(prev.versions, c))
            && (c !in Reported(base, drafts, k) && prev.values.Keys <= prev.versions.Keys ==> Value(now.values, c) == Value(prev.values, c))
  {
    var prev, now := Before(base, drafts, k), drafts[k];
    assert now.versions == StampVersions(prev, now.values, now.id);
    if c !in Reported(base, drafts, k) && prev.values.Keys <= prev.versions.Keys && c !in prev.versions {
      assert c !in now.values && c !in prev.values;
    }
  }

  /** A channel's version after n drafts: the base's, or the ID of a draft that reported it. */
  lemma {:induction false} VersionAfter(base: Snapshot, drafts: seq<Snapshot>, c: string, n: nat)
    requires IsDraftChain(base, drafts) && n <= |drafts|
    ensures var now := Before(base, drafts, n);
            if ReportedBefore(base, drafts, c, n)
            then c in now.versions && exists k :: 0 <= k < n && now.versions[c] == drafts[k].id
            else Version(now.versions, c) == Version(base.versions, c)
  {
    hide IsDraftChain, Reported;
    if n > 0 {
      VersionAfter(base, drafts, c, n - 1);
      DraftStep(base, drafts, c, n - 1);
    }
  }

  /** Comparing the last draft with the base names exactly the channels that some draft reported. */
  lemma DifferingIsReported(base: Snapshot, drafts: seq<Snapshot>, c: string)
    requires IsDraftChain(base, drafts) && drafts != []
    ensures c in Differing(base.versions, drafts[|drafts| - 1].versions) <==> ReportedBefore(base, drafts, c, |drafts|)
  {
    VersionAfter(base, drafts, c, |drafts|);
  }

  // ----- Reading back -----

  /** The store holds every blob of the snapshot. */
  ghost predicate Holds(blobs: BlobMap, s: Snapshot)
  {
    && s.values.Keys <= s.versions.Keys
    && forall c :: c in s.versions ==> (c, s.versions[c]) in blobs && blobs[(c, s.versions[c])] == Value(s.values, c)
  }

  lemma HoldsLoads(blobs: BlobMap, s: Snapshot)
    requires Holds(blobs, s)
    ensures Load(blobs, s.versions) == s.values
  {
  }

  lemma {:induction false} UnreportedValue(base: Snapshot, drafts: seq<Snapshot>, c: string, n: nat)
    requires IsDraftChain(base, drafts) && n <= |drafts| && base.values.Keys <= base.versions.Keys
    requires !ReportedBefore(base, drafts, c, n)
    ensures var now := Before(base, drafts, n);
            Value(now.values, c) == Value(base.values, c) && now.values.Keys <= now.versions.Keys
  {
    hide IsDraftChain, Reported;
    if n > 0 {
      UnreportedValue(base, drafts, c, n - 1);
      DraftStep(base, drafts, c, n - 1);
      assert c !in Reported(base, drafts, n - 1);
    }
  }

  lemma PublishedBlob(blobs: BlobMap, base: Snapshot, drafts: seq<Snapshot>, c: string)
    requires IsDraftChain(base, drafts) && drafts != [] && Holds(blobs, base) && c in drafts[|drafts| - 1].versions
    ensures var last := drafts[|drafts| - 1];
            var after := PutBlobs(blobs, last.values, Differing(base.versions, last.versions));
            (c, last.versions[c]) in after && after[(c, last.versions[c])] == Value(last.values, c)
  {
    hide IsDraftChain, ReportedBefore;
    var last := drafts[|drafts| - 1];
    DifferingIsReported(base, drafts, c);
    if !ReportedBefore(base, drafts, c, |drafts|) {
      UnreportedValue(base, drafts, c, |drafts|);
    }
  }

  /**
    Publishing only the last draft, with the versions that differ from the base, stores everything needed to
    read it back, although the drafts in between never reach the store.
  */
  lemma LastDraftLoads(blobs: BlobMap, base: Snapshot, drafts: seq<Snapshot>)
    requires IsDraftChain(base, drafts) && drafts != [] && Holds(blobs, base)
    ensures var last := drafts[|drafts| - 1];
            var after := PutBlobs(blobs, last.values, Differing(base.versions, last.versions));
            Holds(after, last) && Load(after, last.versions) == last.values
  {
    hide IsDraftChain, PutBlobs, Differing;
    var last := drafts[|drafts| - 1];
    var after := PutBlobs(blobs, last.values, Differing(base.versions, last.versions));
    DraftStep(base, drafts, "", |drafts| - 1);
    forall c | c in last.versions
      ensures (c, last.versions[c]) in after && after[(c, last.versions[c])] == Value(last.values, c)
    {
      PublishedBlob(blobs, base, drafts, c);
    }
    HoldsLoads(after, last);
  }

  /** What was stored for the base and earlier checkpoints stays readable. */
  lemma PutKeeps(blobs: BlobMap, s: Snapshot, values: map<string, EncodedValue>, added: map<string, Id>)
    requires Holds(blobs, s) && forall c :: c in added && c in s.versions ==> added[c] != s.versions[c]
    ensures Holds(PutBlobs(blobs, values, added), s)
  {
  }
}
