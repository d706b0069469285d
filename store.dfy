/**
 The document store, partitioned by user: `users/{uid}/entries/{date}` and
 `users/{uid}/months/{month}`, with lookups, merging writes, and the scan of all
 of a user's entries that the month aggregation runs.
 */
module Store {
  import opened Options
  import opened Documents
  import opened MonthAggregator

  /** The opaque identity of a signed-in user. */
  type Uid = string

  /**
   `ids` and `snaps` list every document of `docs` exactly once, each beside its
   key, in some order (the order of the store's query is not modelled).
   */
  predicate Enumerates(docs: map<string, Doc>, ids: seq<string>, snaps: seq<Doc>) {
    && |ids| == |snaps|
    && (forall i :: 0 <= i < |ids| ==> ids[i] in docs && snaps[i] == docs[ids[i]])
    && (forall i, j :: 0 <= i < j < |ids| ==> ids[i] != ids[j])
    && (forall id :: id in docs ==> id in ids)
  }

  /** The accumulators over all documents of `docs`, independent of any order. */
  ghost function MapTally(docs: map<string, Doc>, mk: string): Tally
    decreases |docs|
  {
    if docs == map[] then ZERO
    else
      var id :| id in docs;
      var rest := docs - {id};
      assert rest.Keys == docs.Keys - {id};
      Add(MapTally(rest, mk), Contribution(docs[id], mk))
  }

  /** Any one document can be taken out of MapTally first. */
  lemma {:induction false} MapTallyRemove(docs: map<string, Doc>, id: string, mk: string)
    requires id in docs
    ensures MapTally(docs, mk) == Add(MapTally(docs - {id}, mk), Contribution(docs[id], mk))
    decreases |docs|
  {
    var k :| k in docs && MapTally(docs, mk) == Add(MapTally(docs - {k}, mk), Contribution(docs[k], mk));
    if k != id {
      var both := docs - {k} - {id};
      assert (docs - {k}).Keys == docs.Keys - {k};
      assert (docs - {id}).Keys == docs.Keys - {id};
      assert docs - {id} - {k} == both;
      MapTallyRemove(docs - {k}, id, mk);
      MapTallyRemove(docs - {id}, k, mk);
      var r, ci, ck := MapTally(both, mk), Contribution(docs[id], mk), Contribution(docs[k], mk);
      // MapTally(docs) == (r + ci) + ck and the claim is (r + ck) + ci
      AddAssociates(r, ci, ck);
      AddCommutes(ci, ck);
      AddAssociates(r, ck, ci);
    }
  }

  /** Scanning the documents in whatever order the store lists them yields MapTally. */
  lemma {:induction false} ScanTally(docs: map<string, Doc>, ids: seq<string>, snaps: seq<Doc>, mk: string)
    requires Enumerates(docs, ids, snaps)
    ensures Accumulate(snaps, mk) == MapTally(docs, mk)
    decreases |ids|
  {
    var n := |ids|;
    if n == 0 {
      assert ids == [];
      assert docs.Keys == {};
      assert docs == map[];
    } else {
      var last := ids[n - 1];
      var rest := docs - {last};
      assert Enumerates(rest, ids[..n - 1], snaps[..n - 1]) by {
        forall id | id in rest ensures id in ids[..n - 1] {
          var j :| 0 <= j < n && ids[j] == id;
          assert j != n - 1;
          assert ids[..n - 1][j] == id;
        }
      }
      ScanTally(rest, ids[..n - 1], snaps[..n - 1], mk);
      MapTallyRemove(docs, last, mk);
    }
  }

  /**
   A collection partitioned by user after a merging write of `payload` into the
   document `key` of user `uid`: that document becomes the merge.
   */
  function MergedAt<K, V>(docs: map<Uid, map<string, map<K, V>>>, uid: Uid, key: string, payload: map<K, V>)
    : (r: map<Uid, map<string, map<K, V>>>)
    ensures uid in r && key in r[uid]
    ensures r[uid][key] == Merge(if uid in docs && key in docs[uid] then docs[uid][key] else map[], payload)
  {
    var userDocs := if uid in docs then docs[uid] else map[];
    var before := if key in userDocs then userDocs[key] else map[];
    docs[uid := userDocs[key := Merge(before, payload)]]
  }

  /** A merging write keeps every other document as it was and removes none. */
  lemma MergedAtKeepsOthers<K, V>(docs: map<Uid, map<string, map<K, V>>>, uid: Uid, key: string, payload: map<K, V>)
    ensures var r := MergedAt(docs, uid, key, payload);
            && (forall u, k :: u in r && k in r[u] && (u != uid || k != key) ==>
                  u in docs && k in docs[u] && r[u][k] == docs[u][k])
            && (forall u, k :: u in docs && k in docs[u] ==> u in r && k in r[u])
  {
  }

  class DocumentStore {
    /** `users/{uid}/entries/{date}` */
    var entries: map<Uid, map<string, Doc>>
    /** `users/{uid}/months/{month}` */
    var months: map<Uid, map<string, MonthDoc>>

    constructor ()
      ensures entries == map[] && months == map[]
    {
      entries := map[];
      months := map[];
    }

    /** The user's entry documents, keyed by date. */
    function UserEntries(uid: Uid): map<string, Doc>
      reads this`entries
    {
      if uid in entries then entries[uid] else map[]
    }

    /** The read of `users/{uid}/entries/{date}`. */
    function EntryDoc(uid: Uid, date: string): (r: Option<Doc>)
      reads this`entries
      ensures r.Some? <==> date in UserEntries(uid)
      ensures r.Some? ==> r.value == UserEntries(uid)[date]
    {
      if date in UserEntries(uid) then Some(UserEntries(uid)[date]) else None
    }

    /** The user's month documents, keyed by month. */
    function UserMonths(uid: Uid): map<string, MonthDoc>
      reads this`months
    {
      if uid in months then months[uid] else map[]
    }

    /** The read of `users/{uid}/months/{mk}`. */
    function MonthDocOf(uid: Uid, mk: string): (r: Option<MonthDoc>)
      reads this`months
      ensures r.Some? <==> mk in UserMonths(uid)
      ensures r.Some? ==> r.value == UserMonths(uid)[mk]
    {
      if mk in UserMonths(uid) then Some(UserMonths(uid)[mk]) else None
    }

    /** The merging write of `payload` into `users/{uid}/entries/{date}`. */
    method MergeEntry(uid: Uid, date: string, payload: Doc)
      modifies this`entries
      ensures entries == MergedAt(old(entries), uid, date, payload)
    {
      entries := MergedAt(entries, uid, date, payload);
    }

    /** The merging write of `payload` into `users/{uid}/months/{mk}`. */
    method MergeMonth(uid: Uid, mk: string, payload: MonthDoc)
      modifies this`months
      ensures months == MergedAt(old(months), uid, mk, payload)
    {
      months := MergedAt(months, uid, mk, payload);
    }

    /** The query over `users/{uid}/entries`: every entry document of the user, once each. */
    method ScanEntries(uid: Uid) returns (ids: seq<string>, snaps: seq<Doc>)
      ensures Enumerates(UserEntries(uid), ids, snaps)
    {
      var docs := UserEntries(uid);
      var remaining := docs.Keys;
      ids, snaps := [], [];
      while remaining != {}
        invariant remaining <= docs.Keys
        invariant |ids| == |snaps|
        invariant forall i :: 0 <= i < |ids| ==> ids[i] in docs && ids[i] !in remaining && snaps[i] == docs[ids[i]]
        invariant forall i, j :: 0 <= i < j < |ids| ==> ids[i] != ids[j]
        invariant forall id :: id in docs ==> id in remaining || id in ids
        decreases remaining
      {
        var id :| id in remaining;
        ids, snaps := ids + [id], snaps + [docs[id]];
        remaining := remaining - {id};
      }
    }
  }
}
