/** The persisted records: per-flag progress, the progress table and the
    sync-queue items. */
module Records {
  import opened Common

  /** Progress of one flag. Dates are timestamps instead of ISO strings. */
  datatype FlagProgress = FlagProgress(
    flagCode: string,
    easeFactor: real,
    interval: int,
    nextReviewDate: Time,
    totalReviews: nat,
    correctReviews: nat,
    lastReviewedAt: Time,
    createdAt: Time)

  /** One key of the stored progress object with its record. */
  datatype Entry = Entry(key: string, progress: FlagProgress)

  /** The stored progress object: its entries in the object's key order
      (insertion order), which is the order Object.values visits them. */
  type ProgressTable = seq<Entry>

  function Keys(t: ProgressTable): (ks: seq<string>)
    ensures |ks| == |t| && forall i :: 0 <= i < |t| ==> ks[i] == t[i].key
  {
    if t == [] then [] else Keys(t[..|t| - 1]) + [t[|t| - 1].key]
  }

  /** An object never holds the same key twice. */
  predicate DistinctKeys(t: ProgressTable) {
    forall i, j :: 0 <= i < j < |t| ==> t[i].key != t[j].key
  }

  /** `allProgress[key]`: the record stored under a key, if any. */
  function Lookup(t: ProgressTable, key: string): (r: Option<FlagProgress>)
    ensures r.None? <==> key !in Keys(t)
    ensures r.Some? ==> Entry(key, r.value) in t
  {
    if t == [] then None
    else if t[|t| - 1].key == key then Some(t[|t| - 1].progress)
    else Lookup(t[..|t| - 1], key)
  }

  /** The table with the value under an existing key replaced in place. */
  function Replace(t: ProgressTable, key: string, value: FlagProgress): (r: ProgressTable)
    ensures |r| == |t|
  {
    if t == [] then []
    else if t[|t| - 1].key == key then t[..|t| - 1] + [Entry(key, value)]
    else Replace(t[..|t| - 1], key, value) + [t[|t| - 1]]
  }

  /** `allProgress[key] = value`: an existing key keeps its position and gets the
      new value; a new key is added at the end. */
  function Put(t: ProgressTable, key: string, value: FlagProgress): (r: ProgressTable)
    ensures key in Keys(t) ==> |r| == |t|
    ensures key !in Keys(t) ==> r == t + [Entry(key, value)]
  {
    if key in Keys(t) then Replace(t, key, value) else t + [Entry(key, value)]
  }

  lemma {:induction false} ReplaceThenLookup(t: ProgressTable, key: string, value: FlagProgress, other: string)
    requires DistinctKeys(t) && key in Keys(t)
    ensures Lookup(Replace(t, key, value), key) == Some(value)
    ensures other != key ==> Lookup(Replace(t, key, value), other) == Lookup(t, other)
    ensures Keys(Replace(t, key, value)) == Keys(t)
  {
    var init, last := t[..|t| - 1], t[|t| - 1];
    assert t == init + [last];
    assert Keys(t) == Keys(init) + [last.key];
    var r := Replace(t, key, value);
    if last.key == key {
      assert r == init + [Entry(key, value)];
      assert r[..|r| - 1] == init;
      assert Keys(r) == Keys(init) + [key];
    } else {
      assert key in Keys(init);
      ReplaceThenLookup(init, key, value, other);
      var p := Replace(init, key, value);
      assert r == p + [last];
      assert r[..|r| - 1] == p;
      assert Keys(r) == Keys(p) + [last.key];
    }
  }

  /** Reading a key just written gives the written value; every other key reads
      as before; the keys stay distinct, and only a new key adds one. */
  lemma PutThenLookup(t: ProgressTable, key: string, value: FlagProgress, other: string)
    requires DistinctKeys(t)
    ensures Lookup(Put(t, key, value), key) == Some(value)
    ensures other != key ==> Lookup(Put(t, key, value), other) == Lookup(t, other)
    ensures DistinctKeys(Put(t, key, value))
    ensures Keys(Put(t, key, value)) == if key in Keys(t) then Keys(t) else Keys(t) + [key]
  {
    if key in Keys(t) {
      ReplaceThenLookup(t, key, value, other);
      var r := Put(t, key, value);
      forall i, j | 0 <= i < j < |r| ensures r[i].key != r[j].key {
        assert r[i].key == Keys(r)[i] == Keys(t)[i];
        assert r[j].key == Keys(r)[j] == Keys(t)[j];
      }
    } else {
      var r := t + [Entry(key, value)];
      assert r[..|t|] == t;
      assert Keys(r) == Keys(t) + [key];
    }
  }

  // ---------------------------------------------------------------------------
  // Sync-queue items.

  datatype Action = Update | Delete

  function ActionName(a: Action): string {
    match a
    case Update => "update"
    case Delete => "delete"
  }

  /** The data of a queued change: a progress update, or any other object. */
  datatype Payload =
    | ProgressUpdate(flagCode: string, progress: FlagProgress)
    | Fields(fields: map<string, string>)

  datatype SyncQueueItem = SyncQueueItem(
    id: string,
    timestamp: Time,
    action: Action,
    data: Payload,
    retryCount: int)

  /** A sequence of items with no id repeated. */
  predicate DistinctIds(q: seq<SyncQueueItem>) {
    forall i, j :: 0 <= i < j < |q| ==> q[i].id != q[j].id
  }
}
