/** The sync queue: a durable FIFO of pending changes, flushed to the remote
    store one item at a time. Remote delivery is the injected oracle
    `deliver`; a flush is one uninterrupted pass over the queue. */
module Sync {
  import opened Common
  import opened Records
  import opened Environment

  /** The in-memory sync state, as getSyncState() returns it. */
  datatype SyncState = SyncState(
    isOnline: bool,
    isSyncing: bool,
    lastSyncTime: Option<Time>,
    queuedChanges: seq<SyncQueueItem>,
    syncError: Option<string>)

  /** Item ids: `${action}_${Date.now()}_${random}`, with the random part given. */
  function ItemId(action: Action, now: Time, nonce: string): string {
    ActionName(action) + "_" + IntToDecimal(now) + "_" + nonce
  }

  function NewItem(action: Action, data: Payload, now: Time, nonce: string): SyncQueueItem {
    SyncQueueItem(ItemId(action, now, nonce), now, action, data, 0)
  }

  function Ids(items: seq<SyncQueueItem>): (ids: seq<string>)
    ensures |ids| == |items| && forall i :: 0 <= i < |items| ==> ids[i] == items[i].id
  {
    if items == [] then [] else Ids(items[..|items| - 1]) + [items[|items| - 1].id]
  }

  function Retried(item: SyncQueueItem): SyncQueueItem {
    item.(retryCount := item.retryCount + 1)
  }

  // ---------------------------------------------------------------------------
  // One delivery pass, as values.

  /** The queue after every item has been tried once: each failed item has its
      retry count raised in place. */
  function Attempted(items: seq<SyncQueueItem>, deliver: SyncQueueItem -> bool): (r: seq<SyncQueueItem>)
    ensures |r| == |items| && forall i :: 0 <= i < |items| ==> r[i].id == items[i].id
  {
    if items == [] then []
    else
      var last := items[|items| - 1];
      Attempted(items[..|items| - 1], deliver) + [if deliver(last) then last else Retried(last)]
  }

  /** The ids of the delivered items, in queue order. */
  function SuccessfulIds(items: seq<SyncQueueItem>, deliver: SyncQueueItem -> bool): (ids: seq<string>)
    ensures forall id :: id in ids ==> id in Ids(items)
  {
    if items == [] then []
    else
      var last := items[|items| - 1];
      SuccessfulIds(items[..|items| - 1], deliver) + (if deliver(last) then [last.id] else [])
  }

  /** `queue.filter(item => !ids.includes(item.id))` */
  function WithoutIds(items: seq<SyncQueueItem>, ids: seq<string>): (r: seq<SyncQueueItem>)
    ensures |r| <= |items|
  {
    if items == [] then []
    else
      var last := items[|items| - 1];
      WithoutIds(items[..|items| - 1], ids) + (if last.id in ids then [] else [last])
  }

  /** The queue a completed pass leaves: every item whose id was delivered is
      removed; nothing else is, whatever its retry count. */
  function AfterPass(queue: seq<SyncQueueItem>, deliver: SyncQueueItem -> bool): seq<SyncQueueItem> {
    WithoutIds(Attempted(queue, deliver), SuccessfulIds(queue, deliver))
  }

  /** Reference definition: the failed items, in order, each retried once more. */
  function FailedRetried(queue: seq<SyncQueueItem>, deliver: SyncQueueItem -> bool): seq<SyncQueueItem> {
    if queue == [] then []
    else
      var last := queue[|queue| - 1];
      FailedRetried(queue[..|queue| - 1], deliver) + (if deliver(last) then [] else [Retried(last)])
  }

  lemma {:induction false} WithoutUnknownId(items: seq<SyncQueueItem>, ids: seq<string>, x: string)
    requires x !in Ids(items)
    ensures WithoutIds(items, ids + [x]) == WithoutIds(items, ids)
  {
    if items != [] {
      var init := items[..|items| - 1];
      assert Ids(items) == Ids(init) + [items[|items| - 1].id];
      WithoutUnknownId(init, ids, x);
    }
  }

  lemma WithoutIdsSnoc(items: seq<SyncQueueItem>, x: SyncQueueItem, ids: seq<string>)
    ensures WithoutIds(items + [x], ids) == WithoutIds(items, ids) + (if x.id in ids then [] else [x])
  {
    assert (items + [x])[..|items|] == items;
  }

  lemma AttemptedSnoc(init: seq<SyncQueueItem>, last: SyncQueueItem, deliver: SyncQueueItem -> bool)
    ensures Attempted(init + [last], deliver)
         == Attempted(init, deliver) + [if deliver(last) then last else Retried(last)]
    ensures SuccessfulIds(init + [last], deliver)
         == SuccessfulIds(init, deliver) + (if deliver(last) then [last.id] else [])
  {
    assert (init + [last])[..|init|] == init;
  }

  /** An id absent from the queue is absent from the tried queue and from the
      delivered ids. */
  lemma FreshIdStaysFresh(init: seq<SyncQueueItem>, deliver: SyncQueueItem -> bool, x: string)
    requires x !in Ids(init)
    ensures x !in Ids(Attempted(init, deliver)) && x !in SuccessfulIds(init, deliver)
  {
    var a := Attempted(init, deliver);
    forall i | 0 <= i < |a| ensures Ids(a)[i] != x {
      assert Ids(a)[i] == a[i].id == init[i].id == Ids(init)[i];
    }
  }

  /** A pass over one more item whose id is new: the item goes if delivered
      and stays, retried, otherwise. */
  lemma PassSnoc(init: seq<SyncQueueItem>, last: SyncQueueItem, deliver: SyncQueueItem -> bool)
    requires last.id !in Ids(init)
    ensures AfterPass(init + [last], deliver)
         == AfterPass(init, deliver) + (if deliver(last) then [] else [Retried(last)])
  {
    var a := Attempted(init, deliver);
    var s := SuccessfulIds(init, deliver);
    var tried := if deliver(last) then last else Retried(last);
    AttemptedSnoc(init, last, deliver);
    FreshIdStaysFresh(init, deliver, last.id);
    if deliver(last) {
      WithoutIdsSnoc(a, tried, s + [last.id]);
      WithoutUnknownId(a, s, last.id);
      assert AfterPass(init + [last], deliver) == WithoutIds(a + [tried], s + [last.id]);
      assert WithoutIds(a + [tried], s + [last.id]) == WithoutIds(a, s + [last.id]) + [];
    } else {
      WithoutIdsSnoc(a, tried, s);
      assert SuccessfulIds(init + [last], deliver) == s + [] == s;
      assert AfterPass(init + [last], deliver) == WithoutIds(a + [tried], s);
    }
  }

  /** With distinct ids, a pass removes exactly the delivered items and keeps
      the failed ones in their order, each with one more retry. */
  lemma {:induction false} AfterPassKeepsExactlyFailures(queue: seq<SyncQueueItem>, deliver: SyncQueueItem -> bool)
    requires DistinctIds(queue)
    ensures AfterPass(queue, deliver) == FailedRetried(queue, deliver)
  {
    if queue != [] {
      var init, last := queue[..|queue| - 1], queue[|queue| - 1];
      assert DistinctIds(init);
      AfterPassKeepsExactlyFailures(init, deliver);
      forall i | 0 <= i < |init| ensures Ids(init)[i] != last.id {
        assert Ids(init)[i] == queue[i].id;
      }
      assert queue == init + [last];
      PassSnoc(init, last, deliver);
    }
  }

  /** A failed item is never dropped, even once its retry count reaches 3: the
      "drop after 3 attempts" branch of the pass only logs. */
  lemma FailedItemsAreNeverDropped(queue: seq<SyncQueueItem>, deliver: SyncQueueItem -> bool, k: nat)
    requires DistinctIds(queue) && k < |queue| && !deliver(queue[k])
    ensures Retried(queue[k]) in AfterPass(queue, deliver)
  {
    AfterPassKeepsExactlyFailures(queue, deliver);
    FailedRetriedContains(queue, deliver, k);
  }

  lemma {:induction false} FailedRetriedContains(queue: seq<SyncQueueItem>, deliver: SyncQueueItem -> bool, k: nat)
    requires k < |queue| && !deliver(queue[k])
    ensures Retried(queue[k]) in FailedRetried(queue, deliver)
  {
    var init := queue[..|queue| - 1];
    if k < |queue| - 1 {
      assert queue[k] == init[k];
      FailedRetriedContains(init, deliver, k);
    }
  }

  /** When every delivery succeeds, a pass empties the queue. */
  lemma {:induction false} AllDeliveredEmptiesQueue(queue: seq<SyncQueueItem>, deliver: SyncQueueItem -> bool)
    requires forall i :: 0 <= i < |queue| ==> deliver(queue[i])
    ensures AfterPass(queue, deliver) == []
  {
    if queue != [] {
      var init, last := queue[..|queue| - 1], queue[|queue| - 1];
      AllDeliveredEmptiesQueue(init, deliver);
      var a := Attempted(init, deliver);
      var s := SuccessfulIds(init, deliver);
      assert (a + [last])[..|a|] == a;
      assert WithoutIds(a + [last], s + [last.id])
          == WithoutIds(a, s + [last.id]) + [];
      WithoutIdsShrinks(a, s, last.id);
    }
  }

  lemma {:induction false} WithoutIdsShrinks(items: seq<SyncQueueItem>, ids: seq<string>, x: string)
    requires WithoutIds(items, ids) == []
    ensures WithoutIds(items, ids + [x]) == []
  {
    if items != [] {
      var init, last := items[..|items| - 1], items[|items| - 1];
      assert last.id in ids;
      WithoutIdsShrinks(init, ids, x);
    }
  }

  lemma {:induction false} AttemptAllFailing(queue: seq<SyncQueueItem>, deliver: SyncQueueItem -> bool)
    requires forall i :: 0 <= i < |queue| ==> !deliver(queue[i])
    ensures SuccessfulIds(queue, deliver) == []
    ensures forall i :: 0 <= i < |queue| ==> Attempted(queue, deliver)[i] == Retried(queue[i])
  {
    if queue != [] {
      var init := queue[..|queue| - 1];
      AttemptAllFailing(init, deliver);
    }
  }

  lemma {:induction false} WithoutNoIds(items: seq<SyncQueueItem>)
    ensures WithoutIds(items, []) == items
  {
    if items != [] {
      WithoutNoIds(items[..|items| - 1]);
    }
  }

  /** When every delivery fails, a pass keeps every item and retries each once. */
  lemma AllFailedRetriesEveryItem(queue: seq<SyncQueueItem>, deliver: SyncQueueItem -> bool)
    requires forall i :: 0 <= i < |queue| ==> !deliver(queue[i])
    ensures |AfterPass(queue, deliver)| == |queue|
    ensures forall i :: 0 <= i < |queue| ==> AfterPass(queue, deliver)[i] == Retried(queue[i])
  {
    AttemptAllFailing(queue, deliver);
    WithoutNoIds(Attempted(queue, deliver));
  }

  /** One more item of a pass, as the loop of synchronizeChanges takes it:
      the partly tried queue, with the item in place updated, is the queue
      tried one item further. */
  lemma AttemptStep(items: seq<SyncQueueItem>, i: nat, deliver: SyncQueueItem -> bool,
                    queue: seq<SyncQueueItem>, ids: seq<string>)
    requires i < |items|
    requires queue == Attempted(items[..i], deliver) + items[i..]
    requires ids == SuccessfulIds(items[..i], deliver)
    ensures deliver(items[i]) ==>
      && queue == Attempted(items[..i + 1], deliver) + items[i + 1..]
      && ids + [items[i].id] == SuccessfulIds(items[..i + 1], deliver)
    ensures !deliver(items[i]) ==>
      && queue[i := Retried(items[i])] == Attempted(items[..i + 1], deliver) + items[i + 1..]
      && ids == SuccessfulIds(items[..i + 1], deliver)
  {
    var done := items[..i];
    assert items[..i + 1] == done + [items[i]];
    AttemptedSnoc(done, items[i], deliver);
    var a := Attempted(done, deliver);
    assert items[i..] == [items[i]] + items[i + 1..];
    UpdateAtJoin(a, items[i], Retried(items[i]), items[i + 1..]);
  }

  lemma UpdateAtJoin<T>(a: seq<T>, x: T, y: T, rest: seq<T>)
    ensures a + [x] + rest == a + ([x] + rest)
    ensures (a + [x] + rest)[|a| := y] == a + [y] + rest
  {
  }

  // ---------------------------------------------------------------------------
  // The state-level view of a flush and of enqueueing.

  /** synchronizeChanges does anything only when online, not already syncing,
      with a non-empty queue and working storage. */
  predicate FlushRuns(s: SyncState, storageAvailable: bool) {
    s.isOnline && !s.isSyncing && |s.queuedChanges| > 0 && storageAvailable
  }

  /** The sync state after synchronizeChanges. */
  function Flushed(s: SyncState, storageAvailable: bool, deliver: SyncQueueItem -> bool, now: Time): SyncState {
    if FlushRuns(s, storageAvailable) then
      s.(isSyncing := false, syncError := None,
         queuedChanges := AfterPass(s.queuedChanges, deliver), lastSyncTime := Some(now))
    else s
  }

  /** The sync state after queueChange: the item is appended, then a flush is
      started when online and not already syncing. */
  function Enqueued(s: SyncState, item: SyncQueueItem, storageAvailable: bool,
                    deliver: SyncQueueItem -> bool, now: Time): SyncState
  {
    var appended := s.(queuedChanges := s.queuedChanges + [item]);
    if appended.isOnline && !appended.isSyncing then Flushed(appended, storageAvailable, deliver, now)
    else appended
  }

  /** A pass that clears the guard records the time even if every item failed,
      clears the error, ends not syncing, and keeps exactly the failed items. */
  lemma FlushOutcome(s: SyncState, storageAvailable: bool, deliver: SyncQueueItem -> bool, now: Time)
    requires FlushRuns(s, storageAvailable) && DistinctIds(s.queuedChanges)
    ensures var f := Flushed(s, storageAvailable, deliver, now);
      && f.lastSyncTime == Some(now) && f.syncError == None && !f.isSyncing
      && f.isOnline == s.isOnline
      && f.queuedChanges == FailedRetried(s.queuedChanges, deliver)
  {
    AfterPassKeepsExactlyFailures(s.queuedChanges, deliver);
  }

  /** Offline, or with a flush in progress, a new change is only appended. */
  lemma EnqueueWithoutFlush(s: SyncState, item: SyncQueueItem, storageAvailable: bool,
                            deliver: SyncQueueItem -> bool, now: Time)
    requires !s.isOnline || s.isSyncing
    ensures Enqueued(s, item, storageAvailable, deliver, now).queuedChanges == s.queuedChanges + [item]
  {
  }

  /** Online with every delivery succeeding, queueing a change leaves an empty queue. */
  lemma EnqueueOnlineDelivers(s: SyncState, item: SyncQueueItem, deliver: SyncQueueItem -> bool, now: Time)
    requires s.isOnline && !s.isSyncing
    requires forall it :: deliver(it)
    ensures var e := Enqueued(s, item, true, deliver, now);
      e.queuedChanges == [] && e.lastSyncTime == Some(now)
  {
    AllDeliveredEmptiesQueue(s.queuedChanges + [item], deliver);
  }

  /** Repeated flushes. */
  function FlushedTimes(s: SyncState, storageAvailable: bool, deliver: SyncQueueItem -> bool, now: Time, k: nat): SyncState {
    if k == 0 then s else Flushed(FlushedTimes(s, storageAvailable, deliver, now, k - 1), storageAvailable, deliver, now)
  }

  /** With a remote that always fails, k flushes keep every item and raise each
      retry count by k: items are never dropped after three attempts. */
  lemma {:induction false} FailingItemsStayQueued(s: SyncState, deliver: SyncQueueItem -> bool, now: Time, k: nat)
    requires FlushRuns(s, true)
    requires forall it :: !deliver(it)
    ensures var f := FlushedTimes(s, true, deliver, now, k);
      && FlushRuns(f, true)
      && |f.queuedChanges| == |s.queuedChanges|
      && forall i :: 0 <= i < |s.queuedChanges| ==>
           f.queuedChanges[i] == s.queuedChanges[i].(retryCount := s.queuedChanges[i].retryCount + k)
  {
    if k > 0 {
      FailingItemsStayQueued(s, deliver, now, k - 1);
      var prev := FlushedTimes(s, true, deliver, now, k - 1);
      FailingFlushStep(prev, deliver, now);
      var f := FlushedTimes(s, true, deliver, now, k);
      assert f == Flushed(prev, true, deliver, now);
      forall i | 0 <= i < |s.queuedChanges|
        ensures f.queuedChanges[i] == s.queuedChanges[i].(retryCount := s.queuedChanges[i].retryCount + k)
      {
        assert f.queuedChanges[i] == Retried(prev.queuedChanges[i]);
      }
    }
  }

  /** One flush against a remote that always fails. */
  lemma FailingFlushStep(s: SyncState, deliver: SyncQueueItem -> bool, now: Time)
    requires FlushRuns(s, true)
    requires forall it :: !deliver(it)
    ensures var f := Flushed(s, true, deliver, now);
      && FlushRuns(f, true)
      && |f.queuedChanges| == |s.queuedChanges|
      && forall i :: 0 <= i < |s.queuedChanges| ==> f.queuedChanges[i] == Retried(s.queuedChanges[i])
  {
    AllFailedRetriesEveryItem(s.queuedChanges, deliver);
  }

  // ---------------------------------------------------------------------------
  // The module's state and operations.

  class SyncEngine {
    const host: Host
    /** The remote endpoint: whether delivering an item succeeds. */
    const deliver: SyncQueueItem -> bool

    var isOnline: bool
    var isSyncing: bool
    var lastSyncTime: Option<Time>
    var queuedChanges: seq<SyncQueueItem>
    var syncError: Option<string>
    /** The window's "online"/"offline" handlers of this module are registered. */
    var listening: bool

    /** getSyncState() */
    function State(): SyncState
      reads this
    {
      SyncState(isOnline, isSyncing, lastSyncTime, queuedChanges, syncError)
    }

    /** The module's default state, taken when it is loaded. */
    constructor (host: Host, deliver: SyncQueueItem -> bool)
      ensures this.host == host && this.deliver == deliver
      ensures State() == SyncState(if host.NavigatorAvailable() then host.online else true, false, None, [], None)
      ensures !listening
    {
      this.host := host;
      this.deliver := deliver;
      isOnline := if host.NavigatorAvailable() then host.online else true;
      isSyncing := false;
      lastSyncTime := None;
      queuedChanges := [];
      syncError := None;
      listening := false;
    }

    /** saveQueueToStorage() */
    method SaveQueueToStorage()
      modifies host`syncQueue
      ensures host.StorageAvailable() ==> host.syncQueue == Holds(queuedChanges)
      ensures !host.StorageAvailable() ==> host.syncQueue == old(host.syncQueue)
    {
      if host.StorageAvailable() {
        host.syncQueue := Holds(queuedChanges);
      }
    }

    /** The stored queue and sync time after a request for a flush: a pass
        that runs stores the new queue and its own time; a request the guard
        rejects leaves both keys as they were. */
    twostate predicate StoredAfter(ran: bool, now: Time)
      reads this, host
    {
      if ran then host.syncQueue == Holds(queuedChanges) && host.lastSync == Some(now)
      else host.syncQueue == old(host.syncQueue) && host.lastSync == old(host.lastSync)
    }

    /** The loop of synchronizeChanges: every item of the queue is offered to
        the remote once, and each failed item's retry count is raised where it
        sits in the queue. */
    method AttemptEach() returns (successfulItems: seq<string>)
      modifies this`queuedChanges
      ensures queuedChanges == Attempted(old(queuedChanges), deliver)
      ensures successfulItems == SuccessfulIds(old(queuedChanges), deliver)
    {
      successfulItems := [];
      var items := queuedChanges;
      var i := 0;
      while i < |items|
        invariant 0 <= i <= |items|
        invariant queuedChanges == Attempted(items[..i], deliver) + items[i..]
        invariant successfulItems == SuccessfulIds(items[..i], deliver)
      {
        successfulItems := AttemptItem(items, i, successfulItems);
        i := i + 1;
      }
      assert items[..|items|] == items;
    }

    /** One turn of that loop: offer `items[i]`, then record its id, or
        raise its retry count in the queue. */
    method AttemptItem(items: seq<SyncQueueItem>, i: nat, ids: seq<string>) returns (ids': seq<string>)
      requires i < |items|
      requires queuedChanges == Attempted(items[..i], deliver) + items[i..]
      requires ids == SuccessfulIds(items[..i], deliver)
      modifies this`queuedChanges
      ensures queuedChanges == Attempted(items[..i + 1], deliver) + items[i + 1..]
      ensures ids' == SuccessfulIds(items[..i + 1], deliver)
    {
      var item := items[i];
      AttemptStep(items, i, deliver, queuedChanges, ids);
      if deliver(item) {
        ids' := ids + [item.id];
      } else {
        // The item object is shared with the queue, so the new retry count
        // shows in the queue; the `retryCount < 3` test only decides logging.
        ids' := ids;
        queuedChanges := queuedChanges[i := Retried(item)];
      }
    }

    /** synchronizeChanges(): one pass over a snapshot of the queue. */
    method SynchronizeChanges(now: Time)
      modifies this`isSyncing, this`syncError, this`queuedChanges, this`lastSyncTime
      modifies host`syncQueue, host`lastSync
      ensures State() == Flushed(old(State()), host.StorageAvailable(), deliver, now)
      ensures StoredAfter(FlushRuns(old(State()), host.StorageAvailable()), now)
    {
      if !isOnline || isSyncing || |queuedChanges| == 0 || !host.StorageAvailable() {
        return;
      }
      ghost var target := Flushed(State(), true, deliver, now);
      isSyncing := true;
      syncError := None;
      RunPass();
      assert queuedChanges == target.queuedChanges;
      lastSyncTime := Some(now);
      host.lastSync := Some(now);
      SaveQueueToStorage();
      isSyncing := false;
      assert State() == target;
    }

    /** The pass itself: delivered items are filtered out of the tried queue. */
    method RunPass()
      modifies this`queuedChanges
      ensures queuedChanges == AfterPass(old(queuedChanges), deliver)
    {
      var successfulItems := AttemptEach();
      queuedChanges := WithoutIds(queuedChanges, successfulItems);
    }

    /** forceSynchronization() */
    method ForceSynchronization(now: Time)
      modifies this`isSyncing, this`syncError, this`queuedChanges, this`lastSyncTime
      modifies host`syncQueue, host`lastSync
      ensures State() == Flushed(old(State()), host.StorageAvailable(), deliver, now)
      ensures StoredAfter(FlushRuns(old(State()), host.StorageAvailable()), now)
    {
      SynchronizeChanges(now);
    }

    /** queueChange(action, data), with the creation time and the random part
        of the id given. */
    method QueueChange(action: Action, data: Payload, now: Time, nonce: string)
      modifies this`isSyncing, this`syncError, this`queuedChanges, this`lastSyncTime
      modifies host`syncQueue, host`lastSync
      ensures State() == Enqueued(old(State()), NewItem(action, data, now, nonce), host.StorageAvailable(), deliver, now)
      ensures host.StorageAvailable() ==> host.syncQueue == Holds(queuedChanges)
      ensures !host.StorageAvailable() ==> host.syncQueue == old(host.syncQueue)
      ensures host.lastSync == if old(isOnline) && !old(isSyncing) && host.StorageAvailable() then Some(now) else old(host.lastSync)
    {
      var item := NewItem(action, data, now, nonce);
      queuedChanges := queuedChanges + [item];
      SaveQueueToStorage();
      if isOnline && !isSyncing {
        SynchronizeChanges(now);
      }
    }

    /** queueProgressUpdate(flagCode, progress) */
    method QueueProgressUpdate(flagCode: string, progress: FlagProgress, now: Time, nonce: string)
      modifies this`isSyncing, this`syncError, this`queuedChanges, this`lastSyncTime
      modifies host`syncQueue, host`lastSync
      ensures State() == Enqueued(old(State()), NewItem(Update, ProgressUpdate(flagCode, progress), now, nonce),
                                  host.StorageAvailable(), deliver, now)
      ensures host.StorageAvailable() ==> host.syncQueue == Holds(queuedChanges)
      ensures !host.StorageAvailable() ==> host.syncQueue == old(host.syncQueue)
      ensures host.lastSync == if old(isOnline) && !old(isSyncing) && host.StorageAvailable() then Some(now) else old(host.lastSync)
    {
      QueueChange(Update, ProgressUpdate(flagCode, progress), now, nonce);
    }

    /** initializeSync(): load the stored queue and last sync time, register the
        handlers, take the navigator's online flag and flush a non-empty queue. */
    method InitializeSync(now: Time)
      modifies this, host`syncQueue, host`lastSync
      ensures !(host.NavigatorAvailable() && host.StorageAvailable()) ==>
        State() == old(State()) && listening == old(listening) && unchanged(host)
      ensures host.NavigatorAvailable() && host.StorageAvailable() ==>
        var loaded := Loaded(old(State()), old(host.syncQueue), old(host.lastSync), host.online);
        && listening
        && State() == Flushed(loaded, true, deliver, now)
        && StoredAfter(FlushRuns(loaded, true), now)
    {
      if !host.NavigatorAvailable() || !host.StorageAvailable() {
        return;
      }
      var loaded := true;
      match host.syncQueue {
        case Holds(q) => queuedChanges := q;
        case Unreadable => loaded := false;
        case Missing =>
      }
      if loaded && host.lastSync.Some? {
        lastSyncTime := host.lastSync;
      }
      listening := true;
      isOnline := host.online;
      if isOnline && |queuedChanges| > 0 {
        SynchronizeChanges(now);
      }
    }

    /** cleanupSync() */
    method CleanupSync()
      modifies this`listening
      ensures listening == (old(listening) && !host.hasWindow)
    {
      if !host.hasWindow {
        return;
      }
      listening := false;
    }

    /** The first statement of handleOnline: the engine takes itself to be
        online. */
    method MarkOnline()
      modifies this`isOnline
      ensures State() == old(State()).(isOnline := true)
    {
      isOnline := true;
    }

    /** handleOnline(): the window's "online" event. */
    method HandleOnline(now: Time)
      modifies this`isOnline, this`isSyncing, this`syncError, this`queuedChanges, this`lastSyncTime
      modifies host`syncQueue, host`lastSync
      ensures State() == Flushed(old(State()).(isOnline := true), host.StorageAvailable(), deliver, now)
      ensures StoredAfter(FlushRuns(old(State()).(isOnline := true), host.StorageAvailable()), now)
    {
      MarkOnline();
      SynchronizeChanges(now);
    }

    /** handleOffline(): the window's "offline" event. */
    method HandleOffline()
      modifies this`isOnline
      ensures State() == old(State()).(isOnline := false)
    {
      isOnline := false;
    }

    /** clearSyncQueue() */
    method ClearSyncQueue()
      modifies this`queuedChanges, host`syncQueue
      ensures State() == old(State()).(queuedChanges := [])
      ensures host.StorageAvailable() ==> host.syncQueue == Holds([])
      ensures !host.StorageAvailable() ==> host.syncQueue == old(host.syncQueue)
    {
      queuedChanges := [];
      SaveQueueToStorage();
    }
  }

  /** The state initializeSync loads: a decoded stored queue replaces the
      in-memory one; the last sync time is read unless the queue failed to
      decode (both reads share one try block); the online flag is the
      navigator's. */
  function Loaded(s: SyncState, stored: Slot<seq<SyncQueueItem>>, lastSync: Option<Time>, online: bool): SyncState {
    s.(queuedChanges := if stored.Holds? then stored.value else s.queuedChanges,
       lastSyncTime := if !stored.Unreadable? && lastSync.Some? then lastSync else s.lastSyncTime,
       isOnline := online)
  }
}
