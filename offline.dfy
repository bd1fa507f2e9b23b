/** Offline support: the navigator's online flag, a time-bounded "offline mode"
    kept in two storage keys, the periodic check, and status subscribers.

    The storage object exists only with a window: reading it without one
    throws. Writing or removing a key throws when storage is unavailable.
    A call that throws is modelled as one that does nothing further and,
    where a result is returned, as `None` or `false`. */
module Offline {
  import opened Common
  import opened Records
  import opened Environment
  import opened Sync

  /** 1000 * 60 * 60 * 24 * 7 */
  const DEFAULT_EXPIRY_TIME: int := 604_800_000
  const DEFAULT_CHECK_INTERVAL_MS: int := 10_000
  /** The stored value of the offline-mode key that means "on". */
  const OFFLINE_MODE_ON: string := "true"

  datatype OfflineStatus = OfflineStatus(
    isOnline: bool,
    isInOfflineMode: bool,
    offlineModeExpiry: Option<Time>,
    isOfflineModeExpired: bool,
    syncPending: bool)

  /** Offline options; an absent field is `None`. */
  datatype OfflineOptions = OfflineOptions(
    expiryTime: Option<int>,
    checkIntervalMs: Option<int>,
    automaticReconnect: Option<bool>)

  const DEFAULT_OFFLINE_OPTIONS: OfflineOptions :=
    OfflineOptions(Some(DEFAULT_EXPIRY_TIME), Some(DEFAULT_CHECK_INTERVAL_MS), Some(true))

  /** `{ ...defaultOptions, ...initOptions }`: every supplied field wins. */
  function MergeOptions(init: OfflineOptions): (o: OfflineOptions)
    ensures o.expiryTime == (if init.expiryTime.Some? then init.expiryTime else Some(DEFAULT_EXPIRY_TIME))
    ensures o.checkIntervalMs == (if init.checkIntervalMs.Some? then init.checkIntervalMs else Some(DEFAULT_CHECK_INTERVAL_MS))
    ensures o.automaticReconnect == (if init.automaticReconnect.Some? then init.automaticReconnect else Some(true))
  {
    OfflineOptions(
      if init.expiryTime.Some? then init.expiryTime else DEFAULT_OFFLINE_OPTIONS.expiryTime,
      if init.checkIntervalMs.Some? then init.checkIntervalMs else DEFAULT_OFFLINE_OPTIONS.checkIntervalMs,
      if init.automaticReconnect.Some? then init.automaticReconnect else DEFAULT_OFFLINE_OPTIONS.automaticReconnect)
  }

  /** Merging no options gives the defaults; merging is idempotent. */
  lemma MergeDefaults(init: OfflineOptions)
    ensures MergeOptions(OfflineOptions(None, None, None)) == DEFAULT_OFFLINE_OPTIONS
    ensures MergeOptions(MergeOptions(init)) == MergeOptions(init)
  {
  }

  /** getOfflineStatus() as a function of what it reads: the mode is on only
      when the stored flag is exactly "true"; it has expired only when a
      non-zero expiry is stored and has passed (a zero expiry is falsy and
      never expires); a sync is pending when the in-memory queue is
      non-empty. */
  function StatusOf(online: bool, mode: Option<string>, expiry: Option<Time>, queue: seq<SyncQueueItem>, now: Time)
    : (st: OfflineStatus)
    ensures st.isOnline == online && st.offlineModeExpiry == expiry
    ensures st.isInOfflineMode <==> mode == Some(OFFLINE_MODE_ON)
    ensures st.isOfflineModeExpired <==> expiry.Some? && expiry.value != 0 && now > expiry.value
    ensures st.syncPending <==> |queue| > 0
  {
    OfflineStatus(online, mode == Some(OFFLINE_MODE_ON), expiry,
                  if Truthy(expiry) then now > expiry.value else false,
                  |queue| > 0)
  }

  /** shouldSkipNetworkRequests() over a status. */
  predicate ShouldSkip(st: OfflineStatus) {
    !st.isOnline || (st.isInOfflineMode && !st.isOfflineModeExpired)
  }

  /** The duration enableOfflineMode uses: `duration || options.expiryTime ||
      7 days`, so a zero or absent value falls through to the next one. */
  function EffectiveDuration(duration: Option<int>, options: OfflineOptions): (d: int)
    ensures Truthy(duration) ==> d == duration.value
    ensures !Truthy(duration) && Truthy(options.expiryTime) ==> d == options.expiryTime.value
    ensures !Truthy(duration) && !Truthy(options.expiryTime) ==> d == DEFAULT_EXPIRY_TIME
    ensures d != 0
  {
    if Truthy(duration) then duration.value
    else if Truthy(options.expiryTime) then options.expiryTime.value
    else DEFAULT_EXPIRY_TIME
  }

  /** Once offline mode is switched on until `expiry`, network requests are
      skipped exactly while offline or until the expiry has passed. */
  lemma OfflineModeWindow(online: bool, expiry: Time, queue: seq<SyncQueueItem>, now: Time)
    requires expiry != 0
    ensures ShouldSkip(StatusOf(online, Some(OFFLINE_MODE_ON), Some(expiry), queue, now))
        <==> !online || now <= expiry
  {
  }

  /** Without the mode, requests are skipped exactly when offline. */
  lemma SkipWithoutMode(online: bool, mode: Option<string>, expiry: Option<Time>, queue: seq<SyncQueueItem>, now: Time)
    requires mode != Some(OFFLINE_MODE_ON)
    ensures ShouldSkip(StatusOf(online, mode, expiry, queue, now)) <==> !online
  {
  }

  /** A stored expiry of 0 never expires, so the mode stays on for good. */
  lemma ZeroExpiryNeverExpires(online: bool, queue: seq<SyncQueueItem>, now: Time)
    ensures !StatusOf(online, Some(OFFLINE_MODE_ON), Some(0), queue, now).isOfflineModeExpired
    ensures ShouldSkip(StatusOf(online, Some(OFFLINE_MODE_ON), Some(0), queue, now))
  {
  }

  // ---------------------------------------------------------------------------
  // Subscribers.

  /** The identity of a subscribed callback. */
  type ListenerId = nat

  /** One call of a listener with a status. */
  datatype Notice = Notice(listener: ListenerId, status: OfflineStatus)

  /** The calls one notification makes: every listener in order, same status. */
  function NoticesFor(listeners: seq<ListenerId>, st: OfflineStatus): (ns: seq<Notice>)
    ensures |ns| == |listeners|
    ensures forall i :: 0 <= i < |ns| ==> ns[i] == Notice(listeners[i], st)
  {
    if listeners == [] then []
    else NoticesFor(listeners[..|listeners| - 1], st) + [Notice(listeners[|listeners| - 1], st)]
  }

  /** The unsubscribe closure's filter: every registration of the callback goes. */
  function Without(listeners: seq<ListenerId>, l: ListenerId): (r: seq<ListenerId>)
    ensures l !in r
    ensures forall x :: x in r <==> x in listeners && x != l
  {
    if listeners == [] then []
    else
      var last := listeners[|listeners| - 1];
      Without(listeners[..|listeners| - 1], l) + (if last == l then [] else [last])
  }

  /** The filter on a single registration. */
  lemma WithoutSingle(x: ListenerId, l: ListenerId)
    ensures Without([x], l) == if x == l then [] else [x]
  {
    assert [x][..0] == [];
  }

  /** The unsubscribe filter distributes over concatenation: the remaining
      registrations keep their order and their multiplicity. */
  lemma {:induction false} WithoutAppend(a: seq<ListenerId>, b: seq<ListenerId>, l: ListenerId)
    ensures Without(a + b, l) == Without(a, l) + Without(b, l)
  {
    if b == [] {
      assert a + b == a;
    } else {
      var init, last := b[..|b| - 1], b[|b| - 1];
      var tail := if last == l then [] else [last];
      assert (a + b)[..|a + b| - 1] == a + init;
      assert (a + b)[|a + b| - 1] == last;
      calc {
        Without(a + b, l);
        Without(a + init, l) + tail;
        { WithoutAppend(a, init, l); }
        Without(a, l) + Without(init, l) + tail;
        Without(a, l) + (Without(init, l) + tail);
        Without(a, l) + Without(b, l);
      }
    }
  }

  /** After unsubscribing, a notification never reaches the callback again, and
      every other subscriber still hears it. */
  lemma UnsubscribedNeverNotified(listeners: seq<ListenerId>, l: ListenerId, st: OfflineStatus, other: ListenerId)
    ensures forall n :: n in NoticesFor(Without(listeners, l), st) ==> n.listener != l
    ensures other in listeners && other != l ==> Notice(other, st) in NoticesFor(Without(listeners, l), st)
  {
    var ns := NoticesFor(Without(listeners, l), st);
    forall n | n in ns ensures n.listener != l {
      var i :| 0 <= i < |ns| && ns[i] == n;
      assert n.listener == Without(listeners, l)[i];
    }
    if other in listeners && other != l {
      var r := Without(listeners, l);
      var i :| 0 <= i < |r| && r[i] == other;
      assert ns[i] == Notice(other, st);
    }
  }

  // ---------------------------------------------------------------------------
  // The module's state and operations.

  class OfflineMonitor {
    const host: Host
    const sync: SyncEngine

    var options: OfflineOptions
    /** The window's "online"/"offline" handlers of this module are registered. */
    var listening: bool
    /** The periodic check is scheduled. */
    var checking: bool
    var listeners: seq<ListenerId>
    /** Every listener call made so far, in order. */
    var delivered: seq<Notice>

    /** The sync engine writes to the same storage. */
    predicate Wired() {
      sync.host == host
    }

    /** The module's default state, taken when it is loaded. */
    constructor (sync: SyncEngine)
      ensures this.sync == sync && host == sync.host && Wired()
      ensures options == DEFAULT_OFFLINE_OPTIONS && !listening && !checking
      ensures listeners == [] && delivered == []
    {
      this.sync := sync;
      host := sync.host;
      options := DEFAULT_OFFLINE_OPTIONS;
      listening := false;
      checking := false;
      listeners := [];
      delivered := [];
    }

    /** getOfflineStatus(): `None` when there is no storage object to read. */
    function Status(now: Time): (st: Option<OfflineStatus>)
      reads host, sync
      ensures st.None? <==> !host.hasWindow
      ensures st.Some? ==> st.value == StatusOf(
        if host.hasNavigator then host.online else true,
        host.offlineMode, host.offlineExpiry, sync.queuedChanges, now)
    {
      if !host.hasWindow then None
      else Some(StatusOf(if host.hasNavigator then host.online else true,
                         host.offlineMode, host.offlineExpiry, sync.queuedChanges, now))
    }

    /** shouldSkipNetworkRequests() */
    function ShouldSkipNetworkRequests(now: Time): (skip: Option<bool>)
      reads host, sync
      ensures skip.None? <==> !host.hasWindow
      ensures skip.Some? ==> (skip.value <==> ShouldSkip(Status(now).value))
    {
      match Status(now)
      case None => None
      case Some(st) => Some(ShouldSkip(st))
    }

    /** subscribeToOfflineStatus(callback) */
    method Subscribe(l: ListenerId)
      modifies this`listeners
      ensures listeners == old(listeners) + [l]
    {
      listeners := listeners + [l];
    }

    /** The unsubscribe function subscribeToOfflineStatus returns. */
    method Unsubscribe(l: ListenerId)
      modifies this`listeners
      ensures listeners == Without(old(listeners), l)
    {
      listeners := Without(listeners, l);
    }

    /** notifyListeners(): one status, handed to every listener in order. */
    method NotifyListeners(now: Time)
      modifies this`delivered
      ensures Status(now).None? ==> delivered == old(delivered)
      ensures Status(now).Some? ==> delivered == old(delivered) + NoticesFor(listeners, Status(now).value)
    {
      var status := Status(now);
      if status.None? {
        return;
      }
      var i := 0;
      while i < |listeners|
        invariant 0 <= i <= |listeners|
        invariant delivered == old(delivered) + NoticesFor(listeners[..i], status.value)
      {
        assert listeners[..i + 1][..i] == listeners[..i];
        delivered := delivered + [Notice(listeners[i], status.value)];
        i := i + 1;
      }
      assert listeners[..|listeners|] == listeners;
    }

    /** enableOfflineMode(duration): returns false when the write throws. */
    method EnableOfflineMode(duration: Option<int>, now: Time) returns (ok: bool)
      modifies host`offlineMode, host`offlineExpiry, this`delivered
      ensures ok == host.StorageAvailable()
      ensures !ok ==> unchanged(host) && delivered == old(delivered)
      ensures ok ==> host.offlineMode == Some(OFFLINE_MODE_ON)
      ensures ok ==> host.offlineExpiry == Some(now + EffectiveDuration(duration, options))
      ensures ok ==> delivered == old(delivered) + NoticesFor(listeners, Status(now).value)
    {
      var expiry := now + EffectiveDuration(duration, options);
      if !host.StorageAvailable() {
        return false;
      }
      host.offlineMode := Some(OFFLINE_MODE_ON);
      host.offlineExpiry := Some(expiry);
      NotifyListeners(now);
      return true;
    }

    /** The part of disableOfflineMode that completes before any flush it
        starts yields: remove both keys and notify. Returns false when it
        throws: on the removal without working storage, or on reading a
        missing navigator. */
    method SwitchOff(now: Time) returns (ok: bool)
      modifies host`offlineMode, host`offlineExpiry, this`delivered
      ensures ok == (host.StorageAvailable() && host.hasNavigator)
      ensures !host.StorageAvailable() ==> unchanged(host)
      ensures host.StorageAvailable() ==> host.offlineMode == None && host.offlineExpiry == None
      ensures delivered == if ok then old(delivered) + NoticesFor(listeners, Status(now).value) else old(delivered)
    {
      if !host.StorageAvailable() {
        return false;
      }
      host.offlineMode := None;
      host.offlineExpiry := None;
      if !host.hasNavigator {
        return false;
      }
      NotifyListeners(now);
      return true;
    }

    /** disableOfflineMode(): remove both keys, start a flush when the
        navigator says online, notify. The flush is suspended on its first
        delivery when the listeners run, so they see the queue as it was. */
    method DisableOfflineMode(now: Time) returns (ok: bool)
      requires Wired()
      modifies host`offlineMode, host`offlineExpiry, host`syncQueue, host`lastSync
      modifies sync`isSyncing, sync`syncError, sync`queuedChanges, sync`lastSyncTime
      modifies this`delivered
      ensures ok == (host.StorageAvailable() && host.hasNavigator)
      ensures !host.StorageAvailable() ==> unchanged(host) && sync.State() == old(sync.State())
      ensures host.StorageAvailable() ==> host.offlineMode == None && host.offlineExpiry == None
      ensures sync.State() ==
        if ok && host.online then Flushed(old(sync.State()), true, sync.deliver, now) else old(sync.State())
      ensures delivered == if ok
        then old(delivered) + NoticesFor(listeners, StatusOf(host.online, None, None, old(sync.queuedChanges), now))
        else old(delivered)
      ensures sync.StoredAfter(ok && host.online && FlushRuns(old(sync.State()), true), now)
    {
      ok := SwitchOff(now);
      if ok && host.online {
        sync.SynchronizeChanges(now);
      }
    }

    /** The part of handleOnlineStatus that completes before any flush it
        starts yields: read the status and notify; `flush` tells whether the
        handler asks for a flush (offline mode off, or expired). */
    method AnnounceOnline(now: Time) returns (flush: bool)
      modifies this`delivered
      ensures Status(now).None? ==> !flush && delivered == old(delivered)
      ensures Status(now).Some? ==>
        && (flush <==> !Status(now).value.isInOfflineMode || Status(now).value.isOfflineModeExpired)
        && delivered == old(delivered) + NoticesFor(listeners, Status(now).value)
    {
      var status := Status(now);
      if status.None? {
        return false;
      }
      flush := !status.value.isInOfflineMode || status.value.isOfflineModeExpired;
      NotifyListeners(now);
    }

    /** handleOnlineStatus(): flush unless offline mode is on and unexpired,
        then notify; the listeners see the queue as it was before the flush. */
    method HandleOnlineStatus(now: Time)
      requires Wired()
      modifies host`syncQueue, host`lastSync
      modifies sync`isSyncing, sync`syncError, sync`queuedChanges, sync`lastSyncTime
      modifies this`delivered
      ensures old(Status(now)).None? ==> sync.State() == old(sync.State()) && delivered == old(delivered)
      ensures old(Status(now)).Some? ==>
        var st := old(Status(now)).value;
        && sync.State() == (if !st.isInOfflineMode || st.isOfflineModeExpired
                            then Flushed(old(sync.State()), host.StorageAvailable(), sync.deliver, now)
                            else old(sync.State()))
        && delivered == old(delivered) + NoticesFor(listeners, st)
      ensures sync.StoredAfter(old(Status(now)).Some? && (!old(Status(now)).value.isInOfflineMode || old(Status(now)).value.isOfflineModeExpired)
                               && FlushRuns(old(sync.State()), host.StorageAvailable()), now)
    {
      var flush := AnnounceOnline(now);
      if flush {
        sync.SynchronizeChanges(now);
      }
    }

    /** handleOfflineStatus() */
    method HandleOfflineStatus(now: Time)
      modifies this`delivered
      ensures Status(now).None? ==> delivered == old(delivered)
      ensures Status(now).Some? ==> delivered == old(delivered) + NoticesFor(listeners, Status(now).value)
    {
      NotifyListeners(now);
    }

    /** The body of the periodic check: switch off an expired offline mode
        while online, then flush when automatic reconnection is on and the
        status read at the start showed a pending sync while online. Both
        requests fall in one synchronous run, so the second finds the first
        flush in progress: at most one flush happens, after the switch-off's
        notices. */
    method CheckConnectivity(now: Time)
      requires Wired()
      modifies host`offlineMode, host`offlineExpiry, host`syncQueue, host`lastSync
      modifies sync`isSyncing, sync`syncError, sync`queuedChanges, sync`lastSyncTime
      modifies this`delivered
      ensures old(Status(now)).None? ==> unchanged(host) && sync.State() == old(sync.State()) && delivered == old(delivered)
      ensures old(Status(now)).Some? ==>
        var st := old(Status(now)).value;
        var expire := st.isInOfflineMode && st.isOfflineModeExpired && st.isOnline;
        var thrown := expire && !(host.StorageAvailable() && host.hasNavigator);
        var reconnect := options.automaticReconnect == Some(true) && st.isOnline && st.syncPending;
        && (expire && host.StorageAvailable() ==> host.offlineMode == None && host.offlineExpiry == None)
        && (!expire ==> host.offlineMode == old(host.offlineMode) && host.offlineExpiry == old(host.offlineExpiry))
        && sync.State() == (if !thrown && (expire || reconnect)
                            then Flushed(old(sync.State()), host.StorageAvailable(), sync.deliver, now)
                            else old(sync.State()))
        && sync.StoredAfter(!thrown && (expire || reconnect) && FlushRuns(old(sync.State()), host.StorageAvailable()), now)
        && delivered == (if expire && !thrown
                         then old(delivered) + NoticesFor(listeners, StatusOf(true, None, None, old(sync.queuedChanges), now))
                         else old(delivered))
    {
      var status := Status(now);
      if status.None? {
        return;
      }
      var st := status.value;
      var requested := false;
      if st.isInOfflineMode && st.isOfflineModeExpired && st.isOnline {
        var ok := SwitchOff(now);
        if !ok {
          return;
        }
        requested := host.online;
      }
      if options.automaticReconnect == Some(true) && st.isOnline && st.syncPending {
        requested := true;
      }
      if requested {
        sync.SynchronizeChanges(now);
      }
    }

    /** initializeOfflineSupport(initOptions): merge the options, register the
        handlers, (re)start the periodic check, and report the status. */
    method InitializeOfflineSupport(init: OfflineOptions, now: Time) returns (st: Option<OfflineStatus>)
      modifies this`options, this`listening, this`checking
      ensures options == MergeOptions(init)
      ensures listening == (old(listening) || host.hasWindow)
      ensures checking == (old(checking) || host.hasWindow)
      ensures st == Status(now)
    {
      options := MergeOptions(init);
      if !host.hasWindow {
        return Status(now);
      }
      listening := true;
      checking := true;
      return Status(now);
    }

    /** cleanupOfflineSupport(): without a window nothing happens; otherwise
        the handlers and the check stop and every subscriber is dropped. */
    method CleanupOfflineSupport()
      modifies this`listening, this`checking, this`listeners
      ensures !host.hasWindow ==> listening == old(listening) && checking == old(checking) && listeners == old(listeners)
      ensures host.hasWindow ==> !listening && !checking && listeners == []
    {
      if !host.hasWindow {
        return;
      }
      listening := false;
      checking := false;
      listeners := [];
    }
  }
}
