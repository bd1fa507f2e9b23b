/** The lifecycle coordinator: one initialised flag and one set of options over
    the store, the sync engine and offline support; plus the host events
    (connectivity changes and the periodic timer) delivered to the handlers
    that are registered. */
module Lifecycle {
  import opened Common
  import opened Records
  import opened Environment
  import opened Sync
  import opened Storage
  import opened Offline

  /** Initialisation options; an absent field is `None`. */
  datatype InitOptions = InitOptions(
    offline: Option<OfflineOptions>,
    automaticSyncing: Option<bool>,
    debugMode: Option<bool>)

  const DEFAULT_INIT_OPTIONS: InitOptions := InitOptions(None, Some(true), Some(false))

  /** `{ ...defaultOptions, ...initOptions }` */
  function MergeInitOptions(init: InitOptions): (o: InitOptions)
    ensures o.offline == init.offline
    ensures o.automaticSyncing == (if init.automaticSyncing.Some? then init.automaticSyncing else Some(true))
    ensures o.debugMode == (if init.debugMode.Some? then init.debugMode else Some(false))
  {
    InitOptions(
      if init.offline.Some? then init.offline else DEFAULT_INIT_OPTIONS.offline,
      if init.automaticSyncing.Some? then init.automaticSyncing else DEFAULT_INIT_OPTIONS.automaticSyncing,
      if init.debugMode.Some? then init.debugMode else DEFAULT_INIT_OPTIONS.debugMode)
  }

  /** Merging is idempotent, so re-initialising with the current options keeps them. */
  lemma MergeInitOptionsIdempotent(init: InitOptions)
    ensures MergeInitOptions(MergeInitOptions(init)) == MergeInitOptions(init)
    ensures MergeInitOptions(InitOptions(None, None, None)) == DEFAULT_INIT_OPTIONS
  {
  }

  /** The offline options initialisation passes on: absent means `{}`. */
  function OfflineOptionsOf(o: InitOptions): OfflineOptions {
    o.offline.GetOr(OfflineOptions(None, None, None))
  }

  datatype SystemStatus = SystemStatus(
    initialized: bool,
    storageInitialized: bool,
    syncInitialized: bool,
    syncIsOnline: bool,
    syncIsSyncing: bool,
    pendingChanges: nat,
    offlineInitialized: bool,
    offlineIsOnline: bool,
    isInOfflineMode: bool)

  /** One answer of the mocked-data generator, its random choices given. */
  datatype MockReview = MockReview(flagCode: string, isCorrect: bool, nonce: string)

  /** The table after recording one answer with updateFlagProgress. */
  function Answered(t: ProgressTable, r: MockReview, now: Time): ProgressTable {
    Put(t, r.flagCode, Reviewed(Lookup(t, r.flagCode), r.flagCode, r.isCorrect, now))
  }

  /** The table after recording the answers in order. */
  function Recorded(t: ProgressTable, reviews: seq<MockReview>, now: Time): ProgressTable {
    if reviews == [] then t
    else Answered(Recorded(t, reviews[..|reviews| - 1], now), reviews[|reviews| - 1], now)
  }

  lemma RecordedStep(t: ProgressTable, reviews: seq<MockReview>, i: nat, now: Time)
    requires i < |reviews|
    ensures Recorded(t, reviews[..i + 1], now) == Answered(Recorded(t, reviews[..i], now), reviews[i], now)
  {
    assert reviews[..i + 1][..i] == reviews[..i];
  }

  /** Recording n answers adds exactly n reviews to the total and keeps the
      table's keys distinct. */
  lemma {:induction false} RecordedAddsReviews(t: ProgressTable, reviews: seq<MockReview>, now: Time)
    requires DistinctKeys(t)
    ensures TotalReviews(Recorded(t, reviews, now)) == TotalReviews(t) + |reviews|
    ensures DistinctKeys(Recorded(t, reviews, now))
  {
    if reviews != [] {
      var init := reviews[..|reviews| - 1];
      RecordedAddsReviews(t, init, now);
      var before := Recorded(t, init, now);
      var r := reviews[|reviews| - 1];
      RecordingAddsOneReview(before, r.flagCode, r.isCorrect, now);
      RecordingTouchesOneFlag(before, r.flagCode, r.isCorrect, now, r.flagCode);
    }
  }

  class SpacedRepetitionSystem {
    const host: Host
    const sync: SyncEngine
    const offline: OfflineMonitor

    var initialized: bool
    var options: InitOptions

    /** The three parts share one host. */
    predicate Wired() {
      sync.host == host && offline.host == host && offline.sync == sync
    }

    /** The module's default state, taken when it is loaded. */
    constructor (offline: OfflineMonitor)
      requires offline.Wired()
      ensures this.offline == offline && sync == offline.sync && host == offline.host && Wired()
      ensures !initialized && options == DEFAULT_INIT_OPTIONS
    {
      this.offline := offline;
      sync := offline.sync;
      host := offline.host;
      initialized := false;
      options := DEFAULT_INIT_OPTIONS;
    }

    /** isSystemInitialized() */
    function IsSystemInitialized(): (b: bool)
      reads this
      ensures b <==> initialized
    {
      initialized
    }

    /** getSystemStatus(): the sub-modules always report initialised; `None`
        when reading the offline status throws. */
    function GetSystemStatus(now: Time): (st: Option<SystemStatus>)
      requires Wired()
      reads this, host, sync
      ensures st.None? <==> !host.hasWindow
      ensures st.Some? ==>
        && st.value.initialized == initialized
        && st.value.storageInitialized && st.value.syncInitialized && st.value.offlineInitialized
        && st.value.syncIsOnline == sync.isOnline && st.value.syncIsSyncing == sync.isSyncing
        && st.value.pendingChanges == |sync.queuedChanges|
        && st.value.offlineIsOnline == offline.Status(now).value.isOnline
        && st.value.isInOfflineMode == (host.offlineMode == Some(OFFLINE_MODE_ON))
    {
      match offline.Status(now)
      case None => None
      case Some(o) =>
        Some(SystemStatus(initialized, true, true, sync.isOnline, sync.isSyncing, |sync.queuedChanges|,
                          true, o.isOnline, o.isInOfflineMode))
    }

    /** initializeSpacedRepetitionSystem(initOptions), with the time and the
        device id's random part given. The status read at the end of offline
        initialisation throws without a window; then the flag stays as it was
        and `None` is returned. */
    method Initialize(init: InitOptions, now: Time, random: string) returns (status: Option<SystemStatus>)
      requires Wired()
      modifies this`options, this`initialized, host`progress, host`metadata, host`syncQueue, host`lastSync
      modifies sync, offline`options, offline`listening, offline`checking
      ensures options == MergeInitOptions(init)
      ensures initialized == (old(initialized) || host.hasWindow)
      ensures host.StorageAvailable() ==> host.progress == InitialProgress(old(host.progress))
      ensures host.StorageAvailable() ==> host.metadata == InitialMetadata(old(host.metadata), random)
      ensures !host.StorageAvailable() ==> host.progress == old(host.progress) && host.metadata == old(host.metadata)
      ensures !(host.NavigatorAvailable() && host.StorageAvailable()) ==>
        && sync.State() == old(sync.State()) && sync.listening == old(sync.listening)
        && host.syncQueue == old(host.syncQueue) && host.lastSync == old(host.lastSync)
      ensures host.NavigatorAvailable() && host.StorageAvailable() ==>
        var loaded := Loaded(old(sync.State()), old(host.syncQueue), old(host.lastSync), host.online);
        && sync.listening
        && sync.State() == Flushed(loaded, true, sync.deliver, now)
        && sync.StoredAfter(FlushRuns(loaded, true), now)
      ensures offline.options == MergeOptions(OfflineOptionsOf(MergeInitOptions(init)))
      ensures offline.listening == (old(offline.listening) || host.hasWindow)
      ensures offline.checking == (old(offline.checking) || host.hasWindow)
      ensures status == if host.hasWindow then GetSystemStatus(now) else None
    {
      options := MergeInitOptions(init);
      var storageInitialized := InitializeStorage(host, random);
      sync.InitializeSync(now);
      var offlineStatus := offline.InitializeOfflineSupport(OfflineOptionsOf(options), now);
      if offlineStatus.None? {
        return None;
      }
      initialized := true;
      return GetSystemStatus(now);
    }

    /** cleanupSpacedRepetitionSystem(): nothing unless initialised. */
    method Cleanup()
      requires Wired()
      modifies this`initialized, sync`listening, offline`listening, offline`checking, offline`listeners
      ensures !initialized
      ensures
        var stops := old(initialized) && host.hasWindow;
        && sync.listening == (old(sync.listening) && !stops)
        && offline.listening == (old(offline.listening) && !stops)
        && offline.checking == (old(offline.checking) && !stops)
        && offline.listeners == (if stops then [] else old(offline.listeners))
    {
      if !initialized {
        return;
      }
      sync.CleanupSync();
      offline.CleanupOfflineSupport();
      initialized := false;
    }

    /** resetSpacedRepetitionSystem(preserveSettings): clean up, clear the
        progress, reinitialise with the current or the default options. The
        sync queue is not cleared. */
    method Reset(preserveSettings: bool, now: Time, random: string) returns (status: Option<SystemStatus>)
      requires Wired()
      modifies this`options, this`initialized, host`progress, host`metadata, host`syncQueue, host`lastSync
      modifies sync, offline`options, offline`listening, offline`checking, offline`listeners
      ensures options == MergeInitOptions(if preserveSettings then old(options) else DEFAULT_INIT_OPTIONS)
      ensures initialized == host.hasWindow
      ensures host.StorageAvailable() ==> host.progress == Holds([])
      ensures host.StorageAvailable() ==> host.metadata == InitialMetadata(old(host.metadata), random)
      ensures !host.StorageAvailable() ==> host.progress == old(host.progress) && host.metadata == old(host.metadata)
      ensures !(host.NavigatorAvailable() && host.StorageAvailable()) ==>
        && sync.State() == old(sync.State())
        && host.syncQueue == old(host.syncQueue) && host.lastSync == old(host.lastSync)
      ensures offline.listeners == if old(initialized) && host.hasWindow then [] else old(offline.listeners)
      ensures offline.listening == (old(offline.listening) || host.hasWindow)
      ensures offline.checking == (old(offline.checking) || host.hasWindow)
      ensures offline.options == MergeOptions(OfflineOptionsOf(options))
      ensures host.NavigatorAvailable() && host.StorageAvailable() ==>
        var loaded := Loaded(old(sync.State()), old(host.syncQueue), old(host.lastSync), host.online);
        && sync.State() == Flushed(loaded, true, sync.deliver, now)
        && sync.StoredAfter(FlushRuns(loaded, true), now)
      ensures sync.listening == if host.NavigatorAvailable() && host.StorageAvailable() then true
                                else old(sync.listening) && !(old(initialized) && host.hasWindow)
      ensures status == if host.hasWindow then GetSystemStatus(now) else None
    {
      var currentOptions := if preserveSettings then options else DEFAULT_INIT_OPTIONS;
      Cleanup();
      var cleared := ClearAllProgress(host);
      status := Initialize(currentOptions, now, random);
    }

    /** createMockedData with its random choices given: nothing is recorded
        unless initialised; otherwise every answer is recorded in order, and
        the first failing one ends the run. */
    method CreateMockedData(reviews: seq<MockReview>, now: Time)
      requires Wired()
      modifies host`progress, host`syncQueue, host`lastSync
      modifies sync`isSyncing, sync`syncError, sync`queuedChanges, sync`lastSyncTime
      ensures !initialized ==> unchanged(host) && sync.State() == old(sync.State())
      ensures !host.StorageAvailable() ==> host.progress == old(host.progress)
      ensures initialized && host.StorageAvailable() ==>
        AllProgressData(host) == Recorded(old(AllProgressData(host)), reviews, now)
    {
      if !initialized {
        return;
      }
      ghost var start := AllProgressData(host);
      var i := 0;
      while i < |reviews|
        invariant 0 <= i <= |reviews|
        invariant host.StorageAvailable() ==> AllProgressData(host) == Recorded(start, reviews[..i], now)
        invariant !host.StorageAvailable() ==> host.progress == old(host.progress)
      {
        RecordedStep(start, reviews, i, now);
        var ok := RecordReview(reviews[i], now);
        if !ok {
          return;
        }
        i := i + 1;
      }
      assert reviews[..|reviews|] == reviews;
    }

    /** One answer of the mocked run, through updateFlagProgress. */
    method RecordReview(review: MockReview, now: Time) returns (ok: bool)
      requires Wired()
      modifies host`progress, host`syncQueue, host`lastSync
      modifies sync`isSyncing, sync`syncError, sync`queuedChanges, sync`lastSyncTime
      ensures ok == host.StorageAvailable()
      ensures !ok ==> host.progress == old(host.progress)
      ensures ok ==> AllProgressData(host) == Answered(old(AllProgressData(host)), review, now)
      ensures !ok ==>
        && sync.State() == old(sync.State())
        && host.syncQueue == old(host.syncQueue) && host.lastSync == old(host.lastSync)
      ensures ok ==>
        var record := Reviewed(Lookup(old(AllProgressData(host)), review.flagCode), review.flagCode, review.isCorrect, now);
        var item := NewItem(Update, ProgressUpdate(review.flagCode, record), now, review.nonce);
        && sync.State() == Enqueued(old(sync.State()), item, true, sync.deliver, now)
        && host.syncQueue == Holds(sync.queuedChanges)
        && host.lastSync == if old(sync.isOnline) && !old(sync.isSyncing) then Some(now) else old(host.lastSync)
    {
      var result := UpdateFlagProgress(host, sync, review.flagCode, review.isCorrect, now, review.nonce);
      ok := result.Success?;
    }

    // -------------------------------------------------------------------------
    // Host events, delivered to the handlers registered for them in
    // registration order: the sync engine's first, then offline support's.

    /** The window's "online" event. Both handlers run in one synchronous
        dispatch, so a flush the first one starts is still in progress when
        the second asks for one: at most one flush happens, and offline
        support's listeners see the queue as it was before it. */
    method GoOnline(now: Time)
      requires Wired()
      modifies host`online, host`syncQueue, host`lastSync
      modifies sync`isOnline, sync`isSyncing, sync`syncError, sync`queuedChanges, sync`lastSyncTime
      modifies offline`delivered
      ensures host.online
      ensures
        var s0 := old(sync.State()).(isOnline := old(sync.isOnline) || old(sync.listening));
        var st := StatusOf(true, host.offlineMode, host.offlineExpiry, old(sync.queuedChanges), now);
        var requested := old(sync.listening) ||
          (old(offline.listening) && host.hasWindow && (!st.isInOfflineMode || st.isOfflineModeExpired));
        && sync.State() == (if requested then Flushed(s0, host.StorageAvailable(), sync.deliver, now) else s0)
        && sync.StoredAfter(requested && FlushRuns(s0, host.StorageAvailable()), now)
        && offline.delivered == (if old(offline.listening) && host.hasWindow
                                 then old(offline.delivered) + NoticesFor(offline.listeners, st)
                                 else old(offline.delivered))
    {
      host.online := true;
      var requested := false;
      if sync.listening {
        sync.MarkOnline();
        requested := true;
      }
      if offline.listening {
        var flush := offline.AnnounceOnline(now);
        requested := requested || flush;
      }
      if requested {
        sync.SynchronizeChanges(now);
      }
    }

    /** The window's "offline" event. */
    method GoOffline(now: Time)
      requires Wired()
      modifies host`online, sync`isOnline, offline`delivered
      ensures !host.online
      ensures sync.isOnline == (old(sync.isOnline) && !old(sync.listening))
      ensures offline.delivered == if old(offline.listening) && host.hasWindow
        then old(offline.delivered) + NoticesFor(offline.listeners, offline.Status(now).value)
        else old(offline.delivered)
    {
      host.online := false;
      if sync.listening {
        sync.HandleOffline();
      }
      if offline.listening {
        offline.HandleOfflineStatus(now);
      }
    }

    /** The periodic timer fires: the check runs only while it is scheduled. */
    method Tick(now: Time)
      requires Wired()
      modifies host`offlineMode, host`offlineExpiry, host`syncQueue, host`lastSync
      modifies sync`isSyncing, sync`syncError, sync`queuedChanges, sync`lastSyncTime
      modifies offline`delivered
      ensures !offline.checking ==>
        unchanged(host) && sync.State() == old(sync.State()) && offline.delivered == old(offline.delivered)
      ensures offline.checking && old(offline.Status(now)).Some? ==>
        var st := old(offline.Status(now)).value;
        st.isInOfflineMode && st.isOfflineModeExpired && st.isOnline && host.StorageAvailable() ==>
          host.offlineMode == None && host.offlineExpiry == None
    {
      if offline.checking {
        offline.CheckConnectivity(now);
      }
    }
  }
}
