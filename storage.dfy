/** The progress store: per-flag records under one storage key, the metadata
    record beside them, and the queries over them. */
module Storage {
  import opened Common
  import opened Records
  import opened Scheduler
  import opened Environment
  import opened Sync

  const METADATA_VERSION: string := "1.0"
  const DEVICE_ID_PREFIX: string := "device_"
  /** A flag counts as mastered once its interval exceeds this many days. */
  const MASTERED_INTERVAL: int := 30

  // ---------------------------------------------------------------------------
  // Initialisation.

  /** generateDeviceId(), with the random base-36 part given: a stored device id
      is kept; otherwise a new "device_" id is made. */
  function GenerateDeviceId(stored: Slot<Metadata>, random: string): (id: string)
    ensures stored.Holds? && stored.value.deviceId != "" ==> id == stored.value.deviceId
    ensures !(stored.Holds? && stored.value.deviceId != "") ==> DEVICE_ID_PREFIX <= id
  {
    if stored.Holds? && stored.value.deviceId != "" then stored.value.deviceId
    else DEVICE_ID_PREFIX + random
  }

  /** The progress key after initialisation: written only when nothing is stored. */
  function InitialProgress(slot: Slot<ProgressTable>): Slot<ProgressTable> {
    if slot.Missing? then Holds([]) else slot
  }

  /** The metadata key after initialisation: written only when nothing is stored. */
  function InitialMetadata(slot: Slot<Metadata>, random: string): Slot<Metadata> {
    if slot.Missing? then Holds(Metadata(METADATA_VERSION, GenerateDeviceId(slot, random))) else slot
  }

  /** initializeStorage(), with the device id's random part given. */
  method InitializeStorage(host: Host, random: string) returns (ok: bool)
    modifies host`progress, host`metadata
    ensures ok == host.StorageAvailable()
    ensures !ok ==> host.progress == old(host.progress) && host.metadata == old(host.metadata)
    ensures ok ==> host.progress == InitialProgress(old(host.progress))
    ensures ok ==> host.metadata == InitialMetadata(old(host.metadata), random)
  {
    if !host.StorageAvailable() {
      return false;
    }
    if host.progress.Missing? {
      host.progress := Holds([]);
    }
    if host.metadata.Missing? {
      var deviceId := GenerateDeviceId(host.metadata, random);
      host.metadata := Holds(Metadata(METADATA_VERSION, deviceId));
    }
    return true;
  }

  /** Initialising never overwrites stored progress, creates metadata only when
      none is stored (version "1.0", a "device_" id), and a second
      initialisation, whatever its random part, changes nothing: the device id
      is made once. */
  lemma InitializationIsIdempotent(progress: Slot<ProgressTable>, metadata: Slot<Metadata>, r1: string, r2: string)
    ensures progress.Holds? ==> InitialProgress(progress) == progress
    ensures metadata.Missing? ==>
      && InitialMetadata(metadata, r1).Holds?
      && InitialMetadata(metadata, r1).value.version == "1.0"
      && InitialMetadata(metadata, r1).value.deviceId == "device_" + r1
    ensures !metadata.Missing? ==> InitialMetadata(metadata, r1) == metadata
    ensures InitialProgress(InitialProgress(progress)) == InitialProgress(progress)
    ensures InitialMetadata(InitialMetadata(metadata, r1), r2) == InitialMetadata(metadata, r1)
  {
  }

  // ---------------------------------------------------------------------------
  // Reading.

  /** getAllProgressData(): the stored table; an empty one when storage is
      unavailable, nothing is stored or the stored text does not decode. */
  function AllProgressData(host: Host): (t: ProgressTable)
    reads host
    ensures host.StorageAvailable() && host.progress.Holds? ==> t == host.progress.value
    ensures !(host.StorageAvailable() && host.progress.Holds?) ==> t == []
  {
    if host.StorageAvailable() && host.progress.Holds? then host.progress.value else []
  }

  /** getFlagProgress(flagCode): the record stored under the code, or null. */
  function GetFlagProgress(host: Host, flagCode: string): (r: Option<FlagProgress>)
    reads host
    ensures r.None? <==> flagCode !in Keys(AllProgressData(host))
    ensures r.Some? ==> Entry(flagCode, r.value) in AllProgressData(host)
  {
    Lookup(AllProgressData(host), flagCode)
  }

  // ---------------------------------------------------------------------------
  // Recording an outcome.

  /** The record after one answer. A flag seen for the first time gets the
      initial parameters without consulting the scheduler; a known one is
      rescheduled from its stored ease and interval and keeps its code and
      creation time. */
  function Reviewed(existing: Option<FlagProgress>, flagCode: string, isCorrect: bool, now: Time): (p: FlagProgress)
    ensures p.lastReviewedAt == now
    ensures p.totalReviews == (if existing.Some? then existing.value.totalReviews else 0) + 1
    ensures p.correctReviews == (if existing.Some? then existing.value.correctReviews else 0) + (if isCorrect then 1 else 0)
    ensures existing.None? ==>
      p == FlagProgress(flagCode, 2.5, 0, now, 1, if isCorrect then 1 else 0, now, now)
    ensures existing.Some? ==>
      var r := CalculateNextReview(isCorrect, existing.value.easeFactor, existing.value.interval, now);
      && p.flagCode == existing.value.flagCode && p.createdAt == existing.value.createdAt
      && p.easeFactor == r.easeFactor && p.interval == r.interval && p.nextReviewDate == r.nextReviewDate
  {
    match existing
    case Some(prev) =>
      var result := CalculateNextReview(isCorrect, prev.easeFactor, prev.interval, now);
      prev.(easeFactor := result.easeFactor, interval := result.interval,
            nextReviewDate := result.nextReviewDate,
            totalReviews := prev.totalReviews + 1,
            correctReviews := prev.correctReviews + (if isCorrect then 1 else 0),
            lastReviewedAt := now)
    case None =>
      var initial := GetInitialLearningParameters(now);
      FlagProgress(flagCode, initial.easeFactor, initial.interval, initial.nextReviewDate,
                   1, if isCorrect then 1 else 0, now, now)
  }

  /** The message updateFlagProgress throws when the record cannot be saved. */
  function UpdateError(flagCode: string): string {
    "Failed to update progress for flag " + flagCode
  }

  /** updateFlagProgress(flagCode, isCorrect), with the time and the sync
      item's random id part given: the record is rescheduled, stored under the
      code (other entries untouched) and queued for sync as one "update" item.
      When storage is unavailable the write throws and the error is rethrown. */
  method UpdateFlagProgress(host: Host, sync: SyncEngine, flagCode: string, isCorrect: bool, now: Time, nonce: string)
    returns (r: Result<FlagProgress>)
    requires sync.host == host
    modifies host`progress, host`syncQueue, host`lastSync
    modifies sync`isSyncing, sync`syncError, sync`queuedChanges, sync`lastSyncTime
    ensures !host.StorageAvailable() ==>
      && r == Failure(UpdateError(flagCode))
      && host.progress == old(host.progress) && host.syncQueue == old(host.syncQueue)
      && host.lastSync == old(host.lastSync) && sync.State() == old(sync.State())
    ensures host.StorageAvailable() ==>
      var before := old(AllProgressData(host));
      && r == Success(Reviewed(Lookup(before, flagCode), flagCode, isCorrect, now))
      && host.progress == Holds(Put(before, flagCode, r.value))
      && sync.State() == Enqueued(old(sync.State()), NewItem(Update, ProgressUpdate(flagCode, r.value), now, nonce),
                                  true, sync.deliver, now)
      && host.syncQueue == Holds(sync.queuedChanges)
      && host.lastSync == if old(sync.isOnline) && !old(sync.isSyncing) then Some(now) else old(host.lastSync)
  {
    var allProgress := AllProgressData(host);
    var updated := Reviewed(Lookup(allProgress, flagCode), flagCode, isCorrect, now);
    if !host.StorageAvailable() {
      return Failure(UpdateError(flagCode));
    }
    allProgress := Put(allProgress, flagCode, updated);
    host.progress := Holds(allProgress);
    sync.QueueProgressUpdate(flagCode, updated, now, nonce);
    return Success(updated);
  }

  /** A recording adds one review to the flag, keeps every other stored record,
      and keeps the table's keys distinct. */
  lemma RecordingTouchesOneFlag(t: ProgressTable, flagCode: string, isCorrect: bool, now: Time, other: string)
    requires DistinctKeys(t)
    ensures var p := Reviewed(Lookup(t, flagCode), flagCode, isCorrect, now);
      var t' := Put(t, flagCode, p);
      && DistinctKeys(t')
      && Lookup(t', flagCode) == Some(p)
      && (other != flagCode ==> Lookup(t', other) == Lookup(t, other))
      && p.totalReviews == (if Lookup(t, flagCode).Some? then Lookup(t, flagCode).value.totalReviews else 0) + 1
  {
    var p := Reviewed(Lookup(t, flagCode), flagCode, isCorrect, now);
    PutThenLookup(t, flagCode, p, other);
  }

  /** Recording while offline queues exactly one "update" item carrying the
      new record, after the earlier items. */
  lemma RecordingQueuesOneUpdate(s: SyncState, flagCode: string, p: FlagProgress, deliver: SyncQueueItem -> bool,
                                 now: Time, nonce: string)
    requires !s.isOnline
    ensures var q := Enqueued(s, NewItem(Update, ProgressUpdate(flagCode, p), now, nonce), true, deliver, now).queuedChanges;
      && |q| == |s.queuedChanges| + 1
      && q[..|s.queuedChanges|] == s.queuedChanges
      && q[|s.queuedChanges|].action == Update && q[|s.queuedChanges|].retryCount == 0
      && q[|s.queuedChanges|].data == ProgressUpdate(flagCode, p)
  {
    var item := NewItem(Update, ProgressUpdate(flagCode, p), now, nonce);
    EnqueueWithoutFlush(s, item, true, deliver, now);
    assert (s.queuedChanges + [item])[..|s.queuedChanges|] == s.queuedChanges;
  }

  /** The worked sequence of the store's tests: correct, correct gives a 1-day
      interval; a third correct answer gives 6 days; a miss then shortens it. */
  lemma RecordingSequence(code: string, t1: Time, t2: Time, t3: Time, t4: Time)
    ensures var p1 := Reviewed(None, code, true, t1);
      var p2 := Reviewed(Some(p1), code, true, t2);
      var p3 := Reviewed(Some(p2), code, true, t3);
      var p4 := Reviewed(Some(p3), code, false, t4);
      && p1.interval == 0 && p1.easeFactor == 2.5 && p1.nextReviewDate == t1
      && p2.interval == 1 && p2.totalReviews == 2 && p2.correctReviews == 2
      && p3.interval == 6
      && p4.interval == 3 && p4.interval < p3.interval
      && p4.totalReviews == 4 && p4.correctReviews == 3 && p4.createdAt == t1
  {
    var p3 := Reviewed(Some(Reviewed(Some(Reviewed(None, code, true, t1)), code, true, t2)), code, true, t3);
    IncorrectResetsInterval(p3.easeFactor, p3.interval, t4);
  }

  // ---------------------------------------------------------------------------
  // Due flags.

  predicate IsDue(p: FlagProgress, now: Time) {
    p.nextReviewDate <= now
  }

  /** The codes of the due records, in table order. */
  function AllDue(t: ProgressTable, now: Time): (codes: seq<string>)
    ensures |codes| <= |t|
    ensures forall i :: 0 <= i < |t| && IsDue(t[i].progress, now) ==> t[i].progress.flagCode in codes
    ensures forall c :: c in codes ==> exists i :: 0 <= i < |t| && IsDue(t[i].progress, now) && t[i].progress.flagCode == c
  {
    if t == [] then []
    else
      var init, last := t[..|t| - 1], t[|t| - 1];
      var rest := AllDue(init, now);
      var codes := rest + (if IsDue(last.progress, now) then [last.progress.flagCode] else []);
      assert forall i :: 0 <= i < |init| ==> init[i] == t[i];
      codes
  }

  /** The due codes of a single record. */
  lemma AllDueSingle(e: Entry, now: Time)
    ensures AllDue([e], now) == if IsDue(e.progress, now) then [e.progress.flagCode] else []
  {
    assert [e][..0] == [];
  }

  /** AllDue is an in-order filter: it distributes over concatenation, so the
      due codes keep the table's order and each due record contributes once. */
  lemma {:induction false} AllDueAppend(a: ProgressTable, b: ProgressTable, now: Time)
    ensures AllDue(a + b, now) == AllDue(a, now) + AllDue(b, now)
  {
    if b == [] {
      assert a + b == a;
    } else {
      var init, last := b[..|b| - 1], b[|b| - 1];
      var tail := if IsDue(last.progress, now) then [last.progress.flagCode] else [];
      assert (a + b)[..|a + b| - 1] == a + init;
      assert (a + b)[|a + b| - 1] == last;
      calc {
        AllDue(a + b, now);
        AllDue(a + init, now) + tail;
        { AllDueAppend(a, init, now); }
        AllDue(a, now) + AllDue(init, now) + tail;
        AllDue(a, now) + (AllDue(init, now) + tail);
        AllDue(a, now) + AllDue(b, now);
      }
    }
  }

  /** getDueFlags(limit): a truthy limit keeps the first `limit` codes (with
      slice's reading of a negative limit); 0 or none keeps them all. */
  function DueFlags(t: ProgressTable, limit: Option<int>, now: Time): (codes: seq<string>)
    ensures !Truthy(limit) ==> codes == AllDue(t, now)
    ensures Truthy(limit) && limit.value > 0 ==> codes == AllDue(t, now)[..Min(limit.value, |AllDue(t, now)|)]
    ensures Truthy(limit) && limit.value < 0 ==> codes == AllDue(t, now)[..Max(|AllDue(t, now)| + limit.value, 0)]
  {
    var due := AllDue(t, now);
    if Truthy(limit) then JsSlice(due, 0, limit.value) else due
  }

  /** getDueFlags over the stored table. */
  function GetDueFlags(host: Host, limit: Option<int>, now: Time): (codes: seq<string>)
    reads host
    ensures codes == DueFlags(AllProgressData(host), limit, now)
    ensures forall c :: c in codes ==> c in AllDue(AllProgressData(host), now)
  {
    DueFlags(AllProgressData(host), limit, now)
  }

  /** The due-flags example of the store's tests: of two records one is due. */
  lemma DueFlagsExample(now: Time, a: FlagProgress, b: FlagProgress)
    requires a.flagCode == "us" && a.nextReviewDate == now - DAY_MS
    requires b.flagCode == "ca" && b.nextReviewDate == now + DAY_MS
    ensures DueFlags([Entry("us", a), Entry("ca", b)], None, now) == ["us"]
    ensures DueFlags([Entry("us", a), Entry("ca", b)], Some(0), now) == ["us"]
  {
    var t := [Entry("us", a), Entry("ca", b)];
    assert t[..|t| - 1] == [Entry("us", a)];
    assert [Entry("us", a)][..0] == [];
    assert AllDue([Entry("us", a)], now) == ["us"];
    assert AllDue(t, now) == ["us"];
  }

  // ---------------------------------------------------------------------------
  // Statistics.

  datatype ProgressStats = ProgressStats(
    flagCount: nat,
    totalReviews: nat,
    correctReviews: nat,
    accuracy: real,
    dueCount: nat,
    masteredCount: nat)

  function TotalReviews(t: ProgressTable): nat {
    if t == [] then 0 else TotalReviews(t[..|t| - 1]) + t[|t| - 1].progress.totalReviews
  }

  function CorrectReviews(t: ProgressTable): nat {
    if t == [] then 0 else CorrectReviews(t[..|t| - 1]) + t[|t| - 1].progress.correctReviews
  }

  function DueCount(t: ProgressTable, now: Time): nat {
    if t == [] then 0 else DueCount(t[..|t| - 1], now) + (if IsDue(t[|t| - 1].progress, now) then 1 else 0)
  }

  function MasteredCount(t: ProgressTable): nat {
    if t == [] then 0 else MasteredCount(t[..|t| - 1]) + (if t[|t| - 1].progress.interval > MASTERED_INTERVAL then 1 else 0)
  }

  /** Percentage of correct reviews; 0 before any review. */
  function Accuracy(correct: nat, total: nat): real {
    if total > 0 then correct as real / total as real * 100.0 else 0.0
  }

  /** The statistics of a table, as sums and counts over its records. */
  function StatsOf(t: ProgressTable, now: Time): ProgressStats {
    ProgressStats(|t|, TotalReviews(t), CorrectReviews(t), Accuracy(CorrectReviews(t), TotalReviews(t)),
                  DueCount(t, now), MasteredCount(t))
  }

  /** The accumulation loop of getProgressStats. */
  method ComputeStats(t: ProgressTable, now: Time) returns (stats: ProgressStats)
    ensures stats == StatsOf(t, now)
  {
    var totalReviews, correctReviews, dueCount, masteredCount := 0, 0, 0, 0;
    var i := 0;
    while i < |t|
      invariant 0 <= i <= |t|
      invariant totalReviews == TotalReviews(t[..i]) && correctReviews == CorrectReviews(t[..i])
      invariant dueCount == DueCount(t[..i], now) && masteredCount == MasteredCount(t[..i])
    {
      var progress := t[i].progress;
      assert t[..i + 1][..i] == t[..i];
      totalReviews := totalReviews + progress.totalReviews;
      correctReviews := correctReviews + progress.correctReviews;
      if IsDue(progress, now) {
        dueCount := dueCount + 1;
      }
      if progress.interval > MASTERED_INTERVAL {
        masteredCount := masteredCount + 1;
      }
      i := i + 1;
    }
    assert t[..|t|] == t;
    stats := ProgressStats(|t|, totalReviews, correctReviews, Accuracy(correctReviews, totalReviews),
                           dueCount, masteredCount);
  }

  /** getProgressStats() with the time given. */
  method GetProgressStats(host: Host, now: Time) returns (stats: ProgressStats)
    ensures stats == StatsOf(AllProgressData(host), now)
  {
    stats := ComputeStats(AllProgressData(host), now);
  }

  /** The review total of a table whose record under `key` is replaced. */
  lemma {:induction false} ReplaceTotal(t: ProgressTable, key: string, p: FlagProgress)
    requires key in Keys(t)
    ensures TotalReviews(Replace(t, key, p)) == TotalReviews(t) - Lookup(t, key).value.totalReviews + p.totalReviews
  {
    var init, last := t[..|t| - 1], t[|t| - 1];
    assert Keys(t) == Keys(init) + [last.key];
    var r := Replace(t, key, p);
    if last.key == key {
      assert r[..|r| - 1] == init;
    } else {
      ReplaceTotal(init, key, p);
      assert r[..|r| - 1] == Replace(init, key, p);
    }
  }

  /** Recording one answer adds exactly one review to the table's total. */
  lemma RecordingAddsOneReview(t: ProgressTable, flagCode: string, isCorrect: bool, now: Time)
    ensures TotalReviews(Put(t, flagCode, Reviewed(Lookup(t, flagCode), flagCode, isCorrect, now))) == TotalReviews(t) + 1
  {
    var p := Reviewed(Lookup(t, flagCode), flagCode, isCorrect, now);
    if flagCode in Keys(t) {
      ReplaceTotal(t, flagCode, p);
    } else {
      var r := t + [Entry(flagCode, p)];
      assert r[..|r| - 1] == t;
    }
  }

  /** The due count is the length of the unlimited due list. */
  lemma {:induction false} DueCountIsDueLength(t: ProgressTable, now: Time)
    ensures DueCount(t, now) == |AllDue(t, now)|
  {
    if t != [] {
      DueCountIsDueLength(t[..|t| - 1], now);
    }
  }

  /** A record never has more correct reviews than reviews. */
  predicate Consistent(t: ProgressTable) {
    forall i :: 0 <= i < |t| ==> t[i].progress.correctReviews <= t[i].progress.totalReviews
  }

  lemma {:induction false} CorrectAtMostTotal(t: ProgressTable)
    requires Consistent(t)
    ensures CorrectReviews(t) <= TotalReviews(t)
  {
    if t != [] {
      var init := t[..|t| - 1];
      assert Consistent(init) by {
        forall i | 0 <= i < |init| ensures init[i].progress.correctReviews <= init[i].progress.totalReviews {
          assert init[i] == t[i];
        }
      }
      CorrectAtMostTotal(init);
    }
  }

  /** On consistent records the accuracy is a percentage in [0, 100], and the
      due and mastered counts never exceed the flag count. */
  lemma StatsBounded(t: ProgressTable, now: Time)
    requires Consistent(t)
    ensures var s := StatsOf(t, now);
      0.0 <= s.accuracy <= 100.0 && s.dueCount <= s.flagCount && s.masteredCount <= s.flagCount
  {
    CorrectAtMostTotal(t);
    DueCountIsDueLength(t, now);
    MasteredAtMostCount(t);
    AccuracyBounded(CorrectReviews(t), TotalReviews(t));
  }

  /** No more correct reviews than reviews gives a percentage in [0, 100]. */
  lemma AccuracyBounded(correct: nat, total: nat)
    requires correct <= total
    ensures 0.0 <= Accuracy(correct, total) <= 100.0
  {
    if total > 0 {
      var c, n := correct as real, total as real;
      assert (c / n - 1.0) * n == c - n;
      assert c / n <= 1.0;
    }
  }

  lemma {:induction false} MasteredAtMostCount(t: ProgressTable)
    ensures MasteredCount(t) <= |t|
  {
    if t != [] {
      MasteredAtMostCount(t[..|t| - 1]);
    }
  }

  /** Reviewing keeps a record consistent. */
  lemma ReviewKeepsConsistent(existing: Option<FlagProgress>, flagCode: string, isCorrect: bool, now: Time)
    requires existing.Some? ==> existing.value.correctReviews <= existing.value.totalReviews
    ensures var p := Reviewed(existing, flagCode, isCorrect, now); p.correctReviews <= p.totalReviews
  {
  }

  /** The statistics example of the store's tests. */
  lemma StatsExample(now: Time)
    ensures var t := [Entry("us", FlagProgress("us", 2.5, 1, now, 5, 4, now, now)),
                      Entry("ca", FlagProgress("ca", 2.5, 31, now, 10, 8, now, now))];
      StatsOf(t, now) == ProgressStats(2, 15, 12, 80.0, 2, 1)
  {
    var t := [Entry("us", FlagProgress("us", 2.5, 1, now, 5, 4, now, now)),
              Entry("ca", FlagProgress("ca", 2.5, 31, now, 10, 8, now, now))];
    var first := [t[0]];
    assert t[..|t| - 1] == first;
    assert first[..|first| - 1] == [];
    assert TotalReviews([]) == 0 && CorrectReviews([]) == 0;
    assert DueCount([], now) == 0 && MasteredCount([]) == 0;
    assert first[|first| - 1].progress.totalReviews == 5 && first[|first| - 1].progress.correctReviews == 4;
    assert first[|first| - 1].progress.interval == 1 && IsDue(first[|first| - 1].progress, now);
    assert TotalReviews(first) == 5 && CorrectReviews(first) == 4;
    assert DueCount(first, now) == 1 && MasteredCount(first) == 0;
    assert 12.0 / 15.0 * 100.0 == 80.0;
  }

  // ---------------------------------------------------------------------------
  // Clearing.

  /** clearAllProgress(): an empty table is stored; the metadata key is left
      alone. Without working storage the call throws and false is returned. */
  method ClearAllProgress(host: Host) returns (ok: bool)
    modifies host`progress
    ensures ok == host.StorageAvailable()
    ensures ok ==> host.progress == Holds([])
    ensures !ok ==> host.progress == old(host.progress)
  {
    if !host.StorageAvailable() {
      return false;
    }
    host.progress := Missing;
    host.progress := Holds([]);
    return true;
  }
}
