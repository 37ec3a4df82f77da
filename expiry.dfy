// Signal expiry: the expired test, the single-signal status update, the active
// list, the batched cleanup that marks overdue signals Expired, the batched
// archive that removes long-expired signals, and the two counters.
//
// The signal store is a map from id to signal that iterates in ascending key
// order; it is modelled as the sequence of its entries in that order (`Keyed`
// says the ids strictly increase). Operations that write the map back to storage
// return the new sequence.

module Expiry {
  import opened Base
  import opened RegistryTypes

  const DEFAULT_EXPIRY_SECONDS: int := 86400
  const MAX_CLEANUP_BATCH_SIZE: nat := 100
  const ARCHIVE_THRESHOLD_SECONDS: int := 30 * 24 * 60 * 60

  datatype CleanupResult = CleanupResult(signalsProcessed: nat, signalsExpired: nat)

  /** The store's entries in key order: ids strictly increase. */
  predicate Keyed(signals: seq<Signal>) {
    forall i, j :: 0 <= i < j < |signals| ==> signals[i].id < signals[j].id
  }

  /** `is_expired`: strictly past the expiry; a signal expiring this very second is not. */
  predicate IsExpired(s: Signal, now: int) { now > s.expiry }

  /** Expired and Executed signals are left alone by every expiry operation. */
  predicate Closed(s: Signal) { s.status == Expired || s.status == Executed }

  /** `should_archive`: Expired, and more than 30 days past the expiry. */
  predicate ShouldArchive(s: Signal, now: int) {
    s.status == Expired && SatSub(now, s.expiry) > ARCHIVE_THRESHOLD_SECONDS
  }

  /** `check_and_update_expiry`: the updated signal and whether it changed. */
  function CheckAndUpdateExpiry(s: Signal, now: int): (r: (Signal, bool))
    ensures r.0.(status := s.status) == s
    ensures r.1 <==> r.0 != s
    ensures r.1 <==> !Closed(s) && IsExpired(s, now)
    ensures r.1 ==> r.0.status == Expired
  {
    if Closed(s) then (s, false)
    else if IsExpired(s, now) then (s.(status := Expired), true)
    else (s, false)
  }

  /** A second check at the same time changes nothing. */
  lemma CheckIdempotent(s: Signal, now: int)
    ensures CheckAndUpdateExpiry(CheckAndUpdateExpiry(s, now).0, now) == (CheckAndUpdateExpiry(s, now).0, false)
  {
  }

  /** The position of the entry with key `id`, if any. */
  function FindSignal(signals: seq<Signal>, id: nat): (r: Option<nat>)
    ensures r.Some? ==> r.value < |signals| && signals[r.value].id == id
    ensures r.Some? ==> forall k :: 0 <= k < r.value ==> signals[k].id != id
    ensures r.None? ==> forall k :: 0 <= k < |signals| ==> signals[k].id != id
  {
    if |signals| == 0 then None
    else if signals[0].id == id then Some(0)
    else match FindSignal(signals[1..], id)
      case None => None
      case Some(k) => Some(k + 1)
  }

  /** `get_signal_with_expiry_check`: the looked-up signal after the expiry check,
      and the store, with that entry written back only when it changed. */
  function GetSignalWithExpiryCheck(signals: seq<Signal>, id: nat, now: int): (r: (seq<Signal>, Option<Signal>))
    ensures r.1.None? <==> forall k :: 0 <= k < |signals| ==> signals[k].id != id
    ensures r.1.None? ==> r.0 == signals
    ensures r.1.Some? ==>
              && r.1.value.id == id
              && !(IsExpired(r.1.value, now) && !Closed(r.1.value))
              && |r.0| == |signals|
              && exists k :: 0 <= k < |signals| && signals[k].id == id && r.0 == signals[k := r.1.value]
                                && r.1.value == CheckAndUpdateExpiry(signals[k], now).0
  {
    match FindSignal(signals, id)
    case None => (signals, None)
    case Some(k) =>
      var (s, changed) := CheckAndUpdateExpiry(signals[k], now);
      assert changed || s == signals[k];
      (if changed then signals[k := s] else signals, Some(s))
  }

  /** Signals that are listed as active: not yet at their expiry and not closed. */
  predicate Live(s: Signal, now: int) { s.expiry > now && !Closed(s) }

  /** The live entries, in key order. */
  function ActiveOf(signals: seq<Signal>, now: int): seq<Signal>
  {
    if |signals| == 0 then []
    else
      var rest := ActiveOf(signals[..|signals| - 1], now);
      if Live(signals[|signals| - 1], now) then rest + [signals[|signals| - 1]] else rest
  }

  /** The active list holds exactly the live signals, each once per entry, and
      keeps key order. */
  lemma {:induction false} ActiveMeaning(signals: seq<Signal>, now: int)
    ensures forall s :: s in ActiveOf(signals, now) <==> s in signals && Live(s, now)
    ensures |ActiveOf(signals, now)| <= |signals|
    ensures Keyed(signals) ==> Keyed(ActiveOf(signals, now))
    ensures forall s :: s in ActiveOf(signals, now) ==> !CheckAndUpdateExpiry(s, now).1
  {
    if |signals| > 0 {
      var init := signals[..|signals| - 1];
      ActiveMeaning(init, now);
      assert signals == init + [signals[|signals| - 1]];
      if Keyed(signals) {
        assert Keyed(init);
        forall s | s in ActiveOf(init, now)
          ensures s.id < signals[|signals| - 1].id
        {
          var k :| 0 <= k < |init| && init[k] == s;
        }
      }
    }
  }

  /** `get_active_signals` (expiry.rs). */
  method GetActiveSignals(signals: seq<Signal>, now: int) returns (active: seq<Signal>)
    ensures active == ActiveOf(signals, now)
  {
    active := [];
    var i := 0;
    while i < |signals|
      invariant 0 <= i <= |signals|
      invariant active == ActiveOf(signals[..i], now)
    {
      assert signals[..i + 1][..i] == signals[..i];
      if Live(signals[i], now) {
        active := active + [signals[i]];
      }
      i := i + 1;
    }
    assert signals[..i] == signals;
  }

  /** The cleanup and archive batch: 100 when the limit is 0 or above 100. */
  function BatchSize(limit: nat): (b: nat)
    ensures 1 <= b <= MAX_CLEANUP_BATCH_SIZE
    ensures 1 <= limit <= MAX_CLEANUP_BATCH_SIZE ==> b == limit
  {
    if limit == 0 || limit > MAX_CLEANUP_BATCH_SIZE then MAX_CLEANUP_BATCH_SIZE else limit
  }

  /** What cleanup does to the first entries: the updated entries, the processed
      count and the expired count. Once `batch` signals have been processed the
      rest are passed over. */
  function Cleanup(signals: seq<Signal>, batch: nat, now: int): (r: (seq<Signal>, nat, nat))
    ensures |r.0| == |signals|
  {
    if |signals| == 0 then ([], 0, 0)
    else CleanupNext(Cleanup(signals[..|signals| - 1], batch, now), signals[|signals| - 1], batch, now)
  }

  /** One entry of cleanup after the entries before it gave `acc`. */
  function CleanupNext(acc: (seq<Signal>, nat, nat), s: Signal, batch: nat, now: int): (r: (seq<Signal>, nat, nat))
    ensures |r.0| == |acc.0| + 1 && acc.1 <= r.1
  {
    var (updated, processed, expired) := acc;
    if processed >= batch || Closed(s) then (updated + [s], processed, expired)
    else if s.expiry < now then (updated + [s.(status := Expired)], processed + 1, expired + 1)
    else (updated + [s], processed + 1, expired)
  }

  /** The number of entries that are not closed. */
  function OpenCount(signals: seq<Signal>): nat
  {
    if |signals| == 0 then 0
    else OpenCount(signals[..|signals| - 1]) + if Closed(signals[|signals| - 1]) then 0 else 1
  }

  /** The spec of `count_expired_signals`: entries whose status is Expired. */
  function ExpiredCount(signals: seq<Signal>): nat
  {
    if |signals| == 0 then 0
    else ExpiredCount(signals[..|signals| - 1]) + if signals[|signals| - 1].status == Expired then 1 else 0
  }

  /** Past expiry but not yet marked: the entries cleanup would expire. */
  predicate Overdue(s: Signal, now: int) { s.expiry < now && !Closed(s) }

  /** The spec of `count_signals_pending_expiry`. */
  function PendingCount(signals: seq<Signal>, now: int): nat
  {
    if |signals| == 0 then 0
    else PendingCount(signals[..|signals| - 1], now) + if Overdue(signals[|signals| - 1], now) then 1 else 0
  }

  /** Cleanup processes the open signals up to the batch size, only ever moves an
      overdue signal to Expired and changes nothing else about it, and its expired
      count is how many more Expired entries the store then holds. When the batch
      is not used up, every overdue signal has been expired. */
  lemma {:induction false} CleanupMeaning(signals: seq<Signal>, batch: nat, now: int)
    ensures var (updated, processed, expired) := Cleanup(signals, batch, now);
            && processed == Min(batch, OpenCount(signals))
            && expired <= processed
            && ExpiredCount(updated) == ExpiredCount(signals) + expired
            && (forall k :: 0 <= k < |signals| ==> updated[k].(status := signals[k].status) == signals[k])
            && (forall k :: 0 <= k < |signals| && updated[k] != signals[k] ==>
                  Overdue(signals[k], now) && updated[k].status == Expired)
            && (processed < batch ==> expired == PendingCount(signals, now) && PendingCount(updated, now) == 0)
  {
    CleanupCounts(signals, batch, now);
    CleanupExpiredCount(signals, batch, now);
    CleanupChanges(signals, batch, now);
    CleanupLeavesNothingPending(signals, batch, now);
  }

  lemma {:induction false} CleanupCounts(signals: seq<Signal>, batch: nat, now: int)
    ensures var r := Cleanup(signals, batch, now);
            && r.1 == Min(batch, OpenCount(signals)) && r.2 <= r.1
            && (r.1 < batch ==> r.2 == PendingCount(signals, now))
  {
    if |signals| > 0 {
      CleanupCounts(signals[..|signals| - 1], batch, now);
    }
  }

  lemma {:induction false} CleanupExpiredCount(signals: seq<Signal>, batch: nat, now: int)
    ensures ExpiredCount(Cleanup(signals, batch, now).0) == ExpiredCount(signals) + Cleanup(signals, batch, now).2
  {
    if |signals| > 0 {
      var init := signals[..|signals| - 1];
      CleanupExpiredCount(init, batch, now);
      var u := Cleanup(signals, batch, now).0;
      assert u[..|u| - 1] == Cleanup(init, batch, now).0;
    }
  }

  lemma {:induction false} CleanupChanges(signals: seq<Signal>, batch: nat, now: int)
    ensures var u := Cleanup(signals, batch, now).0;
            && (forall k :: 0 <= k < |signals| ==> u[k].(status := signals[k].status) == signals[k])
            && (forall k :: 0 <= k < |signals| && u[k] != signals[k] ==> Overdue(signals[k], now) && u[k].status == Expired)
  {
    if |signals| > 0 {
      var init := signals[..|signals| - 1];
      CleanupChanges(init, batch, now);
      var u0 := Cleanup(init, batch, now).0;
      var u := Cleanup(signals, batch, now).0;
      assert forall k :: 0 <= k < |init| ==> u[k] == u0[k] && signals[k] == init[k];
    }
  }

  lemma {:induction false} CleanupLeavesNothingPending(signals: seq<Signal>, batch: nat, now: int)
    ensures Cleanup(signals, batch, now).1 < batch ==> PendingCount(Cleanup(signals, batch, now).0, now) == 0
  {
    if |signals| > 0 {
      var init := signals[..|signals| - 1];
      CleanupLeavesNothingPending(init, batch, now);
      var u := Cleanup(signals, batch, now).0;
      assert u[..|u| - 1] == Cleanup(init, batch, now).0;
    }
  }

  /** `cleanup_expired_signals`: the updated store and the counts. */
  method CleanupExpiredSignals(signals: seq<Signal>, limit: nat, now: int)
    returns (updated: seq<Signal>, result: CleanupResult)
    ensures (updated, result.signalsProcessed, result.signalsExpired) == Cleanup(signals, BatchSize(limit), now)
  {
    var batch := BatchSize(limit);
    var processed: nat := 0;
    var expired: nat := 0;
    var done: seq<Signal> := [];
    var i := 0;
    while i < |signals|
      invariant 0 <= i <= |signals|
      invariant (done, processed, expired) == Cleanup(signals[..i], batch, now)
    {
      if processed >= batch {
        CleanupPassesOver(signals, batch, now, i);
        break;
      }
      CleanupPrefix(signals, batch, now, i);
      var s := signals[i];
      if Closed(s) {
        done := done + [s];
      } else {
        processed := processed + 1;
        if s.expiry < now {
          done := done + [s.(status := Expired)];
          expired := expired + 1;
        } else {
          done := done + [s];
        }
      }
      i := i + 1;
    }
    if i == |signals| {
      assert signals[..i] == signals && done + signals[i..] == done;
    }
    updated := done + signals[i..];
    result := CleanupResult(processed, expired);
  }

  /** Cleanup of one more entry continues from the cleanup of the entries before it. */
  lemma CleanupPrefix(signals: seq<Signal>, batch: nat, now: int, i: nat)
    requires i < |signals|
    ensures Cleanup(signals[..i + 1], batch, now) == CleanupNext(Cleanup(signals[..i], batch, now), signals[i], batch, now)
  {
    assert signals[..i + 1][..i] == signals[..i];
  }

  /** Once the batch is used up after the first `i` entries, the rest pass through. */
  lemma {:induction false} CleanupPassesOver(signals: seq<Signal>, batch: nat, now: int, i: nat)
    requires i <= |signals|
    requires Cleanup(signals[..i], batch, now).1 >= batch
    ensures Cleanup(signals, batch, now) ==
              (Cleanup(signals[..i], batch, now).0 + signals[i..], Cleanup(signals[..i], batch, now).1, Cleanup(signals[..i], batch, now).2)
    decreases |signals| - i
  {
    if i < |signals| {
      var t := signals[..i + 1];
      assert t[..i] == signals[..i];
      assert Cleanup(t, batch, now) ==
               (Cleanup(signals[..i], batch, now).0 + [signals[i]], Cleanup(signals[..i], batch, now).1, Cleanup(signals[..i], batch, now).2);
      CleanupPassesOver(signals, batch, now, i + 1);
      assert signals[i..] == [signals[i]] + signals[i + 1..];
      var u := Cleanup(signals[..i], batch, now).0;
      assert (u + [signals[i]]) + signals[i + 1..] == u + signals[i..];
    } else {
      assert signals[..i] == signals && signals[i..] == [];
      assert Cleanup(signals[..i], batch, now).0 + signals[i..] == Cleanup(signals[..i], batch, now).0;
    }
  }

  /** The ids archiving collects from the first entries: archivable signals, in key
      order, until the batch is full. */
  function ArchiveIds(signals: seq<Signal>, batch: nat, now: int): (ids: seq<nat>)
    ensures |ids| <= batch
  {
    if |signals| == 0 then []
    else
      var ids := ArchiveIds(signals[..|signals| - 1], batch, now);
      var s := signals[|signals| - 1];
      if |ids| < batch && ShouldArchive(s, now) then ids + [s.id] else ids
  }

  /** `Map::remove`: drops the entry with key `id`. */
  function RemoveKey(signals: seq<Signal>, id: nat): (r: seq<Signal>)
    ensures forall s :: s in r <==> s in signals && s.id != id
  {
    if |signals| == 0 then []
    else
      var rest := RemoveKey(signals[..|signals| - 1], id);
      assert signals == signals[..|signals| - 1] + [signals[|signals| - 1]];
      if signals[|signals| - 1].id == id then rest else rest + [signals[|signals| - 1]]
  }

  /** Entries whose key is not among `ids`. */
  function Keep(signals: seq<Signal>, ids: seq<nat>): (r: seq<Signal>)
    ensures forall s :: s in r <==> s in signals && s.id !in ids
  {
    if |ids| == 0 then signals else RemoveKey(Keep(signals, ids[..|ids| - 1]), ids[|ids| - 1])
  }

  /** Archiving collects only archivable signals, at most one batch of them; when the
      batch is not full, no archivable signal is left behind. */
  lemma {:induction false} ArchiveIdsMeaning(signals: seq<Signal>, batch: nat, now: int)
    ensures forall id :: id in ArchiveIds(signals, batch, now) ==>
              exists k :: 0 <= k < |signals| && signals[k].id == id && ShouldArchive(signals[k], now)
    ensures |ArchiveIds(signals, batch, now)| < batch ==>
              forall k :: 0 <= k < |signals| && ShouldArchive(signals[k], now) ==> signals[k].id in ArchiveIds(signals, batch, now)
    ensures Keyed(signals) ==> NoDup(ArchiveIds(signals, batch, now))
    ensures Keyed(signals) ==> forall id :: id in ArchiveIds(signals, batch, now) ==> forall k :: 0 <= k < |signals| && signals[k].id == id ==> ShouldArchive(signals[k], now)
  {
    if |signals| > 0 {
      var init := signals[..|signals| - 1];
      var last := signals[|signals| - 1];
      ArchiveIdsMeaning(init, batch, now);
      var ids := ArchiveIds(init, batch, now);
      assert forall k :: 0 <= k < |init| ==> init[k] == signals[k];
      forall id | id in ArchiveIds(signals, batch, now)
        ensures exists k :: 0 <= k < |signals| && signals[k].id == id && ShouldArchive(signals[k], now)
      {
        if id in ids {
          var k :| 0 <= k < |init| && init[k].id == id && ShouldArchive(init[k], now);
          assert signals[k] == init[k];
        } else {
          assert signals[|signals| - 1].id == id;
        }
      }
      if Keyed(signals) {
        assert Keyed(init);
        forall id | id in ids ensures id < last.id {
          var k :| 0 <= k < |init| && init[k].id == id && ShouldArchive(init[k], now);
        }
        if ArchiveIds(signals, batch, now) != ids {
          var all := ArchiveIds(signals, batch, now);
          assert all == ids + [last.id];
          forall i, j | 0 <= i < j < |all| ensures all[i] != all[j] {
            if j == |ids| {
              assert all[i] in ids;
            }
          }
        }
        forall id | id in ArchiveIds(signals, batch, now)
          ensures forall k :: 0 <= k < |signals| && signals[k].id == id ==> ShouldArchive(signals[k], now)
        {
          forall k | 0 <= k < |signals| && signals[k].id == id
            ensures ShouldArchive(signals[k], now)
          {
            if k < |init| {
              assert signals[k] == init[k];
            }
          }
        }
      }
    }
  }

  /** `archive_old_signals`: the store without the archived entries, and how many
      were archived. */
  method ArchiveOldSignals(signals: seq<Signal>, limit: nat, now: int) returns (updated: seq<Signal>, archived: nat)
    ensures archived == |ArchiveIds(signals, BatchSize(limit), now)| && archived <= BatchSize(limit)
    ensures updated == Keep(signals, ArchiveIds(signals, BatchSize(limit), now))
  {
    var toArchive := CollectArchiveIds(signals, BatchSize(limit), now);
    updated := RemoveKeys(signals, toArchive);
    archived := |toArchive|;
  }

  /** The collecting pass of `archive_old_signals`. */
  method CollectArchiveIds(signals: seq<Signal>, batch: nat, now: int) returns (toArchive: seq<nat>)
    ensures toArchive == ArchiveIds(signals, batch, now)
  {
    toArchive := [];
    var i := 0;
    while i < |signals|
      invariant 0 <= i <= |signals|
      invariant toArchive == ArchiveIds(signals[..i], batch, now)
    {
      if |toArchive| >= batch {
        ArchivePassesOver(signals, batch, now, i);
        break;
      }
      ArchivePrefix(signals, batch, now, i);
      if ShouldArchive(signals[i], now) {
        toArchive := toArchive + [signals[i].id];
      }
      i := i + 1;
    }
    if i == |signals| {
      assert signals[..i] == signals;
    }
  }

  /** The removing pass of `archive_old_signals`. */
  method RemoveKeys(signals: seq<Signal>, ids: seq<nat>) returns (updated: seq<Signal>)
    ensures updated == Keep(signals, ids)
  {
    updated := signals;
    var k := 0;
    while k < |ids|
      invariant 0 <= k <= |ids|
      invariant updated == Keep(signals, ids[..k])
    {
      assert ids[..k + 1][..k] == ids[..k];
      updated := RemoveKey(updated, ids[k]);
      k := k + 1;
    }
    assert ids[..k] == ids;
  }

  /** Collecting from one more entry continues from the entries before it. */
  lemma ArchivePrefix(signals: seq<Signal>, batch: nat, now: int, i: nat)
    requires i < |signals|
    ensures var ids := ArchiveIds(signals[..i], batch, now);
            ArchiveIds(signals[..i + 1], batch, now) ==
              if |ids| < batch && ShouldArchive(signals[i], now) then ids + [signals[i].id] else ids
  {
    assert signals[..i + 1][..i] == signals[..i];
  }

  /** Once the batch is full after the first `i` entries, no more ids are collected. */
  lemma {:induction false} ArchivePassesOver(signals: seq<Signal>, batch: nat, now: int, i: nat)
    requires i <= |signals|
    requires |ArchiveIds(signals[..i], batch, now)| >= batch
    ensures ArchiveIds(signals, batch, now) == ArchiveIds(signals[..i], batch, now)
    decreases |signals| - i
  {
    if i < |signals| {
      assert signals[..i + 1][..i] == signals[..i];
      ArchivePassesOver(signals, batch, now, i + 1);
    } else {
      assert signals[..i] == signals;
    }
  }

  /** The archived store keeps exactly the entries that were not archived; nothing
      archivable is left when the batch was not full; and, with distinct keys,
      every removed entry was archivable. */
  lemma ArchiveMeaning(signals: seq<Signal>, batch: nat, now: int)
    ensures var ids := ArchiveIds(signals, batch, now);
            && (forall s :: s in Keep(signals, ids) ==> s in signals)
            && (|ids| < batch ==> forall s :: s in Keep(signals, ids) ==> !ShouldArchive(s, now))
            && (Keyed(signals) ==> forall s :: s in signals && s !in Keep(signals, ids) ==> ShouldArchive(s, now))
            && (Keyed(signals) ==> forall s :: s in signals && !ShouldArchive(s, now) ==> s in Keep(signals, ids))
  {
    ArchiveIdsMeaning(signals, batch, now);
  }

  /** `count_expired_signals`. */
  method CountExpiredSignals(signals: seq<Signal>) returns (count: nat)
    ensures count == ExpiredCount(signals)
  {
    count := 0;
    var i := 0;
    while i < |signals|
      invariant 0 <= i <= |signals|
      invariant count == ExpiredCount(signals[..i])
    {
      assert signals[..i + 1][..i] == signals[..i];
      if signals[i].status == Expired {
        count := count + 1;
      }
      i := i + 1;
    }
    assert signals[..i] == signals;
  }

  /** `count_signals_pending_expiry`. */
  method CountSignalsPendingExpiry(signals: seq<Signal>, now: int) returns (count: nat)
    ensures count == PendingCount(signals, now)
  {
    count := 0;
    var i := 0;
    while i < |signals|
      invariant 0 <= i <= |signals|
      invariant count == PendingCount(signals[..i], now)
    {
      assert signals[..i + 1][..i] == signals[..i];
      if signals[i].expiry < now && !Closed(signals[i]) {
        count := count + 1;
      }
      i := i + 1;
    }
    assert signals[..i] == signals;
  }

  /** The two counts never overlap: a pending signal is not yet Expired, and a
      pending signal is one the single-signal check would expire. */
  lemma {:induction false} CountsDisjoint(signals: seq<Signal>, now: int)
    ensures ExpiredCount(signals) + PendingCount(signals, now) <= |signals|
    ensures forall s :: Overdue(s, now) ==> CheckAndUpdateExpiry(s, now).1
  {
    if |signals| > 0 {
      CountsDisjoint(signals[..|signals| - 1], now);
    }
  }

  /** The expiry tests of the source: the boundary second, both closed statuses, and
      31 against 29 days past expiry. */
  lemma ExpiryExamples(s: Signal)
    requires s.status == Active
    ensures IsExpired(s.(expiry := 900), 1000) && !IsExpired(s.(expiry := 1100), 1000) && !IsExpired(s.(expiry := 1000), 1000)
    ensures CheckAndUpdateExpiry(s.(expiry := 900), 1000) == (s.(expiry := 900, status := Expired), true)
    ensures !CheckAndUpdateExpiry(s.(expiry := 900, status := Expired), 1000).1
    ensures !CheckAndUpdateExpiry(s.(expiry := 900, status := Executed), 1000).1
    ensures ShouldArchive(s.(expiry := 69 * 86400, status := Expired), 100 * 86400)
    ensures !ShouldArchive(s.(expiry := 71 * 86400, status := Expired), 100 * 86400)
    ensures !ShouldArchive(s.(expiry := 100 * 86400 + 1000), 100 * 86400)
  {
  }
}
