/** The storage backend: both tables, and the statements and transactions that change them.
    Each method is one atomic step; a database error means that the step did not happen. */
module Storage {
  import opened Wrappers
  import opened State
  import opened Deliveries

  datatype StoreResult = Inserted | AlreadyStored(existing: ReceiptId) | StoreFailed

  predicate KeyTaken(receipts: Receipts, key: string) {
    exists id :: id in receipts && receipts[id].dedupeKey == key
  }

  // The unique index on dedupe_key.
  ghost predicate KeysUnique(receipts: Receipts) {
    forall a, b :: a in receipts && b in receipts && receipts[a].dedupeKey == receipts[b].dedupeKey ==> a == b
  }

  // One fresh identifier per name, counting up from `first`.
  function Targets(names: seq<EmitterName>, first: DeliveryId): map<DeliveryId, EmitterName> {
    if names == [] then map[]
    else
      var last := |names| - 1;
      Targets(names[..last], first)[first + last := names[last]]
  }

  lemma {:induction false} TargetsShape(names: seq<EmitterName>, first: DeliveryId)
    ensures forall id :: id in Targets(names, first) <==> first <= id < first + |names|
    ensures forall i :: 0 <= i < |names| ==> first + i in Targets(names, first) && Targets(names, first)[first + i] == names[i]
  {
    if names != [] { TargetsShape(names[..|names| - 1], first); }
  }

  lemma InsertOneMore(t: Table, receipt: ReceiptId, names: seq<EmitterName>, n: nat, first: DeliveryId, now: Time)
    requires n < |names|
    ensures InsertRows(t, receipt, Targets(names[..n + 1], first), now)
         == InsertRows(t, receipt, Targets(names[..n], first), now)[first + n := NewRow(receipt, names[n], now)]
  {
    assert names[..n + 1][..n] == names[..n];
  }

  // What a fan-out adds to the table, column by column: under fresh identifiers, in the order of the names, rows that
  // were created and are due now and were never attempted. Nothing else changes.
  ghost predicate AddsPending(before: Table, after: Table, receipt: ReceiptId, names: seq<EmitterName>, first: DeliveryId, now: Time) {
    && (forall d :: d in before ==> d in after && after[d] == before[d])
    && (forall d :: first <= d < first + |names| ==> d !in before && d in after)
    && (forall d :: first <= d < first + |names| ==>
          var r := after[d];
          && r.receipt == receipt && r.emitter == names[d - first] && r.state.Pending? && r.attemptCount == 0
          && r.createdAt == now && r.nextAttemptAt == now && !r.immutable
          && r.lastError.None? && r.lastAttemptAt.None? && r.emittedAt.None?)
    && (forall d :: d in after && d !in before ==> first <= d < first + |names|)
  }

  lemma InsertAddsPending(t: Table, receipt: ReceiptId, names: seq<EmitterName>, first: DeliveryId, now: Time)
    requires forall d :: d in t ==> d < first
    ensures AddsPending(t, InsertRows(t, receipt, Targets(names, first), now), receipt, names, first, now)
  {
    TargetsShape(names, first);
  }

  class PostgresStorage {
    var receipts: Receipts
    var deliveries: Table
    var now: Time
    // Stands in for gen_random_uuid(): a source of identifiers that were never used.
    var nextId: DeliveryId

    ghost predicate Valid()
      reads this
    {
      KeysUnique(receipts) && forall id :: id in deliveries ==> id < nextId
    }

    constructor ()
      ensures Valid() && receipts == map[] && deliveries == map[]
    {
      receipts := map[];
      deliveries := map[];
      now := 0.0;
      nextId := 0;
    }

    method FindByKey(key: string) returns (found: Option<ReceiptId>)
      requires Valid()
      ensures found.Some? <==> KeyTaken(receipts, key)
      ensures found.Some? ==> found.value in receipts && receipts[found.value].dedupeKey == key
    {
      var left := receipts.Keys;
      while left != {}
        invariant left <= receipts.Keys
        invariant forall id :: id in receipts.Keys - left ==> receipts[id].dedupeKey != key
        decreases |left|
      {
        var id :| id in left;
        if receipts[id].dedupeKey == key {
          return Some(id);
        }
        left := left - {id};
      }
      found := None;
    }

    // The loop of inserts that both transactions run for a receipt.
    method InsertPending(receipt: ReceiptId, names: seq<EmitterName>)
      requires Valid()
      modifies this`deliveries, this`nextId
      ensures Valid() && nextId == old(nextId) + |names|
      ensures deliveries == InsertRows(old(deliveries), receipt, Targets(names, old(nextId)), now)
      ensures AddsPending(old(deliveries), deliveries, receipt, names, old(nextId), now)
    {
      var i := 0;
      while i < |names|
        invariant 0 <= i <= |names| && nextId == old(nextId) + i && Valid()
        invariant deliveries == InsertRows(old(deliveries), receipt, Targets(names[..i], old(nextId)), now)
      {
        InsertOneMore(old(deliveries), receipt, names, i, old(nextId), now);
        deliveries := deliveries[nextId := NewRow(receipt, names[i], now)];
        nextId := nextId + 1;
        i := i + 1;
      }
      assert names[..i] == names;
      InsertAddsPending(old(deliveries), receipt, names, old(nextId), now);
    }

    /** Inserts the receipt together with one pending row per name, or nothing at all. */
    method StoreWithDeliveries(id: ReceiptId, receipt: Receipt, names: seq<EmitterName>) returns (result: StoreResult)
      requires Valid()
      modifies this`receipts, this`deliveries, this`nextId
      ensures Valid()
      ensures result.Inserted? <==> !KeyTaken(old(receipts), receipt.dedupeKey) && id !in old(receipts)
      ensures result.Inserted? ==>
        && receipts == old(receipts)[id := receipt]
        && deliveries == InsertRows(old(deliveries), id, Targets(names, old(nextId)), now)
        && AddsPending(old(deliveries), deliveries, id, names, old(nextId), now)
      ensures result.Inserted? ==> forall d :: old(nextId) <= d < old(nextId) + |names| ==>
        d in deliveries && deliveries[d] == Row(id, names[d - old(nextId)], Pending, 0, None, None, now, None, false, now)
      ensures !result.Inserted? ==> receipts == old(receipts) && deliveries == old(deliveries) && nextId == old(nextId)
      ensures result.AlreadyStored? <==> KeyTaken(old(receipts), receipt.dedupeKey)
      ensures result.AlreadyStored? ==>
        result.existing in receipts && receipts[result.existing].dedupeKey == receipt.dedupeKey
    {
      var taken := FindByKey(receipt.dedupeKey);
      if taken.Some? {
        return AlreadyStored(taken.value);
      }
      if id in receipts {
        return StoreFailed;
      }
      receipts := receipts[id := receipt];
      InsertPending(id, names);
      result := Inserted;
    }

    /** Adds one pending row per name; the foreign key refuses an unknown receipt. */
    method InsertReplays(receipt: ReceiptId, names: seq<EmitterName>) returns (ids: Option<seq<DeliveryId>>)
      requires Valid()
      modifies this`deliveries, this`nextId
      ensures Valid()
      ensures ids.Some? <==> receipt in receipts || names == []
      ensures ids.Some? ==>
        && deliveries == InsertRows(old(deliveries), receipt, Targets(names, old(nextId)), now)
        && ids.value == seq(|names|, i => old(nextId) + i)
        && AddsPending(old(deliveries), deliveries, receipt, names, old(nextId), now)
      ensures ids.Some? ==> forall d :: old(nextId) <= d < old(nextId) + |names| ==>
        d in deliveries && deliveries[d] == Row(receipt, names[d - old(nextId)], Pending, 0, None, None, now, None, false, now)
      ensures ids.None? ==> deliveries == old(deliveries)
    {
      if receipt !in receipts && names != [] {
        return None;
      }
      var first := nextId;
      InsertPending(receipt, names);
      ids := Some(seq(|names|, i => first + i));
    }

    /** `count_pending`. */
    method CountPending(emitter: EmitterName) returns (count: nat)
      ensures count == |set id | id in deliveries && deliveries[id].emitter == emitter && !deliveries[id].immutable
                                 && (deliveries[id].state.Pending? || deliveries[id].state.Failed?)
                                 && deliveries[id].nextAttemptAt <= now|
    {
      count := |Due(deliveries, emitter, now)|;
      assert Due(deliveries, emitter, now)
          == set id | id in deliveries && deliveries[id].emitter == emitter && !deliveries[id].immutable
                      && (deliveries[id].state.Pending? || deliveries[id].state.Failed?) && deliveries[id].nextAttemptAt <= now;
    }

    /** `count_in_flight`. */
    method CountInFlight(emitter: EmitterName) returns (count: nat)
      ensures count == |set id | id in deliveries && deliveries[id].emitter == emitter && !deliveries[id].immutable
                                 && deliveries[id].state.InFlight?|
    {
      count := |InFlightOf(deliveries, emitter)|;
      assert InFlightOf(deliveries, emitter)
          == set id | id in deliveries && deliveries[id].emitter == emitter && !deliveries[id].immutable
                      && deliveries[id].state.InFlight?;
    }

    /** `count_dlq`: backfilled rows count as dead letters too. */
    method CountDlq(emitter: EmitterName) returns (count: nat)
      ensures count == |set id | id in deliveries && deliveries[id].emitter == emitter && deliveries[id].state.DeadLettered?|
    {
      count := |DeadLettersOf(deliveries, emitter)|;
      assert DeadLettersOf(deliveries, emitter)
          == set id | id in deliveries && deliveries[id].emitter == emitter && deliveries[id].state.DeadLettered?;
    }

    method Earliest(due: set<DeliveryId>) returns (best: DeliveryId)
      requires due != {} && forall id :: id in due ==> id in deliveries
      ensures best in due
      ensures forall id :: id in due ==> deliveries[best].nextAttemptAt <= deliveries[id].nextAttemptAt
    {
      best :| best in due;
      var left := due - {best};
      while left != {}
        invariant best in due && left <= due
        invariant forall id :: id in due - left ==> deliveries[best].nextAttemptAt <= deliveries[id].nextAttemptAt
        decreases |left|
      {
        var id :| id in left;
        if deliveries[id].nextAttemptAt < deliveries[best].nextAttemptAt {
          best := id;
        }
        left := left - {id};
      }
    }

    // The subquery of the claim: ORDER BY next_attempt_at LIMIT batch.
    method PickBatch(emitter: EmitterName, batch: nat) returns (ids: set<DeliveryId>)
      ensures IsBatch(deliveries, emitter, batch, now, ids)
    {
      var left := Due(deliveries, emitter, now);
      ghost var all := left;
      ids := {};
      while |ids| < batch && left != {}
        invariant ids <= all && left == all - ids
        invariant |ids| <= batch && |ids| + |left| == |all|
        invariant forall id, other :: id in ids && other in left ==>
          deliveries[id].nextAttemptAt <= deliveries[other].nextAttemptAt
        decreases |left|
      {
        var id := Earliest(left);
        ids := ids + {id};
        left := left - {id};
      }
    }

    /** Leases up to `batch` of the longest-due rows of an emitter and returns them as they now stand. */
    method ClaimPending(emitter: EmitterName, batch: nat) returns (claimed: map<DeliveryId, Row>)
      requires Valid()
      modifies this`deliveries
      ensures Valid()
      ensures IsBatch(old(deliveries), emitter, batch, now, claimed.Keys)
      ensures deliveries == ClaimRows(old(deliveries), claimed.Keys, now)
      ensures forall id :: id in claimed ==> id in deliveries && claimed[id] == deliveries[id]
      ensures forall id :: id in claimed ==>
        && id in old(deliveries)
        && var r := old(deliveries)[id];
        && r.emitter == emitter && (r.state.Pending? || r.state.Failed?) && !r.immutable && r.nextAttemptAt <= now
        && claimed[id] == r.(state := InFlight, lastAttemptAt := Some(now))
      ensures deliveries.Keys == old(deliveries).Keys
      ensures forall id :: id in deliveries && id !in claimed ==> deliveries[id] == old(deliveries)[id]
      ensures |claimed| <= batch
      ensures forall id :: id in deliveries && id !in claimed ==>
        var r := deliveries[id];
        r.emitter == emitter && (r.state.Pending? || r.state.Failed?) && !r.immutable && r.nextAttemptAt <= now ==>
          |claimed| == batch && forall c :: c in claimed ==> old(deliveries)[c].nextAttemptAt <= r.nextAttemptAt
    {
      var ids := PickBatch(emitter, batch);
      ClaimTakesTheLongestDue(deliveries, emitter, batch, now, ids);
      deliveries := ClaimRows(deliveries, ids, now);
      claimed := map id | id in ids && id in deliveries :: deliveries[id];
      assert claimed.Keys == ids;
    }

    /** Takes every row of the emitter whose lease has run out back into the queue, and counts them. */
    method ReclaimExpired(emitter: EmitterName, lease: real) returns (count: nat)
      requires Valid()
      modifies this`deliveries
      ensures Valid()
      ensures deliveries == ReclaimRows(old(deliveries), emitter, lease, now)
      ensures count == |ExpiredOf(old(deliveries), emitter, lease, now)|
      ensures deliveries.Keys == old(deliveries).Keys
      ensures forall id :: id in deliveries ==>
        var r := old(deliveries)[id];
        if r.emitter == emitter && r.state.InFlight? && !r.immutable && r.lastAttemptAt.Some? && r.lastAttemptAt.value + lease < now
        then
          var error := (if r.lastError.Some? then r.lastError.value + " " else "") + "[reclaimed: lease expired]";
          deliveries[id] == r.(state := Failed, nextAttemptAt := now, lastError := Some(error))
        else deliveries[id] == r
      ensures count == |set id | id in old(deliveries) && old(deliveries)[id].emitter == emitter
                                 && old(deliveries)[id].state.InFlight? && deliveries[id].state.Failed?|
    {
      var table := deliveries;
      var left := ExpiredOf(table, emitter, lease, now);
      ghost var all := left;
      count := 0;
      while left != {}
        invariant left <= all == ExpiredOf(table, emitter, lease, now)
        invariant count + |left| == |all|
        invariant table == old(deliveries) && deliveries.Keys == table.Keys
        invariant forall id :: id in table ==>
          deliveries[id] == if id in all - left then ReclaimRow(table[id], now) else table[id]
        decreases |left|
      {
        var id :| id in left;
        deliveries := deliveries[id := ReclaimRow(table[id], now)];
        left := left - {id};
        count := count + 1;
      }
      assert forall id :: id in table ==> deliveries[id] == ReclaimRows(table, emitter, lease, now)[id];
      assert all == set id | id in table && table[id].emitter == emitter && table[id].state.InFlight? && deliveries[id].state.Failed?;
    }

    method MarkEmitted(id: DeliveryId) returns (matched: bool)
      requires Valid()
      modifies this`deliveries
      ensures Valid()
      ensures matched <==> id in old(deliveries) && old(deliveries)[id].state.InFlight?
      ensures deliveries == if id in old(deliveries) then old(deliveries)[id := EmittedRow(old(deliveries)[id], now)] else old(deliveries)
      ensures deliveries == if matched
        then old(deliveries)[id := old(deliveries)[id].(state := DeliveryState.Emitted, emittedAt := Some(now), lastError := None)]
        else old(deliveries)
    {
      matched := id in deliveries && deliveries[id].state.InFlight?;
      if matched {
        deliveries := deliveries[id := deliveries[id].(state := DeliveryState.Emitted, emittedAt := Some(now), lastError := None)];
      } else if id in deliveries {
        assert deliveries == deliveries[id := deliveries[id]];
      }
    }

    method MarkFailed(id: DeliveryId, attempts: int, next: Time, error: string) returns (matched: bool)
      requires Valid()
      modifies this`deliveries
      ensures Valid()
      ensures matched <==> id in old(deliveries) && old(deliveries)[id].state.InFlight?
      ensures deliveries == if id in old(deliveries)
        then old(deliveries)[id := FailedRow(old(deliveries)[id], attempts, next, error)] else old(deliveries)
      ensures deliveries == if matched
        then old(deliveries)[id := old(deliveries)[id].(state := Failed, attemptCount := attempts, nextAttemptAt := next,
                                                        lastError := Some(error))]
        else old(deliveries)
    {
      matched := id in deliveries && deliveries[id].state.InFlight?;
      if matched {
        deliveries := deliveries[id := deliveries[id].(state := Failed, attemptCount := attempts, nextAttemptAt := next,
                                                       lastError := Some(error))];
      } else if id in deliveries {
        assert deliveries == deliveries[id := deliveries[id]];
      }
    }

    method MarkDeadLettered(id: DeliveryId, error: string) returns (matched: bool)
      requires Valid()
      modifies this`deliveries
      ensures Valid()
      ensures matched <==> id in old(deliveries) && old(deliveries)[id].state.InFlight?
      ensures deliveries == if id in old(deliveries)
        then old(deliveries)[id := DeadLetteredRow(old(deliveries)[id], error)] else old(deliveries)
      ensures deliveries == if matched
        then old(deliveries)[id := old(deliveries)[id].(state := DeliveryState.DeadLettered, lastError := Some(error))]
        else old(deliveries)
    {
      matched := id in deliveries && deliveries[id].state.InFlight?;
      if matched {
        deliveries := deliveries[id := deliveries[id].(state := DeliveryState.DeadLettered, lastError := Some(error))];
      } else if id in deliveries {
        assert deliveries == deliveries[id := deliveries[id]];
      }
    }
  }

  lemma ClaimTakesTheLongestDue(t: Table, e: EmitterName, batch: nat, now: Time, ids: set<DeliveryId>)
    requires IsBatch(t, e, batch, now, ids)
    ensures forall id :: id in Due(t, e, now) - ids ==> |ids| == batch && forall c :: c in ids ==> t[c].nextAttemptAt <= t[id].nextAttemptAt
  {
    forall id | id in Due(t, e, now) - ids ensures |ids| == batch {
      var due := Due(t, e, now);
      assert |due| == |ids| + |due - ids|;
      assert due - ids != {};
    }
  }

  lemma ClaimMoves(t: Table, e: EmitterName, now: Time, ids: set<DeliveryId>)
    requires ids <= Due(t, e, now)
    ensures var t' := ClaimRows(t, ids, now);
            && Due(t', e, now) == Due(t, e, now) - ids
            && InFlightOf(t', e) == InFlightOf(t, e) + ids
            && DeadLettersOf(t', e) == DeadLettersOf(t, e)
    ensures InFlightOf(t, e) !! ids
  {
  }

  /** A claim takes exactly as many rows as the pending gauge shows, up to the batch size, and the gauges move accordingly. */
  lemma ClaimDrainsGauge(t: Table, e: EmitterName, batch: nat, now: Time, ids: set<DeliveryId>)
    requires IsBatch(t, e, batch, now, ids)
    ensures var t', taken := ClaimRows(t, ids, now), AtMost(|Due(t, e, now)|, batch);
            && |Due(t', e, now)| == |Due(t, e, now)| - taken
            && |InFlightOf(t', e)| == |InFlightOf(t, e)| + taken
            && |DeadLettersOf(t', e)| == |DeadLettersOf(t, e)|
  {
    ClaimMoves(t, e, now, ids);
    assert |Due(t, e, now)| == |ids| + |Due(t, e, now) - ids|;
  }

  /** The migration's rows are outside the lease protocol: never claimable, never in flight. Their state is that of the
      receipt as far as a delivery can show it, with what was stored but never emitted counting as failed. */
  lemma BackfilledRowsIdle(receipt: ReceiptId, state: ProcessingState, emitCount: int, lastError: Option<string>,
                           processedAt: Option<Time>, receivedAt: Time, now: Time, lease: real)
    ensures var r := BackfilledRow(receipt, state, emitCount, lastError, processedAt, receivedAt);
            && r.immutable && !Claimable(r, now) && !Expired(r, lease, now)
            && !r.state.InFlight? && !r.state.Pending?
            && (r.state.DeadLettered? <==> state.DeadLettered?)
            && (r.state.Failed? <==> state.EmitFailed? || state.Stored?)
            && r.receipt == receipt && r.emitter == "legacy" && r.createdAt == receivedAt && r.nextAttemptAt == receivedAt
            && r.attemptCount == emitCount && r.lastError == lastError && r.lastAttemptAt == processedAt
            && r.emittedAt == if state.Emitted? || state.Processed? || state.Replayed? then processedAt else None
  {
  }
}
