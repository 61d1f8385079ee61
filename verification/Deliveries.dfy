/** What each SQL statement on `webhook_deliveries` does to the table, as functions on rows. */
module Deliveries {
  import opened Wrappers
  import opened State

  const RECLAIM_NOTE := "[reclaimed: lease expired]"

  function NewRow(receipt: ReceiptId, emitter: EmitterName, now: Time): Row {
    Row(receipt, emitter, Pending, 0, None, None, now, None, false, now)
  }

  // The row that the migration writes for a receipt that predates fan-out.
  function BackfilledRow(receipt: ReceiptId, state: ProcessingState, emitCount: int, lastError: Option<string>,
                         processedAt: Option<Time>, receivedAt: Time): Row {
    var migrated: DeliveryState := match state
      case EmitFailed => Failed
      case Stored => Failed
      case DeadLettered => DeliveryState.DeadLettered
      case _ => DeliveryState.Emitted;
    Row(receipt, "legacy", migrated, emitCount, lastError, processedAt, receivedAt,
        if state.Emitted? || state.Processed? || state.Replayed? then processedAt else None, true, receivedAt)
  }

  predicate Claimable(r: Row, now: Time) {
    (r.state == Pending || r.state == Failed) && r.nextAttemptAt <= now && !r.immutable
  }

  // The rows that `claim_pending` selects from and that `count_pending` counts.
  function Due(t: Table, e: EmitterName, now: Time): set<DeliveryId> {
    set id | id in t && t[id].emitter == e && Claimable(t[id], now)
  }

  function InFlightOf(t: Table, e: EmitterName): set<DeliveryId> {
    set id | id in t && t[id].emitter == e && t[id].state == InFlight && !t[id].immutable
  }

  function DeadLettersOf(t: Table, e: EmitterName): set<DeliveryId> {
    set id | id in t && t[id].emitter == e && t[id].state.DeadLettered?
  }

  function AtMost(n: nat, limit: nat): nat { if n <= limit then n else limit }

  // ORDER BY next_attempt_at LIMIT batch: as many due rows as fit, none later than one left behind.
  // Rows with equal next_attempt_at may be picked in any order.
  ghost predicate IsBatch(t: Table, e: EmitterName, batch: nat, now: Time, ids: set<DeliveryId>) {
    var due := Due(t, e, now);
    && ids <= due
    && |ids| == AtMost(|due|, batch)
    && forall id, other :: id in ids && other in due - ids ==> t[id].nextAttemptAt <= t[other].nextAttemptAt
  }

  function ClaimRow(r: Row, now: Time): Row {
    r.(state := InFlight, lastAttemptAt := Some(now))
  }

  function ClaimRows(t: Table, ids: set<DeliveryId>, now: Time): Table {
    map id | id in t :: if id in ids then ClaimRow(t[id], now) else t[id]
  }

  predicate Expired(r: Row, lease: real, now: Time) {
    r.state == InFlight && r.lastAttemptAt.Some? && r.lastAttemptAt.value < now - lease && !r.immutable
  }

  function ReclaimRow(r: Row, now: Time): Row {
    var note := (if r.lastError.Some? then r.lastError.value + " " else "") + RECLAIM_NOTE;
    r.(state := Failed, lastError := Some(note), nextAttemptAt := now)
  }

  function ExpiredOf(t: Table, e: EmitterName, lease: real, now: Time): set<DeliveryId> {
    set id | id in t && t[id].emitter == e && Expired(t[id], lease, now)
  }

  function ReclaimRows(t: Table, e: EmitterName, lease: real, now: Time): Table {
    map id | id in t :: if t[id].emitter == e && Expired(t[id], lease, now) then ReclaimRow(t[id], now) else t[id]
  }

  // The marks guard on the state alone: they match any in-flight row, whoever claimed it.
  function EmittedRow(r: Row, now: Time): Row {
    if r.state == InFlight then r.(state := DeliveryState.Emitted, emittedAt := Some(now), lastError := None) else r
  }

  function FailedRow(r: Row, attempts: int, next: Time, error: string): Row {
    if r.state == InFlight
    then r.(state := Failed, attemptCount := attempts, nextAttemptAt := next, lastError := Some(error))
    else r
  }

  function DeadLetteredRow(r: Row, error: string): Row {
    if r.state == InFlight then r.(state := DeliveryState.DeadLettered, lastError := Some(error)) else r
  }

  // One new pending row per named emitter; `ids` are the fresh identifiers.
  function InsertRows(t: Table, receipt: ReceiptId, targets: map<DeliveryId, EmitterName>, now: Time): Table {
    t + map id | id in targets :: NewRow(receipt, targets[id], now)
  }
}
