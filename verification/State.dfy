/** Identifiers, lifecycle states and records shared by every part of the model. */
module State {
  import opened Wrappers

  type DeliveryId = nat
  type ReceiptId = nat
  type EmitterName = string

  // Seconds on the one clock that the database and the workers are assumed to share.
  type Time = real

  datatype DeliveryState = Pending | InFlight | Emitted | Failed | DeadLettered

  datatype ProcessingState =
    | Received
    | Verified
    | VerificationFailed
    | Duplicate
    | Stored
    | Emitted
    | Processed
    | EmitFailed
    | DeadLettered
    | Replayed

  // One row of webhook_deliveries.
  datatype Row = Row(
    receipt: ReceiptId,
    emitter: EmitterName,
    state: DeliveryState,
    attemptCount: int,
    lastError: Option<string>,
    lastAttemptAt: Option<Time>,
    nextAttemptAt: Time,
    emittedAt: Option<Time>,
    immutable: bool,
    createdAt: Time)

  type Table = map<DeliveryId, Row>

  type Byte = b: int | 0 <= b < 256

  // One row of webhook_receipts, without the columns that are only carried along.
  datatype Receipt = Receipt(
    provider: string,
    dedupeKey: string,
    payloadHash: string,
    rawBody: seq<Byte>,
    state: ProcessingState,
    emitCount: int)

  type Receipts = map<ReceiptId, Receipt>

  datatype RetryPolicy = RetryPolicy(
    maxAttempts: int,
    initialBackoff: real,
    maxBackoff: real,
    multiplier: real,
    jitter: real)

  datatype EmitterSettings = EmitterSettings(policy: RetryPolicy, lease: real, concurrency: nat)

  // What configuration validation accepts for one [[emitters]] entry.
  predicate Validated(s: EmitterSettings) {
    && s.policy.maxAttempts >= 1
    && s.policy.initialBackoff >= 0.0
    && s.policy.maxBackoff >= 0.0
    && 0.0 <= s.policy.jitter <= 1.0
    && s.lease > 0.0
    && s.concurrency >= 1
  }

  type EmitterConfig = s: EmitterSettings | Validated(s)
    witness EmitterSettings(RetryPolicy(5, 30.0, 3600.0, 2.0, 0.2), 30.0, 1)

  // The emitter configuration, held constant during a run.
  type Configuration = EmitterName -> EmitterConfig
}
