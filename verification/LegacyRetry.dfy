/** The legacy retry machine on receipts: the Rust functions, the SQL statements they mirror, and the worker. */
module LegacyRetry {
  import opened Wrappers
  import opened State
  import opened Storage
  import Ingest

  const I32_MAX := 2147483647
  const RETRY_LIMIT := 100

  datatype Retry = Retry(emitCount: int, state: ProcessingState)

  predicate IsI32(n: int) { -I32_MAX - 1 <= n <= I32_MAX }

  // `retry_next_state`, with its saturating addition.
  function RetryNextState(emitCount: int, maxAttempts: int): Retry {
    var count := if emitCount >= I32_MAX then I32_MAX else emitCount + 1;
    Retry(count, if count >= maxAttempts then ProcessingState.DeadLettered else EmitFailed)
  }

  // The CASE expression of `retry_failed`; an INTEGER overflow fails the statement.
  function SqlRetryFailed(emitCount: int, maxAttempts: int): Option<Retry> {
    if emitCount + 1 > I32_MAX then None
    else Some(Retry(emitCount + 1, if emitCount + 1 >= maxAttempts then ProcessingState.DeadLettered else EmitFailed))
  }

  const RESET := Retry(0, EmitFailed)

  predicate IsFindable(r: Retry, maxAttempts: int) {
    r.state == EmitFailed && r.emitCount < maxAttempts
  }

  /** The statement and its mirror agree except where the addition would overflow, which no findable receipt reaches. */
  lemma SqlAgrees(r: Retry, maxAttempts: int)
    requires IsI32(r.emitCount) && IsI32(maxAttempts)
    ensures SqlRetryFailed(r.emitCount, maxAttempts) == Some(RetryNextState(r.emitCount, maxAttempts)) <==> r.emitCount < I32_MAX
    ensures IsFindable(r, maxAttempts) ==>
      SqlRetryFailed(r.emitCount, maxAttempts) == Some(RetryNextState(r.emitCount, maxAttempts))
    ensures var next := RetryNextState(r.emitCount, maxAttempts);
            && next.emitCount == (if r.emitCount < 2147483647 then r.emitCount + 1 else 2147483647)
            && (next.state.DeadLettered? <==> next.emitCount >= maxAttempts) && (next.state.EmitFailed? <==> next.emitCount < maxAttempts)
  {
  }

  // n visits of the worker while the emitter keeps failing; a receipt it cannot find is left alone.
  function Visited(n: nat, maxAttempts: int): Retry {
    if n == 0 then RESET
    else
      var r := Visited(n - 1, maxAttempts);
      if IsFindable(r, maxAttempts) then RetryNextState(r.emitCount, maxAttempts) else r
  }

  /** From a reset, an always-failing emitter leaves the receipt findable after each of the first max_attempts - 1
      retries and dead-lettered for good after exactly max_attempts; with max_attempts below one it is never found. */
  lemma {:induction false} LegacyRetryIsExact(n: nat, maxAttempts: int)
    requires IsI32(maxAttempts)
    ensures maxAttempts >= 1 && n < maxAttempts ==> Visited(n, maxAttempts) == Retry(n, EmitFailed)
    ensures maxAttempts >= 1 && n >= maxAttempts ==> Visited(n, maxAttempts) == Retry(maxAttempts, ProcessingState.DeadLettered)
    ensures maxAttempts < 1 ==> Visited(n, maxAttempts) == RESET
    ensures IsFindable(Visited(n, maxAttempts), maxAttempts) <==> n < maxAttempts
  {
    if n > 0 { LegacyRetryIsExact(n - 1, maxAttempts); }
  }

  function RetryOf(r: Receipt): Retry { Retry(r.emitCount, r.state) }

  // A receipt after one visit: emitted, or one failed attempt further.
  function AfterVisit(r: Receipt, ok: bool, maxAttempts: int): Receipt {
    if ok then r.(state := ProcessingState.Emitted)
    else
      var next := RetryNextState(r.emitCount, maxAttempts);
      r.(emitCount := next.emitCount, state := next.state)
  }

  function Findable(receipts: Receipts, maxAttempts: int): set<ReceiptId> {
    set id | id in receipts && IsFindable(RetryOf(receipts[id]), maxAttempts)
  }

  function AfterPoll(receipts: Receipts, visited: set<ReceiptId>, answers: ReceiptId -> bool, maxAttempts: int): Receipts {
    map id | id in receipts :: if id in visited then AfterVisit(receipts[id], answers(id), maxAttempts) else receipts[id]
  }

  lemma PollOneMore(receipts: Receipts, visited: set<ReceiptId>, id: ReceiptId, answers: ReceiptId -> bool, maxAttempts: int)
    requires id in Findable(receipts, maxAttempts) && id !in visited && IsI32(maxAttempts)
    ensures id in AfterPoll(receipts, visited, answers, maxAttempts)
    ensures AfterPoll(receipts, visited, answers, maxAttempts)[id] == receipts[id]
    ensures receipts[id].emitCount < I32_MAX
    ensures AfterPoll(receipts, visited + {id}, answers, maxAttempts)
         == AfterPoll(receipts, visited, answers, maxAttempts)[id := AfterVisit(receipts[id], answers(id), maxAttempts)]
  {
  }

  /** The legacy worker leaves the pipeline's receipts alone: whatever was ingested, and whatever max_attempts is, none of
      them is findable. */
  lemma IngestedNotFindable<D>(site: Ingest.Site, strategy: Ingest.Strategy<D>, p: Ingest.Pipeline<D>, acts: seq<Ingest.Action>,
                               maxAttempts: int)
    requires Ingest.Empty(p.base) && Ingest.Runs(site, strategy, p, acts)
    ensures Findable(Ingest.After(site, strategy, p, acts).base.receipts, maxAttempts) == {}
  {
    Ingest.RunsAreLinear(site, strategy, p, acts);
  }

  class RetryWorker {
    const storage: PostgresStorage
    const maxAttempts: int

    constructor (storage: PostgresStorage, maxAttempts: int)
      ensures this.storage == storage && this.maxAttempts == maxAttempts
    {
      this.storage := storage;
      this.maxAttempts := maxAttempts;
    }

    // `retry_failed`; the flag is false when the statement failed. An unknown id only draws a warning.
    method RetryFailed(id: ReceiptId) returns (ok: bool)
      requires storage.Valid()
      modifies storage`receipts
      ensures storage.Valid()
      ensures ok <==> (id in old(storage.receipts) ==> old(storage.receipts)[id].emitCount < 2147483647)
      ensures storage.receipts == if id in old(storage.receipts) && ok
        then old(storage.receipts)[id := AfterVisit(old(storage.receipts)[id], false, maxAttempts)] else old(storage.receipts)
    {
      if id !in storage.receipts {
        return true;
      }
      var r := storage.receipts[id];
      var next := SqlRetryFailed(r.emitCount, maxAttempts);
      ok := next.Some?;
      if ok {
        storage.receipts := storage.receipts[id := r.(emitCount := next.value.emitCount, state := next.value.state)];
      }
    }

    /** `reset_for_retry`: an unknown id is an error; any other receipt can be found again, unless no attempt is allowed. */
    method ResetForRetry(id: ReceiptId) returns (ok: bool)
      requires storage.Valid()
      modifies storage`receipts
      ensures storage.Valid()
      ensures ok <==> id in old(storage.receipts)
      ensures storage.receipts == if ok
        then old(storage.receipts)[id := old(storage.receipts)[id].(emitCount := 0, state := EmitFailed)] else old(storage.receipts)
      ensures ok ==> RetryOf(storage.receipts[id]) == RESET && (id in Findable(storage.receipts, maxAttempts) <==> maxAttempts >= 1)
    {
      ok := id in storage.receipts;
      if ok {
        storage.receipts := storage.receipts[id := storage.receipts[id].(emitCount := RESET.emitCount, state := RESET.state)];
      }
    }

    // One receipt of a poll: a success is recorded, a failure counted, unless the count would overflow.
    method RetryOne(id: ReceiptId, ok: bool)
      requires storage.Valid() && id in storage.receipts
      modifies storage`receipts
      ensures storage.Valid()
      ensures storage.receipts == if ok || old(storage.receipts)[id].emitCount < I32_MAX
        then old(storage.receipts)[id := AfterVisit(old(storage.receipts)[id], ok, maxAttempts)] else old(storage.receipts)
    {
      if ok {
        var r := storage.receipts[id];
        storage.receipts := storage.receipts[id := r.(state := ProcessingState.Emitted)];
      } else {
        var applied := RetryFailed(id);
      }
    }

    // `query_for_retry`: at most 100 findable receipts; the order among them is not modelled.
    method QueryForRetry() returns (batch: set<ReceiptId>)
      ensures batch <= Findable(storage.receipts, maxAttempts)
      ensures |batch| == RETRY_LIMIT || batch == Findable(storage.receipts, maxAttempts)
      ensures |batch| <= 100
      ensures forall id :: id in batch ==>
        id in storage.receipts && storage.receipts[id].state == EmitFailed && storage.receipts[id].emitCount < maxAttempts
      ensures |batch| == 100 || forall id :: id in storage.receipts && id !in batch ==>
        storage.receipts[id].state != EmitFailed || storage.receipts[id].emitCount >= maxAttempts
    {
      var left := Findable(storage.receipts, maxAttempts);
      batch := {};
      while left != {} && |batch| < RETRY_LIMIT
        invariant batch + left == Findable(storage.receipts, maxAttempts) && batch !! left && |batch| <= RETRY_LIMIT
        decreases |left|
      {
        var id :| id in left;
        batch := batch + {id};
        left := left - {id};
      }
    }

    // The loop over the receipts that were found.
    method VisitAll(found: set<ReceiptId>, answers: ReceiptId -> bool)
      requires storage.Valid() && IsI32(maxAttempts) && found <= Findable(storage.receipts, maxAttempts)
      modifies storage`receipts
      ensures storage.Valid()
      ensures storage.receipts == AfterPoll(old(storage.receipts), found, answers, maxAttempts)
    {
      ghost var before := storage.receipts;
      var left := found;
      assert storage.receipts == AfterPoll(before, {}, answers, maxAttempts);
      assert found - left == {};
      while left != {}
        invariant left <= found && storage.Valid()
        invariant storage.receipts == AfterPoll(before, found - left, answers, maxAttempts)
        decreases |left|
      {
        var id :| id in left;
        PollOneMore(before, found - left, id, answers, maxAttempts);
        assert found - (left - {id}) == found - left + {id};
        RetryOne(id, answers(id));
        left := left - {id};
      }
      assert found - left == found;
    }

    /** One poll: visits up to 100 findable receipts once each, and leaves the others as they are. A success is final and
        leaves the count alone; a failure is counted and is final when it was the last one allowed. */
    method Poll(answers: ReceiptId -> bool) returns (visited: set<ReceiptId>)
      requires storage.Valid() && IsI32(maxAttempts)
      modifies storage`receipts
      ensures storage.Valid()
      ensures visited <= Findable(old(storage.receipts), maxAttempts)
      ensures |visited| <= 100 && (|visited| == 100 || visited == Findable(old(storage.receipts), maxAttempts))
      ensures storage.receipts.Keys == old(storage.receipts).Keys
      ensures forall id :: id in storage.receipts && id !in visited ==> storage.receipts[id] == old(storage.receipts)[id]
      ensures forall id :: id in visited ==>
        && id in old(storage.receipts)
        && var r := old(storage.receipts)[id];
        && r.state == EmitFailed && r.emitCount < maxAttempts
        && storage.receipts[id]
           == if answers(id) then r.(state := ProcessingState.Emitted)
              else r.(emitCount := r.emitCount + 1, state := if r.emitCount + 1 >= maxAttempts then ProcessingState.DeadLettered else EmitFailed)
      ensures forall id :: id in visited && answers(id) ==> id !in Findable(storage.receipts, maxAttempts)
    {
      visited := QueryForRetry();
      VisitAll(visited, answers);
    }
  }
}
