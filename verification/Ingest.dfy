/** The ingest pipeline as a protocol: any number of requests, each between two of its stages, interleaved
    over one store and one advisory dedupe strategy. */
module Ingest {
  import opened Wrappers
  import opened State
  import opened Deliveries
  import opened Storage
  import RecentDedupe

  predicate IsHex(c: char) { '0' <= c <= '9' || 'a' <= c <= 'f' }

  // The form of a SHA-256 digest in lowercase hex.
  type HexDigest = s: string | |s| == 64 && forall i :: 0 <= i < |s| ==> IsHex(s[i])
    witness seq(64, i => '0')

  // The emitters of the pipeline, and the payload hash as an arbitrary total function.
  datatype Site = Site(names: seq<EmitterName>, digest: seq<Byte> -> HexDigest)

  function DedupeKey(provider: string, hash: string): string { provider + ":" + hash }

  // What verification of a request yields; a provider without a verifier is skipped.
  datatype Verdict = Verified | Skipped | Failed(reason: string)

  datatype Request = Request(id: ReceiptId, provider: string, body: seq<Byte>, verdict: Verdict)

  function HashOf(site: Site, req: Request): HexDigest { site.digest(req.body) }
  function KeyOf(site: Site, req: Request): string { DedupeKey(req.provider, HashOf(site, req)) }

  datatype IngestResult =
    | Accepted(id: ReceiptId)
    | DuplicateOf(existing: ReceiptId)
    | Rejected(reason: string)
    | DedupeFailed
    | StoreErred

  // Where a request is: Conflicted is between the insert that did nothing and the select of the existing
  // receipt, Committed between the commit and the cache record.
  datatype Stage = Arrived | Admitted | Checked | Conflicted | Committed | Done(result: IngestResult)

  datatype Ingestion = Ingestion(req: Request, stage: Stage)

  // An insert that reached the unique index, in commit order.
  datatype Attempt = Attempt(key: string, id: ReceiptId)

  datatype Base = Base(
    receipts: Receipts,
    deliveries: Table,
    now: Time,
    ingests: map<nat, Ingestion>,
    log: seq<Attempt>)

  datatype Pipeline<D> = Pipeline(base: Base, dedupe: D)

  // A dedupe strategy: a check that may fail, and a record. The check may look at the stored receipts.
  datatype Strategy<!D> = Strategy(
    check: (D, Receipts, string, string) -> Option<RecentDedupe.Decision>,
    record: (D, string, string) -> D)

  datatype Action =
    | Arrives(r: nat, req: Request)
    | Verifies(r: nat)
    | Checks(r: nat)
    | Commits(r: nat, first: DeliveryId, acknowledged: bool)
    | StoreErrs(r: nat)
    | Fetches(r: nat)
    | FetchErrs(r: nat)
    | Records(r: nat)
    | Others(deliveries: Table, now: Time)

  predicate IsAt(b: Base, r: nat, stage: Stage) {
    r in b.ingests && b.ingests[r].stage == stage
  }

  // What workers and replays may do meanwhile: change delivery rows, and add rows for stored receipts.
  predicate OthersKeep(b: Base, deliveries: Table) {
    && b.deliveries.Keys <= deliveries.Keys
    && (forall id :: id in b.deliveries ==> deliveries[id].receipt == b.deliveries[id].receipt)
    && (forall id :: id in b.deliveries ==> deliveries[id].emitter == b.deliveries[id].emitter)
    && (forall id :: id in deliveries && id !in b.deliveries ==> deliveries[id].receipt in b.receipts)
  }

  predicate Enabled(b: Base, a: Action) {
    match a
    case Arrives(r, _) => r !in b.ingests
    case Verifies(r) => IsAt(b, r, Arrived)
    case Checks(r) => IsAt(b, r, Admitted)
    case Commits(r, first, _) => IsAt(b, r, Checked) && forall id :: id in b.deliveries ==> id < first
    case StoreErrs(r) => IsAt(b, r, Checked)
    case Fetches(r) => IsAt(b, r, Conflicted)
    case FetchErrs(r) => IsAt(b, r, Conflicted)
    case Records(r) => IsAt(b, r, Committed)
    case Others(deliveries, now) => OthersKeep(b, deliveries) && now >= b.now
  }

  function Moved(b: Base, r: nat, stage: Stage): Base
    requires r in b.ingests
  {
    b.(ingests := b.ingests[r := b.ingests[r].(stage := stage)])
  }

  ghost function HolderOf(receipts: Receipts, key: string): ReceiptId
    requires KeyTaken(receipts, key)
  {
    var id :| id in receipts && receipts[id].dedupeKey == key;
    id
  }

  function ReceiptOf(site: Site, req: Request): Receipt {
    Receipt(req.provider, KeyOf(site, req), HashOf(site, req), req.body, Stored, 0)
  }

  // INSERT ... ON CONFLICT (dedupe_key) DO NOTHING, then the delivery rows, in one transaction.
  // A clash of receipt identifiers is an error like any other; an unacknowledged commit is one
  // whose outcome never reached the pipeline.
  function Commit(site: Site, b: Base, r: nat, first: DeliveryId, acknowledged: bool): Base
    requires r in b.ingests
  {
    var req := b.ingests[r].req;
    var key := KeyOf(site, req);
    if KeyTaken(b.receipts, key) then
      Moved(b.(log := b.log + [Attempt(key, req.id)]), r, Conflicted)
    else if req.id in b.receipts then
      Moved(b, r, Done(StoreErred))
    else
      Moved(b.(receipts := b.receipts[req.id := ReceiptOf(site, req)],
               deliveries := InsertRows(b.deliveries, req.id, Targets(site.names, first), b.now),
               log := b.log + [Attempt(key, req.id)]),
            r, if acknowledged then Committed else Done(StoreErred))
  }

  ghost function Next<D>(site: Site, strategy: Strategy<D>, p: Pipeline<D>, a: Action): Pipeline<D>
    requires Enabled(p.base, a)
  {
    var b := p.base;
    match a
    case Arrives(r, req) => p.(base := b.(ingests := b.ingests[r := Ingestion(req, Arrived)]))
    case Verifies(r) =>
      var verdict := b.ingests[r].req.verdict;
      p.(base := Moved(b, r, if verdict.Failed? then Done(Rejected(verdict.reason)) else Admitted))
    case Checks(r) =>
      var req := b.ingests[r].req;
      var decision := strategy.check(p.dedupe, b.receipts, KeyOf(site, req), HashOf(site, req));
      p.(base := Moved(b, r, if decision.None? then Done(DedupeFailed) else Checked))
    case Commits(r, first, acknowledged) => p.(base := Commit(site, b, r, first, acknowledged))
    case StoreErrs(r) => p.(base := Moved(b, r, Done(StoreErred)))
    case Fetches(r) =>
      var key := KeyOf(site, b.ingests[r].req);
      p.(base := Moved(b, r, if KeyTaken(b.receipts, key) then Done(DuplicateOf(HolderOf(b.receipts, key))) else Done(StoreErred)))
    case FetchErrs(r) => p.(base := Moved(b, r, Done(StoreErred)))
    case Records(r) =>
      var req := b.ingests[r].req;
      Pipeline(Moved(b, r, Done(Accepted(req.id))), strategy.record(p.dedupe, KeyOf(site, req), HashOf(site, req)))
    case Others(deliveries, now) => p.(base := b.(deliveries := deliveries, now := now))
  }

  ghost predicate Runs<D>(site: Site, strategy: Strategy<D>, p: Pipeline<D>, acts: seq<Action>)
    decreases |acts|
  {
    acts == [] || (Enabled(p.base, acts[0]) && Runs(site, strategy, Next(site, strategy, p, acts[0]), acts[1..]))
  }

  ghost function After<D>(site: Site, strategy: Strategy<D>, p: Pipeline<D>, acts: seq<Action>): Pipeline<D>
    requires Runs(site, strategy, p, acts)
    decreases |acts|
  {
    if acts == [] then p else After(site, strategy, Next(site, strategy, p, acts[0]), acts[1..])
  }

  predicate Empty(b: Base) {
    b.receipts == map[] && b.deliveries == map[] && b.ingests == map[] && b.log == []
  }

  // The specification of the store: whoever inserts a key first owns it.
  function FirstWriter(log: seq<Attempt>, key: string): Option<ReceiptId> {
    if log == [] then None
    else
      var earlier, last := FirstWriter(log[..|log| - 1], key), log[|log| - 1];
      if earlier.Some? then earlier else if last.key == key then Some(last.id) else None
  }

  lemma FirstWriterAppend(log: seq<Attempt>, a: Attempt, key: string)
    ensures FirstWriter(log + [a], key)
         == if FirstWriter(log, key).Some? then FirstWriter(log, key) else if a.key == key then Some(a.id) else None
  {
    assert (log + [a])[..|log|] == log;
  }

  // The stored receipts are exactly the first writers.
  ghost predicate StoreIsFirstWriters(b: Base) {
    && (forall id :: id in b.receipts ==> FirstWriter(b.log, b.receipts[id].dedupeKey) == Some(id))
    && (forall key :: FirstWriter(b.log, key).Some? ==>
          FirstWriter(b.log, key).value in b.receipts && b.receipts[FirstWriter(b.log, key).value].dedupeKey == key)
  }

  predicate ReceiptsWellKeyed(site: Site, b: Base) {
    forall id :: id in b.receipts ==>
      var r := b.receipts[id];
      && r.payloadHash == site.digest(r.rawBody) && r.dedupeKey == DedupeKey(r.provider, r.payloadHash)
      && r.state.Stored? && r.emitCount == 0
  }

  predicate Won(i: Ingestion) {
    i.stage == Committed || i.stage == Done(Accepted(i.req.id))
  }

  // The receipt of a request that won keeps what was sent.
  predicate KeptAsSent(site: Site, b: Base, i: Ingestion) {
    Won(i) ==> i.req.id in b.receipts && b.receipts[i.req.id].provider == i.req.provider && b.receipts[i.req.id].rawBody == i.req.body
  }

  // What a request has been told agrees with the log.
  ghost predicate Told(site: Site, b: Base, i: Ingestion) {
    var writer := FirstWriter(b.log, KeyOf(site, i.req));
    && (i.stage.Committed? ==> writer == Some(i.req.id))
    && (i.stage.Conflicted? ==> writer.Some?)
    && (i.stage.Done? && i.stage.result.Accepted? ==> Won(i) && writer == Some(i.req.id))
    && (i.stage.Done? && i.stage.result.DuplicateOf? ==> writer == Some(i.stage.result.existing))
    && (i.req.verdict.Failed? ==> i.stage == Arrived || i.stage == Done(Rejected(i.req.verdict.reason)))
    && KeptAsSent(site, b, i)
  }

  ghost predicate AllTold(site: Site, b: Base) {
    && (forall r :: r in b.ingests ==> Told(site, b, b.ingests[r]))
    && (forall r, r' :: r in b.ingests && r' in b.ingests && r != r' && Won(b.ingests[r]) && Won(b.ingests[r']) ==>
          b.ingests[r].req.id != b.ingests[r'].req.id)
  }

  // Receipts and their delivery rows exist together: a row for every configured emitter, no row without a receipt.
  ghost predicate FannedOut(site: Site, b: Base) {
    && (forall id, i :: id in b.receipts && 0 <= i < |site.names| ==> HasRow(b.deliveries, id, site.names[i]))
    && (forall d :: d in b.deliveries ==> b.deliveries[d].receipt in b.receipts)
  }

  predicate HasRow(t: Table, receipt: ReceiptId, e: EmitterName) {
    exists d :: d in t && t[d].receipt == receipt && t[d].emitter == e
  }

  ghost predicate Linear(site: Site, b: Base) {
    StoreIsFirstWriters(b) && ReceiptsWellKeyed(site, b) && AllTold(site, b) && FannedOut(site, b)
  }

  // Where the log can only have grown, every answer given stays right.
  ghost predicate Extends(log: seq<Attempt>, log': seq<Attempt>) {
    forall key :: FirstWriter(log, key).Some? ==> FirstWriter(log', key) == FirstWriter(log, key)
  }

  lemma LogGrows(log: seq<Attempt>, a: Attempt)
    ensures Extends(log, log + [a])
    ensures forall key :: FirstWriter(log, key).None? ==>
      FirstWriter(log + [a], key) == if a.key == key then Some(a.id) else None
  {
    forall key { FirstWriterAppend(log, a, key); }
  }

  // One request moves to a stage it may be told of; everything else stays as it was.
  lemma MoveStaysTold(site: Site, b: Base, b': Base, r: nat, stage: Stage)
    requires AllTold(site, b) && r in b.ingests && Extends(b.log, b'.log)
    requires forall id :: id in b.receipts ==> id in b'.receipts && b'.receipts[id] == b.receipts[id]
    requires b'.ingests == b.ingests[r := b.ingests[r].(stage := stage)]
    requires Told(site, b', b'.ingests[r])
    requires Won(b'.ingests[r]) && !Won(b.ingests[r]) ==>
      forall q :: q in b.ingests && Won(b.ingests[q]) ==> b.ingests[q].req.id != b.ingests[r].req.id
    ensures AllTold(site, b')
  {
    forall q | q in b'.ingests && q != r ensures Told(site, b', b'.ingests[q]) {
      assert Told(site, b, b.ingests[q]);
    }
  }

  lemma InsertStaysFannedOut(site: Site, b: Base, id: ReceiptId, receipt: Receipt, first: DeliveryId)
    requires FannedOut(site, b) && id !in b.receipts && forall d :: d in b.deliveries ==> d < first
    ensures FannedOut(site, b.(receipts := b.receipts[id := receipt],
                               deliveries := InsertRows(b.deliveries, id, Targets(site.names, first), b.now)))
  {
    var deliveries := InsertRows(b.deliveries, id, Targets(site.names, first), b.now);
    TargetsShape(site.names, first);
    forall x, i | x in b.receipts[id := receipt] && 0 <= i < |site.names| ensures HasRow(deliveries, x, site.names[i]) {
      if x == id {
        assert deliveries[first + i] == NewRow(id, site.names[i], b.now);
      } else {
        assert HasRow(b.deliveries, x, site.names[i]);
        var d :| d in b.deliveries && b.deliveries[d].receipt == x && b.deliveries[d].emitter == site.names[i];
        assert deliveries[d] == b.deliveries[d];
      }
    }
  }

  lemma CommitStaysTold(site: Site, b: Base, r: nat, first: DeliveryId, acknowledged: bool)
    requires StoreIsFirstWriters(b) && AllTold(site, b) && IsAt(b, r, Checked)
    ensures AllTold(site, Commit(site, b, r, first, acknowledged))
  {
    var b', req := Commit(site, b, r, first, acknowledged), b.ingests[r].req;
    assert Told(site, b, b.ingests[r]);
    LogGrows(b.log, Attempt(KeyOf(site, req), req.id));
    forall q | q in b.ingests && Won(b.ingests[q]) && req.id !in b.receipts ensures b.ingests[q].req.id != req.id {
      assert Told(site, b, b.ingests[q]);
    }
    MoveStaysTold(site, b, b', r, b'.ingests[r].stage);
  }

  lemma CommitKeepsFirstWriters(site: Site, b: Base, r: nat, first: DeliveryId, acknowledged: bool)
    requires StoreIsFirstWriters(b) && r in b.ingests
    ensures StoreIsFirstWriters(Commit(site, b, r, first, acknowledged))
  {
    var req := b.ingests[r].req;
    LogGrows(b.log, Attempt(KeyOf(site, req), req.id));
  }

  lemma CommitStaysLinear(site: Site, b: Base, r: nat, first: DeliveryId, acknowledged: bool)
    requires Linear(site, b) && Enabled(b, Commits(r, first, acknowledged))
    ensures Linear(site, Commit(site, b, r, first, acknowledged))
  {
    var req := b.ingests[r].req;
    CommitKeepsFirstWriters(site, b, r, first, acknowledged);
    CommitStaysTold(site, b, r, first, acknowledged);
    if req.id !in b.receipts { InsertStaysFannedOut(site, b, req.id, ReceiptOf(site, req), first); }
  }

  // Steps that only move a request.
  lemma MoveStaysLinear(site: Site, b: Base, r: nat, stage: Stage)
    requires Linear(site, b) && r in b.ingests
    requires Told(site, b, b.ingests[r].(stage := stage))
    requires Won(b.ingests[r].(stage := stage)) ==> Won(b.ingests[r])
    ensures Linear(site, Moved(b, r, stage))
  {
    MoveStaysTold(site, b, Moved(b, r, stage), r, stage);
  }

  lemma StaysLinear<D>(site: Site, strategy: Strategy<D>, p: Pipeline<D>, a: Action)
    requires Linear(site, p.base) && Enabled(p.base, a)
    ensures Linear(site, Next(site, strategy, p, a).base)
  {
    var b := p.base;
    match a
    case Arrives(_, _) =>
    case Commits(r, first, acknowledged) => CommitStaysLinear(site, b, r, first, acknowledged);
    case Others(deliveries, _) => OthersStayFannedOut(site, b, deliveries);
    case _ =>
      assert Told(site, b, b.ingests[a.r]);
      MoveStaysLinear(site, b, a.r, Next(site, strategy, p, a).base.ingests[a.r].stage);
  }

  lemma OthersStayFannedOut(site: Site, b: Base, deliveries: Table)
    requires FannedOut(site, b) && OthersKeep(b, deliveries)
    ensures FannedOut(site, b.(deliveries := deliveries))
  {
    forall id, i | id in b.receipts && 0 <= i < |site.names| ensures HasRow(deliveries, id, site.names[i]) {
      assert HasRow(b.deliveries, id, site.names[i]);
      var d :| d in b.deliveries && b.deliveries[d].receipt == id && b.deliveries[d].emitter == site.names[i];
      assert d in deliveries;
    }
  }

  lemma {:induction false} RunsAreLinear<D>(site: Site, strategy: Strategy<D>, p: Pipeline<D>, acts: seq<Action>)
    requires Linear(site, p.base) && Runs(site, strategy, p, acts)
    ensures Linear(site, After(site, strategy, p, acts).base)
    decreases |acts|
  {
    if acts != [] {
      StaysLinear(site, strategy, p, acts[0]);
      RunsAreLinear(site, strategy, Next(site, strategy, p, acts[0]), acts[1..]);
    }
  }

  /** Concurrent ingest linearizes to a first-writer-wins map, whatever the dedupe strategy answers: keys are unique,
      the first insert of a key owns it, its request alone is told so, and every later one is told its id. */
  lemma FirstWriterWins<D>(site: Site, strategy: Strategy<D>, p: Pipeline<D>, acts: seq<Action>)
    requires Empty(p.base) && Runs(site, strategy, p, acts)
    ensures var b := After(site, strategy, p, acts).base;
            && KeysUnique(b.receipts)
            && StoreIsFirstWriters(b)
            && (forall r :: r in b.ingests ==> Told(site, b, b.ingests[r]))
            && FannedOut(site, b)
  {
    RunsAreLinear(site, strategy, p, acts);
  }

  /** What an accepted request leaves behind, column by column, over every run: its provider, key, hash and body as they
      were sent, in the state of a receipt that nothing has happened to. */
  lemma AcceptedReceipts<D>(site: Site, strategy: Strategy<D>, p: Pipeline<D>, acts: seq<Action>, r: nat)
    requires Empty(p.base) && Runs(site, strategy, p, acts)
    requires var b := After(site, strategy, p, acts).base; r in b.ingests && b.ingests[r].stage == Done(Accepted(b.ingests[r].req.id))
    ensures var b := After(site, strategy, p, acts).base;
            var req := b.ingests[r].req;
            && req.id in b.receipts
            && var stored := b.receipts[req.id];
            && stored.provider == req.provider && stored.rawBody == req.body
            && stored.payloadHash == site.digest(req.body)
            && stored.dedupeKey == req.provider + ":" + site.digest(req.body)
            && stored.state == ProcessingState.Stored && stored.emitCount == 0
  {
    RunsAreLinear(site, strategy, p, acts);
    var b := After(site, strategy, p, acts).base;
    assert Told(site, b, b.ingests[r]);
  }

  // No request has come past its check.
  predicate NoneChecked(b: Base) {
    b.receipts == map[] && forall r :: r in b.ingests ==>
      var stage := b.ingests[r].stage;
      stage.Arrived? || stage.Admitted? || (stage.Done? && (stage.result.Rejected? || stage.result.DedupeFailed?))
  }

  ghost predicate AlwaysFails<D(!new)>(s: Strategy<D>) {
    forall d: D, receipts, key, hash :: s.check(d, receipts, key, hash).None?
  }

  /** A check that fails ends its request before the store: with a strategy whose checks always fail no receipt is ever
      stored, and no request is answered with anything but its rejection or the failure of the check. */
  lemma {:induction false} FailedChecksStoreNothing<D(!new)>(site: Site, strategy: Strategy<D>, p: Pipeline<D>, acts: seq<Action>)
    requires AlwaysFails(strategy) && NoneChecked(p.base) && Runs(site, strategy, p, acts)
    ensures NoneChecked(After(site, strategy, p, acts).base)
    decreases |acts|
  {
    if acts != [] {
      FailedChecksStoreNothing(site, strategy, Next(site, strategy, p, acts[0]), acts[1..]);
    }
  }

  /** No two requests with the same provider and payload hash are both accepted. */
  lemma AcceptedOnce<D>(site: Site, strategy: Strategy<D>, p: Pipeline<D>, acts: seq<Action>, r: nat, r': nat)
    requires Empty(p.base) && Runs(site, strategy, p, acts)
    requires var b := After(site, strategy, p, acts).base;
             r in b.ingests && r' in b.ingests && Won(b.ingests[r]) && Won(b.ingests[r'])
             && b.ingests[r].req.provider == b.ingests[r'].req.provider
             && HashOf(site, b.ingests[r].req) == HashOf(site, b.ingests[r'].req)
    ensures r == r'
  {
    RunsAreLinear(site, strategy, p, acts);
  }

  /** A request that is refused, told of a duplicate, or fails leaves receipts, deliveries and the dedupe state as they were;
      an accepted one changes the tables in its commit only, by its receipt and one pending row per configured emitter. */
  lemma OnlyCommitsChangeTheStore<D>(site: Site, strategy: Strategy<D>, p: Pipeline<D>, a: Action)
    requires Enabled(p.base, a) && !a.Others?
    ensures var p' := Next(site, strategy, p, a);
            var b, b' := p.base, p'.base;
            && (!a.Records? ==> p'.dedupe == p.dedupe)
            && (b'.receipts == b.receipts ==> b'.deliveries == b.deliveries)
            && (b'.receipts != b.receipts ==>
                  && a.Commits?
                  && b'.ingests[a.r].stage == (if a.acknowledged then Committed else Done(StoreErred))
                  && b'.receipts == b.receipts[b.ingests[a.r].req.id := ReceiptOf(site, b.ingests[a.r].req)]
                  && b'.deliveries == InsertRows(b.deliveries, b.ingests[a.r].req.id, Targets(site.names, a.first), b.now))
  {
  }
}
