/** Who may add delivery rows after ingest, and the conservation of rows over whole runs. */
module Replay {
  import opened Wrappers
  import opened State
  import opened Deliveries
  import opened Storage
  import LeaseProtocol
  import LeaseSafety
  import opened Aggregation

  // The four ways to ask for a replay: two admin routes and two CLI commands.
  datatype Ask =
    | AdminReceipt(receipt: ReceiptId, emitter: Option<EmitterName>)
    | AdminDelivery(delivery: DeliveryId)
    | CliReceipt(receipt: ReceiptId, emitter: Option<EmitterName>)
    | CliDeadLetter(delivery: DeliveryId)

  predicate NoDuplicates(names: seq<EmitterName>) {
    forall i, j :: 0 <= i < j < |names| ==> names[i] != names[j]
  }

  function Historical(t: Table, receipt: ReceiptId): set<EmitterName> {
    set id | id in t && t[id].receipt == receipt :: t[id].emitter
  }

  lemma HistoricalMeans(t: Table, receipt: ReceiptId)
    ensures forall d :: d in t && t[d].receipt == receipt ==> t[d].emitter in Historical(t, receipt)
    ensures forall e :: e in Historical(t, receipt) <==> exists d :: d in t && t[d].receipt == receipt && t[d].emitter == e
  {
  }

  // When a request is granted, and for which receipt and emitters.
  predicate Granted(ask: Ask, receipts: Receipts, t: Table, configured: seq<EmitterName>,
                    receipt: ReceiptId, targets: seq<EmitterName>) {
    && receipt in receipts
    && match ask
       case AdminReceipt(r, None) => receipt == r && targets == configured
       case AdminReceipt(r, Some(e)) => receipt == r && e in configured && targets == [e]
       case AdminDelivery(d) => d in t && receipt == t[d].receipt && t[d].emitter in configured && targets == [t[d].emitter]
       case CliReceipt(r, Some(e)) => receipt == r && e in configured && targets == [e]
       case CliReceipt(r, None) =>
         var names := Historical(t, r);
         && receipt == r && names != {}
         && (forall e :: e in names ==> e in configured)
         && NoDuplicates(targets) && (forall e :: e in targets ==> e in names) && (forall e :: e in names ==> e in targets)
       case CliDeadLetter(d) =>
         && d in t && t[d].state.DeadLettered? && receipt == t[d].receipt
         && t[d].emitter in configured && targets == [t[d].emitter]
  }

  datatype Outcome = Refused | Replayed(receipt: ReceiptId, targets: seq<EmitterName>, ids: seq<DeliveryId>)

  // All or nothing: the rows of a granted request are added together, a refused one changes nothing.
  ghost predicate Answers(ask: Ask, receipts: Receipts, before: Table, after: Table, configured: seq<EmitterName>,
                          first: DeliveryId, now: Time, out: Outcome) {
    if out.Refused? then
      after == before && forall receipt, targets :: !Granted(ask, receipts, before, configured, receipt, targets)
    else
      && Granted(ask, receipts, before, configured, out.receipt, out.targets)
      && after == InsertRows(before, out.receipt, Targets(out.targets, first), now)
      && out.ids == seq(|out.targets|, i => first + i)
  }

  class ReplayApi {
    const storage: PostgresStorage
    const configured: seq<EmitterName>

    constructor (storage: PostgresStorage, configured: seq<EmitterName>)
      ensures this.storage == storage && this.configured == configured
    {
      this.storage := storage;
      this.configured := configured;
    }

    // The foreign key of webhook_deliveries.
    ghost predicate ReferencesHold()
      reads storage
    {
      forall d :: d in storage.deliveries ==> storage.deliveries[d].receipt in storage.receipts
    }

    method Insert(receipt: ReceiptId, targets: seq<EmitterName>) returns (out: Outcome)
      requires storage.Valid() && receipt in storage.receipts
      modifies storage`deliveries, storage`nextId
      ensures storage.Valid()
      ensures out.Replayed? && out.receipt == receipt && out.targets == targets
      ensures storage.deliveries
           == InsertRows(old(storage.deliveries), receipt, Targets(targets, old(storage.nextId)), storage.now)
      ensures out.ids == seq(|targets|, i => old(storage.nextId) + i)
      ensures AddsPending(old(storage.deliveries), storage.deliveries, receipt, targets, old(storage.nextId), storage.now)
    {
      var ids := storage.InsertReplays(receipt, targets);
      out := Outcome.Replayed(receipt, targets, ids.value);
    }

    /** `replay_receipt`. */
    method ReplayReceipt(receipt: ReceiptId, emitter: Option<EmitterName>) returns (out: Outcome)
      requires storage.Valid()
      modifies storage`deliveries, storage`nextId
      ensures storage.Valid()
      ensures Answers(AdminReceipt(receipt, emitter), storage.receipts, old(storage.deliveries), storage.deliveries,
                      configured, old(storage.nextId), storage.now, out)
      ensures out.Replayed? <==> receipt in storage.receipts && (emitter.Some? ==> emitter.value in configured)
      ensures out.Refused? ==> storage.deliveries == old(storage.deliveries)
      ensures out.Replayed? ==> AddsPending(old(storage.deliveries), storage.deliveries, receipt,
                                            if emitter.Some? then [emitter.value] else configured, old(storage.nextId), storage.now)
    {
      if receipt !in storage.receipts {
        return Refused;
      }
      var names := configured;
      if emitter.Some? {
        if emitter.value !in configured {
          return Refused;
        }
        names := [emitter.value];
      }
      out := Insert(receipt, names);
    }

    /** `replay_delivery`. */
    method ReplayDelivery(delivery: DeliveryId) returns (out: Outcome)
      requires storage.Valid() && ReferencesHold()
      modifies storage`deliveries, storage`nextId
      ensures storage.Valid()
      ensures Answers(AdminDelivery(delivery), storage.receipts, old(storage.deliveries), storage.deliveries,
                      configured, old(storage.nextId), storage.now, out)
      ensures out.Replayed? <==> delivery in old(storage.deliveries) && old(storage.deliveries)[delivery].emitter in configured
      ensures out.Refused? ==> storage.deliveries == old(storage.deliveries)
      ensures out.Replayed? ==>
        var row := old(storage.deliveries)[delivery];
        AddsPending(old(storage.deliveries), storage.deliveries, row.receipt, [row.emitter], old(storage.nextId), storage.now)
    {
      if delivery !in storage.deliveries {
        return Refused;
      }
      var row := storage.deliveries[delivery];
      if row.emitter !in configured {
        return Refused;
      }
      out := Insert(row.receipt, [row.emitter]);
    }

    /** `hookbox dlq retry`. */
    method RetryDeadLetter(delivery: DeliveryId) returns (out: Outcome)
      requires storage.Valid() && ReferencesHold()
      modifies storage`deliveries, storage`nextId
      ensures storage.Valid()
      ensures Answers(CliDeadLetter(delivery), storage.receipts, old(storage.deliveries), storage.deliveries,
                      configured, old(storage.nextId), storage.now, out)
      ensures out.Replayed? <==>
        && delivery in old(storage.deliveries) && old(storage.deliveries)[delivery].state.DeadLettered?
        && old(storage.deliveries)[delivery].emitter in configured
      ensures out.Refused? ==> storage.deliveries == old(storage.deliveries)
      ensures out.Replayed? ==>
        var row := old(storage.deliveries)[delivery];
        AddsPending(old(storage.deliveries), storage.deliveries, row.receipt, [row.emitter], old(storage.nextId), storage.now)
    {
      if delivery !in storage.deliveries {
        return Refused;
      }
      var row := storage.deliveries[delivery];
      if !row.state.DeadLettered? {
        return Refused;
      }
      if row.emitter !in configured {
        return Refused;
      }
      out := Insert(row.receipt, [row.emitter]);
    }

    method ListNames(names: set<EmitterName>) returns (list: seq<EmitterName>)
      ensures NoDuplicates(list) && forall e :: e in list <==> e in names
    {
      list := [];
      var left := names;
      while left != {}
        invariant left <= names && NoDuplicates(list)
        invariant forall e :: e in list <==> e in names && e !in left
        decreases |left|
      {
        var e :| e in left;
        list := list + [e];
        left := left - {e};
      }
    }

    /** `hookbox replay id --emitter`. */
    method ReplayToOne(receipt: ReceiptId, emitter: EmitterName) returns (out: Outcome)
      requires storage.Valid()
      modifies storage`deliveries, storage`nextId
      ensures storage.Valid()
      ensures Answers(CliReceipt(receipt, Some(emitter)), storage.receipts, old(storage.deliveries), storage.deliveries,
                      configured, old(storage.nextId), storage.now, out)
      ensures out.Replayed? <==> receipt in storage.receipts && emitter in configured
      ensures out.Replayed? ==> out.targets == [emitter]
      ensures out.Refused? ==> storage.deliveries == old(storage.deliveries)
      ensures out.Replayed? ==>
        AddsPending(old(storage.deliveries), storage.deliveries, receipt, [emitter], old(storage.nextId), storage.now)
    {
      if emitter !in configured {
        return Refused;
      }
      // The foreign key refuses an unknown receipt.
      if receipt !in storage.receipts {
        return Refused;
      }
      out := Insert(receipt, [emitter]);
    }

    /** `hookbox replay id` without an emitter: to every emitter that the receipt was ever sent to. */
    method ReplayToAll(receipt: ReceiptId) returns (out: Outcome)
      requires storage.Valid() && ReferencesHold()
      modifies storage`deliveries, storage`nextId
      ensures storage.Valid()
      ensures Answers(CliReceipt(receipt, None), storage.receipts, old(storage.deliveries), storage.deliveries,
                      configured, old(storage.nextId), storage.now, out)
      ensures out.Replayed? <==>
        && (exists d :: d in old(storage.deliveries) && old(storage.deliveries)[d].receipt == receipt)
        && forall d :: d in old(storage.deliveries) && old(storage.deliveries)[d].receipt == receipt ==>
             old(storage.deliveries)[d].emitter in configured
      ensures out.Refused? ==> storage.deliveries == old(storage.deliveries)
      ensures out.Replayed? ==> NoDuplicates(out.targets) && forall e :: e in out.targets <==>
        exists d :: d in old(storage.deliveries) && old(storage.deliveries)[d].receipt == receipt && old(storage.deliveries)[d].emitter == e
      ensures out.Replayed? ==>
        AddsPending(old(storage.deliveries), storage.deliveries, receipt, out.targets, old(storage.nextId), storage.now)
    {
      var historical := Historical(storage.deliveries, receipt);
      HistoricalMeans(storage.deliveries, receipt);
      if historical == {} {
        return Refused;
      }
      if exists e :: e in historical && e !in configured {
        return Refused;
      }
      var names := ListNames(historical);
      out := Insert(receipt, names);
    }

    /** `hookbox replay id`. */
    method ReplayById(receipt: ReceiptId, emitter: Option<EmitterName>) returns (out: Outcome)
      requires storage.Valid() && ReferencesHold()
      modifies storage`deliveries, storage`nextId
      ensures storage.Valid()
      ensures Answers(CliReceipt(receipt, emitter), storage.receipts, old(storage.deliveries), storage.deliveries,
                      configured, old(storage.nextId), storage.now, out)
      ensures emitter.Some? ==> (out.Replayed? <==> receipt in storage.receipts && emitter.value in configured)
      ensures emitter.None? ==> (out.Replayed? <==>
        && (exists d :: d in old(storage.deliveries) && old(storage.deliveries)[d].receipt == receipt)
        && forall d :: d in old(storage.deliveries) && old(storage.deliveries)[d].receipt == receipt ==>
             old(storage.deliveries)[d].emitter in configured)
      ensures out.Refused? ==> storage.deliveries == old(storage.deliveries)
      ensures out.Replayed? ==>
        AddsPending(old(storage.deliveries), storage.deliveries, receipt, out.targets, old(storage.nextId), storage.now)
    {
      match emitter
      case Some(name) => out := ReplayToOne(receipt, name);
      case None => out := ReplayToAll(receipt);
    }
  }

  // A listing of all deliveries of a receipt.
  ghost predicate ListsAll(t: Table, receipt: ReceiptId, ids: seq<DeliveryId>) {
    forall d :: d in ids <==> d in t && t[d].receipt == receipt
  }

  function RowsAt(t: Table, ids: seq<DeliveryId>): seq<Row>
    requires forall d :: d in ids ==> d in t
  {
    seq(|ids|, i requires 0 <= i < |ids| => assert ids[i] in ids; t[ids[i]])
  }

  lemma AddedIds(first: DeliveryId, n: nat, added: seq<DeliveryId>)
    requires added == seq(n, i => first + i)
    ensures forall d :: d in added <==> first <= d < first + n
  {
    forall d | first <= d < first + n ensures d in added {
      assert added[d - first] == d;
    }
  }

  lemma ListingAfterReplay(before: Table, after: Table, receipt: ReceiptId, targets: seq<EmitterName>, first: DeliveryId, now: Time,
                           ids: seq<DeliveryId>, added: seq<DeliveryId>)
    requires AddsPending(before, after, receipt, targets, first, now) && ListsAll(before, receipt, ids)
    requires added == seq(|targets|, i => first + i)
    ensures ListsAll(after, receipt, ids + added) && ListsAll(before, receipt, ids)
    ensures forall d :: d in ids ==> d in before && d in after && after[d] == before[d]
    ensures forall d :: d in added ==> d in after
  {
    AddedIds(first, |targets|, added);
    forall d ensures d in ids + added <==> d in after && after[d].receipt == receipt {
      assert d in ids + added <==> d in ids || d in added;
    }
  }

  lemma AddedRows(before: Table, after: Table, receipt: ReceiptId, targets: seq<EmitterName>, first: DeliveryId, now: Time,
                  added: seq<DeliveryId>)
    requires AddsPending(before, after, receipt, targets, first, now) && added == seq(|targets|, i => first + i)
    requires forall d :: d in added ==> d in after
    ensures JustReplayed(RowsAt(after, added), now)
    ensures forall e :: Named(RowsAt(after, added), e) <==> e in targets
  {
    var more := RowsAt(after, added);
    forall i | 0 <= i < |targets| ensures more[i] in more && more[i].emitter == targets[i]
                                          && !more[i].immutable && more[i].state.Pending? && more[i].createdAt == now
    {
      assert more[i] == after[first + i];
    }
    forall e ensures Named(more, e) <==> e in targets {
      if r :| r in more && r.emitter == e {
        var i :| 0 <= i < |more| && more[i] == r;
        assert targets[i] == e;
      }
      if e in targets {
        var i :| 0 <= i < |targets| && targets[i] == e;
        assert more[i].emitter == e;
      }
    }
  }

  lemma RowsAppend(before: Table, after: Table, ids: seq<DeliveryId>, added: seq<DeliveryId>)
    requires forall d :: d in ids ==> d in before && d in after && after[d] == before[d]
    requires forall d :: d in added ==> d in after
    ensures forall d :: d in ids + added ==> d in after
    ensures RowsAt(after, ids + added) == RowsAt(before, ids) + RowsAt(after, added)
  {
    forall i | 0 <= i < |ids| ensures ids[i] in ids {}
  }

  /** What a replay is for: after any granted replay, at a time later than the receipt's earlier rows, the derived state is
      dead-lettered, or failed, only on account of emitters that were not replayed; otherwise the receipt is stored again. */
  lemma ReplayRevives(ask: Ask, receipts: Receipts, before: Table, after: Table, configured: seq<EmitterName>, first: DeliveryId,
                      now: Time, out: Outcome, ids: seq<DeliveryId>, fallback: ProcessingState)
    requires Answers(ask, receipts, before, after, configured, first, now, out) && out.Replayed? && out.targets != []
    requires forall d :: d in before ==> d < first
    requires ListsAll(before, out.receipt, ids) && forall d :: d in ids ==> before[d].createdAt < now
    ensures ListsAll(after, out.receipt, ids + out.ids)
    ensures var m := Summary(RowsAt(before, ids));
            AggregateOf(Summary(RowsAt(after, ids + out.ids)), fallback) ==
              if exists e :: e in m && e !in out.targets && m[e] == DeliveryState.DeadLettered then ProcessingState.DeadLettered
              else if exists e :: e in m && e !in out.targets && m[e] == Failed then EmitFailed
              else Stored
  {
    InsertAddsPending(before, out.receipt, out.targets, first, now);
    ListingAfterReplay(before, after, out.receipt, out.targets, first, now, ids, out.ids);
    AddedRows(before, after, out.receipt, out.targets, first, now, out.ids);
    RowsAppend(before, after, ids, out.ids);
    var rows, more := RowsAt(before, ids), RowsAt(after, out.ids);
    assert |more| == |out.targets|;
    forall r | r in rows ensures r.createdAt < now {
      var i :| 0 <= i < |rows| && rows[i] == r;
      assert ids[i] in ids;
    }
    ReportAfterReplay(rows, more, now, fallback);
  }

  // Both tables of one configuration, and the replays granted so far.
  datatype Grant = Grant(receipt: ReceiptId, targets: seq<EmitterName>)
  datatype Ledger = Ledger(receipts: Receipts, deliveries: Table, grants: seq<Grant>)

  datatype Event =
    | Accepted(id: ReceiptId, receipt: Receipt, first: DeliveryId, now: Time)
    | Granting(ask: Ask, grant: Grant, first: DeliveryId, now: Time)
    | Worked(deliveries: Table)

  // What claims, marks and reclaims may do: change rows, never add, remove or redirect one.
  predicate WorkKeeps(t: Table, t': Table) {
    t'.Keys == t.Keys && forall id :: id in t ==> t'[id].receipt == t[id].receipt && t'[id].emitter == t[id].emitter
  }

  predicate Allowed(configured: seq<EmitterName>, l: Ledger, e: Event) {
    match e
    case Accepted(id, receipt, first, _) =>
      id !in l.receipts && !KeyTaken(l.receipts, receipt.dedupeKey) && forall d :: d in l.deliveries ==> d < first
    case Granting(ask, grant, first, _) =>
      && Granted(ask, l.receipts, l.deliveries, configured, grant.receipt, grant.targets)
      && forall d :: d in l.deliveries ==> d < first
    case Worked(deliveries) => WorkKeeps(l.deliveries, deliveries)
  }

  function Entered(configured: seq<EmitterName>, l: Ledger, e: Event): Ledger {
    match e
    case Accepted(id, receipt, first, now) =>
      l.(receipts := l.receipts[id := receipt], deliveries := InsertRows(l.deliveries, id, Targets(configured, first), now))
    case Granting(_, grant, first, now) =>
      l.(deliveries := InsertRows(l.deliveries, grant.receipt, Targets(grant.targets, first), now), grants := l.grants + [grant])
    case Worked(deliveries) => l.(deliveries := deliveries)
  }

  predicate History(configured: seq<EmitterName>, l: Ledger, events: seq<Event>)
    decreases |events|
  {
    events == [] || (Allowed(configured, l, events[0]) && History(configured, Entered(configured, l, events[0]), events[1..]))
  }

  function Final(configured: seq<EmitterName>, l: Ledger, events: seq<Event>): Ledger
    decreases |events|
  {
    if events == [] then l else Final(configured, Entered(configured, l, events[0]), events[1..])
  }

  function RowsFor(t: Table, receipt: ReceiptId, e: EmitterName): set<DeliveryId> {
    set id | id in t && t[id].receipt == receipt && t[id].emitter == e
  }

  function CountGrants(grants: seq<Grant>, receipt: ReceiptId, e: EmitterName): nat {
    if grants == [] then 0
    else
      var last := |grants| - 1;
      CountGrants(grants[..last], receipt, e) + (if grants[last].receipt == receipt && e in grants[last].targets then 1 else 0)
  }

  function CountRows(grants: seq<Grant>): nat {
    if grants == [] then 0 else CountRows(grants[..|grants| - 1]) + |grants[|grants| - 1].targets|
  }

  // Since the start, every pair of a new receipt and a configured emitter got its ingest row, every pair one row per
  // grant, and no pair any other row.
  ghost predicate PairsBalance(configured: seq<EmitterName>, start: Ledger, l: Ledger) {
    forall receipt, e :: |RowsFor(l.deliveries, receipt, e)|
      == |RowsFor(start.deliveries, receipt, e)| + IngestRows(configured, start, l.receipts, receipt, e) + CountGrants(l.grants, receipt, e)
  }

  function IngestRows(configured: seq<EmitterName>, start: Ledger, receipts: Receipts, receipt: ReceiptId, e: EmitterName): nat {
    if receipt in receipts && receipt !in start.receipts && e in configured then 1 else 0
  }

  ghost predicate TotalBalances(configured: seq<EmitterName>, start: Ledger, l: Ledger) {
    |l.deliveries| + |start.receipts| * |configured| == |start.deliveries| + |l.receipts| * |configured| + CountRows(l.grants)
  }

  // Nothing is lost, and what was added names a stored receipt and a configured emitter.
  ghost predicate Referenced(configured: seq<EmitterName>, start: Ledger, l: Ledger) {
    && start.receipts.Keys <= l.receipts.Keys
    && start.deliveries.Keys <= l.deliveries.Keys
    && forall d :: d in l.deliveries && d !in start.deliveries ==>
         l.deliveries[d].receipt in l.receipts && l.deliveries[d].emitter in configured
  }

  ghost predicate Balanced(configured: seq<EmitterName>, start: Ledger, l: Ledger) {
    PairsBalance(configured, start, l) && TotalBalances(configured, start, l) && Referenced(configured, start, l)
  }

  lemma InsertedRowOf(t: Table, id: ReceiptId, names: seq<EmitterName>, first: DeliveryId, now: Time, i: nat)
    requires NoDuplicates(names) && (forall d :: d in t ==> d < first) && i < |names|
    ensures RowsFor(InsertRows(t, id, Targets(names, first), now), id, names[i]) == RowsFor(t, id, names[i]) + {first + i}
  {
    TargetsShape(names, first);
    var t' := InsertRows(t, id, Targets(names, first), now);
    forall d ensures d in RowsFor(t', id, names[i]) <==> d in RowsFor(t, id, names[i]) || d == first + i {
      if d in Targets(names, first) {
        assert names[d - first] == names[i] <==> d == first + i;
      }
    }
  }

  lemma OtherRowsStay(t: Table, id: ReceiptId, names: seq<EmitterName>, first: DeliveryId, now: Time, receipt: ReceiptId, e: EmitterName)
    requires (forall d :: d in t ==> d < first) && (id != receipt || e !in names)
    ensures RowsFor(InsertRows(t, id, Targets(names, first), now), receipt, e) == RowsFor(t, receipt, e)
  {
    TargetsShape(names, first);
    var t' := InsertRows(t, id, Targets(names, first), now);
    forall d ensures d in RowsFor(t', receipt, e) <==> d in RowsFor(t, receipt, e) {
      if d in Targets(names, first) {
        assert names[d - first] in names;
      }
    }
  }

  lemma InsertedRows(t: Table, id: ReceiptId, names: seq<EmitterName>, first: DeliveryId, now: Time, receipt: ReceiptId, e: EmitterName)
    requires NoDuplicates(names) && forall d :: d in t ==> d < first
    ensures |RowsFor(InsertRows(t, id, Targets(names, first), now), receipt, e)|
         == |RowsFor(t, receipt, e)| + if id == receipt && e in names then 1 else 0
  {
    if id == receipt && e in names {
      var i :| 0 <= i < |names| && names[i] == e;
      InsertedRowOf(t, id, names, first, now, i);
      assert first + i !in RowsFor(t, receipt, e);
    } else {
      OtherRowsStay(t, id, names, first, now, receipt, e);
    }
  }

  lemma {:induction false} TargetsCounted(names: seq<EmitterName>, first: DeliveryId)
    ensures |Targets(names, first).Keys| == |names|
  {
    if names != [] {
      var n := |names| - 1;
      TargetsCounted(names[..n], first);
      TargetsShape(names[..n], first);
      assert Targets(names, first).Keys == Targets(names[..n], first).Keys + {first + n};
    }
  }

  lemma InsertedTotal(t: Table, id: ReceiptId, names: seq<EmitterName>, first: DeliveryId, now: Time)
    requires forall d :: d in t ==> d < first
    ensures |InsertRows(t, id, Targets(names, first), now)| == |t| + |names|
  {
    TargetsShape(names, first);
    TargetsCounted(names, first);
    var added := Targets(names, first).Keys;
    assert t.Keys !! added;
    assert InsertRows(t, id, Targets(names, first), now).Keys == t.Keys + added;
  }

  lemma GrantShape(ask: Ask, receipts: Receipts, t: Table, configured: seq<EmitterName>, receipt: ReceiptId, targets: seq<EmitterName>)
    requires NoDuplicates(configured) && Granted(ask, receipts, t, configured, receipt, targets)
    ensures NoDuplicates(targets) && forall e :: e in targets ==> e in configured
  {
  }

  lemma InsertStaysReferenced(configured: seq<EmitterName>, start: Ledger, l: Ledger, id: ReceiptId, names: seq<EmitterName>,
                              first: DeliveryId, now: Time)
    requires Referenced(configured, start, l) && id in l.receipts && forall e :: e in names ==> e in configured
    requires forall d :: d in l.deliveries ==> d < first
    ensures Referenced(configured, start, l.(deliveries := InsertRows(l.deliveries, id, Targets(names, first), now)))
  {
    TargetsShape(names, first);
    forall d | d in Targets(names, first) ensures Targets(names, first)[d] in configured {
      assert names[d - first] in names;
    }
  }

  lemma AcceptanceKeepsPairs(configured: seq<EmitterName>, start: Ledger, l: Ledger, e: Event)
    requires NoDuplicates(configured) && PairsBalance(configured, start, l) && Allowed(configured, l, e) && e.Accepted?
    requires start.receipts.Keys <= l.receipts.Keys
    ensures PairsBalance(configured, start, Entered(configured, l, e))
  {
    var l' := Entered(configured, l, e);
    forall receipt, name ensures |RowsFor(l'.deliveries, receipt, name)|
      == |RowsFor(start.deliveries, receipt, name)| + IngestRows(configured, start, l'.receipts, receipt, name)
         + CountGrants(l'.grants, receipt, name)
    {
      InsertedRows(l.deliveries, e.id, configured, e.first, e.now, receipt, name);
    }
  }

  lemma AddReceipt(receipts: Receipts, id: ReceiptId, receipt: Receipt)
    requires id !in receipts
    ensures |receipts[id := receipt]| == |receipts| + 1
  {
    assert receipts[id := receipt].Keys == receipts.Keys + {id};
  }

  lemma OneMoreTimes(n: nat, m: nat)
    ensures (n + 1) * m == n * m + m
  {
  }

  lemma AcceptanceKeepsTotal(configured: seq<EmitterName>, start: Ledger, l: Ledger, e: Event)
    requires TotalBalances(configured, start, l) && Allowed(configured, l, e) && e.Accepted?
    ensures TotalBalances(configured, start, Entered(configured, l, e))
  {
    var n, m := |l.receipts|, |configured|;
    assert |Entered(configured, l, e).deliveries| == |l.deliveries| + m by {
      InsertedTotal(l.deliveries, e.id, configured, e.first, e.now);
    }
    assert |Entered(configured, l, e).receipts| == n + 1 by {
      AddReceipt(l.receipts, e.id, e.receipt);
    }
    OneMoreTimes(n, m);
  }

  lemma AcceptanceBalances(configured: seq<EmitterName>, start: Ledger, l: Ledger, e: Event)
    requires NoDuplicates(configured) && Balanced(configured, start, l) && Allowed(configured, l, e) && e.Accepted?
    ensures Balanced(configured, start, Entered(configured, l, e))
  {
    AcceptanceKeepsPairs(configured, start, l, e);
    AcceptanceKeepsTotal(configured, start, l, e);
    var l' := l.(receipts := l.receipts[e.id := e.receipt]);
    assert Referenced(configured, start, l');
    InsertStaysReferenced(configured, start, l', e.id, configured, e.first, e.now);
  }

  lemma GrantKeepsPairs(configured: seq<EmitterName>, start: Ledger, l: Ledger, e: Event)
    requires NoDuplicates(configured) && PairsBalance(configured, start, l) && Allowed(configured, l, e) && e.Granting?
    ensures PairsBalance(configured, start, Entered(configured, l, e))
  {
    var l', g := Entered(configured, l, e), e.grant;
    GrantShape(e.ask, l.receipts, l.deliveries, configured, g.receipt, g.targets);
    assert l'.grants[..|l.grants|] == l.grants;
    forall receipt, name ensures |RowsFor(l'.deliveries, receipt, name)|
      == |RowsFor(start.deliveries, receipt, name)| + IngestRows(configured, start, l'.receipts, receipt, name)
         + CountGrants(l'.grants, receipt, name)
    {
      InsertedRows(l.deliveries, g.receipt, g.targets, e.first, e.now, receipt, name);
    }
  }

  lemma GrantBalances(configured: seq<EmitterName>, start: Ledger, l: Ledger, e: Event)
    requires NoDuplicates(configured) && Balanced(configured, start, l) && Allowed(configured, l, e) && e.Granting?
    ensures Balanced(configured, start, Entered(configured, l, e))
  {
    var l', g := Entered(configured, l, e), e.grant;
    GrantKeepsPairs(configured, start, l, e);
    GrantShape(e.ask, l.receipts, l.deliveries, configured, g.receipt, g.targets);
    assert l'.grants[..|l.grants|] == l.grants;
    InsertedTotal(l.deliveries, g.receipt, g.targets, e.first, e.now);
    InsertStaysReferenced(configured, start, l, g.receipt, g.targets, e.first, e.now);
  }

  lemma WorkBalances(configured: seq<EmitterName>, start: Ledger, l: Ledger, e: Event)
    requires Balanced(configured, start, l) && Allowed(configured, l, e) && e.Worked?
    ensures Balanced(configured, start, Entered(configured, l, e))
  {
    forall receipt, name ensures RowsFor(e.deliveries, receipt, name) == RowsFor(l.deliveries, receipt, name) {}
    assert |e.deliveries.Keys| == |l.deliveries.Keys|;
  }

  lemma {:induction false} StaysBalanced(configured: seq<EmitterName>, start: Ledger, l: Ledger, events: seq<Event>)
    requires NoDuplicates(configured) && Balanced(configured, start, l) && History(configured, l, events)
    ensures Balanced(configured, start, Final(configured, l, events))
    decreases |events|
  {
    if events != [] {
      match events[0] {
        case Accepted(_, _, _, _) => AcceptanceBalances(configured, start, l, events[0]);
        case Granting(_, _, _, _) => GrantBalances(configured, start, l, events[0]);
        case Worked(_) => WorkBalances(configured, start, l, events[0]);
      }
      StaysBalanced(configured, start, Entered(configured, l, events[0]), events[1..]);
    }
  }

  /** Replay conservation, from whatever the tables held before: over any history each newly accepted receipt gets one
      row per configured emitter, each pair one more row for each time its replay was granted, and nothing else is added
      or lost; in total, new rows = new receipts x emitters + replayed rows; every new row names a configured emitter. */
  lemma RowsAreConserved(configured: seq<EmitterName>, start: Ledger, events: seq<Event>)
    requires NoDuplicates(configured) && start.grants == [] && History(configured, start, events)
    ensures Balanced(configured, start, Final(configured, start, events))
  {
    StaysBalanced(configured, start, start, events);
  }

  /** Everything the lease protocol does, short of an insert, is work in this sense. */
  lemma WorkersOnlyWork(cfg: Configuration, s: LeaseProtocol.System, a: LeaseProtocol.Action)
    requires LeaseSafety.Safe(cfg, s) && !a.Insert?
    ensures WorkKeeps(LeaseProtocol.TableOf(s), LeaseProtocol.TableOf(LeaseProtocol.Next(cfg, s, a)))
  {
    var s' := LeaseProtocol.Next(cfg, s, a);
    forall id | id in s.cells ensures s'.cells[id].row.receipt == s.cells[id].row.receipt
                                      && s'.cells[id].row.emitter == s.cells[id].row.emitter
    {
      LeaseSafety.CellsStep(cfg, s, a, id);
      LeaseSafety.RowKept(LeaseProtocol.ConfigOf(cfg, s.cells[id]), s.now, s.cells[id], LeaseProtocol.Projection(cfg, s, a, id));
    }
  }
}
