/** What the API reports about a receipt, tied to what the workers did with its deliveries. */
module ReceiptState {
  import opened Wrappers
  import opened State
  import opened Deliveries
  import opened LeaseProtocol
  import opened LeaseSafety
  import opened Aggregation

  function DeliveriesOf(s: System, receipt: ReceiptId): set<DeliveryId> {
    set id | id in s.cells && s.cells[id].row.receipt == receipt
  }

  // A listing of a receipt's deliveries, in some order.
  ghost predicate Lists(s: System, receipt: ReceiptId, ids: seq<DeliveryId>) {
    forall id :: id in ids <==> id in DeliveriesOf(s, receipt)
  }

  function RowsOf(s: System, ids: seq<DeliveryId>): seq<Row>
    requires forall id :: id in ids ==> id in s.cells
  {
    seq(|ids|, i requires 0 <= i < |ids| => assert ids[i] in ids; s.cells[ids[i]].row)
  }

  // The state shown for a receipt whose deliveries are listed in this order.
  function Derived(s: System, ids: seq<DeliveryId>, fallback: ProcessingState): ProcessingState
    requires forall id :: id in ids ==> id in s.cells
  {
    AggregateOf(Summary(RowsOf(s, ids)), fallback)
  }

  predicate Replays(a: Action, receipt: ReceiptId) {
    a.Insert? && a.receipt == receipt
  }

  lemma ListingStays(cfg: Configuration, s: System, a: Action, receipt: ReceiptId, ids: seq<DeliveryId>)
    requires Safe(cfg, s) && Lists(s, receipt, ids) && !Replays(a, receipt)
    ensures Lists(Next(cfg, s, a), receipt, ids)
  {
    var s' := Next(cfg, s, a);
    assert s.cells.Keys <= s'.cells.Keys;
    forall id | id in s'.cells ensures id in DeliveriesOf(s', receipt) <==> id in DeliveriesOf(s, receipt) {
      CellsStep(cfg, s, a, id);
      if id in s.cells {
        RowKept(ConfigOf(cfg, s.cells[id]), s.now, s.cells[id], Projection(cfg, s, a, id));
      }
    }
  }

  lemma {:induction false} ListingStaysInRuns(cfg: Configuration, s: System, acts: seq<Action>, receipt: ReceiptId, ids: seq<DeliveryId>)
    requires Safe(cfg, s) && Runs(cfg, s, acts) && Lists(s, receipt, ids)
    requires forall a :: a in acts ==> !Replays(a, receipt)
    ensures Lists(After(cfg, s, acts), receipt, ids)
    decreases |acts|
  {
    if acts != [] {
      ListingStays(cfg, s, acts[0], receipt, ids);
      StaysSafe(cfg, s, acts[0]);
      ListingStaysInRuns(cfg, Next(cfg, s, acts[0]), acts[1..], receipt, ids);
    }
  }

  // Rows that keep their identity keep their place: the summary picks the same row of each emitter.
  lemma {:induction false} SamePick(rows: seq<Row>, rows': seq<Row>, e: EmitterName) returns (i: nat)
    requires |rows| == |rows'| && forall k :: 0 <= k < |rows| ==> SameIdentity(rows[k], rows'[k])
    ensures e in Entries(rows) <==> e in Entries(rows')
    ensures e in Entries(rows) ==>
      && i < |rows| && MutableOf(rows[i], e)
      && Entries(rows)[e] == Entry(rows[i].createdAt, rows[i].state)
      && Entries(rows')[e] == Entry(rows'[i].createdAt, rows'[i].state)
  {
    i := 0;
    if rows != [] {
      var n := |rows| - 1;
      i := SamePick(rows[..n], rows'[..n], e);
      if MutableOf(rows[n], e) {
        if e !in Entries(rows[..n]) || Entries(rows[..n])[e].createdAt < rows[n].createdAt { i := n; }
      }
    }
  }

  // A row that is finished for good keeps its state; the others may move.
  predicate Settled(r: Row, r': Row) {
    SameIdentity(r, r') && (Frozen(r) ==> r'.state == r.state)
  }

  lemma FinalStatesStay(rows: seq<Row>, rows': seq<Row>, fallback: ProcessingState)
    requires |rows| == |rows'| && forall k :: 0 <= k < |rows| ==> Settled(rows[k], rows'[k])
    requires AggregateOf(Summary(rows), fallback).Emitted? || AggregateOf(Summary(rows), fallback).DeadLettered?
    ensures AggregateOf(Summary(rows'), fallback) == AggregateOf(Summary(rows), fallback)
  {
    var m, m' := Summary(rows), Summary(rows');
    forall e ensures e in m <==> e in m'
             ensures e in m && (m[e].Emitted? || m[e].DeadLettered?) ==> m'[e] == m[e]
    {
      var i := SamePick(rows, rows', e);
    }
    assert m.Keys == m'.Keys;
    assert m == map[] <==> m' == map[];
  }

  /** In a run without new replays of a receipt, a derived state of Emitted or DeadLettered never changes again. */
  lemma FinalReportsAreStable(cfg: Configuration, s: System, acts: seq<Action>, receipt: ReceiptId, ids: seq<DeliveryId>,
                              fallback: ProcessingState)
    requires Safe(cfg, s) && Runs(cfg, s, acts) && Lists(s, receipt, ids)
    requires forall a :: a in acts ==> !Replays(a, receipt)
    requires Derived(s, ids, fallback).Emitted? || Derived(s, ids, fallback).DeadLettered?
    ensures Lists(After(cfg, s, acts), receipt, ids)
    ensures Derived(After(cfg, s, acts), ids, fallback) == Derived(s, ids, fallback)
  {
    ListingStaysInRuns(cfg, s, acts, receipt, ids);
    var s' := After(cfg, s, acts);
    forall k | 0 <= k < |ids| ensures Settled(RowsOf(s, ids)[k], RowsOf(s', ids)[k]) {
      assert ids[k] in ids;
      FrozenRowsNeverChange(cfg, s, acts, ids[k]);
    }
    FinalStatesStay(RowsOf(s, ids), RowsOf(s', ids), fallback);
  }

  /** A derived state of Emitted means a successful emit for every emitter in the summary. */
  lemma EmittedMeansEmitted(cfg: Configuration, s: System, acts: seq<Action>, ids: seq<DeliveryId>,
                            fallback: ProcessingState, e: EmitterName) returns (id: DeliveryId)
    requires Initial(s) && Runs(cfg, s, acts)
    requires forall i :: i in ids ==> i in After(cfg, s, acts).cells
    requires Derived(After(cfg, s, acts), ids, fallback).Emitted?
    requires e in Summary(RowsOf(After(cfg, s, acts), ids))
    ensures id in ids
    ensures var c := After(cfg, s, acts).cells[id]; c.row.emitter == e && c.row.state.Emitted? && c.history.emitsOk >= 1
  {
    var s' := After(cfg, s, acts);
    var rows := RowsOf(s', ids);
    var i := SummaryIsLatest(rows, e);
    id := ids[i];
    assert id in ids;
    assert Summary(rows)[e] == rows[i].state;
    assert Summary(rows)[e].Emitted? by { EmittedSummary(Summary(rows), fallback, e); }
    HonestFailureAccounting(cfg, s, acts, id);
  }

  lemma EmittedSummary(m: map<EmitterName, DeliveryState>, fallback: ProcessingState, e: EmitterName)
    requires e in m && AggregateOf(m, fallback).Emitted?
    ensures m[e].Emitted?
  {
  }

  /** A derived state of DeadLettered means that some delivery really used up its attempts. */
  lemma DeadLetteredMeansExhausted(cfg: Configuration, s: System, acts: seq<Action>, ids: seq<DeliveryId>,
                                   fallback: ProcessingState) returns (id: DeliveryId)
    requires Initial(s) && Runs(cfg, s, acts)
    requires forall i :: i in ids ==> i in After(cfg, s, acts).cells
    requires Derived(After(cfg, s, acts), ids, fallback).DeadLettered?
    requires Summary(RowsOf(After(cfg, s, acts), ids)) != map[]
    ensures id in ids
    ensures var c := After(cfg, s, acts).cells[id];
            c.row.state.DeadLettered? && c.history.emitsErr >= ConfigOf(cfg, c).policy.maxAttempts
  {
    var rows := RowsOf(After(cfg, s, acts), ids);
    var m := Summary(rows);
    var e :| e in m && m[e].DeadLettered?;
    var i := SummaryIsLatest(rows, e);
    id := ids[i];
    assert id in ids;
    HonestFailureAccounting(cfg, s, acts, id);
  }
}
