/** The derived state of a receipt: the latest mutable row per emitter, and the precedence among their states. */
module Aggregation {
  import opened Wrappers
  import opened State

  function AggregateFromStates(states: seq<DeliveryState>, fallback: ProcessingState): ProcessingState {
    if states == [] then fallback
    else if DeliveryState.DeadLettered in states then ProcessingState.DeadLettered
    else if Failed in states then EmitFailed
    else if forall s :: s in states ==> s == DeliveryState.Emitted then ProcessingState.Emitted
    else Stored
  }

  datatype Entry = Entry(createdAt: Time, state: DeliveryState)

  // One row's turn in the loop over a receipt's deliveries.
  function Absorb(m: map<EmitterName, Entry>, d: Row): map<EmitterName, Entry> {
    if d.immutable then m
    else if d.emitter in m && d.createdAt <= m[d.emitter].createdAt then m
    else m[d.emitter := Entry(d.createdAt, d.state)]
  }

  function Entries(rows: seq<Row>): map<EmitterName, Entry> {
    if rows == [] then map[] else Absorb(Entries(rows[..|rows| - 1]), rows[|rows| - 1])
  }

  function Summary(rows: seq<Row>): map<EmitterName, DeliveryState> {
    var m := Entries(rows);
    map e | e in m :: m[e].state
  }

  predicate MutableOf(r: Row, e: EmitterName) { !r.immutable && r.emitter == e }

  // Row i is the newest mutable row of its emitter, and the first such in list order.
  predicate IsLatest(rows: seq<Row>, e: EmitterName, i: nat) {
    && i < |rows| && MutableOf(rows[i], e)
    && (forall j :: 0 <= j < i && MutableOf(rows[j], e) ==> rows[j].createdAt < rows[i].createdAt)
    && (forall j :: i < j < |rows| && MutableOf(rows[j], e) ==> rows[j].createdAt <= rows[i].createdAt)
  }

  ghost predicate Mentioned(rows: seq<Row>, e: EmitterName) {
    exists i :: 0 <= i < |rows| && MutableOf(rows[i], e)
  }

  lemma MentionedNext(rows: seq<Row>, d: Row, e: EmitterName)
    ensures Mentioned(rows + [d], e) <==> Mentioned(rows, e) || MutableOf(d, e)
  {
    if MutableOf(d, e) {
      assert (rows + [d])[|rows|] == d;
    }
    if Mentioned(rows, e) {
      var i :| 0 <= i < |rows| && MutableOf(rows[i], e);
      assert (rows + [d])[i] == rows[i];
    }
  }

  lemma LatestNext(rows: seq<Row>, d: Row, e: EmitterName, i: nat)
    requires IsLatest(rows, e, i)
    ensures if MutableOf(d, e) && rows[i].createdAt < d.createdAt
            then IsLatest(rows + [d], e, |rows|) else IsLatest(rows + [d], e, i)
  {
  }

  /** The loop finds, for each emitter that has a mutable row, its newest one, the first in list order on ties. */
  lemma {:induction false} SummaryIsLatest(rows: seq<Row>, e: EmitterName) returns (i: nat)
    ensures e in Summary(rows) <==> Mentioned(rows, e)
    ensures e in Summary(rows) ==> IsLatest(rows, e, i) && Entries(rows)[e] == Entry(rows[i].createdAt, rows[i].state)
  {
    i := 0;
    if rows != [] {
      var init, d := rows[..|rows| - 1], rows[|rows| - 1];
      i := SummaryIsLatest(init, e);
      assert rows == init + [d];
      MentionedNext(init, d, e);
      if Mentioned(init, e) {
        LatestNext(init, d, e, i);
        if MutableOf(d, e) && init[i].createdAt < d.createdAt { i := |init|; }
      } else {
        i := |init|;
      }
    }
  }

  /** `latest_mutable_per_emitter`. */
  method LatestMutablePerEmitter(deliveries: seq<Row>) returns (latest: map<EmitterName, DeliveryState>)
    ensures latest == Summary(deliveries)
  {
    var m: map<EmitterName, Entry> := map[];
    var i := 0;
    while i < |deliveries|
      invariant 0 <= i <= |deliveries|
      invariant m == Entries(deliveries[..i])
    {
      var d := deliveries[i];
      assert deliveries[..i + 1] == deliveries[..i] + [d];
      if !d.immutable {
        if d.emitter in m {
          if d.createdAt > m[d.emitter].createdAt {
            m := m[d.emitter := Entry(d.createdAt, d.state)];
          }
        } else {
          m := m[d.emitter := Entry(d.createdAt, d.state)];
        }
      }
      i := i + 1;
    }
    assert deliveries[..i] == deliveries;
    latest := map e | e in m :: m[e].state;
  }

  // The precedence rules on a summary, independent of the order in which its values are listed.
  function AggregateOf(m: map<EmitterName, DeliveryState>, fallback: ProcessingState): ProcessingState {
    if m == map[] then fallback
    else if exists e :: e in m && m[e] == DeliveryState.DeadLettered then ProcessingState.DeadLettered
    else if exists e :: e in m && m[e] == Failed then EmitFailed
    else if forall e :: e in m ==> m[e] == DeliveryState.Emitted then ProcessingState.Emitted
    else Stored
  }

  lemma AnyListingAggregates(m: map<EmitterName, DeliveryState>, states: seq<DeliveryState>, fallback: ProcessingState)
    requires forall e :: e in m ==> m[e] in states
    requires forall s :: s in states ==> exists e :: e in m && m[e] == s
    ensures AggregateFromStates(states, fallback) == AggregateOf(m, fallback)
  {
    assert states == [] || states[0] in states;
    if m != map[] {
      var e :| e in m;
      assert m[e] in states;
    }
  }

  predicate Rivals(r: Row, r': Row) { !r.immutable && MutableOf(r', r.emitter) }

  // No two different mutable rows of one emitter carry the same timestamp.
  ghost predicate DistinctStamps(rows: seq<Row>) {
    forall r, r' :: r in rows && r' in rows && Rivals(r, r') && r.createdAt == r'.createdAt ==> r == r'
  }

  /** With distinct timestamps the summary depends on which rows there are, not on how they are ordered or repeated. */
  lemma SummaryIgnoresOrder(rows: seq<Row>, rows': seq<Row>)
    requires DistinctStamps(rows) && forall r :: r in rows <==> r in rows'
    ensures Summary(rows) == Summary(rows')
  {
    forall e ensures e in Summary(rows) <==> e in Summary(rows')
             ensures e in Summary(rows) ==> Summary(rows)[e] == Summary(rows')[e]
    {
      var i := SummaryIsLatest(rows, e);
      var i' := SummaryIsLatest(rows', e);
      MentionedAlike(rows, rows', e);
      MentionedAlike(rows', rows, e);
      if e in Summary(rows) && e in Summary(rows') {
        NewestAlike(rows, i, rows', i', e);
        NewestAlike(rows', i', rows, i, e);
        assert rows[i] in rows && rows'[i'] in rows';
      }
    }
  }

  lemma MentionedAlike(rows: seq<Row>, rows': seq<Row>, e: EmitterName)
    requires forall r :: r in rows ==> r in rows'
    ensures Mentioned(rows, e) ==> Mentioned(rows', e)
  {
    if Mentioned(rows, e) {
      var i :| 0 <= i < |rows| && MutableOf(rows[i], e);
      assert rows[i] in rows;
      var j :| 0 <= j < |rows'| && rows'[j] == rows[i];
      assert MutableOf(rows'[j], e);
    }
  }

  lemma NewestAlike(rows: seq<Row>, i: nat, rows': seq<Row>, i': nat, e: EmitterName)
    requires IsLatest(rows, e, i) && IsLatest(rows', e, i')
    requires forall r :: r in rows ==> r in rows'
    ensures rows[i].createdAt <= rows'[i'].createdAt
  {
    assert rows[i] in rows;
    var j :| 0 <= j < |rows'| && rows'[j] == rows[i];
    assert MutableOf(rows'[j], e);
  }

  /** A new row that is later than its emitter's others decides that emitter's entry and no other. */
  lemma LaterRowDecides(rows: seq<Row>, d: Row)
    requires !d.immutable && forall r :: r in rows && MutableOf(r, d.emitter) ==> r.createdAt < d.createdAt
    ensures Summary(rows + [d]) == Summary(rows)[d.emitter := d.state]
  {
    assert (rows + [d])[..|rows|] == rows;
    var i := SummaryIsLatest(rows, d.emitter);
    if d.emitter in Summary(rows) { assert rows[i] in rows; }
  }

  /** A dead letter is forgotten as soon as its delivery is replayed: if it was the only one, the receipt is no longer dead. */
  lemma ReplayClearsDeadLetter(rows: seq<Row>, d: Row, fallback: ProcessingState)
    requires !d.immutable && d.state == Pending
    requires forall r :: r in rows && MutableOf(r, d.emitter) ==> r.createdAt < d.createdAt
    ensures var m := Summary(rows);
            AggregateOf(Summary(rows + [d]), fallback) ==
              if exists e :: e in m && e != d.emitter && m[e] == DeliveryState.DeadLettered then ProcessingState.DeadLettered
              else if exists e :: e in m && e != d.emitter && m[e] == Failed then EmitFailed
              else Stored
  {
    LaterRowDecides(rows, d);
    var m, m' := Summary(rows), Summary(rows + [d]);
    assert m'[d.emitter] == Pending;
    forall e | e in m && e != d.emitter ensures e in m' && m'[e] == m[e] {}
    forall e | e in m' && e != d.emitter ensures e in m && m'[e] == m[e] {}
  }

  // Rows that a replay adds: all created at the same moment, all pending.
  predicate JustReplayed(more: seq<Row>, now: Time) {
    forall r :: r in more ==> !r.immutable && r.state.Pending? && r.createdAt == now
  }

  predicate Named(rows: seq<Row>, e: EmitterName) {
    exists r :: r in rows && r.emitter == e
  }

  lemma {:induction false} EntriesAfterReplay(rows: seq<Row>, more: seq<Row>, now: Time, e: EmitterName)
    requires JustReplayed(more, now) && forall r :: r in rows ==> r.createdAt < now
    ensures e in Entries(rows + more) <==> e in Entries(rows) || Named(more, e)
    ensures Named(more, e) ==> Entries(rows + more)[e] == Entry(now, Pending)
    ensures !Named(more, e) && e in Entries(rows) ==> Entries(rows + more)[e] == Entries(rows)[e]
    decreases |more|
  {
    var i := SummaryIsLatest(rows, e);
    if more == [] {
      assert rows + more == rows;
    } else {
      var init, last := more[..|more| - 1], more[|more| - 1];
      assert more == init + [last] && last in more;
      EntriesAfterReplay(rows, init, now, e);
      assert (rows + more)[..|rows + more| - 1] == rows + init;
      assert Named(more, e) <==> Named(init, e) || last.emitter == e;
      if e in Entries(rows) { assert rows[i] in rows; }
    }
  }

  /** After a replay the receipt reports what the emitters that were not replayed report, and is otherwise stored:
      old dead letters of the replayed emitters no longer count. */
  lemma ReportAfterReplay(rows: seq<Row>, more: seq<Row>, now: Time, fallback: ProcessingState)
    requires JustReplayed(more, now) && more != [] && forall r :: r in rows ==> r.createdAt < now
    ensures var m := Summary(rows);
            AggregateOf(Summary(rows + more), fallback) ==
              if exists e :: e in m && !Named(more, e) && m[e] == DeliveryState.DeadLettered then ProcessingState.DeadLettered
              else if exists e :: e in m && !Named(more, e) && m[e] == Failed then EmitFailed
              else Stored
  {
    var m, m' := Summary(rows), Summary(rows + more);
    forall e ensures e in m' <==> e in m || Named(more, e)
             ensures e in m' ==> m'[e] == if Named(more, e) then Pending else m[e]
    {
      EntriesAfterReplay(rows, more, now, e);
    }
    assert more[0] in more && Named(more, more[0].emitter);
    assert m'[more[0].emitter] == Pending;
  }

  predicate LatestIs(rows: seq<Row>, i: nat, state: DeliveryState) {
    i < |rows| && IsLatest(rows, rows[i].emitter, i) && rows[i].state == state
  }

  ghost predicate SomeLatest(rows: seq<Row>, state: DeliveryState) {
    exists i: nat :: LatestIs(rows, i, state)
  }

  lemma LatestInSummary(rows: seq<Row>, state: DeliveryState)
    ensures SomeLatest(rows, state) <==> exists e :: e in Summary(rows) && Summary(rows)[e] == state
  {
    if e :| e in Summary(rows) && Summary(rows)[e] == state {
      var i := SummaryIsLatest(rows, e);
      assert LatestIs(rows, i, state);
    }
    if i: nat :| LatestIs(rows, i, state) {
      var e := rows[i].emitter;
      var j := SummaryIsLatest(rows, e);
      assert Mentioned(rows, e);
      assert i == j;
    }
  }

  /** The reported state, read off the rows: the newest mutable row of each emitter decides, a dead letter before a
      failure before anything unfinished; a receipt without mutable rows keeps its stored state. */
  lemma ReportMeans(rows: seq<Row>, fallback: ProcessingState)
    ensures var state := AggregateOf(Summary(rows), fallback);
            if forall r :: r in rows ==> r.immutable then state == fallback
            else if SomeLatest(rows, DeliveryState.DeadLettered) then state.DeadLettered?
            else if SomeLatest(rows, Failed) then state.EmitFailed?
            else if SomeLatest(rows, Pending) || SomeLatest(rows, InFlight) then state.Stored?
            else state.Emitted?
  {
    var m := Summary(rows);
    forall state { LatestInSummary(rows, state); }
    if r :| r in rows && !r.immutable {
      var i := SummaryIsLatest(rows, r.emitter);
      var j :| 0 <= j < |rows| && rows[j] == r;
      assert MutableOf(rows[j], r.emitter);
      assert r.emitter in m;
    } else {
      assert forall k :: 0 <= k < |rows| ==> rows[k] in rows && rows[k].immutable;
      forall e ensures e !in m {
        var i := SummaryIsLatest(rows, e);
      }
      assert m == map[];
    }
    if !SomeLatest(rows, DeliveryState.DeadLettered) && !SomeLatest(rows, Failed) && AggregateOf(m, fallback).Stored? && m != map[] {
      assert !forall e :: e in m ==> m[e] == DeliveryState.Emitted;
      var e :| e in m && m[e] != DeliveryState.Emitted;
      assert m[e] == Pending || m[e] == InFlight;
    }
  }

  /** `receipt_aggregate_state`. */
  method ReceiptAggregateState(deliveries: seq<Row>, fallback: ProcessingState) returns (state: ProcessingState)
    ensures state == AggregateOf(Summary(deliveries), fallback)
    ensures if forall r :: r in deliveries ==> r.immutable then state == fallback
            else if SomeLatest(deliveries, DeliveryState.DeadLettered) then state.DeadLettered?
            else if SomeLatest(deliveries, Failed) then state.EmitFailed?
            else if SomeLatest(deliveries, Pending) || SomeLatest(deliveries, InFlight) then state.Stored?
            else state.Emitted?
  {
    var latest := LatestMutablePerEmitter(deliveries);
    var states: seq<DeliveryState> := [];
    var left := latest.Keys;
    while left != {}
      invariant left <= latest.Keys
      invariant forall e :: e in latest.Keys - left ==> latest[e] in states
      invariant forall s :: s in states ==> exists e :: e in latest && latest[e] == s
      decreases |left|
    {
      var e :| e in left;
      states := states + [latest[e]];
      left := left - {e};
    }
    AnyListingAggregates(latest, states, fallback);
    ReportMeans(deliveries, fallback);
    state := AggregateFromStates(states, fallback);
  }
}
