/** A due delivery is not overtaken for ever: every row that re-enters the queue re-enters behind it. */
module Starvation {
  import opened Wrappers
  import opened State
  import opened Deliveries
  import opened Backoff
  import opened LeaseProtocol
  import opened LeaseSafety

  predicate Queued(r: Row) {
    (r.state.Pending? || r.state.Failed?) && !r.immutable
  }

  // The rows of the same emitter that a claim may prefer to delivery d.
  function Ahead(s: System, d: DeliveryId): set<DeliveryId>
    requires d in s.cells
  {
    var row := s.cells[d].row;
    set id | id in s.cells && id != d && s.cells[id].row.emitter == row.emitter && Queued(s.cells[id].row)
             && s.cells[id].row.nextAttemptAt <= row.nextAttemptAt
  }

  // d is queued and became due strictly before the present moment.
  predicate Overdue(s: System, d: DeliveryId) {
    d in s.cells && Queued(s.cells[d].row) && s.cells[d].row.nextAttemptAt < s.now
  }

  predicate ClaimsFor(a: Action, e: EmitterName) {
    a.Claim? && a.emitter == e
  }

  lemma OnlyClaimsTakeQueuedRows(k: EmitterConfig, now: Time, c: Cell, step: CellStep)
    requires CellSafe(k, c) && CellEnabled(k, now, c, step)
    ensures Queued(c.row) && !step.Claimed? ==> CellNext(k, now, c, step).row == c.row
    ensures !Queued(c.row) && Queued(CellNext(k, now, c, step).row) ==> CellNext(k, now, c, step).row.nextAttemptAt >= now
    ensures step.Claimed? ==> !Queued(CellNext(k, now, c, step).row)
  {
    match step
    case MarkedErr(s, draw, _) => BackoffCapped(s.attempts + 1, k.policy, draw);
    case _ =>
  }

  lemma RowOf(cfg: Configuration, s: System, a: Action, id: DeliveryId)
    requires Safe(cfg, s) && id in s.cells && Enabled(cfg, s, a)
    ensures var r, r' := s.cells[id].row, Next(cfg, s, a).cells[id].row;
            && SameIdentity(r, r')
            && (Queued(r) && !Takes(a, id) ==> r' == r)
            && (Queued(r') && !Queued(r) ==> r'.nextAttemptAt >= s.now)
            && (Takes(a, id) ==> !Queued(r'))
  {
    var c, k, step := s.cells[id], ConfigOf(cfg, s.cells[id]), Projection(cfg, s, a, id);
    CellsStep(cfg, s, a, id);
    ProjectionEnabled(cfg, s, a, id);
    RowKept(k, s.now, c, step);
    if step.Some? { OnlyClaimsTakeQueuedRows(k, s.now, c, step.value); }
  }

  // Nothing joins the rows ahead of an overdue delivery, and a claim that passes it over takes a full batch of them.
  lemma AheadShrinks(cfg: Configuration, s: System, a: Action, d: DeliveryId)
    requires Safe(cfg, s) && Enabled(cfg, s, a) && Overdue(s, d) && !Takes(a, d)
    ensures Overdue(Next(cfg, s, a), d)
    ensures Next(cfg, s, a).cells[d].row == s.cells[d].row
    ensures Ahead(Next(cfg, s, a), d) <= Ahead(s, d)
    ensures ClaimsFor(a, s.cells[d].row.emitter) ==> |Ahead(Next(cfg, s, a), d)| + a.batch <= |Ahead(s, d)|
  {
    var s' := Next(cfg, s, a);
    RowOf(cfg, s, a, d);
    forall id | id in Ahead(s', d) ensures id in Ahead(s, d) && !Takes(a, id) {
      if id in s.cells {
        RowOf(cfg, s, a, id);
      } else {
        CellsStep(cfg, s, a, id);
      }
    }
    if ClaimsFor(a, s.cells[d].row.emitter) {
      FullBatchAhead(s, a, d);
      assert Ahead(s', d) <= Ahead(s, d) - a.ids;
      Fewer(Ahead(s', d), Ahead(s, d) - a.ids);
      assert |Ahead(s, d) - a.ids| == |Ahead(s, d)| - |a.ids|;
    }
  }

  lemma FullBatchAhead(s: System, a: Action, d: DeliveryId)
    requires Overdue(s, d) && a.Claim? && a.emitter == s.cells[d].row.emitter && d !in a.ids
    requires IsBatch(TableOf(s), a.emitter, a.batch, s.now, a.ids)
    ensures a.ids <= Ahead(s, d) && |a.ids| == a.batch
  {
    var due := Due(TableOf(s), a.emitter, s.now);
    assert d in due - a.ids;
    if |a.ids| == |due| {
      Equal(a.ids, due);
    }
    forall id | id in a.ids ensures id in Ahead(s, d) {
      assert id in due;
    }
  }

  lemma Fewer<T>(a: set<T>, b: set<T>)
    requires a <= b
    ensures |a| <= |b|
  {
    assert |b| == |a| + |b - a|;
  }

  lemma Equal<T>(a: set<T>, b: set<T>)
    requires a <= b && |a| == |b|
    ensures a == b
  {
    assert |b| == |a| + |b - a|;
  }

  // How many claims a run makes for an emitter, and how many rows they ask for in all.
  function CountClaims(acts: seq<Action>, e: EmitterName): nat {
    if acts == [] then 0 else (if ClaimsFor(acts[0], e) then 1 else 0) + CountClaims(acts[1..], e)
  }

  function RowsAsked(acts: seq<Action>, e: EmitterName): nat {
    if acts == [] then 0 else (if ClaimsFor(acts[0], e) then acts[0].batch else 0) + RowsAsked(acts[1..], e)
  }

  predicate BatchesAtLeast(acts: seq<Action>, e: EmitterName, batch: nat) {
    forall a :: a in acts && ClaimsFor(a, e) ==> a.batch >= batch
  }

  lemma {:induction false} PassedOver(cfg: Configuration, s: System, acts: seq<Action>, d: DeliveryId)
    requires Safe(cfg, s) && Runs(cfg, s, acts) && Overdue(s, d)
    requires forall a :: a in acts ==> !Takes(a, d)
    ensures RowsAsked(acts, s.cells[d].row.emitter) <= |Ahead(s, d)|
    decreases |acts|
  {
    if acts != [] {
      AheadShrinks(cfg, s, acts[0], d);
      StaysSafe(cfg, s, acts[0]);
      Fewer(Ahead(Next(cfg, s, acts[0]), d), Ahead(s, d));
      PassedOver(cfg, Next(cfg, s, acts[0]), acts[1..], d);
    }
  }

  lemma {:induction false} AskedAtLeast(acts: seq<Action>, e: EmitterName, batch: nat)
    requires BatchesAtLeast(acts, e, batch)
    ensures CountClaims(acts, e) * batch <= RowsAsked(acts, e)
  {
    if acts != [] {
      AskedAtLeast(acts[1..], e, batch);
      var rest := CountClaims(acts[1..], e);
      assert (1 + rest) * batch == batch + rest * batch;
      assert acts[0] in acts;
    }
  }

  /** No starvation: with k rows ahead of an overdue delivery, one of the next k / batch + 1 claims of its emitter takes it. */
  lemma ClaimedInTurn(cfg: Configuration, s: System, acts: seq<Action>, d: DeliveryId, batch: nat)
    requires Safe(cfg, s) && Runs(cfg, s, acts) && Overdue(s, d) && batch >= 1
    requires BatchesAtLeast(acts, s.cells[d].row.emitter, batch)
    requires CountClaims(acts, s.cells[d].row.emitter) >= |Ahead(s, d)| / batch + 1
    ensures exists a :: a in acts && Takes(a, d)
  {
    var n, k := CountClaims(acts, s.cells[d].row.emitter), |Ahead(s, d)|;
    QuotientTooLarge(n, k, batch);
    AskedAtLeast(acts, s.cells[d].row.emitter, batch);
    if forall a :: a in acts ==> !Takes(a, d) {
      PassedOver(cfg, s, acts, d);
    }
  }

  lemma QuotientTooLarge(n: nat, k: nat, batch: nat)
    requires batch >= 1 && n >= k / batch + 1
    ensures n * batch > k
  {
    assert k < (k / batch + 1) * batch;
    assert n * batch == (k / batch + 1) * batch + (n - (k / batch + 1)) * batch;
  }

  // The k rows of a pool that became due first.
  lemma {:induction false} FirstDue(t: Table, pool: set<DeliveryId>, k: nat) returns (ids: set<DeliveryId>)
    requires pool <= t.Keys && k <= |pool|
    ensures ids <= pool && |ids| == k
    ensures forall id, other :: id in ids && other in pool - ids ==> t[id].nextAttemptAt <= t[other].nextAttemptAt
  {
    ids := {};
    if k > 0 {
      var before := FirstDue(t, pool, k - 1);
      assert |pool - before| == |pool| - |before|;
      var next := FirstOf(t, pool - before);
      ids := before + {next};
    }
  }

  lemma {:induction false} FirstOf(t: Table, pool: set<DeliveryId>) returns (first: DeliveryId)
    requires pool <= t.Keys && pool != {}
    ensures first in pool && forall other :: other in pool ==> t[first].nextAttemptAt <= t[other].nextAttemptAt
    decreases |pool|
  {
    first :| first in pool;
    var others := pool - {first};
    if others != {} {
      var rest := FirstOf(t, others);
      var chosen := first;
      if t[rest].nextAttemptAt < t[first].nextAttemptAt { chosen := rest; }
      forall other | other in pool ensures t[chosen].nextAttemptAt <= t[other].nextAttemptAt {
        assert other == first || other in others;
      }
      first := chosen;
    }
  }

  // The due rows of delivery d's emitter, other than d itself.
  function OthersDue(s: System, d: DeliveryId): set<DeliveryId>
    requires d in s.cells
  {
    Due(TableOf(s), s.cells[d].row.emitter, s.now) - {d}
  }

  // d is queued, but was not due before the present moment.
  predicate Unripe(s: System, d: DeliveryId) {
    d in s.cells && Queued(s.cells[d].row) && s.cells[d].row.nextAttemptAt >= s.now
  }

  lemma FirstOthersAreABatch(s: System, d: DeliveryId, batch: nat, ids: set<DeliveryId>)
    requires Unripe(s, d) && ids <= OthersDue(s, d) && |ids| == batch
    requires forall id, other :: id in ids && other in OthersDue(s, d) - ids ==>
               s.cells[id].row.nextAttemptAt <= s.cells[other].row.nextAttemptAt
    ensures IsBatch(TableOf(s), s.cells[d].row.emitter, batch, s.now, ids)
  {
    var t, due := TableOf(s), Due(TableOf(s), s.cells[d].row.emitter, s.now);
    Fewer(ids, due);
    forall id, other | id in ids && other in due - ids ensures t[id].nextAttemptAt <= t[other].nextAttemptAt {
      if other != d { assert other in OthersDue(s, d) - ids; }
    }
  }

  // One step of a run that passes the delivery over.
  ghost predicate StepsPast(cfg: Configuration, s: System, a: Action, s': System, d: DeliveryId, e: EmitterName, batch: nat) {
    Enabled(cfg, s, a) && s' == Next(cfg, s, a) && !Takes(a, d) && (ClaimsFor(a, e) ==> a.batch >= batch)
  }

  // A claim may pass over a delivery that becomes due at this very moment, if enough others are due.
  lemma ClaimAround(cfg: Configuration, s: System, d: DeliveryId, e: EmitterName, batch: nat) returns (a: Action, s': System)
    requires Unripe(s, d) && s.cells[d].row.emitter == e && |OthersDue(s, d)| >= batch
    ensures ClaimsFor(a, e) && StepsPast(cfg, s, a, s', d, e, batch)
    ensures Unripe(s', d) && s'.cells[d].row.emitter == e
    ensures |OthersDue(s', d)| == |OthersDue(s, d)| - batch
  {
    var ids := FirstDue(TableOf(s), OthersDue(s, d), batch);
    FirstOthersAreABatch(s, d, batch, ids);
    a := Claim(e, batch, ids, true);
    s' := Next(cfg, s, a);
    OthersLeft(cfg, s, d, a);
    assert |OthersDue(s, d) - ids| == |OthersDue(s, d)| - |ids|;
  }

  lemma OthersLeft(cfg: Configuration, s: System, d: DeliveryId, a: Action)
    requires Unripe(s, d) && a.Claim? && a.emitter == s.cells[d].row.emitter && d !in a.ids && Enabled(cfg, s, a)
    ensures d in Next(cfg, s, a).cells && Next(cfg, s, a).cells[d] == s.cells[d] && Next(cfg, s, a).now == s.now
    ensures OthersDue(Next(cfg, s, a), d) == OthersDue(s, d) - a.ids
  {
    CellsStep(cfg, s, a, d);
    StepIsStatement(cfg, s, a);
    DueAfterClaim(TableOf(s), a.emitter, s.now, a.ids);
  }

  lemma DueAfterClaim(t: Table, e: EmitterName, now: Time, ids: set<DeliveryId>)
    ensures Due(ClaimRows(t, ids, now), e, now) == Due(t, e, now) - ids
  {
  }

  predicate NeverTakes(acts: seq<Action>, d: DeliveryId) {
    forall a :: a in acts ==> !Takes(a, d)
  }

  // A run with n claims of the emitter that passes the delivery over.
  ghost predicate PassesOver(cfg: Configuration, s: System, acts: seq<Action>, d: DeliveryId, e: EmitterName, batch: nat, n: nat) {
    Runs(cfg, s, acts) && NeverTakes(acts, d) && BatchesAtLeast(acts, e, batch) && CountClaims(acts, e) == n
  }

  lemma PassesOn(cfg: Configuration, s: System, a: Action, s': System, rest: seq<Action>, d: DeliveryId, e: EmitterName, batch: nat, n: nat)
    returns (acts: seq<Action>)
    requires StepsPast(cfg, s, a, s', d, e, batch) && PassesOver(cfg, s', rest, d, e, batch, n)
    ensures PassesOver(cfg, s, acts, d, e, batch, if ClaimsFor(a, e) then n + 1 else n)
  {
    acts := [a] + rest;
    assert acts[1..] == rest;
  }

  // The rows that n claims of a batch take together.
  function Needed(n: nat, batch: nat): nat {
    if n == 0 then 0 else batch + Needed(n - 1, batch)
  }

  ghost predicate MayStarve(cfg: Configuration, s: System, d: DeliveryId, e: EmitterName, batch: nat, n: nat) {
    exists acts :: PassesOver(cfg, s, acts, d, e, batch, n)
  }

  lemma StarveLonger(cfg: Configuration, s: System, a: Action, s': System, d: DeliveryId, e: EmitterName, batch: nat, n: nat)
    requires StepsPast(cfg, s, a, s', d, e, batch) && MayStarve(cfg, s', d, e, batch, n)
    ensures MayStarve(cfg, s, d, e, batch, if ClaimsFor(a, e) then n + 1 else n)
  {
    var rest :| PassesOver(cfg, s', rest, d, e, batch, n);
    var acts := PassesOn(cfg, s, a, s', rest, d, e, batch, n);
  }

  // A claim later, the delivery can still be passed over: one claim more from here than from there.
  lemma OneMoreClaim(cfg: Configuration, s: System, d: DeliveryId, e: EmitterName, batch: nat) returns (s': System)
    requires Unripe(s, d) && s.cells[d].row.emitter == e && |OthersDue(s, d)| >= batch
    ensures Unripe(s', d) && s'.cells[d].row.emitter == e
    ensures |OthersDue(s', d)| == |OthersDue(s, d)| - batch
    ensures forall n: nat :: MayStarve(cfg, s', d, e, batch, n) ==> MayStarve(cfg, s, d, e, batch, n + 1)
  {
    var a;
    a, s' := ClaimAround(cfg, s, d, e, batch);
    forall n: nat | MayStarve(cfg, s', d, e, batch, n) ensures MayStarve(cfg, s, d, e, batch, n + 1) {
      StarveLonger(cfg, s, a, s', d, e, batch, n);
    }
  }

  lemma {:induction false} ClaimsAround(cfg: Configuration, s: System, d: DeliveryId, e: EmitterName, batch: nat, n: nat)
    requires Unripe(s, d) && s.cells[d].row.emitter == e && |OthersDue(s, d)| >= Needed(n, batch)
    ensures MayStarve(cfg, s, d, e, batch, n)
    decreases n
  {
    if n == 0 {
      assert PassesOver(cfg, s, [], d, e, batch, 0);
    } else {
      var s' := OneMoreClaim(cfg, s, d, e, batch);
      ClaimsAround(cfg, s', d, e, batch, n - 1);
    }
  }

  // Rows that arrive at the very moment when d becomes due can all be preferred to it.
  lemma LateComers(cfg: Configuration, s: System, d: DeliveryId, m: nat) returns (a: Action)
    requires Unripe(s, d)
    ensures a.Insert? && Enabled(cfg, s, a)
    ensures Unripe(Next(cfg, s, a), d) && Next(cfg, s, a).cells[d].row == s.cells[d].row
    ensures |OthersDue(Next(cfg, s, a), d)| >= m
  {
    var e := s.cells[d].row.emitter;
    var first := UpperBound(s.cells.Keys);
    var late := Span(first, m);
    a := Insert(s.cells[d].row.receipt, map id | id in late :: e);
    assert a.targets.Keys == late;
    CellsStep(cfg, s, a, d);
    var s' := Next(cfg, s, a);
    forall id | id in late ensures id in OthersDue(s', d) {
      CellsStep(cfg, s, a, id);
      assert TableOf(s')[id] == NewRow(s.cells[d].row.receipt, e, s.now);
    }
    Fewer(late, OthersDue(s', d));
  }

  lemma {:induction false} UpperBound(ids: set<DeliveryId>) returns (bound: nat)
    ensures forall id :: id in ids ==> id < bound
    decreases |ids|
  {
    bound := 0;
    if ids != {} {
      var id :| id in ids;
      bound := UpperBound(ids - {id});
      if bound <= id { bound := id + 1; }
      assert forall other :: other in ids ==> other == id || other in ids - {id};
    }
  }

  lemma {:induction false} Span(first: nat, m: nat) returns (ids: set<DeliveryId>)
    ensures |ids| == m && forall id :: id in ids <==> first <= id < first + m
    decreases m
  {
    ids := {};
    if m > 0 {
      var before := Span(first, m - 1);
      ids := before + {first + m - 1};
    }
  }

  ghost predicate Guaranteed(cfg: Configuration, s: System, d: DeliveryId, batch: nat)
    requires d in s.cells && batch >= 1
  {
    forall acts :: Runs(cfg, s, acts)
                   && BatchesAtLeast(acts, s.cells[d].row.emitter, batch)
                   && CountClaims(acts, s.cells[d].row.emitter) >= |Ahead(s, d)| / batch + 1
      ==> !NeverTakes(acts, d)
  }

  lemma UnripeMayStarve(cfg: Configuration, s: System, d: DeliveryId, batch: nat, n: nat)
    requires Unripe(s, d)
    ensures MayStarve(cfg, s, d, s.cells[d].row.emitter, batch, n)
  {
    var e := s.cells[d].row.emitter;
    var a := LateComers(cfg, s, d, Needed(n, batch));
    ClaimsAround(cfg, Next(cfg, s, a), d, e, batch, n);
    StarveLonger(cfg, s, a, Next(cfg, s, a), d, e, batch, n);
  }

  lemma OverdueIsGuaranteed(cfg: Configuration, s: System, d: DeliveryId, batch: nat)
    requires Safe(cfg, s) && Overdue(s, d) && batch >= 1
    ensures Guaranteed(cfg, s, d, batch)
  {
    var e := s.cells[d].row.emitter;
    forall acts | Runs(cfg, s, acts) && BatchesAtLeast(acts, e, batch) && CountClaims(acts, e) >= |Ahead(s, d)| / batch + 1
      ensures !NeverTakes(acts, d)
    {
      ClaimedInTurn(cfg, s, acts, d, batch);
    }
  }

  /** The guarantee holds exactly for deliveries that became due before the present moment: while the clock stands
      still, rows inserted at the moment when a delivery becomes due can overtake it in any number of claims. */
  lemma OverdueExactly(cfg: Configuration, s: System, d: DeliveryId, batch: nat)
    requires Safe(cfg, s) && d in s.cells && Queued(s.cells[d].row) && batch >= 1
    ensures Guaranteed(cfg, s, d, batch) <==> s.cells[d].row.nextAttemptAt < s.now
  {
    if Overdue(s, d) {
      OverdueIsGuaranteed(cfg, s, d, batch);
    } else {
      var n := |Ahead(s, d)| / batch + 1;
      UnripeMayStarve(cfg, s, d, batch, n);
      var acts :| PassesOver(cfg, s, acts, d, s.cells[d].row.emitter, batch, n);
    }
  }
}
