/** What every run of the lease protocol keeps, with any number of workers, stale dispatches, crashes and lost marks. */
module LeaseSafety {
  import opened Wrappers
  import opened State
  import opened Deliveries
  import opened Backoff
  import opened LeaseProtocol

  // The row is in flight, or a worker has finished it for good.
  predicate Occupied(r: Row) {
    !r.immutable && (r.state.InFlight? || r.state.Emitted? || r.state.DeadLettered?)
  }

  // Every claim is paid for by a failed-mark, a reclaim, or the row's present state;
  // a claim leads to at most one emitter call, and an error to at most one failed-mark.
  ghost predicate ClaimsAccounted(c: Cell) {
    var h := c.history;
    && h.claims == |h.delays| + h.reclaims + (if Occupied(c.row) then 1 else 0)
    && |c.calling| + h.emitsOk + h.emitsErr <= h.claims
    && |c.refused| + |h.delays| <= h.emitsErr
    && |c.succeeded| <= h.emitsOk
  }

  // attempt_count never claims more failures than the emitter reported, not even through a stale mark.
  ghost predicate FailuresHonest(k: EmitterConfig, c: Cell) {
    var r, h, limit := c.row, c.history, k.policy.maxAttempts;
    && (!r.immutable ==> 0 <= r.attemptCount <= h.emitsErr && r.attemptCount < limit)
    && (forall s :: s in c.calling ==> 0 <= s.attempts <= h.emitsErr && s.attempts < limit)
    && (forall s :: s in c.refused ==> 0 <= s.attempts < h.emitsErr && s.attempts < limit)
    && (forall i :: 0 <= i < |h.delays| ==> 0.0 <= h.delays[i] <= k.policy.maxBackoff)
    && (!r.immutable && r.state.DeadLettered? ==> h.emitsErr >= limit)
    && (!r.immutable && r.state.Emitted? ==> h.emitsOk >= 1)
  }

  // The migration's audit rows are never worked on.
  ghost predicate AuditRowsIdle(c: Cell) {
    c.row.immutable ==> c == FreshCell(c.row) && !c.row.state.InFlight?
  }

  ghost predicate CellSafe(k: EmitterConfig, c: Cell) {
    ClaimsAccounted(c) && FailuresHonest(k, c) && AuditRowsIdle(c)
  }

  ghost predicate Safe(cfg: Configuration, s: System) {
    forall id :: id in s.cells ==> CellSafe(ConfigOf(cfg, s.cells[id]), s.cells[id])
  }

  lemma ClaimsStayAccounted(k: EmitterConfig, now: Time, c: Cell, step: CellStep)
    requires ClaimsAccounted(c) && AuditRowsIdle(c) && CellEnabled(k, now, c, step)
    ensures ClaimsAccounted(CellNext(k, now, c, step))
  {
  }

  lemma ErrorMarksStayHonest(k: EmitterConfig, now: Time, c: Cell, s: Snapshot, draw: real, error: string)
    requires CellSafe(k, c) && CellEnabled(k, now, c, MarkedErr(s, draw, error))
    ensures FailuresHonest(k, CellNext(k, now, c, MarkedErr(s, draw, error)))
  {
    BackoffCapped(s.attempts + 1, k.policy, draw);
  }

  lemma DropsStayHonest(k: EmitterConfig, now: Time, c: Cell, s: Snapshot, stage: Stage)
    requires CellSafe(k, c) && CellEnabled(k, now, c, Dropped(s, stage))
    ensures FailuresHonest(k, CellNext(k, now, c, Dropped(s, stage)))
  {
  }

  lemma FailuresStayHonest(k: EmitterConfig, now: Time, c: Cell, step: CellStep)
    requires CellSafe(k, c) && CellEnabled(k, now, c, step)
    ensures FailuresHonest(k, CellNext(k, now, c, step))
  {
    match step
    case MarkedErr(s, draw, error) => ErrorMarksStayHonest(k, now, c, s, draw, error);
    case Dropped(s, stage) => DropsStayHonest(k, now, c, s, stage);
    case _ =>
  }

  lemma CellStaysSafe(k: EmitterConfig, now: Time, c: Cell, step: Option<CellStep>)
    requires CellSafe(k, c)
    ensures CellSafe(k, Applied(k, now, c, step))
    ensures SameIdentity(c.row, Applied(k, now, c, step).row)
  {
    RowKept(k, now, c, step);
    if step.Some? && CellEnabled(k, now, c, step.value) {
      ClaimsStayAccounted(k, now, c, step.value);
      FailuresStayHonest(k, now, c, step.value);
    }
  }

  lemma AuditRowsTakeNoStep(k: EmitterConfig, now: Time, c: Cell, step: CellStep)
    requires AuditRowsIdle(c) && c.row.immutable
    ensures !CellEnabled(k, now, c, step)
  {
  }

  lemma FrozenRowStays(k: EmitterConfig, now: Time, c: Cell, step: CellStep)
    requires c.row.state.Emitted? || c.row.state.DeadLettered?
    requires CellEnabled(k, now, c, step)
    ensures CellNext(k, now, c, step).row == c.row
  {
  }

  lemma IdentityStays(k: EmitterConfig, now: Time, c: Cell, step: CellStep)
    requires CellEnabled(k, now, c, step)
    ensures SameIdentity(c.row, CellNext(k, now, c, step).row)
  {
  }

  lemma RowKept(k: EmitterConfig, now: Time, c: Cell, step: Option<CellStep>)
    requires AuditRowsIdle(c)
    ensures var c' := Applied(k, now, c, step);
            SameIdentity(c.row, c'.row) && (c.row.immutable ==> c' == c) && (Frozen(c.row) ==> c'.row == c.row)
  {
    if step.Some? && CellEnabled(k, now, c, step.value) {
      IdentityStays(k, now, c, step.value);
      if c.row.immutable {
        AuditRowsTakeNoStep(k, now, c, step.value);
      } else if Frozen(c.row) {
        FrozenRowStays(k, now, c, step.value);
      }
    }
  }

  // No step moves a row out of these states.
  predicate Frozen(r: Row) {
    r.immutable || r.state.Emitted? || r.state.DeadLettered?
  }

  // The columns that identify a row never change.
  predicate SameIdentity(r: Row, r': Row) {
    r'.receipt == r.receipt && r'.emitter == r.emitter && r'.immutable == r.immutable && r'.createdAt == r.createdAt
  }

  // Each existing cell takes at most one step; new cells are fresh.
  lemma CellsStep(cfg: Configuration, s: System, a: Action, id: DeliveryId)
    requires id in Next(cfg, s, a).cells
    ensures id in s.cells ==>
      Next(cfg, s, a).cells[id] == Applied(ConfigOf(cfg, s.cells[id]), s.now, s.cells[id], Projection(cfg, s, a, id))
    ensures id !in s.cells ==>
      a.Insert? && id in a.targets && Next(cfg, s, a).cells[id] == FreshCell(NewRow(a.receipt, a.targets[id], s.now))
  {
  }

  lemma StaysSafe(cfg: Configuration, s: System, a: Action)
    requires Safe(cfg, s)
    ensures Safe(cfg, Next(cfg, s, a))
  {
    var s' := Next(cfg, s, a);
    forall id | id in s'.cells ensures CellSafe(ConfigOf(cfg, s'.cells[id]), s'.cells[id]) {
      CellsStep(cfg, s, a, id);
      if id in s.cells {
        CellStaysSafe(ConfigOf(cfg, s.cells[id]), s.now, s.cells[id], Projection(cfg, s, a, id));
      }
    }
  }

  lemma {:induction false} RunsAreSafe(cfg: Configuration, s: System, acts: seq<Action>)
    requires Safe(cfg, s) && Runs(cfg, s, acts)
    ensures Safe(cfg, After(cfg, s, acts))
    decreases |acts|
  {
    if acts != [] {
      StaysSafe(cfg, s, acts[0]);
      RunsAreSafe(cfg, Next(cfg, s, acts[0]), acts[1..]);
    }
  }

  /** Over every interleaving, a delivery reaches its emitter successfully at most once more than it is reclaimed. */
  lemma BoundedDuplication(cfg: Configuration, s: System, acts: seq<Action>, id: DeliveryId)
    requires Initial(s) && Runs(cfg, s, acts) && id in After(cfg, s, acts).cells
    ensures var c := After(cfg, s, acts).cells[id];
            var h := c.history;
            && h.claims == |h.delays| + h.reclaims + (if Occupied(c.row) then 1 else 0)
            && h.emitsOk + h.emitsErr <= h.claims
            && h.emitsOk <= 1 + h.reclaims
  {
    assert Safe(cfg, s);
    RunsAreSafe(cfg, s, acts);
  }

  /** The attempt counter and the terminal states are backed by that many answers of the emitter. */
  lemma HonestFailureAccounting(cfg: Configuration, s: System, acts: seq<Action>, id: DeliveryId)
    requires Initial(s) && Runs(cfg, s, acts) && id in After(cfg, s, acts).cells
    requires !After(cfg, s, acts).cells[id].row.immutable
    ensures var c := After(cfg, s, acts).cells[id];
            var limit := ConfigOf(cfg, c).policy.maxAttempts;
            && 0 <= c.row.attemptCount <= c.history.emitsErr
            && c.row.attemptCount < limit
            && (c.row.state.DeadLettered? ==> c.history.emitsErr >= limit)
            && (c.row.state.Emitted? ==> c.history.emitsOk >= 1)
  {
    assert Safe(cfg, s);
    RunsAreSafe(cfg, s, acts);
  }

  lemma {:induction false} FrozenRowsNeverChange(cfg: Configuration, s: System, acts: seq<Action>, id: DeliveryId)
    requires Safe(cfg, s) && Runs(cfg, s, acts)
    requires id in s.cells
    ensures id in After(cfg, s, acts).cells
    ensures SameIdentity(s.cells[id].row, After(cfg, s, acts).cells[id].row)
    ensures Frozen(s.cells[id].row) ==> After(cfg, s, acts).cells[id].row == s.cells[id].row
    decreases |acts|
  {
    if acts != [] {
      CellsStep(cfg, s, acts[0], id);
      RowKept(ConfigOf(cfg, s.cells[id]), s.now, s.cells[id], Projection(cfg, s, acts[0], id));
      StaysSafe(cfg, s, acts[0]);
      FrozenRowsNeverChange(cfg, Next(cfg, s, acts[0]), acts[1..], id);
    }
  }

  /** What a failed-mark that matches writes: the counter it was handed plus one, and a next attempt that lies one recorded
      delay, as promised for that failure, after the mark. */
  lemma FailedMarkSchedules(k: EmitterConfig, now: Time, c: Cell, s: Snapshot, draw: real, error: string)
    requires CellSafe(k, c) && CellEnabled(k, now, c, MarkedErr(s, draw, error))
    requires c.row.state.InFlight? && s.attempts + 1 < k.policy.maxAttempts
    ensures var c' := CellNext(k, now, c, MarkedErr(s, draw, error));
            && |c'.history.delays| == |c.history.delays| + 1
            && var delay := c'.history.delays[|c.history.delays|];
            && c'.history.delays[..|c.history.delays|] == c.history.delays
            && c'.row == c.row.(state := Failed, attemptCount := s.attempts + 1, nextAttemptAt := now + delay, lastError := Some(error))
            && Fits(delay, s.attempts + 1, k.policy)
  {
    DelayFits(s.attempts + 1, k.policy, draw);
  }

  /** Exactly which step lowers the attempt counter: the failed-mark of a dispatch that is behind the
      row it lands on, which the state guard lets through. */
  lemma AttemptsDropExactly(k: EmitterConfig, now: Time, c: Cell, step: CellStep)
    requires CellSafe(k, c) && CellEnabled(k, now, c, step)
    ensures CellNext(k, now, c, step).row.attemptCount < c.row.attemptCount
       <==> step.MarkedErr? && c.row.state.InFlight? && step.s.attempts + 1 < c.row.attemptCount
  {
  }

  /** With max_attempts of one or two no stale mark can lower the counter; LeaseLimits.StaleMarkLowersAttempts
      shows that from three on one can. */
  lemma {:induction false} TwoAttemptsNeverDecrease(cfg: Configuration, s: System, acts: seq<Action>, id: DeliveryId)
    requires Safe(cfg, s) && Runs(cfg, s, acts) && id in s.cells
    requires ConfigOf(cfg, s.cells[id]).policy.maxAttempts <= 2
    ensures id in After(cfg, s, acts).cells
    ensures After(cfg, s, acts).cells[id].row.attemptCount >= s.cells[id].row.attemptCount
    decreases |acts|
  {
    if acts != [] {
      var c, k, step := s.cells[id], ConfigOf(cfg, s.cells[id]), Projection(cfg, s, acts[0], id);
      CellsStep(cfg, s, acts[0], id);
      RowKept(k, s.now, c, step);
      StaysSafe(cfg, s, acts[0]);
      if step.Some? && CellEnabled(k, s.now, c, step.value) && !c.row.immutable {
        AttemptsDropExactly(k, s.now, c, step.value);
      }
      TwoAttemptsNeverDecrease(cfg, Next(cfg, s, acts[0]), acts[1..], id);
    }
  }
}
