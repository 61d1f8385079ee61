/** Runs in which no reclaim takes a row from a live dispatch: at most one dispatch per delivery,
    exact accounting of lost outcomes, and a bound on the number of claims. */
module LeaseOrder {
  import opened Wrappers
  import opened State
  import opened Deliveries
  import opened Backoff
  import opened LeaseProtocol
  import opened LeaseSafety

  function Holder(r: Row): Option<Snapshot> {
    if r.state.InFlight? && r.lastAttemptAt.Some? then Some(Snapshot(r.attemptCount, r.lastAttemptAt.value)) else None
  }

  predicate Idle(c: Cell) {
    c.calling == multiset{} && c.succeeded == multiset{} && c.refused == multiset{}
  }

  function Only(s: Snapshot, here: bool): multiset<Snapshot> {
    if here then multiset{s} else multiset{}
  }

  // One live dispatch, handed exactly the lease and the attempt count that the row shows.
  predicate OwnedBy(c: Cell, s: Snapshot, stage: Stage) {
    && Holder(c.row) == Some(s)
    && c.calling == Only(s, stage.Calling?)
    && c.succeeded == Only(s, stage.Succeeded?)
    && c.refused == Only(s, stage.Refused?)
  }

  ghost predicate Exclusive(c: Cell) {
    Idle(c) || exists s, stage :: OwnedBy(c, s, stage)
  }

  predicate Steals(c: Cell, step: CellStep) {
    step.Reclaimed? && !Idle(c)
  }

  function Orphaned(c: Cell): nat {
    if c.row.state.InFlight? && Idle(c) then 1 else 0
  }

  // What an exclusive history adds up to: every mark matched, the attempt counter is the number of
  // failed-marks, and each lost outcome has been, or still has to be, reclaimed.
  ghost predicate Tallied(k: EmitterConfig, c: Cell) {
    var r, h := c.row, c.history;
    && h.misses == 0
    && h.lost == h.reclaims + Orphaned(c)
    && (!r.immutable ==> r.attemptCount == |h.delays|)
    && h.emitsErr <= |h.delays| + |c.refused| + h.lost + (if !r.immutable && r.state.DeadLettered? then 1 else 0)
    && (!r.immutable && r.state.DeadLettered? ==> r.attemptCount == k.policy.maxAttempts - 1)
    && (forall i: nat :: i < |h.delays| ==> Fits(h.delays[i], i + 1, k.policy))
  }

  lemma Units(s: Snapshot)
    ensures With(multiset{}, s) == multiset{s} && Without(multiset{s}, s) == multiset{}
  {
  }

  /** Exclusive ownership means what it says. */
  lemma AtMostOneDispatch(c: Cell)
    requires Exclusive(c)
    ensures |Live(c)| <= 1
    ensures forall s :: s in Live(c) ==> Holder(c.row) == Some(s)
  {
    if !Idle(c) {
      var s, stage :| OwnedBy(c, s, stage);
      assert Live(c) == multiset{s};
    }
  }

  lemma Owner(c: Cell, s: Snapshot, stage: Stage)
    requires Exclusive(c) && s in At(c, stage)
    ensures OwnedBy(c, s, stage)
  {
    var s', stage' :| OwnedBy(c, s', stage');
  }

  lemma ClaimIsExclusive(k: EmitterConfig, now: Time, c: Cell, handed: bool)
    requires Exclusive(c) && CellEnabled(k, now, c, Claimed(handed))
    ensures var c' := CellNext(k, now, c, Claimed(handed));
            Idle(c) && if handed then OwnedBy(c', Snapshot(c.row.attemptCount, now), Calling) else Idle(c')
  {
    Units(Snapshot(c.row.attemptCount, now));
  }

  lemma AnswerIsExclusive(k: EmitterConfig, now: Time, c: Cell, s: Snapshot, ok: bool)
    requires Exclusive(c) && CellEnabled(k, now, c, Answered(s, ok))
    ensures OwnedBy(c, s, Calling)
    ensures OwnedBy(CellNext(k, now, c, Answered(s, ok)), s, if ok then Succeeded else Refused)
  {
    Owner(c, s, Calling);
    Units(s);
  }

  predicate Ends(step: CellStep) {
    step.MarkedOk? || step.MarkedErr? || step.Dropped?
  }

  function StageOf(step: CellStep): Stage
    requires Ends(step)
  {
    match step
    case MarkedOk(_) => Succeeded
    case MarkedErr(_, _, _) => Refused
    case Dropped(_, stage) => stage
  }

  lemma EndIsExclusive(k: EmitterConfig, now: Time, c: Cell, step: CellStep)
    requires Ends(step) && Exclusive(c) && CellEnabled(k, now, c, step)
    ensures OwnedBy(c, step.s, StageOf(step))
    ensures Idle(CellNext(k, now, c, step))
  {
    Owner(c, step.s, StageOf(step));
    Units(step.s);
  }

  /** The only step that ends exclusive ownership is a reclaim of a row whose dispatch is still live. */
  lemma ExclusionEndsExactly(k: EmitterConfig, now: Time, c: Cell, step: CellStep)
    requires Exclusive(c) && CellEnabled(k, now, c, step)
    ensures Exclusive(CellNext(k, now, c, step)) <==> !Steals(c, step)
  {
    match step
    case Claimed(handed) => ClaimIsExclusive(k, now, c, handed);
    case Answered(s, ok) => AnswerIsExclusive(k, now, c, s, ok);
    case Reclaimed =>
    case _ => EndIsExclusive(k, now, c, step);
  }

  ghost predicate StepTallies(k: EmitterConfig, now: Time, c: Cell, step: CellStep)
    requires CellEnabled(k, now, c, step)
  {
    var c' := CellNext(k, now, c, step);
    Tallied(k, c') && (!c.row.immutable ==> c'.row.attemptCount >= c.row.attemptCount)
  }

  lemma ClaimTallies(k: EmitterConfig, now: Time, c: Cell, handed: bool)
    requires CellSafe(k, c) && Exclusive(c) && Tallied(k, c)
    requires CellEnabled(k, now, c, Claimed(handed))
    ensures StepTallies(k, now, c, Claimed(handed))
  {
    ClaimIsExclusive(k, now, c, handed);
  }

  lemma AnswerTallies(k: EmitterConfig, now: Time, c: Cell, s: Snapshot, ok: bool)
    requires CellSafe(k, c) && Exclusive(c) && Tallied(k, c)
    requires CellEnabled(k, now, c, Answered(s, ok))
    ensures StepTallies(k, now, c, Answered(s, ok))
  {
    AnswerIsExclusive(k, now, c, s, ok);
  }

  lemma MarkOkTallies(k: EmitterConfig, now: Time, c: Cell, s: Snapshot)
    requires CellSafe(k, c) && Exclusive(c) && Tallied(k, c)
    requires CellEnabled(k, now, c, MarkedOk(s))
    ensures StepTallies(k, now, c, MarkedOk(s))
  {
    EndIsExclusive(k, now, c, MarkedOk(s));
  }

  lemma MarkErrTallies(k: EmitterConfig, now: Time, c: Cell, s: Snapshot, draw: real, error: string)
    requires CellSafe(k, c) && Exclusive(c) && Tallied(k, c)
    requires CellEnabled(k, now, c, MarkedErr(s, draw, error))
    ensures StepTallies(k, now, c, MarkedErr(s, draw, error))
  {
    EndIsExclusive(k, now, c, MarkedErr(s, draw, error));
    if s.attempts + 1 < k.policy.maxAttempts {
      DelayFits(s.attempts + 1, k.policy, draw);
    }
  }

  lemma DropTallies(k: EmitterConfig, now: Time, c: Cell, s: Snapshot, stage: Stage)
    requires CellSafe(k, c) && Exclusive(c) && Tallied(k, c)
    requires CellEnabled(k, now, c, Dropped(s, stage))
    ensures StepTallies(k, now, c, Dropped(s, stage))
  {
    EndIsExclusive(k, now, c, Dropped(s, stage));
  }

  lemma ReclaimTallies(k: EmitterConfig, now: Time, c: Cell)
    requires CellSafe(k, c) && Exclusive(c) && Tallied(k, c)
    requires CellEnabled(k, now, c, Reclaimed) && Idle(c)
    ensures StepTallies(k, now, c, Reclaimed)
  {
  }

  lemma StaysTallied(k: EmitterConfig, now: Time, c: Cell, step: CellStep)
    requires CellSafe(k, c) && Exclusive(c) && Tallied(k, c)
    requires CellEnabled(k, now, c, step) && !Steals(c, step)
    ensures StepTallies(k, now, c, step)
  {
    match step
    case Claimed(handed) => ClaimTallies(k, now, c, handed);
    case Answered(s, ok) => AnswerTallies(k, now, c, s, ok);
    case MarkedOk(s) => MarkOkTallies(k, now, c, s);
    case MarkedErr(s, draw, error) => MarkErrTallies(k, now, c, s, draw, error);
    case Dropped(s, stage) => DropTallies(k, now, c, s, stage);
    case Reclaimed => ReclaimTallies(k, now, c);
  }

  ghost predicate CellOrderly(k: EmitterConfig, c: Cell) {
    CellSafe(k, c) && Exclusive(c) && Tallied(k, c)
  }

  ghost predicate Orderly(cfg: Configuration, s: System) {
    forall id :: id in s.cells ==> CellOrderly(ConfigOf(cfg, s.cells[id]), s.cells[id])
  }

  // No reclaim takes a row away from a live dispatch.
  ghost predicate NoTheft(cfg: Configuration, s: System, a: Action) {
    a.Reclaim? ==> forall id :: id in s.cells && s.cells[id].row.emitter == a.emitter ==>
      Expired(s.cells[id].row, cfg(a.emitter).lease, s.now) ==> Idle(s.cells[id])
  }

  ghost predicate OrderlyRuns(cfg: Configuration, s: System, acts: seq<Action>)
    decreases |acts|
  {
    acts == [] || (Enabled(cfg, s, acts[0]) && NoTheft(cfg, s, acts[0]) && OrderlyRuns(cfg, Next(cfg, s, acts[0]), acts[1..]))
  }

  lemma CellStaysOrderly(cfg: Configuration, s: System, a: Action, id: DeliveryId)
    requires id in s.cells && CellOrderly(ConfigOf(cfg, s.cells[id]), s.cells[id])
    requires NoTheft(cfg, s, a)
    ensures var c, c', k := s.cells[id], Next(cfg, s, a).cells[id], ConfigOf(cfg, s.cells[id]);
            CellOrderly(k, c') && SameIdentity(c.row, c'.row) && (!c.row.immutable ==> c'.row.attemptCount >= c.row.attemptCount)
  {
    CellsStep(cfg, s, a, id);
    AppliedStaysOrderly(ConfigOf(cfg, s.cells[id]), s.now, s.cells[id], Projection(cfg, s, a, id));
  }

  lemma AppliedStaysOrderly(k: EmitterConfig, now: Time, c: Cell, step: Option<CellStep>)
    requires CellOrderly(k, c)
    requires step.Some? && CellEnabled(k, now, c, step.value) ==> !Steals(c, step.value)
    ensures var c' := Applied(k, now, c, step);
            CellOrderly(k, c') && SameIdentity(c.row, c'.row) && (!c.row.immutable ==> c'.row.attemptCount >= c.row.attemptCount)
  {
    CellStaysSafe(k, now, c, step);
    if step.Some? && CellEnabled(k, now, c, step.value) {
      ExclusionEndsExactly(k, now, c, step.value);
      StaysTallied(k, now, c, step.value);
    }
  }

  lemma StaysOrderly(cfg: Configuration, s: System, a: Action)
    requires Orderly(cfg, s) && NoTheft(cfg, s, a)
    ensures Orderly(cfg, Next(cfg, s, a))
  {
    var s' := Next(cfg, s, a);
    forall id | id in s'.cells ensures CellOrderly(ConfigOf(cfg, s'.cells[id]), s'.cells[id]) {
      if id in s.cells {
        CellStaysOrderly(cfg, s, a, id);
      } else {
        CellsStep(cfg, s, a, id);
      }
    }
  }

  lemma {:induction false} OrderlyRunsStayOrderly(cfg: Configuration, s: System, acts: seq<Action>)
    requires Orderly(cfg, s) && OrderlyRuns(cfg, s, acts)
    ensures Runs(cfg, s, acts) && Orderly(cfg, After(cfg, s, acts))
    decreases |acts|
  {
    if acts != [] {
      StaysOrderly(cfg, s, acts[0]);
      OrderlyRunsStayOrderly(cfg, Next(cfg, s, acts[0]), acts[1..]);
    }
  }

  lemma InitiallyOrderly(cfg: Configuration, s: System)
    requires Initial(s)
    ensures Orderly(cfg, s)
  {
  }

  /** Lease mutual exclusion: one live dispatch at most, its row in flight with the very lease and
      attempt count it was handed, and no mark that ever matched no row. */
  lemma MutualExclusion(cfg: Configuration, s: System, acts: seq<Action>, id: DeliveryId)
    requires Initial(s) && OrderlyRuns(cfg, s, acts) && id in After(cfg, s, acts).cells
    ensures var c := After(cfg, s, acts).cells[id];
            && |Live(c)| <= 1
            && (forall snap :: snap in Live(c) ==> Holder(c.row) == Some(snap))
            && c.history.misses == 0
  {
    InitiallyOrderly(cfg, s);
    OrderlyRunsStayOrderly(cfg, s, acts);
    AtMostOneDispatch(After(cfg, s, acts).cells[id]);
  }

  lemma {:induction false} AttemptsNeverDecrease(cfg: Configuration, s: System, acts: seq<Action>, id: DeliveryId)
    requires Orderly(cfg, s) && OrderlyRuns(cfg, s, acts)
    requires id in s.cells && !s.cells[id].row.immutable
    ensures id in After(cfg, s, acts).cells
    ensures After(cfg, s, acts).cells[id].row.attemptCount >= s.cells[id].row.attemptCount
    decreases |acts|
  {
    if acts != [] {
      CellStaysOrderly(cfg, s, acts[0], id);
      StaysOrderly(cfg, s, acts[0]);
      AttemptsNeverDecrease(cfg, Next(cfg, s, acts[0]), acts[1..], id);
    }
  }

  /** Termination measure: whatever the emitter answers, a delivery is claimed at most max_attempts times
      plus once per lost outcome, and once fewer while it is still waiting for another attempt. */
  lemma ClaimsBounded(cfg: Configuration, s: System, acts: seq<Action>, id: DeliveryId)
    requires Initial(s) && OrderlyRuns(cfg, s, acts) && id in After(cfg, s, acts).cells
    requires !After(cfg, s, acts).cells[id].row.immutable
    ensures var c := After(cfg, s, acts).cells[id];
            var h, limit := c.history, ConfigOf(cfg, c).policy.maxAttempts;
            && h.claims == c.row.attemptCount + h.reclaims + (if Occupied(c.row) then 1 else 0)
            && h.lost == h.reclaims + Orphaned(c)
            && h.claims + (if Occupied(c.row) then 0 else 1) <= limit + h.lost
            && h.emitsOk <= 1 + h.lost
            && (c.row.state.DeadLettered? ==> limit <= h.emitsErr <= limit + h.lost)
  {
    InitiallyOrderly(cfg, s);
    OrderlyRunsStayOrderly(cfg, s, acts);
    if Idle(After(cfg, s, acts).cells[id]) {}
  }

  function Sum(delays: seq<real>): real {
    if delays == [] then 0.0 else Sum(delays[..|delays| - 1]) + delays[|delays| - 1]
  }

  // n full backoffs, one after the other.
  function Repeated(cap: real, n: nat): real {
    if n == 0 then 0.0 else Repeated(cap, n - 1) + cap
  }

  lemma {:induction false} DelaysBounded(delays: seq<real>, cap: real, n: nat)
    requires |delays| <= n && cap >= 0.0
    requires forall i :: 0 <= i < |delays| ==> delays[i] <= cap
    ensures Sum(delays) <= Repeated(cap, n)
    decreases n
  {
    if n > 0 {
      if delays == [] {
        DelaysBounded(delays, cap, n - 1);
      } else {
        DelaysBounded(delays[..|delays| - 1], cap, n - 1);
      }
    }
  }

  /** The delays scheduled before a delivery ends add up to at most max_attempts - 1 full backoffs. */
  lemma TotalBackoffBounded(cfg: Configuration, s: System, acts: seq<Action>, id: DeliveryId)
    requires Initial(s) && OrderlyRuns(cfg, s, acts) && id in After(cfg, s, acts).cells
    requires !After(cfg, s, acts).cells[id].row.immutable
    ensures var c := After(cfg, s, acts).cells[id];
            Sum(c.history.delays) <= Repeated(ConfigOf(cfg, c).policy.maxBackoff, ConfigOf(cfg, c).policy.maxAttempts - 1)
  {
    InitiallyOrderly(cfg, s);
    OrderlyRunsStayOrderly(cfg, s, acts);
    var c := After(cfg, s, acts).cells[id];
    DelaysBounded(c.history.delays, ConfigOf(cfg, c).policy.maxBackoff, ConfigOf(cfg, c).policy.maxAttempts - 1);
  }

  /** The backoff schedule: the delay scheduled after the i-th failure of a delivery is the one documented for it. */
  lemma BackoffSchedule(cfg: Configuration, s: System, acts: seq<Action>, id: DeliveryId, i: nat)
    requires Initial(s) && OrderlyRuns(cfg, s, acts) && id in After(cfg, s, acts).cells
    requires i < |After(cfg, s, acts).cells[id].history.delays|
    ensures var c := After(cfg, s, acts).cells[id];
            Fits(c.history.delays[i], i + 1, ConfigOf(cfg, c).policy)
  {
    InitiallyOrderly(cfg, s);
    OrderlyRunsStayOrderly(cfg, s, acts);
  }

  // Every live dispatch is still within the lease it was handed.
  ghost predicate Timely(cfg: Configuration, s: System) {
    forall id, snap :: id in s.cells && snap in Live(s.cells[id]) ==>
      s.now - ConfigOf(cfg, s.cells[id]).lease <= snap.claimedAt
  }

  ghost predicate TimelyRuns(cfg: Configuration, s: System, acts: seq<Action>)
    decreases |acts|
  {
    Timely(cfg, s) && (acts == [] || (Enabled(cfg, s, acts[0]) && TimelyRuns(cfg, Next(cfg, s, acts[0]), acts[1..])))
  }

  /** If every dispatch marks or dies within its lease, no reclaim ever steals: the lease works for any number of workers. */
  lemma {:induction false} TimelyRunsAreOrderly(cfg: Configuration, s: System, acts: seq<Action>)
    requires Orderly(cfg, s) && TimelyRuns(cfg, s, acts)
    ensures OrderlyRuns(cfg, s, acts)
    decreases |acts|
  {
    if acts != [] {
      NoTimelyTheft(cfg, s, acts[0]);
      StaysOrderly(cfg, s, acts[0]);
      TimelyRunsAreOrderly(cfg, Next(cfg, s, acts[0]), acts[1..]);
    }
  }

  lemma NoTimelyTheft(cfg: Configuration, s: System, a: Action)
    requires Orderly(cfg, s) && Timely(cfg, s)
    ensures NoTheft(cfg, s, a)
  {
    forall id | id in s.cells && a.Reclaim? && s.cells[id].row.emitter == a.emitter
      ensures Expired(s.cells[id].row, cfg(a.emitter).lease, s.now) ==> Idle(s.cells[id])
    {
      var c := s.cells[id];
      if !Idle(c) {
        var snap, stage :| OwnedBy(c, snap, stage);
        assert snap in Live(c);
      }
    }
  }
}
