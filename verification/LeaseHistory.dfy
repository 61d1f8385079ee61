/** The history of a delivery is not an account of its own: each counter is the number of times the thing it counts
    happened in the run. The bounds of LeaseSafety are therefore bounds on what a run does. */
module LeaseHistory {
  import opened Wrappers
  import opened State
  import opened Deliveries
  import opened LeaseProtocol
  import opened LeaseSafety

  datatype What = AClaim | AReclaim | ASuccess | AnError | ALoss | AMiss

  // Whether an action, taken in this state, is such a thing for the delivery.
  predicate Happens(cfg: Configuration, s: System, a: Action, id: DeliveryId, what: What) {
    id in s.cells &&
    var r := s.cells[id].row;
    match what
    case AClaim => a.Claim? && id in a.ids
    case AReclaim =>
      && a.Reclaim? && r.emitter == a.emitter && r.state.InFlight? && !r.immutable
      && r.lastAttemptAt.Some? && r.lastAttemptAt.value + cfg(r.emitter).lease < s.now
    case ASuccess => a.Answer? && a.id == id && a.ok
    case AnError => a.Answer? && a.id == id && !a.ok
    case ALoss => (a.Drop? && a.id == id) || (a.Claim? && id in a.ids && !a.handed)
    case AMiss => (a.MarkOk? || a.MarkErr?) && a.id == id && !r.state.InFlight?
  }

  function Count(cfg: Configuration, s: System, acts: seq<Action>, id: DeliveryId, what: What): nat
    decreases |acts|
  {
    if acts == [] then 0
    else (if Happens(cfg, s, acts[0], id, what) then 1 else 0) + Count(cfg, Next(cfg, s, acts[0]), acts[1..], id, what)
  }

  function Noted(h: History, what: What): nat {
    match what
    case AClaim => h.claims
    case AReclaim => h.reclaims
    case ASuccess => h.emitsOk
    case AnError => h.emitsErr
    case ALoss => h.lost
    case AMiss => h.misses
  }

  function NotedOf(s: System, id: DeliveryId, what: What): nat {
    if id in s.cells then Noted(s.cells[id].history, what) else 0
  }

  // Whether a step of the cell is such a thing.
  predicate Is(c: Cell, step: CellStep, what: What) {
    match what
    case AClaim => step.Claimed?
    case AReclaim => step.Reclaimed?
    case ASuccess => step.Answered? && step.ok
    case AnError => step.Answered? && !step.ok
    case ALoss => step.Dropped? || (step.Claimed? && !step.handed)
    case AMiss => (step.MarkedOk? || step.MarkedErr?) && !c.row.state.InFlight?
  }

  lemma CellCounts(k: EmitterConfig, now: Time, c: Cell, step: CellStep, what: What)
    requires CellEnabled(k, now, c, step)
    ensures Noted(CellNext(k, now, c, step).history, what) == Noted(c.history, what) + if Is(c, step, what) then 1 else 0
  {
  }

  lemma HappensIsStep(cfg: Configuration, s: System, a: Action, id: DeliveryId, what: What)
    requires Enabled(cfg, s, a) && id in s.cells
    ensures var step := Projection(cfg, s, a, id);
            Happens(cfg, s, a, id, what) <==> step.Some? && Is(s.cells[id], step.value, what)
  {
  }

  lemma StepCounts(cfg: Configuration, s: System, a: Action, id: DeliveryId, what: What)
    requires Enabled(cfg, s, a)
    ensures NotedOf(Next(cfg, s, a), id, what) == NotedOf(s, id, what) + if Happens(cfg, s, a, id, what) then 1 else 0
  {
    var s' := Next(cfg, s, a);
    if id in s.cells {
      var c, step := s.cells[id], Projection(cfg, s, a, id);
      ProjectionEnabled(cfg, s, a, id);
      CellsStep(cfg, s, a, id);
      HappensIsStep(cfg, s, a, id, what);
      if step.Some? { CellCounts(ConfigOf(cfg, c), s.now, c, step.value, what); }
    } else if id in s'.cells {
      CellsStep(cfg, s, a, id);
    }
  }

  lemma {:induction false} HistoryCounts(cfg: Configuration, s: System, acts: seq<Action>, id: DeliveryId, what: What)
    requires Runs(cfg, s, acts)
    ensures NotedOf(After(cfg, s, acts), id, what) == NotedOf(s, id, what) + Count(cfg, s, acts, id, what)
    decreases |acts|
  {
    if acts != [] {
      StepCounts(cfg, s, acts[0], id, what);
      HistoryCounts(cfg, Next(cfg, s, acts[0]), acts[1..], id, what);
    }
  }

  lemma FromTheStart(cfg: Configuration, s: System, acts: seq<Action>, id: DeliveryId, what: What)
    requires Initial(s) && Runs(cfg, s, acts)
    ensures NotedOf(After(cfg, s, acts), id, what) == Count(cfg, s, acts, id, what)
  {
    HistoryCounts(cfg, s, acts, id, what);
    if id in s.cells { assert Untouched(s.cells[id]); }
  }

  /** Bounded duplication and honest counting, in terms of the run alone: a run has at most one successful answer more for
      a delivery than it has reclaims of it, no more answers than claims, at least as many failures as attempt_count
      shows, and at least max_attempts of them before a dead letter. */
  lemma RunIsBounded(cfg: Configuration, s: System, acts: seq<Action>, id: DeliveryId)
    requires Initial(s) && Runs(cfg, s, acts) && id in After(cfg, s, acts).cells
    ensures Count(cfg, s, acts, id, ASuccess) <= 1 + Count(cfg, s, acts, id, AReclaim)
    ensures Count(cfg, s, acts, id, ASuccess) + Count(cfg, s, acts, id, AnError) <= Count(cfg, s, acts, id, AClaim)
    ensures var r := After(cfg, s, acts).cells[id].row;
            !r.immutable ==>
              && r.attemptCount <= Count(cfg, s, acts, id, AnError)
              && (r.state.DeadLettered? ==> Count(cfg, s, acts, id, AnError) >= cfg(r.emitter).policy.maxAttempts)
              && (r.state.Emitted? ==> Count(cfg, s, acts, id, ASuccess) >= 1)
  {
    BoundedDuplication(cfg, s, acts, id);
    FromTheStart(cfg, s, acts, id, AClaim);
    FromTheStart(cfg, s, acts, id, AReclaim);
    FromTheStart(cfg, s, acts, id, ASuccess);
    FromTheStart(cfg, s, acts, id, AnError);
    if !After(cfg, s, acts).cells[id].row.immutable { HonestFailureAccounting(cfg, s, acts, id); }
  }
}
