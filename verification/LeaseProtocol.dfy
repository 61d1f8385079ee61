/** The delivery lease protocol: any number of workers claim, emit, mark and reclaim rows of one table.
    A delivery together with the dispatches that hold a claim on it is a cell; the system is a table of cells. */
module LeaseProtocol {
  import opened Wrappers
  import opened State
  import opened Deliveries
  import opened Backoff

  // What a dispatch remembers of the row it claimed.
  datatype Snapshot = Snapshot(attempts: int, claimedAt: Time)

  datatype Stage = Calling | Succeeded | Refused

  // What happened to a delivery so far. `lost` counts outcomes that never reached the table although a
  // dispatch existed: a crash, a mark that failed with a database error, a receipt fetch that failed
  // after the claim had committed. `misses` counts marks that matched no row. `delays` lists the
  // retry delays of the failed-marks that did match.
  datatype History = History(
    claims: nat,
    reclaims: nat,
    emitsOk: nat,
    emitsErr: nat,
    lost: nat,
    misses: nat,
    delays: seq<real>)

  // The row, and its live dispatches by how far they have come: waiting for the emitter,
  // holding its success, holding its error.
  datatype Cell = Cell(
    row: Row,
    calling: multiset<Snapshot>,
    succeeded: multiset<Snapshot>,
    refused: multiset<Snapshot>,
    history: History)

  const NOTHING_YET := History(0, 0, 0, 0, 0, 0, [])

  function FreshCell(r: Row): Cell {
    Cell(r, multiset{}, multiset{}, multiset{}, NOTHING_YET)
  }

  function At(c: Cell, stage: Stage): multiset<Snapshot> {
    match stage
    case Calling => c.calling
    case Succeeded => c.succeeded
    case Refused => c.refused
  }

  function With(m: multiset<Snapshot>, s: Snapshot): multiset<Snapshot> { m[s := m[s] + 1] }

  function Without(m: multiset<Snapshot>, s: Snapshot): multiset<Snapshot>
    requires s in m
  {
    m[s := m[s] - 1]
  }

  function Live(c: Cell): multiset<Snapshot> {
    c.calling + c.succeeded + c.refused
  }

  datatype CellStep =
    | Claimed(handed: bool)
    | Answered(s: Snapshot, ok: bool)
    | MarkedOk(s: Snapshot)
    | MarkedErr(s: Snapshot, draw: real, error: string)
    | Dropped(s: Snapshot, stage: Stage)
    | Reclaimed

  predicate CellEnabled(k: EmitterConfig, now: Time, c: Cell, step: CellStep) {
    match step
    case Claimed(_) => Claimable(c.row, now)
    case Answered(s, _) => s in c.calling
    case MarkedOk(s) => s in c.succeeded
    case MarkedErr(s, draw, _) => s in c.refused && 0.0 <= draw < 1.0
    case Dropped(s, stage) => s in At(c, stage)
    case Reclaimed => Expired(c.row, k.lease, now)
  }

  function Missed(c: Cell): nat { if c.row.state == InFlight then 0 else 1 }

  function CellNext(k: EmitterConfig, now: Time, c: Cell, step: CellStep): Cell
    requires CellEnabled(k, now, c, step)
  {
    var h := c.history;
    match step
    case Claimed(handed) =>
      var c' := c.(row := ClaimRow(c.row, now));
      if handed
      then c'.(calling := With(c.calling, Snapshot(c.row.attemptCount, now)), history := h.(claims := h.claims + 1))
      else c'.(history := h.(claims := h.claims + 1, lost := h.lost + 1))
    case Answered(s, ok) =>
      var c' := c.(calling := Without(c.calling, s));
      if ok
      then c'.(succeeded := With(c.succeeded, s), history := h.(emitsOk := h.emitsOk + 1))
      else c'.(refused := With(c.refused, s), history := h.(emitsErr := h.emitsErr + 1))
    case MarkedOk(s) =>
      c.(row := EmittedRow(c.row, now), succeeded := Without(c.succeeded, s),
         history := h.(misses := h.misses + Missed(c)))
    case MarkedErr(s, draw, error) =>
      var c' := c.(refused := Without(c.refused, s));
      var attempt := s.attempts + 1;
      if attempt >= k.policy.maxAttempts then
        c'.(row := DeadLetteredRow(c.row, error), history := h.(misses := h.misses + Missed(c)))
      else
        var delay := RetryDelay(attempt, k.policy, draw);
        c'.(row := FailedRow(c.row, attempt, now + delay, error),
            history := h.(misses := h.misses + Missed(c),
                          delays := if c.row.state == InFlight then h.delays + [delay] else h.delays))
    case Dropped(s, stage) =>
      var c' := c.(history := h.(lost := h.lost + 1));
      (match stage
       case Calling => c'.(calling := Without(c.calling, s))
       case Succeeded => c'.(succeeded := Without(c.succeeded, s))
       case Refused => c'.(refused := Without(c.refused, s)))
    case Reclaimed =>
      c.(row := ReclaimRow(c.row, now), history := h.(reclaims := h.reclaims + 1))
  }

  datatype System = System(now: Time, cells: map<DeliveryId, Cell>)

  function TableOf(s: System): Table {
    map id | id in s.cells :: s.cells[id].row
  }

  // One atomic step: time passes, a statement or transaction commits, an emitter answers, or an outcome is lost.
  datatype Action =
    | Tick(elapsed: real)
    | Insert(receipt: ReceiptId, targets: map<DeliveryId, EmitterName>)
    | Claim(emitter: EmitterName, batch: nat, ids: set<DeliveryId>, handed: bool)
    | Answer(id: DeliveryId, s: Snapshot, ok: bool)
    | MarkOk(id: DeliveryId, s: Snapshot)
    | MarkErr(id: DeliveryId, s: Snapshot, draw: real, error: string)
    | Drop(id: DeliveryId, s: Snapshot, stage: Stage)
    | Reclaim(emitter: EmitterName)

  ghost predicate Enabled(cfg: Configuration, s: System, a: Action) {
    match a
    case Tick(elapsed) => elapsed >= 0.0
    case Insert(_, targets) => targets.Keys !! s.cells.Keys
    case Claim(e, batch, ids, _) => IsBatch(TableOf(s), e, batch, s.now, ids)
    case Reclaim(e) => true
    case _ => a.id in s.cells && CellEnabled(ConfigOf(cfg, s.cells[a.id]), s.now, s.cells[a.id], StepOf(a))
  }

  function ConfigOf(cfg: Configuration, c: Cell): EmitterConfig { cfg(c.row.emitter) }

  predicate Takes(a: Action, id: DeliveryId) { a.Claim? && id in a.ids }

  predicate OnOneCell(a: Action) { a.Answer? || a.MarkOk? || a.MarkErr? || a.Drop? }

  function StepOf(a: Action): CellStep
    requires OnOneCell(a)
  {
    match a
    case Answer(_, s, ok) => Answered(s, ok)
    case MarkOk(_, s) => MarkedOk(s)
    case MarkErr(_, s, draw, error) => MarkedErr(s, draw, error)
    case Drop(_, s, stage) => Dropped(s, stage)
  }

  // The step an action takes on one existing cell, if it touches it at all.
  function Projection(cfg: Configuration, s: System, a: Action, id: DeliveryId): Option<CellStep>
    requires id in s.cells
  {
    var c := s.cells[id];
    match a
    case Tick(_) => None
    case Insert(_, _) => None
    case Claim(_, _, ids, handed) => if id in ids then Some(Claimed(handed)) else None
    case Reclaim(e) => if c.row.emitter == e && Expired(c.row, ConfigOf(cfg, c).lease, s.now) then Some(Reclaimed) else None
    case _ => if a.id == id then Some(StepOf(a)) else None
  }

  function Applied(k: EmitterConfig, now: Time, c: Cell, step: Option<CellStep>): Cell {
    if step.Some? && CellEnabled(k, now, c, step.value) then CellNext(k, now, c, step.value) else c
  }

  lemma ProjectionEnabled(cfg: Configuration, s: System, a: Action, id: DeliveryId)
    requires Enabled(cfg, s, a) && id in s.cells
    ensures var step := Projection(cfg, s, a, id);
            step.Some? ==> CellEnabled(ConfigOf(cfg, s.cells[id]), s.now, s.cells[id], step.value)
  {
  }

  // Defined for every action, meant for enabled ones.
  function Next(cfg: Configuration, s: System, a: Action): System {
    var stepped := map id | id in s.cells ::
      Applied(ConfigOf(cfg, s.cells[id]), s.now, s.cells[id], Projection(cfg, s, a, id));
    match a
    case Tick(elapsed) => System(s.now + elapsed, stepped)
    case Insert(receipt, targets) =>
      System(s.now, (map id | id in targets :: FreshCell(NewRow(receipt, targets[id], s.now))) + stepped)
    case _ => System(s.now, stepped)
  }

  ghost predicate Runs(cfg: Configuration, s: System, acts: seq<Action>)
    decreases |acts|
  {
    acts == [] || (Enabled(cfg, s, acts[0]) && Runs(cfg, Next(cfg, s, acts[0]), acts[1..]))
  }

  function After(cfg: Configuration, s: System, acts: seq<Action>): System
    decreases |acts|
  {
    if acts == [] then s else After(cfg, Next(cfg, s, acts[0]), acts[1..])
  }

  // No delivery has been worked on yet: every row is new, or was backfilled by the migration.
  predicate Untouched(c: Cell) {
    c == FreshCell(c.row) && if c.row.immutable then c.row.state != InFlight else c.row.state == Pending && c.row.attemptCount == 0
  }

  ghost predicate Initial(s: System) {
    forall id :: id in s.cells ==> Untouched(s.cells[id])
  }

  // What the statement behind an action does to the table.
  function Statement(cfg: Configuration, t: Table, now: Time, a: Action): Table
    requires OnOneCell(a) ==> a.id in t
  {
    match a
    case Tick(_) => t
    case Insert(receipt, targets) => InsertRows(t, receipt, targets, now)
    case Claim(_, _, ids, _) => ClaimRows(t, ids, now)
    case Reclaim(e) => ReclaimRows(t, e, cfg(e).lease, now)
    case Answer(_, _, _) => t
    case Drop(_, _, _) => t
    case MarkOk(id, _) => t[id := EmittedRow(t[id], now)]
    case MarkErr(id, snap, draw, error) =>
      var p, attempt := cfg(t[id].emitter).policy, snap.attempts + 1;
      t[id := if attempt >= p.maxAttempts then DeadLetteredRow(t[id], error)
              else FailedRow(t[id], attempt, now + RetryDelay(attempt, p, draw), error)]
  }

  /** The table after an action is what the corresponding SQL statement makes of the table before it. */
  lemma StepIsStatement(cfg: Configuration, s: System, a: Action)
    requires Enabled(cfg, s, a)
    ensures TableOf(Next(cfg, s, a)) == Statement(cfg, TableOf(s), s.now, a)
  {
    SameRows(cfg, s, a);
    forall id | id in s.cells
      ensures TableOf(Next(cfg, s, a))[id] == Statement(cfg, TableOf(s), s.now, a)[id]
    {
      RowStep(cfg, s, a, id);
    }
    NewRows(cfg, s, a);
  }

  lemma NewRows(cfg: Configuration, s: System, a: Action)
    requires Enabled(cfg, s, a)
    ensures forall id :: id in Next(cfg, s, a).cells && id !in s.cells ==>
      TableOf(Next(cfg, s, a))[id] == Statement(cfg, TableOf(s), s.now, a)[id]
  {
  }

  lemma SameRows(cfg: Configuration, s: System, a: Action)
    requires OnOneCell(a) ==> a.id in s.cells
    ensures TableOf(Next(cfg, s, a)).Keys == Statement(cfg, TableOf(s), s.now, a).Keys
    ensures s.cells.Keys <= Next(cfg, s, a).cells.Keys
  {
  }

  lemma RowStep(cfg: Configuration, s: System, a: Action, id: DeliveryId)
    requires Enabled(cfg, s, a) && id in s.cells
    ensures Statement(cfg, TableOf(s), s.now, a)[id] == Next(cfg, s, a).cells[id].row
  {
    ProjectionEnabled(cfg, s, a, id);
    var c, k := s.cells[id], ConfigOf(cfg, s.cells[id]);
    var step := Projection(cfg, s, a, id);
    assert Next(cfg, s, a).cells[id] == Applied(k, s.now, c, step);
    match a
    case Claim(_, _, ids, _) => assert TableOf(s)[id] == c.row;
    case Reclaim(e) => assert TableOf(s)[id] == c.row;
    case _ =>
  }

  /** Running two action lists one after the other. */
  lemma {:induction false} RunsAppend(cfg: Configuration, s: System, first: seq<Action>, second: seq<Action>)
    requires Runs(cfg, s, first) && Runs(cfg, After(cfg, s, first), second)
    ensures Runs(cfg, s, first + second)
    ensures After(cfg, s, first + second) == After(cfg, After(cfg, s, first), second)
    decreases |first|
  {
    if first == [] {
      assert first + second == second;
    } else {
      assert (first + second)[1..] == first[1..] + second;
      RunsAppend(cfg, Next(cfg, s, first[0]), first[1..], second);
    }
  }

  lemma TwoSteps(cfg: Configuration, s: System, a: Action, b: Action)
    requires Enabled(cfg, s, a) && Enabled(cfg, Next(cfg, s, a), b)
    ensures Runs(cfg, s, [a, b]) && After(cfg, s, [a, b]) == Next(cfg, Next(cfg, s, a), b)
  {
    assert [a, b][1..] == [b] && [b][1..] == [];
    assert Runs(cfg, Next(cfg, s, a), [b]);
    assert After(cfg, Next(cfg, s, a), [b]) == Next(cfg, Next(cfg, s, a), b);
  }

  // How a claim ends for the worker: with rows, with its rows leased but a receipt that could not be fetched, or not at all.
  datatype ClaimReply = RowsCame | ReceiptLost | QueryFailed

  // The first part of a pass of the worker's loop: a reclaim, and a claim also when the reclaim failed.
  function Leasing(e: EmitterName, batch: nat, reclaimed: bool, reply: ClaimReply, ids: set<DeliveryId>): seq<Action> {
    (if reclaimed then [Reclaim(e)] else []) + (if reply.QueryFailed? then [] else [Claim(e, batch, ids, reply.RowsCame?)])
  }

  lemma OneStep(cfg: Configuration, s: System, a: Action)
    requires Enabled(cfg, s, a)
    ensures Runs(cfg, s, [a]) && After(cfg, s, [a]) == Next(cfg, s, a)
  {
    assert [a][1..] == [];
  }
}
