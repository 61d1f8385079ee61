/** What the lease does not prevent: runs that reach the duplication bound, and a stale mark that lowers
    the attempt counter. The runs are given on one cell and carried over to the whole system. */
module LeaseLimits {
  import opened Wrappers
  import opened State
  import opened Deliveries
  import opened Backoff
  import opened LeaseProtocol
  import opened LeaseSafety

  datatype Timed = Timed(at: Time, step: CellStep)

  predicate CellRuns(k: EmitterConfig, now: Time, c: Cell, path: seq<Timed>)
    decreases |path|
  {
    path == [] || (
      && path[0].at >= now
      && CellEnabled(k, path[0].at, c, path[0].step)
      && CellRuns(k, path[0].at, CellNext(k, path[0].at, c, path[0].step), path[1..]))
  }

  function CellAfter(k: EmitterConfig, now: Time, c: Cell, path: seq<Timed>): Cell
    requires CellRuns(k, now, c, path)
    decreases |path|
  {
    if path == [] then c
    else CellAfter(k, path[0].at, CellNext(k, path[0].at, c, path[0].step), path[1..])
  }

  function EndOf(now: Time, path: seq<Timed>): Time {
    if path == [] then now else path[|path| - 1].at
  }

  lemma {:induction false} PathsAppend(k: EmitterConfig, now: Time, c: Cell, first: seq<Timed>, second: seq<Timed>)
    requires CellRuns(k, now, c, first) && CellRuns(k, EndOf(now, first), CellAfter(k, now, c, first), second)
    ensures CellRuns(k, now, c, first + second)
    ensures CellAfter(k, now, c, first + second) == CellAfter(k, EndOf(now, first), CellAfter(k, now, c, first), second)
    decreases |first|
  {
    if first == [] {
      assert first + second == second;
    } else {
      var t := first[0];
      assert (first + second)[1..] == first[1..] + second;
      PathsAppend(k, t.at, CellNext(k, t.at, c, t.step), first[1..], second);
    }
  }

  // Going back to back: one step, then a path.
  lemma StepThen(k: EmitterConfig, now: Time, c: Cell, t: Timed, rest: seq<Timed>)
    requires t.at >= now && CellEnabled(k, t.at, c, t.step)
    requires CellRuns(k, t.at, CellNext(k, t.at, c, t.step), rest)
    ensures CellRuns(k, now, c, [t] + rest)
    ensures CellAfter(k, now, c, [t] + rest) == CellAfter(k, t.at, CellNext(k, t.at, c, t.step), rest)
  {
    assert ([t] + rest)[1..] == rest;
  }

  function ActionFor(id: DeliveryId, e: EmitterName, step: CellStep): Action {
    match step
    case Claimed(handed) => Claim(e, 1, {id}, handed)
    case Answered(s, ok) => Answer(id, s, ok)
    case MarkedOk(s) => MarkOk(id, s)
    case MarkedErr(s, draw, error) => MarkErr(id, s, draw, error)
    case Dropped(s, stage) => Drop(id, s, stage)
    case Reclaimed => Reclaim(e)
  }

  function Alone(now: Time, id: DeliveryId, c: Cell): System { System(now, map[id := c]) }

  lemma WaitAlone(cfg: Configuration, now: Time, at: Time, id: DeliveryId, c: Cell)
    requires at >= now
    ensures Enabled(cfg, Alone(now, id, c), Tick(at - now))
    ensures Next(cfg, Alone(now, id, c), Tick(at - now)) == Alone(at, id, c)
  {
    assert Next(cfg, Alone(now, id, c), Tick(at - now)).cells[id] == c;
  }

  lemma StepAlone(cfg: Configuration, now: Time, id: DeliveryId, c: Cell, step: CellStep)
    requires CellEnabled(cfg(c.row.emitter), now, c, step)
    ensures var s, a := Alone(now, id, c), ActionFor(id, c.row.emitter, step);
            Enabled(cfg, s, a) && Next(cfg, s, a) == Alone(now, id, CellNext(cfg(c.row.emitter), now, c, step))
  {
    var s, a := Alone(now, id, c), ActionFor(id, c.row.emitter, step);
    if step.Claimed? {
      assert Due(TableOf(s), c.row.emitter, now) == {id};
    }
    assert Projection(cfg, s, a, id) == Some(step);
    assert Next(cfg, s, a).cells.Keys == {id};
  }

  // The actions lead from one state of the lone delivery to another.
  ghost predicate Carries(cfg: Configuration, s: System, acts: seq<Action>, s': System) {
    Runs(cfg, s, acts) && After(cfg, s, acts) == s'
  }

  lemma TimedAlone(cfg: Configuration, now: Time, id: DeliveryId, c: Cell, t: Timed)
    requires t.at >= now && CellEnabled(cfg(c.row.emitter), t.at, c, t.step)
    ensures Carries(cfg, Alone(now, id, c), [Tick(t.at - now), ActionFor(id, c.row.emitter, t.step)],
                    Alone(t.at, id, CellNext(cfg(c.row.emitter), t.at, c, t.step)))
  {
    WaitAlone(cfg, now, t.at, id, c);
    StepAlone(cfg, t.at, id, c, t.step);
    TwoSteps(cfg, Alone(now, id, c), Tick(t.at - now), ActionFor(id, c.row.emitter, t.step));
  }

  lemma CarriesOn(cfg: Configuration, s: System, first: seq<Action>, s': System, second: seq<Action>, s'': System)
    requires Carries(cfg, s, first, s') && Carries(cfg, s', second, s'')
    ensures Carries(cfg, s, first + second, s'')
  {
    RunsAppend(cfg, s, first, second);
  }

  /** Every path of a cell is a run of a system that holds just that delivery. */
  lemma {:induction false} Lift(cfg: Configuration, now: Time, id: DeliveryId, c: Cell, path: seq<Timed>) returns (acts: seq<Action>)
    requires CellRuns(cfg(c.row.emitter), now, c, path)
    ensures Carries(cfg, Alone(now, id, c), acts, Alone(EndOf(now, path), id, CellAfter(cfg(c.row.emitter), now, c, path)))
    decreases |path|
  {
    acts := [];
    if path != [] {
      var k, t := cfg(c.row.emitter), path[0];
      var c' := CellNext(k, t.at, c, t.step);
      IdentityStays(k, t.at, c, t.step);
      TimedAlone(cfg, now, id, c, t);
      var rest := Lift(cfg, t.at, id, c', path[1..]);
      var first := [Tick(t.at - now), ActionFor(id, c.row.emitter, t.step)];
      CarriesOn(cfg, Alone(now, id, c), first, Alone(t.at, id, c'), rest,
                Alone(EndOf(now, path), id, CellAfter(k, now, c, path)));
      acts := first + rest;
    }
  }

  // All dispatches that are still calling the emitter succeed.
  lemma {:induction false} AllSucceed(k: EmitterConfig, now: Time, c: Cell, n: nat) returns (path: seq<Timed>)
    requires n <= |c.calling|
    ensures CellRuns(k, now, c, path)
    ensures CellAfter(k, now, c, path).history == c.history.(emitsOk := c.history.emitsOk + n)
    decreases n
  {
    path := [];
    if n > 0 {
      var s :| s in c.calling;
      var first := Timed(now, Answered(s, true));
      var c' := CellNext(k, now, c, first.step);
      path := AllSucceed(k, now, c', n - 1);
      StepThen(k, now, c, first, path);
      path := [first] + path;
    }
  }

  // n leases expire while their dispatches are still calling; then every dispatch gets through.
  lemma {:induction false} PileUp(k: EmitterConfig, now: Time, c: Cell, n: nat) returns (path: seq<Timed>)
    requires Claimable(c.row, now)
    ensures CellRuns(k, now, c, path)
    ensures var h := CellAfter(k, now, c, path).history;
            && h.reclaims == c.history.reclaims + n
            && h.emitsOk == c.history.emitsOk + |c.calling| + n + 1
    decreases n
  {
    var claim := Timed(now, Claimed(true));
    var c' := CellNext(k, now, c, claim.step);
    if n == 0 {
      path := AllSucceed(k, now, c', |c'.calling|);
      StepThen(k, now, c, claim, path);
      path := [claim] + path;
    } else {
      var later := now + k.lease + 1.0;
      var steal := Timed(later, Reclaimed);
      var c'' := CellNext(k, later, c', steal.step);
      path := PileUp(k, later, c'', n - 1);
      StepThen(k, now, c', steal, path);
      StepThen(k, now, c, claim, [steal] + path);
      path := [claim] + ([steal] + path);
    }
  }

  /** The duplication bound is reached: for every n a delivery that is reclaimed n times can be emitted n + 1 times. */
  lemma DuplicationBoundIsTight(cfg: Configuration, receipt: ReceiptId, e: EmitterName, n: nat) returns (s: System, acts: seq<Action>)
    ensures Initial(s) && Runs(cfg, s, acts) && 0 in After(cfg, s, acts).cells
    ensures var h := After(cfg, s, acts).cells[0].history;
            h.reclaims == n && h.emitsOk == n + 1
  {
    var c := FreshCell(NewRow(receipt, e, 0.0));
    s := Alone(0.0, 0, c);
    var path := PileUp(cfg(e), 0.0, c, n);
    acts := Lift(cfg, 0.0, 0, c, path);
  }

  // One attempt, made when the row is due, that fails and is marked, while older dispatches are still calling.
  lemma FailOnce(k: EmitterConfig, now: Time, due: Time, c: Cell) returns (path: seq<Timed>, c': Cell)
    requires now <= due && Claimable(c.row, due) && 0 <= c.row.attemptCount && c.row.attemptCount + 1 < k.policy.maxAttempts
    ensures CellRuns(k, now, c, path) && c' == CellAfter(k, now, c, path) && EndOf(now, path) == due
    ensures c'.calling == c.calling && c'.row.emitter == c.row.emitter
    ensures c'.row.attemptCount == c.row.attemptCount + 1
    ensures c'.row.nextAttemptAt >= due && Claimable(c'.row, c'.row.nextAttemptAt)
  {
    var s := Snapshot(c.row.attemptCount, due);
    var claim, answer, mark := Timed(due, Claimed(true)), Timed(due, Answered(s, false)), Timed(due, MarkedErr(s, 0.0, ""));
    var c1 := CellNext(k, due, c, claim.step);
    var c2 := CellNext(k, due, c1, answer.step);
    c' := CellNext(k, due, c2, mark.step);
    BackoffCapped(s.attempts + 1, k.policy, 0.0);
    assert c2.calling == c.calling;
    StepThen(k, due, c2, mark, []);
    StepThen(k, due, c1, answer, [mark] + []);
    StepThen(k, now, c, claim, [answer] + ([mark] + []));
    path := [claim] + ([answer] + ([mark] + []));
  }

  // A dispatch loses its lease, two others fail in turn, a third is under way, and only then the first one fails.
  lemma StalePath(k: EmitterConfig, c: Cell) returns (path: seq<Timed>, c': Cell, stale: Snapshot)
    requires Claimable(c.row, 0.0) && c.row.attemptCount == 0 && k.policy.maxAttempts >= 3
    requires c.calling == multiset{}
    ensures CellRuns(k, 0.0, c, path) && c' == CellAfter(k, 0.0, c, path)
    ensures c'.row.emitter == c.row.emitter && c'.row.state.InFlight? && c'.row.attemptCount == 2
    ensures stale in c'.refused && stale.attempts == 0
  {
    stale := Snapshot(0, 0.0);
    var later := k.lease + 1.0;
    var claim, steal := Timed(0.0, Claimed(true)), Timed(later, Reclaimed);
    var c1 := CellNext(k, 0.0, c, claim.step);
    var c2 := CellNext(k, later, c1, steal.step);
    assert stale in c2.calling;
    var once, c3 := FailOnce(k, later, later, c2);
    var due := c3.row.nextAttemptAt;
    var twice, c4 := FailOnce(k, later, due, c3);
    var due' := c4.row.nextAttemptAt;
    var last := [Timed(due', Claimed(true)), Timed(due', Answered(stale, false))];
    var c5 := CellNext(k, due', c4, last[0].step);
    c' := CellNext(k, due', c5, last[1].step);
    StepThen(k, due', c5, last[1], []);
    StepThen(k, due, c4, last[0], [last[1]] + []);
    path := [last[0]] + ([last[1]] + []);
    PathsAppend(k, later, c3, twice, path);
    PathsAppend(k, later, c2, once, twice + path);
    path := once + (twice + path);
    StepThen(k, 0.0, c1, steal, path);
    StepThen(k, 0.0, c, claim, [steal] + path);
    path := [claim] + ([steal] + path);
  }

  /** attempt_count can go down: the failed-mark of a dispatch that lost its lease lands on its successor's lease. */
  lemma StaleMarkLowersAttempts(cfg: Configuration, receipt: ReceiptId, e: EmitterName)
    returns (s: System, acts: seq<Action>, mark: Action)
    requires cfg(e).policy.maxAttempts >= 3
    ensures Initial(s) && Runs(cfg, s, acts) && Enabled(cfg, After(cfg, s, acts), mark)
    ensures var before := After(cfg, s, acts);
            0 in before.cells && Next(cfg, before, mark).cells[0].row.attemptCount < before.cells[0].row.attemptCount
  {
    var c := FreshCell(NewRow(receipt, e, 0.0));
    s := Alone(0.0, 0, c);
    var path, c', stale := StalePath(cfg(e), c);
    acts := Lift(cfg, 0.0, 0, c, path);
    mark := MarkErr(0, stale, 0.0, "");
    var before := After(cfg, s, acts);
    assert before.cells[0] == c';
    assert Projection(cfg, before, mark, 0) == Some(MarkedErr(stale, 0.0, ""));
  }
}
