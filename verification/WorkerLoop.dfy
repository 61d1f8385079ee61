/** One worker per configured emitter: the loop of `EmitterWorker::spawn`, its shutdown watch, and the
    lease protocol it drives. With a single worker per emitter the lease needs no timing assumption. */
module WorkerLoop {
  import opened Wrappers
  import opened State
  import opened Deliveries
  import opened LeaseProtocol
  import opened LeaseSafety
  import opened LeaseOrder

  // The watch channel: its value, and how often it has been sent to.
  datatype Watch = Watch(value: bool, version: nat)

  // Where a worker is in its loop. `quiet` says that the select! was entered with no unseen change,
  // so that the sleep can still win; with an unseen change the change is taken at once.
  datatype Phase = Waiting(quiet: bool) | Reclaiming | Claiming | Dispatching | Stopped

  // `seen` is the version the receiver has marked as seen; `cycles` counts the reclaim-claim-dispatch
  // cycles begun since shutdown was requested.
  datatype Worker = Worker(phase: Phase, seen: nat, cycles: nat)

  datatype World = World(sys: System, workers: map<EmitterName, Worker>, watch: Watch)

  // A crash, of the process or of one worker task, is the loss of its dispatches followed by Restarted or Panicked.
  datatype Move =
    | TimePasses(elapsed: real)
    | RowsInserted(receipt: ReceiptId, targets: map<DeliveryId, EmitterName>)
    | ShutdownSent
    | Restarted
    | SleepEnds(e: EmitterName)
    | ChangeSeen(e: EmitterName)
    | ReclaimRan(e: EmitterName)
    | ReclaimFailed(e: EmitterName)
    | ClaimRan(e: EmitterName, ids: set<DeliveryId>, handed: bool)
    | ClaimFailed(e: EmitterName)
    | DispatchStep(a: Action)
    | BatchJoined(e: EmitterName)
    | Panicked(e: EmitterName)

  predicate OfWorker(m: Move) {
    m.SleepEnds? || m.ChangeSeen? || m.ReclaimRan? || m.ReclaimFailed? || m.ClaimRan? || m.ClaimFailed? || m.BatchJoined? || m.Panicked?
  }

  function LiveOf(s: System, e: EmitterName): set<DeliveryId> {
    set id | id in s.cells && s.cells[id].row.emitter == e && !Idle(s.cells[id])
  }

  // What a move does to the shared table and the dispatches.
  function ActionOf(cfg: Configuration, m: Move): Option<Action> {
    match m
    case TimePasses(elapsed) => Some(Tick(elapsed))
    case RowsInserted(receipt, targets) => Some(Insert(receipt, targets))
    case ReclaimRan(e) => Some(Reclaim(e))
    case ClaimRan(e, ids, handed) => Some(Claim(e, cfg(e).concurrency, ids, handed))
    case DispatchStep(a) => Some(a)
    case _ => None
  }

  ghost predicate Ready(cfg: Configuration, w: World, m: Move) {
    && (OfWorker(m) ==> m.e in w.workers)
    && (ActionOf(cfg, m).Some? ==> Enabled(cfg, w.sys, ActionOf(cfg, m).value))
    && match m
       case SleepEnds(e) => w.workers[e].phase == Waiting(true)
       case ChangeSeen(e) => w.workers[e].phase.Waiting? && w.workers[e].seen != w.watch.version
       case ReclaimRan(e) => w.workers[e].phase == Reclaiming
       case ReclaimFailed(e) => w.workers[e].phase == Reclaiming
       case ClaimRan(e, _, _) => w.workers[e].phase == Claiming
       case ClaimFailed(e) => w.workers[e].phase == Claiming
       case BatchJoined(e) => w.workers[e].phase == Dispatching && LiveOf(w.sys, e) == {}
       case Panicked(e) => LiveOf(w.sys, e) == {}
       case DispatchStep(a) => OnOneCell(a)
       case Restarted => forall id :: id in w.sys.cells ==> Idle(w.sys.cells[id])
       case _ => true
  }

  // `continue` and falling off the loop body both re-enter the select!.
  function Select(worker: Worker, watch: Watch): Worker {
    worker.(phase := Waiting(worker.seen == watch.version))
  }

  function BeginCycle(worker: Worker, watch: Watch): Worker {
    worker.(phase := Reclaiming, cycles := if watch.value then worker.cycles + 1 else worker.cycles)
  }

  function WorkerNext(worker: Worker, watch: Watch, m: Move): Worker
    requires OfWorker(m)
  {
    match m
    case SleepEnds(_) => BeginCycle(worker, watch)
    case ChangeSeen(_) =>
      var marked := worker.(seen := watch.version);
      if watch.value then marked.(phase := Stopped) else BeginCycle(marked, watch)
    case ReclaimRan(_) => worker.(phase := Claiming)
    case ReclaimFailed(_) => worker.(phase := Claiming)
    case ClaimRan(_, ids, handed) => if handed && ids != {} then worker.(phase := Dispatching) else Select(worker, watch)
    case ClaimFailed(_) => Select(worker, watch)
    case BatchJoined(_) =>
      // borrow_and_update marks the value seen and reads it.
      var marked := worker.(seen := watch.version);
      if watch.value then marked.(phase := Stopped) else Select(marked, watch)
    case Panicked(_) => worker.(phase := Stopped)
  }

  function WorldNext(cfg: Configuration, w: World, m: Move): World
    requires OfWorker(m) ==> m.e in w.workers
  {
    var sys' := if ActionOf(cfg, m).Some? then Next(cfg, w.sys, ActionOf(cfg, m).value) else w.sys;
    match m
    case ShutdownSent => World(sys', w.workers, Watch(true, w.watch.version + 1))
    case Restarted => World(sys', map e | e in w.workers :: Worker(Waiting(true), 0, 0), Watch(false, 0))
    case _ =>
      if OfWorker(m) then World(sys', w.workers[m.e := WorkerNext(w.workers[m.e], w.watch, m)], w.watch)
      else World(sys', w.workers, w.watch)
  }

  ghost predicate WorldRuns(cfg: Configuration, w: World, moves: seq<Move>)
    decreases |moves|
  {
    moves == [] || (Ready(cfg, w, moves[0]) && WorldRuns(cfg, WorldNext(cfg, w, moves[0]), moves[1..]))
  }

  ghost function WorldAfter(cfg: Configuration, w: World, moves: seq<Move>): World
    requires WorldRuns(cfg, w, moves)
    decreases |moves|
  {
    if moves == [] then w else WorldAfter(cfg, WorldNext(cfg, w, moves[0]), moves[1..])
  }

  function Actions(cfg: Configuration, moves: seq<Move>): seq<Action> {
    if moves == [] then []
    else (if ActionOf(cfg, moves[0]).Some? then [ActionOf(cfg, moves[0]).value] else []) + Actions(cfg, moves[1..])
  }

  ghost predicate Started(w: World) {
    && Initial(w.sys)
    && w.watch == Watch(false, 0)
    && forall e :: e in w.workers ==> w.workers[e] == Worker(Waiting(true), 0, 0)
  }

  // A live dispatch belongs to a worker that is waiting for its batch.
  ghost predicate DispatchesAwaited(w: World) {
    forall id :: id in w.sys.cells && !Idle(w.sys.cells[id]) ==>
      var e := w.sys.cells[id].row.emitter;
      e in w.workers && w.workers[e].phase == Dispatching
  }

  ghost predicate WithinConcurrency(cfg: Configuration, w: World) {
    forall e :: e in w.workers ==> |LiveOf(w.sys, e)| <= cfg(e).concurrency
  }

  predicate Heeds(worker: Worker, watch: Watch) {
    && worker.seen <= watch.version
    && (watch.value ==>
          && worker.cycles <= 1
          && (worker.phase.Stopped? || worker.seen < watch.version)
          && (worker.phase == Waiting(true) ==> worker.cycles == 0))
    && (!watch.value ==> worker.cycles == 0)
  }

  ghost predicate ShutdownHeeded(w: World) {
    forall e :: e in w.workers ==> Heeds(w.workers[e], w.watch)
  }

  ghost predicate Sound(cfg: Configuration, w: World) {
    Orderly(cfg, w.sys) && DispatchesAwaited(w) && WithinConcurrency(cfg, w) && ShutdownHeeded(w)
  }

  lemma HeedsStays(worker: Worker, watch: Watch, m: Move)
    requires OfWorker(m) && Heeds(worker, watch)
    requires m.SleepEnds? ==> worker.phase == Waiting(true)
    requires m.BatchJoined? || m.ChangeSeen? || m.ReclaimRan? || m.ReclaimFailed? || m.ClaimRan? || m.ClaimFailed? ==>
               !worker.phase.Stopped?
    ensures Heeds(WorkerNext(worker, watch, m), watch)
  {
  }

  lemma ShutdownStaysHeeded(cfg: Configuration, w: World, m: Move)
    requires ShutdownHeeded(w) && Ready(cfg, w, m)
    ensures ShutdownHeeded(WorldNext(cfg, w, m))
  {
    if OfWorker(m) { HeedsStays(w.workers[m.e], w.watch, m); }
  }

  // Only a claim gives an idle delivery a dispatch.
  lemma IdleStays(cfg: Configuration, s: System, a: Action, id: DeliveryId)
    requires id in Next(cfg, s, a).cells && !Idle(Next(cfg, s, a).cells[id])
    ensures id in s.cells && (!Idle(s.cells[id]) || Takes(a, id))
    ensures Next(cfg, s, a).cells[id].row.emitter == s.cells[id].row.emitter
  {
    CellsStep(cfg, s, a, id);
    if id in s.cells {
      var c, k, step := s.cells[id], ConfigOf(cfg, s.cells[id]), Projection(cfg, s, a, id);
      if step.Some? && CellEnabled(k, s.now, c, step.value) { IdentityStays(k, s.now, c, step.value); }
    }
  }

  lemma LiveAfter(cfg: Configuration, w: World, m: Move, id: DeliveryId)
    requires Ready(cfg, w, m)
    requires id in WorldNext(cfg, w, m).sys.cells && !Idle(WorldNext(cfg, w, m).sys.cells[id])
    ensures id in w.sys.cells && WorldNext(cfg, w, m).sys.cells[id].row.emitter == w.sys.cells[id].row.emitter
    ensures Idle(w.sys.cells[id]) ==> m.ClaimRan? && m.handed && id in m.ids && w.sys.cells[id].row.emitter == m.e
  {
    if ActionOf(cfg, m).Some? {
      IdleStays(cfg, w.sys, ActionOf(cfg, m).value, id);
      CellsStep(cfg, w.sys, ActionOf(cfg, m).value, id);
      if m.ClaimRan? && id in m.ids { assert id in Due(TableOf(w.sys), m.e, w.sys.now); }
    }
  }

  lemma DispatchesStayAwaited(cfg: Configuration, w: World, m: Move)
    requires DispatchesAwaited(w) && Ready(cfg, w, m)
    ensures DispatchesAwaited(WorldNext(cfg, w, m))
  {
    var w' := WorldNext(cfg, w, m);
    forall id | id in w'.sys.cells && !Idle(w'.sys.cells[id])
      ensures var e := w'.sys.cells[id].row.emitter; e in w'.workers && w'.workers[e].phase == Dispatching
    {
      LiveAfter(cfg, w, m, id);
      var e := w.sys.cells[id].row.emitter;
      StaysDispatching(cfg, w, m, e, id);
    }
  }

  lemma StaysDispatching(cfg: Configuration, w: World, m: Move, e: EmitterName, id: DeliveryId)
    requires Ready(cfg, w, m) && id in w.sys.cells && w.sys.cells[id].row.emitter == e
    requires Idle(w.sys.cells[id]) ==> m.ClaimRan? && m.handed && id in m.ids && e == m.e
    requires !Idle(w.sys.cells[id]) ==> e in w.workers && w.workers[e].phase == Dispatching
    ensures e in WorldNext(cfg, w, m).workers && WorldNext(cfg, w, m).workers[e].phase == Dispatching
  {
    assert !Idle(w.sys.cells[id]) ==> id in LiveOf(w.sys, e);
  }

  lemma StaysWithinConcurrency(cfg: Configuration, w: World, m: Move)
    requires DispatchesAwaited(w) && WithinConcurrency(cfg, w) && Ready(cfg, w, m)
    ensures WithinConcurrency(cfg, WorldNext(cfg, w, m))
  {
    var w' := WorldNext(cfg, w, m);
    forall e | e in w'.workers ensures |LiveOf(w'.sys, e)| <= cfg(e).concurrency {
      var bound := if m.ClaimRan? && m.e == e then m.ids else LiveOf(w.sys, e);
      forall id | id in LiveOf(w'.sys, e) ensures id in bound {
        LiveAfter(cfg, w, m, id);
      }
      assert |bound| == |LiveOf(w'.sys, e)| + |bound - LiveOf(w'.sys, e)|;
    }
  }

  // A reclaim runs only while its worker holds no dispatch.
  lemma MoveIsOrderly(cfg: Configuration, w: World, m: Move)
    requires DispatchesAwaited(w) && Ready(cfg, w, m)
    ensures ActionOf(cfg, m).Some? ==> NoTheft(cfg, w.sys, ActionOf(cfg, m).value)
  {
  }

  lemma StaysSound(cfg: Configuration, w: World, m: Move)
    requires Sound(cfg, w) && Ready(cfg, w, m)
    ensures Sound(cfg, WorldNext(cfg, w, m))
  {
    MoveIsOrderly(cfg, w, m);
    if ActionOf(cfg, m).Some? { StaysOrderly(cfg, w.sys, ActionOf(cfg, m).value); }
    DispatchesStayAwaited(cfg, w, m);
    StaysWithinConcurrency(cfg, w, m);
    ShutdownStaysHeeded(cfg, w, m);
  }

  /** With one worker per emitter every run of the server is an orderly run of the lease protocol, with no
      assumption on how long an emitter takes: mutual exclusion and the claim bound of LeaseOrder apply. */
  lemma {:induction false} SingleWorkersAreOrderly(cfg: Configuration, w: World, moves: seq<Move>)
    requires Sound(cfg, w) && WorldRuns(cfg, w, moves)
    ensures OrderlyRuns(cfg, w.sys, Actions(cfg, moves))
    ensures After(cfg, w.sys, Actions(cfg, moves)) == WorldAfter(cfg, w, moves).sys
    ensures Sound(cfg, WorldAfter(cfg, w, moves))
    decreases |moves|
  {
    if moves != [] {
      var m, rest := moves[0], Actions(cfg, moves[1..]);
      MoveIsOrderly(cfg, w, m);
      StaysSound(cfg, w, m);
      SingleWorkersAreOrderly(cfg, WorldNext(cfg, w, m), moves[1..]);
      if ActionOf(cfg, m).Some? {
        assert Actions(cfg, moves)[1..] == rest;
      } else {
        assert Actions(cfg, moves) == rest;
      }
    }
  }

  lemma StartedIsSound(cfg: Configuration, w: World)
    requires Started(w)
    ensures Sound(cfg, w)
  {
    InitiallyOrderly(cfg, w.sys);
    forall e | e in w.workers ensures |LiveOf(w.sys, e)| <= cfg(e).concurrency {
      assert LiveOf(w.sys, e) == {};
    }
  }

  /** Shutdown loses nothing: once it is requested a worker begins at most one more cycle, it never has more live
      deliveries than its concurrency, each with a single dispatch, and it holds none when it exits. */
  lemma ShutdownIsClean(cfg: Configuration, w: World, moves: seq<Move>, e: EmitterName)
    requires Started(w) && WorldRuns(cfg, w, moves) && e in WorldAfter(cfg, w, moves).workers
    ensures var w', worker := WorldAfter(cfg, w, moves), WorldAfter(cfg, w, moves).workers[e];
            && (w'.watch.value ==> worker.cycles <= 1)
            && |LiveOf(w'.sys, e)| <= cfg(e).concurrency
            && (forall id :: id in LiveOf(w'.sys, e) ==> |Live(w'.sys.cells[id])| <= 1)
            && (worker.phase.Stopped? ==> LiveOf(w'.sys, e) == {})
  {
    StartedIsSound(cfg, w);
    SingleWorkersAreOrderly(cfg, w, moves);
    var w' := WorldAfter(cfg, w, moves);
    forall id | id in LiveOf(w'.sys, e) ensures |Live(w'.sys.cells[id])| <= 1 {
      AtMostOneDispatch(w'.sys.cells[id]);
    }
  }

  // The moves of the first part of a pass.
  function LeasingMoves(e: EmitterName, reclaimed: bool, reply: ClaimReply, ids: set<DeliveryId>): seq<Move> {
    [if reclaimed then ReclaimRan(e) else ReclaimFailed(e),
     if reply.QueryFailed? then ClaimFailed(e) else ClaimRan(e, ids, reply.RowsCame?)]
  }

  lemma TwoMoves(cfg: Configuration, w: World, m: Move, m': Move)
    requires Ready(cfg, w, m) && Ready(cfg, WorldNext(cfg, w, m), m')
    ensures WorldRuns(cfg, w, [m, m'])
    ensures WorldAfter(cfg, w, [m, m']) == WorldNext(cfg, WorldNext(cfg, w, m), m')
  {
    var w1 := WorldNext(cfg, w, m);
    assert [m, m'][1..] == [m'] && [m'][1..] == [];
    assert WorldRuns(cfg, WorldNext(cfg, w1, m'), []);
    assert WorldRuns(cfg, w1, [m']) && WorldAfter(cfg, w1, [m']) == WorldNext(cfg, w1, m');
  }

  lemma LeasingRuns(cfg: Configuration, s: System, e: EmitterName, batch: nat, reclaimed: bool, reply: ClaimReply, ids: set<DeliveryId>)
    requires Runs(cfg, s, Leasing(e, batch, reclaimed, reply, ids))
    ensures var s1 := if reclaimed then Next(cfg, s, Reclaim(e)) else s;
            var claim := Claim(e, batch, ids, reply.RowsCame?);
            && (!reply.QueryFailed? ==> Enabled(cfg, s1, claim))
            && After(cfg, s, Leasing(e, batch, reclaimed, reply, ids)) == if reply.QueryFailed? then s1 else Next(cfg, s1, claim)
  {
    var acts := Leasing(e, batch, reclaimed, reply, ids);
    var rest := if reclaimed then acts[1..] else acts;
    assert rest == if reply.QueryFailed? then [] else [Claim(e, batch, ids, reply.RowsCame?)];
    var s1 := if reclaimed then Next(cfg, s, Reclaim(e)) else s;
    assert Runs(cfg, s1, rest) && After(cfg, s1, rest) == After(cfg, s, acts);
    if !reply.QueryFailed? { OneStep(cfg, s1, rest[0]); }
  }

  /** The loop makes the passes that the worker makes: from the reclaim on, the leasing steps of a pass are moves of the loop,
      after which it waits for the batch if there are rows to dispatch, and for its next turn if there are none. */
  lemma LeasingIsLoop(cfg: Configuration, w: World, e: EmitterName, reclaimed: bool, reply: ClaimReply, ids: set<DeliveryId>)
    requires e in w.workers && w.workers[e].phase == Reclaiming
    requires Runs(cfg, w.sys, Leasing(e, cfg(e).concurrency, reclaimed, reply, ids))
    ensures var moves := LeasingMoves(e, reclaimed, reply, ids);
            && WorldRuns(cfg, w, moves)
            && WorldAfter(cfg, w, moves).sys == After(cfg, w.sys, Leasing(e, cfg(e).concurrency, reclaimed, reply, ids))
            && e in WorldAfter(cfg, w, moves).workers
            && var phase := WorldAfter(cfg, w, moves).workers[e].phase;
               if reply.RowsCame? && ids != {} then phase == Dispatching else phase.Waiting?
  {
    var moves := LeasingMoves(e, reclaimed, reply, ids);
    LeasingRuns(cfg, w.sys, e, cfg(e).concurrency, reclaimed, reply, ids);
    TwoMoves(cfg, w, moves[0], moves[1]);
  }

  // How many cycles a worker begins in a run: it leaves the select! without stopping.
  ghost function Begun(cfg: Configuration, w: World, moves: seq<Move>, e: EmitterName): nat
    requires WorldRuns(cfg, w, moves)
    decreases |moves|
  {
    if moves == [] then 0
    else
      var w' := WorldNext(cfg, w, moves[0]);
      (if e in w.workers && w.workers[e].phase.Waiting? && e in w'.workers && w'.workers[e].phase.Reclaiming? then 1 else 0)
      + Begun(cfg, w', moves[1..], e)
  }

  lemma CycleCounted(cfg: Configuration, w: World, m: Move, e: EmitterName)
    requires Ready(cfg, w, m) && e in w.workers && w.watch.value && m != Restarted
    ensures var w' := WorldNext(cfg, w, m);
            && e in w'.workers && w'.watch.value
            && w'.workers[e].cycles == w.workers[e].cycles
                 + if w.workers[e].phase.Waiting? && w'.workers[e].phase.Reclaiming? then 1 else 0
  {
  }

  lemma {:induction false} CyclesCounted(cfg: Configuration, w: World, moves: seq<Move>, e: EmitterName)
    requires WorldRuns(cfg, w, moves) && e in w.workers && w.watch.value && Restarted !in moves
    ensures var w' := WorldAfter(cfg, w, moves);
            e in w'.workers && w'.watch.value && w'.workers[e].cycles == w.workers[e].cycles + Begun(cfg, w, moves, e)
    decreases |moves|
  {
    if moves != [] {
      CycleCounted(cfg, w, moves[0], e);
      CyclesCounted(cfg, WorldNext(cfg, w, moves[0]), moves[1..], e);
    }
  }

  /** From any state the server can be in, once shutdown is sent a worker begins at most one more cycle, however the run goes on. */
  lemma OneMoreCycle(cfg: Configuration, w: World, before: seq<Move>, after: seq<Move>, e: EmitterName)
    requires Started(w) && WorldRuns(cfg, w, before) && !WorldAfter(cfg, w, before).watch.value
    requires var sent := WorldNext(cfg, WorldAfter(cfg, w, before), ShutdownSent); WorldRuns(cfg, sent, after) && e in sent.workers
    requires Restarted !in after
    ensures Begun(cfg, WorldNext(cfg, WorldAfter(cfg, w, before), ShutdownSent), after, e) <= 1
  {
    StartedIsSound(cfg, w);
    SingleWorkersAreOrderly(cfg, w, before);
    var u := WorldAfter(cfg, w, before);
    var sent := WorldNext(cfg, u, ShutdownSent);
    StaysSound(cfg, u, ShutdownSent);
    SingleWorkersAreOrderly(cfg, sent, after);
    CyclesCounted(cfg, sent, after, e);
    assert Heeds(WorldAfter(cfg, sent, after).workers[e], WorldAfter(cfg, sent, after).watch);
    assert Heeds(u.workers[e], u.watch);
  }

  /** When every worker has stopped, which is what draining waits for, no dispatch is left anywhere. */
  lemma DrainedIsQuiet(cfg: Configuration, w: World, moves: seq<Move>, id: DeliveryId)
    requires Started(w) && WorldRuns(cfg, w, moves)
    requires forall e :: e in WorldAfter(cfg, w, moves).workers ==> WorldAfter(cfg, w, moves).workers[e].phase.Stopped?
    requires id in WorldAfter(cfg, w, moves).sys.cells
    ensures Idle(WorldAfter(cfg, w, moves).sys.cells[id])
  {
    StartedIsSound(cfg, w);
    SingleWorkersAreOrderly(cfg, w, moves);
  }

  /** In a server with one worker per emitter a delivery is claimed at most max_attempts times plus once per
      lost outcome, and emitted at most once more than outcomes were lost. */
  lemma ServerClaimsBounded(cfg: Configuration, w: World, moves: seq<Move>, id: DeliveryId)
    requires Started(w) && WorldRuns(cfg, w, moves) && id in WorldAfter(cfg, w, moves).sys.cells
    requires !WorldAfter(cfg, w, moves).sys.cells[id].row.immutable
    ensures var c := WorldAfter(cfg, w, moves).sys.cells[id];
            && c.history.claims <= ConfigOf(cfg, c).policy.maxAttempts + c.history.lost
            && c.history.emitsOk <= 1 + c.history.lost
            && c.history.misses == 0
  {
    StartedIsSound(cfg, w);
    SingleWorkersAreOrderly(cfg, w, moves);
    ClaimsBounded(cfg, w.sys, Actions(cfg, moves), id);
    MutualExclusion(cfg, w.sys, Actions(cfg, moves), id);
  }
}
