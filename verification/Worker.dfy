/** The body of the worker loop as it runs against the storage backend, and its refinement:
    one pass through it is a run of the lease protocol. */
module Worker {
  import opened Wrappers
  import opened State
  import opened Deliveries
  import opened Backoff
  import opened LeaseProtocol
  import opened Storage

  // What the world answers to one dispatch: the emitter's verdict, the random draw for the backoff,
  // and whether the mark reaches the database.
  datatype Outcome = Outcome(ok: bool, error: string, draw: real, markReaches: bool)

  // The step a dispatch ends with.
  function MarkAction(id: DeliveryId, s: Snapshot, o: Outcome): Action {
    if !o.markReaches then Drop(id, s, if o.ok then Succeeded else Refused)
    else if o.ok then MarkOk(id, s)
    else MarkErr(id, s, o.draw, o.error)
  }

  function Held(row: Row): Snapshot {
    Snapshot(row.attemptCount, if row.lastAttemptAt.Some? then row.lastAttemptAt.value else 0.0)
  }

  class EmitterWorker {
    const name: EmitterName
    const config: EmitterConfig
    const storage: PostgresStorage

    constructor (name: EmitterName, config: EmitterConfig, storage: PostgresStorage)
      ensures this.name == name && this.config == config && this.storage == storage
    {
      this.name := name;
      this.config := config;
      this.storage := storage;
    }

    /** What the answer does to the row, column by column: a success is recorded, a failure is counted and scheduled
        again after its backoff, or is the last one. A mark that is lost, or finds the row no longer in flight, changes nothing. */
    method DispatchOne(id: DeliveryId, row: Row, o: Outcome, ghost cfg: Configuration)
      requires storage.Valid() && id in storage.deliveries
      requires cfg(storage.deliveries[id].emitter) == config
      modifies storage`deliveries
      ensures storage.Valid()
      ensures storage.deliveries == Statement(cfg, old(storage.deliveries), storage.now, MarkAction(id, Held(row), o))
      ensures storage.deliveries.Keys == old(storage.deliveries).Keys
      ensures forall other :: other in storage.deliveries && other != id ==> storage.deliveries[other] == old(storage.deliveries)[other]
      ensures !o.markReaches || !old(storage.deliveries)[id].state.InFlight? ==> storage.deliveries == old(storage.deliveries)
      ensures o.markReaches && old(storage.deliveries)[id].state.InFlight? ==>
        var before, after := old(storage.deliveries)[id], storage.deliveries[id];
        if o.ok then
          after == before.(state := DeliveryState.Emitted, emittedAt := Some(storage.now), lastError := None)
        else if row.attemptCount + 1 >= config.policy.maxAttempts then
          after == before.(state := DeliveryState.DeadLettered, lastError := Some(o.error))
        else
          && after == before.(state := Failed, attemptCount := row.attemptCount + 1, lastError := Some(o.error),
                              nextAttemptAt := after.nextAttemptAt)
          && (0 <= row.attemptCount && 0.0 <= o.draw < 1.0 ==>
                Fits(after.nextAttemptAt - storage.now, row.attemptCount + 1, config.policy))
          && (row.attemptCount == 0 && config.policy.jitter == 0.0 && config.policy.maxBackoff <= 9223372036854775.807 ==>
                after.nextAttemptAt == storage.now + if config.policy.initialBackoff <= config.policy.maxBackoff
                                                     then config.policy.initialBackoff else config.policy.maxBackoff)
    {
      var next := row.attemptCount + 1;
      var matched;
      if !o.markReaches {
        return;
      }
      if o.ok {
        matched := storage.MarkEmitted(id);
      } else if next >= config.policy.maxAttempts {
        matched := storage.MarkDeadLettered(id, o.error);
      } else {
        var delay := RetryDelay(next, config.policy, o.draw);
        DelayKept(next, config.policy, o.draw);
        matched := storage.MarkFailed(id, next, storage.now + delay, o.error);
        assert storage.now + delay - storage.now == delay;
      }
    }

    // A failed reclaim is only logged.
    method TryReclaim(reaches: bool, ghost cfg: Configuration, ghost s: System) returns (ghost acts: seq<Action>)
      requires storage.Valid() && cfg(name) == config
      requires TableOf(s) == storage.deliveries && s.now == storage.now
      modifies storage`deliveries
      ensures storage.Valid()
      ensures acts == if reaches then [Reclaim(name)] else []
      ensures LeadsTo(cfg, s, acts, storage.deliveries, storage.now)
    {
      acts := [];
      if reaches {
        var reclaimed := storage.ReclaimExpired(name, config.lease);
        acts := [Reclaim(name)];
        StepIsStatement(cfg, s, acts[0]);
        OneStep(cfg, s, acts[0]);
      }
    }

    // When a receipt cannot be fetched the rows stay leased although none of them is handed out.
    method TryClaim(reply: ClaimReply, ghost cfg: Configuration, ghost s: System)
      returns (claimed: map<DeliveryId, Row>, ghost ids: set<DeliveryId>, ghost acts: seq<Action>)
      requires storage.Valid() && cfg(name) == config
      requires TableOf(s) == storage.deliveries && s.now == storage.now
      modifies storage`deliveries
      ensures storage.Valid()
      ensures claimed.Keys == if reply.RowsCame? then ids else {}
      ensures acts == if reply.QueryFailed? then [] else [Claim(name, config.concurrency, ids, reply.RowsCame?)]
      ensures LeadsTo(cfg, s, acts, storage.deliveries, storage.now)
      ensures AllHanded(cfg, After(cfg, s, acts), name, claimed, claimed.Keys)
    {
      claimed, ids, acts := map[], {}, [];
      if reply.QueryFailed? {
        return;
      }
      var rows := storage.ClaimPending(name, config.concurrency);
      ids := rows.Keys;
      ghost var a := Claim(name, config.concurrency, ids, reply.RowsCame?);
      acts := [a];
      StepIsStatement(cfg, s, a);
      OneStep(cfg, s, a);
      if reply.RowsCame? {
        claimed := rows;
        forall id | id in claimed ensures Handed(cfg, After(cfg, s, acts), name, id, claimed[id]) {
          ClaimHands(cfg, s, a, id);
        }
      }
    }

    method ReclaimAndClaim(reclaimReaches: bool, reply: ClaimReply, ghost cfg: Configuration, ghost s: System)
      returns (claimed: map<DeliveryId, Row>, ghost ids: set<DeliveryId>, ghost acts: seq<Action>)
      requires storage.Valid() && cfg(name) == config
      requires TableOf(s) == storage.deliveries && s.now == storage.now
      modifies storage`deliveries
      ensures storage.Valid()
      ensures claimed.Keys == if reply.RowsCame? then ids else {}
      ensures acts == Leasing(name, config.concurrency, reclaimReaches, reply, ids)
      ensures LeadsTo(cfg, s, acts, storage.deliveries, storage.now)
      ensures AllHanded(cfg, After(cfg, s, acts), name, claimed, claimed.Keys)
    {
      ghost var first := TryReclaim(reclaimReaches, cfg, s);
      ghost var second;
      claimed, ids, second := TryClaim(reply, cfg, After(cfg, s, first));
      RunsAppend(cfg, s, first, second);
      acts := first + second;
    }

    // One of the dispatches that are joined.
    method DispatchNext(id: DeliveryId, claimed: map<DeliveryId, Row>, outcome: Outcome, ghost left: set<DeliveryId>,
                        ghost outcomes: DeliveryId -> Outcome, ghost cfg: Configuration, ghost s: System, ghost acts: seq<Action>)
      returns (ghost acts': seq<Action>)
      requires storage.Valid() && cfg(name) == config
      requires id in left && outcome == outcomes(id) && 0.0 <= outcome.draw < 1.0
      requires Progress(cfg, s, acts, storage.deliveries, storage.now, name, claimed, left, outcomes)
      modifies storage`deliveries
      ensures storage.Valid()
      ensures Progress(cfg, s, acts', storage.deliveries, storage.now, name, claimed, left - {id}, outcomes)
    {
      OneMoreDispatched(acts, claimed, left, id, outcomes);
      acts' := DispatchExtends(cfg, s, acts, storage.deliveries, storage.now, name, claimed, left, id, outcome);
      DispatchOne(id, claimed[id], outcome, cfg);
    }

    // The claimed batch, dispatched in any order.
    method DispatchAll(claimed: map<DeliveryId, Row>, outcomes: DeliveryId -> Outcome, ghost cfg: Configuration, ghost s: System)
      returns (ghost acts: seq<Action>)
      requires storage.Valid() && cfg(name) == config
      requires TableOf(s) == storage.deliveries && s.now == storage.now
      requires forall id :: 0.0 <= outcomes(id).draw < 1.0
      requires AllHanded(cfg, s, name, claimed, claimed.Keys)
      modifies storage`deliveries
      ensures storage.Valid()
      ensures Progress(cfg, s, acts, storage.deliveries, storage.now, name, claimed, {}, outcomes)
    {
      var left := claimed.Keys;
      acts := [];
      while left != {}
        invariant storage.Valid()
        invariant Progress(cfg, s, acts, storage.deliveries, storage.now, name, claimed, left, outcomes)
        decreases |left|
      {
        var id :| id in left;
        acts := DispatchNext(id, claimed, outcomes(id), left, outcomes, cfg, s, acts);
        left := left - {id};
      }
    }

    /** One pass of the loop, with every way its statements can fail: a claim follows also when the reclaim failed, the rows
        handed out are dispatched once each with their own outcome, and whatever the emitter answers the pass is a run of
        the protocol, with these steps and no others, that ends in the table left behind. */
    method RunCycle(reclaimReaches: bool, reply: ClaimReply, outcomes: DeliveryId -> Outcome, ghost cfg: Configuration, ghost s: System)
      returns (ghost claimed: map<DeliveryId, Row>, ghost ids: set<DeliveryId>, ghost leased: seq<Action>, ghost dispatched: seq<Action>)
      requires storage.Valid() && cfg(name) == config
      requires TableOf(s) == storage.deliveries && s.now == storage.now
      requires forall id :: 0.0 <= outcomes(id).draw < 1.0
      modifies storage`deliveries
      ensures storage.Valid()
      ensures LeadsTo(cfg, s, leased + dispatched, storage.deliveries, storage.now)
      ensures leased == Leasing(name, config.concurrency, reclaimReaches, reply, ids)
      ensures claimed.Keys == if reply.RowsCame? then ids else {}
      ensures AllHanded(cfg, After(cfg, s, leased), name, claimed, claimed.Keys)
      ensures Dispatches(dispatched, claimed, {}, outcomes)
    {
      var rows;
      rows, ids, leased := ReclaimAndClaim(reclaimReaches, reply, cfg, s);
      claimed := rows;
      dispatched := DispatchAll(rows, outcomes, cfg, After(cfg, s, leased));
      RunsAppend(cfg, s, leased, dispatched);
    }
  }

  // The actions are a run from s that ends with this table at this time.
  ghost predicate LeadsTo(cfg: Configuration, s: System, acts: seq<Action>, table: Table, now: Time) {
    Runs(cfg, s, acts) && TableOf(After(cfg, s, acts)) == table && After(cfg, s, acts).now == now
  }

  // Two actions for each claimed row that is not left, and nothing else: the emitter's answer, and the step that follows from it.
  ghost predicate Dispatches(acts: seq<Action>, claimed: map<DeliveryId, Row>, left: set<DeliveryId>, outcomes: DeliveryId -> Outcome) {
    && |acts| + 2 * |left| == 2 * |claimed|
    && forall id :: id in claimed && id !in left ==>
         && Answer(id, Held(claimed[id]), outcomes(id).ok) in acts
         && MarkAction(id, Held(claimed[id]), outcomes(id)) in acts
  }

  // How far the dispatching of a batch has come.
  ghost predicate Progress(cfg: Configuration, s: System, acts: seq<Action>, table: Table, now: Time, name: EmitterName,
                           claimed: map<DeliveryId, Row>, left: set<DeliveryId>, outcomes: DeliveryId -> Outcome) {
    && left <= claimed.Keys
    && LeadsTo(cfg, s, acts, table, now)
    && AllHanded(cfg, After(cfg, s, acts), name, claimed, left)
    && Dispatches(acts, claimed, left, outcomes)
  }

  lemma OneMoreDispatched(acts: seq<Action>, claimed: map<DeliveryId, Row>, left: set<DeliveryId>, id: DeliveryId,
                          outcomes: DeliveryId -> Outcome)
    requires Dispatches(acts, claimed, left, outcomes) && id in claimed && id in left
    ensures Dispatches(acts + [Answer(id, Held(claimed[id]), outcomes(id).ok), MarkAction(id, Held(claimed[id]), outcomes(id))],
                       claimed, left - {id}, outcomes)
  {
    var pair := [Answer(id, Held(claimed[id]), outcomes(id).ok), MarkAction(id, Held(claimed[id]), outcomes(id))];
    assert pair[0] in acts + pair && pair[1] in acts + pair;
  }

  // The dispatch of a claimed row is live, and is that row's.
  ghost predicate Handed(cfg: Configuration, s: System, name: EmitterName, id: DeliveryId, row: Row) {
    id in s.cells && s.cells[id].row.emitter == name && Held(row) in s.cells[id].calling
  }

  ghost predicate AllHanded(cfg: Configuration, s: System, name: EmitterName, claimed: map<DeliveryId, Row>, ids: set<DeliveryId>) {
    forall id :: id in ids && id in claimed ==> Handed(cfg, s, name, id, claimed[id])
  }

  lemma ClaimHands(cfg: Configuration, s: System, a: Action, id: DeliveryId)
    requires Enabled(cfg, s, a) && a.Claim? && a.handed && id in a.ids
    ensures id in Next(cfg, s, a).cells
    ensures Handed(cfg, Next(cfg, s, a), a.emitter, id, Next(cfg, s, a).cells[id].row)
  {
    assert id in Due(TableOf(s), a.emitter, s.now);
    ProjectionEnabled(cfg, s, a, id);
  }

  // Answer and mark, one after the other, touch only the delivery they are about.
  lemma DispatchRuns(cfg: Configuration, s: System, id: DeliveryId, held: Snapshot, o: Outcome)
    requires id in s.cells && held in s.cells[id].calling && 0.0 <= o.draw < 1.0
    ensures var acts := [Answer(id, held, o.ok), MarkAction(id, held, o)];
            && Runs(cfg, s, acts)
            && After(cfg, s, acts).now == s.now
            && TableOf(After(cfg, s, acts)) == Statement(cfg, TableOf(s), s.now, MarkAction(id, held, o))
            && forall other :: other in s.cells && other != id ==>
                 other in After(cfg, s, acts).cells && After(cfg, s, acts).cells[other] == s.cells[other]
  {
    var answer, mark := Answer(id, held, o.ok), MarkAction(id, held, o);
    var s1 := Next(cfg, s, answer);
    AnswerEnables(cfg, s, id, held, o);
    TwoSteps(cfg, s, answer, mark);
    StepIsStatement(cfg, s, answer);
    StepIsStatement(cfg, s1, mark);
    UntouchedByOthers(cfg, s, answer);
    UntouchedByOthers(cfg, s1, mark);
  }

  lemma AnswerEnables(cfg: Configuration, s: System, id: DeliveryId, held: Snapshot, o: Outcome)
    requires id in s.cells && held in s.cells[id].calling && 0.0 <= o.draw < 1.0
    ensures Enabled(cfg, s, Answer(id, held, o.ok))
    ensures Enabled(cfg, Next(cfg, s, Answer(id, held, o.ok)), MarkAction(id, held, o))
  {
    var answer := Answer(id, held, o.ok);
    assert Projection(cfg, s, answer, id) == Some(Answered(held, o.ok));
  }

  lemma UntouchedByOthers(cfg: Configuration, s: System, a: Action)
    requires OnOneCell(a)
    ensures forall other :: other in s.cells && other != a.id ==>
      other in Next(cfg, s, a).cells && Next(cfg, s, a).cells[other] == s.cells[other]
  {
  }

  // A run goes on with one more dispatch; the deliveries still to be dispatched stay handed.
  lemma DispatchExtends(cfg: Configuration, s: System, acts: seq<Action>, table: Table, now: Time, name: EmitterName,
                        claimed: map<DeliveryId, Row>, left: set<DeliveryId>, id: DeliveryId, o: Outcome)
    returns (acts': seq<Action>)
    requires LeadsTo(cfg, s, acts, table, now) && AllHanded(cfg, After(cfg, s, acts), name, claimed, left)
    requires id in left && id in claimed && 0.0 <= o.draw < 1.0
    ensures id in table && table[id].emitter == name
    ensures acts' == acts + [Answer(id, Held(claimed[id]), o.ok), MarkAction(id, Held(claimed[id]), o)]
    ensures LeadsTo(cfg, s, acts', Statement(cfg, table, now, MarkAction(id, Held(claimed[id]), o)), now)
    ensures AllHanded(cfg, After(cfg, s, acts'), name, claimed, left - {id})
  {
    var held, cur := Held(claimed[id]), After(cfg, s, acts);
    assert Handed(cfg, cur, name, id, claimed[id]);
    var pair := [Answer(id, held, o.ok), MarkAction(id, held, o)];
    DispatchRuns(cfg, cur, id, held, o);
    RunsAppend(cfg, s, acts, pair);
    acts' := acts + pair;
    StillHanded(cfg, cur, After(cfg, s, acts'), name, claimed, left, id);
  }

  lemma StillHanded(cfg: Configuration, s: System, s': System, name: EmitterName, claimed: map<DeliveryId, Row>,
                    left: set<DeliveryId>, id: DeliveryId)
    requires AllHanded(cfg, s, name, claimed, left)
    requires forall other :: other in s.cells && other != id ==> other in s'.cells && s'.cells[other] == s.cells[other]
    ensures AllHanded(cfg, s', name, claimed, left - {id})
  {
    forall other | other in left - {id} && other in claimed ensures Handed(cfg, s', name, other, claimed[other]) {
      assert Handed(cfg, s, name, other, claimed[other]);
    }
  }
}
