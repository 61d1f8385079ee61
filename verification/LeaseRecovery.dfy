/** What the lease is for: a delivery whose dispatch was lost comes back into the queue, and not before its lease has run out. */
module LeaseRecovery {
  import opened Wrappers
  import opened State
  import opened Deliveries
  import opened LeaseProtocol
  import opened LeaseSafety
  import opened LeaseOrder

  // In flight, but no dispatch is left that could mark it.
  predicate Orphan(c: Cell) {
    !c.row.immutable && c.row.state.InFlight? && c.row.lastAttemptAt.Some? && Idle(c)
  }

  // When the orphan's lease runs out.
  function Deadline(cfg: Configuration, c: Cell): Time
    requires Orphan(c)
  {
    c.row.lastAttemptAt.value + cfg(c.row.emitter).lease
  }

  predicate LateReclaim(s: System, a: Action, e: EmitterName, deadline: Time) {
    a == Reclaim(e) && deadline < s.now
  }

  ghost predicate NoLateReclaim(cfg: Configuration, s: System, acts: seq<Action>, e: EmitterName, deadline: Time)
    decreases |acts|
  {
    acts == [] || (!LateReclaim(s, acts[0], e, deadline) && NoLateReclaim(cfg, Next(cfg, s, acts[0]), acts[1..], e, deadline))
  }

  lemma OnlyLateReclaimsTouch(cfg: Configuration, s: System, a: Action, id: DeliveryId)
    requires Enabled(cfg, s, a) && id in s.cells && Orphan(s.cells[id])
    requires !LateReclaim(s, a, s.cells[id].row.emitter, Deadline(cfg, s.cells[id]))
    ensures id in Next(cfg, s, a).cells && Next(cfg, s, a).cells[id] == s.cells[id]
  {
    ProjectionEnabled(cfg, s, a, id);
  }

  // The first late reclaim requeues it: due at once, with the attempts it had.
  lemma LateReclaimFrees(cfg: Configuration, s: System, id: DeliveryId)
    requires id in s.cells && Orphan(s.cells[id]) && Deadline(cfg, s.cells[id]) < s.now
    ensures var r := s.cells[id].row;
            var s' := Next(cfg, s, Reclaim(r.emitter));
            && id in s'.cells && Idle(s'.cells[id])
            && var r' := s'.cells[id].row;
               r' == r.(state := Failed, nextAttemptAt := s.now, lastError := r'.lastError) && Claimable(r', s.now)
  {
    var a := Reclaim(s.cells[id].row.emitter);
    assert Projection(cfg, s, a, id) == Some(Reclaimed);
  }

  lemma {:induction false} OrphanWaits(cfg: Configuration, s: System, acts: seq<Action>, id: DeliveryId)
    requires Runs(cfg, s, acts) && id in s.cells && Orphan(s.cells[id])
    requires NoLateReclaim(cfg, s, acts, s.cells[id].row.emitter, Deadline(cfg, s.cells[id]))
    ensures id in After(cfg, s, acts).cells && After(cfg, s, acts).cells[id] == s.cells[id]
    decreases |acts|
  {
    if acts != [] {
      OnlyLateReclaimsTouch(cfg, s, acts[0], id);
      OrphanWaits(cfg, Next(cfg, s, acts[0]), acts[1..], id);
    }
  }

  /** Over every run: an orphan keeps its lease, untouched, up to the first reclaim of its emitter that comes later than
      t + lease, and that reclaim makes it claimable again. */
  lemma OrphanRecovered(cfg: Configuration, s: System, acts: seq<Action>, id: DeliveryId)
    requires Runs(cfg, s, acts) && id in s.cells && Orphan(s.cells[id])
    requires NoLateReclaim(cfg, s, acts, s.cells[id].row.emitter, Deadline(cfg, s.cells[id]))
    ensures id in After(cfg, s, acts).cells && After(cfg, s, acts).cells[id] == s.cells[id]
    ensures var t, r := After(cfg, s, acts), s.cells[id].row;
            var t' := Next(cfg, t, Reclaim(r.emitter));
            && id in t'.cells
            && var r' := t'.cells[id].row;
               if r.lastAttemptAt.value + cfg(r.emitter).lease < t.now
               then r'.state.Failed? && r'.nextAttemptAt == t.now && r'.attemptCount == r.attemptCount && Claimable(r', t.now)
               else r' == r
  {
    OrphanWaits(cfg, s, acts, id);
    var t, r := After(cfg, s, acts), s.cells[id].row;
    if Deadline(cfg, s.cells[id]) < t.now {
      LateReclaimFrees(cfg, t, id);
    } else {
      OnlyLateReclaimsTouch(cfg, t, Reclaim(r.emitter), id);
    }
  }
}
