/** The layered dedupe strategy of the server, why its fast path can be trusted, and why it does not matter. */
module AdvisoryDedupe {
  import opened Wrappers
  import opened State
  import opened Deliveries
  import opened RecentDedupe
  import opened Ingest
  import opened Storage

  // The authoritative answer, straight from the receipts table.
  predicate HashStored(receipts: Receipts, key: string, hash: string) {
    exists id :: id in receipts && receipts[id].dedupeKey == key && receipts[id].payloadHash == hash
  }

  function StorageCheck(receipts: Receipts, key: string, hash: string): Decision {
    if !KeyTaken(receipts, key) then New else if HashStored(receipts, key, hash) then Decision.Duplicate else Conflict
  }

  function LayeredCheck(c: Cache, receipts: Receipts, key: string, hash: string): Decision {
    var fast := CheckCache(c, key, hash);
    if fast == New then StorageCheck(receipts, key, hash) else fast
  }

  // Recording reaches the fast layer; the authoritative layer has nothing to record.
  function Layered(capacity: nat): Strategy<Cache> {
    Strategy((c: Cache, receipts: Receipts, key: string, hash: string) => Some(LayeredCheck(c, receipts, key, hash)),
             (c: Cache, key: string, hash: string) => Recorded(c, capacity, key, hash))
  }

  /** The separator is unambiguous although providers may contain it, because the hash has a fixed length. */
  lemma DedupeKeyInjective(provider: string, hash: HexDigest, provider': string, hash': HexDigest)
    ensures DedupeKey(provider, hash) == DedupeKey(provider', hash') <==> provider == provider' && hash == hash'
  {
    var key, key' := DedupeKey(provider, hash), DedupeKey(provider', hash');
    if key == key' {
      assert provider == key[..|key| - 65] && hash == key[|key| - 64..];
      assert provider' == key'[..|key'| - 65] && hash' == key'[|key'| - 64..];
    }
  }

  // Every cached key is stored, with the hash the cache has for it.
  ghost predicate Backed(c: Cache, receipts: Receipts) {
    forall key :: key in c.hashes ==> HashStored(receipts, key, c.hashes[key])
  }

  lemma BackedAgrees(site: Site, c: Cache, b: Base, key: string, hash: string)
    requires Backed(c, b.receipts) && StoreIsFirstWriters(b)
    ensures LayeredCheck(c, b.receipts, key, hash) == StorageCheck(b.receipts, key, hash)
  {
    if key in c.hashes {
      assert HashStored(b.receipts, key, c.hashes[key]);
      var id :| id in b.receipts && b.receipts[id].dedupeKey == key && b.receipts[id].payloadHash == c.hashes[key];
      assert KeyTaken(b.receipts, key);
    }
  }

  lemma MoreReceiptsStayBacked(c: Cache, receipts: Receipts, receipts': Receipts)
    requires Backed(c, receipts)
    requires forall id :: id in receipts ==> id in receipts' && receipts'[id] == receipts[id]
    ensures Backed(c, receipts')
  {
    forall key | key in c.hashes ensures HashStored(receipts', key, c.hashes[key]) {
      assert HashStored(receipts, key, c.hashes[key]);
      var id :| id in receipts && receipts[id].dedupeKey == key && receipts[id].payloadHash == c.hashes[key];
      assert id in receipts';
    }
  }

  // A committed request's key is stored with its hash, so it is safe to record.
  lemma CommittedIsStored(site: Site, b: Base, r: nat)
    requires Linear(site, b) && IsAt(b, r, Committed)
    ensures HashStored(b.receipts, KeyOf(site, b.ingests[r].req), HashOf(site, b.ingests[r].req))
  {
    var req := b.ingests[r].req;
    assert Told(site, b, b.ingests[r]);
    var stored := b.receipts[req.id];
    DedupeKeyInjective(stored.provider, site.digest(stored.rawBody), req.provider, HashOf(site, req));
  }

  lemma StaysBacked(site: Site, capacity: nat, p: Pipeline<Cache>, a: Action)
    requires Linear(site, p.base) && Backed(p.dedupe, p.base.receipts) && Enabled(p.base, a)
    ensures var p' := Next(site, Layered(capacity), p, a); Backed(p'.dedupe, p'.base.receipts)
  {
    var p' := Next(site, Layered(capacity), p, a);
    if a.Records? {
      CommittedIsStored(site, p.base, a.r);
    } else {
      MoreReceiptsStayBacked(p.dedupe, p.base.receipts, p'.base.receipts);
    }
  }

  lemma {:induction false} RunsStayBacked(site: Site, capacity: nat, p: Pipeline<Cache>, acts: seq<Action>)
    requires Linear(site, p.base) && Backed(p.dedupe, p.base.receipts) && Runs(site, Layered(capacity), p, acts)
    ensures var p' := After(site, Layered(capacity), p, acts);
            Linear(site, p'.base) && Backed(p'.dedupe, p'.base.receipts)
    decreases |acts|
  {
    if acts != [] {
      StaysLinear(site, Layered(capacity), p, acts[0]);
      StaysBacked(site, capacity, p, acts[0]);
      RunsStayBacked(site, capacity, Next(site, Layered(capacity), p, acts[0]), acts[1..]);
    }
  }

  /** The fast path agrees with the slow one: in every reachable state the layered check answers every key and
      hash as the receipts table would, despite eviction and the gap between commit and record. */
  lemma FastPathAgrees(site: Site, capacity: nat, p: Pipeline<Cache>, acts: seq<Action>, key: string, hash: string)
    requires Empty(p.base) && p.dedupe == EMPTY && Runs(site, Layered(capacity), p, acts)
    ensures var p' := After(site, Layered(capacity), p, acts);
            LayeredCheck(p'.dedupe, p'.base.receipts, key, hash) == StorageCheck(p'.base.receipts, key, hash)
  {
    RunsStayBacked(site, capacity, p, acts);
    BackedAgrees(site, After(site, Layered(capacity), p, acts).dedupe, After(site, Layered(capacity), p, acts).base, key, hash);
  }

  /** No check that the pipeline makes ever reports a conflict: a stored key is always a duplicate. */
  lemma NeverConflict(site: Site, capacity: nat, p: Pipeline<Cache>, acts: seq<Action>, provider: string, body: seq<Byte>)
    requires Empty(p.base) && p.dedupe == EMPTY && Runs(site, Layered(capacity), p, acts)
    ensures var p' := After(site, Layered(capacity), p, acts);
            var hash := site.digest(body);
            var key := DedupeKey(provider, hash);
            LayeredCheck(p'.dedupe, p'.base.receipts, key, hash) == if KeyTaken(p'.base.receipts, key) then Decision.Duplicate else New
  {
    var p' := After(site, Layered(capacity), p, acts);
    var hash := site.digest(body);
    var key := DedupeKey(provider, hash);
    RunsStayBacked(site, capacity, p, acts);
    BackedAgrees(site, p'.dedupe, p'.base, key, hash);
    if KeyTaken(p'.base.receipts, key) {
      var id :| id in p'.base.receipts && p'.base.receipts[id].dedupeKey == key;
      var stored := p'.base.receipts[id];
      DedupeKeyInjective(stored.provider, site.digest(stored.rawBody), provider, hash);
      assert HashStored(p'.base.receipts, key, hash);
    }
  }

  ghost predicate NeverFails<D(!new)>(s: Strategy<D>) {
    forall d: D, receipts, key, hash :: s.check(d, receipts, key, hash).Some?
  }

  /** Advisory means advisory: two strategies whose checks never fail take the same schedule of requests
      through the same states of the store to the same answers. */
  lemma {:induction false} AdvisoryOnly<D(!new), E(!new)>(site: Site, s: Strategy<D>, s': Strategy<E>,
                                                        p: Pipeline<D>, p': Pipeline<E>, acts: seq<Action>)
    requires NeverFails(s) && NeverFails(s')
    requires p.base == p'.base && Runs(site, s, p, acts)
    ensures Runs(site, s', p', acts)
    ensures After(site, s, p, acts).base == After(site, s', p', acts).base
    decreases |acts|
  {
    if acts != [] {
      assert Next(site, s, p, acts[0]).base == Next(site, s', p', acts[0]).base;
      AdvisoryOnly(site, s, s', Next(site, s, p, acts[0]), Next(site, s', p', acts[0]), acts[1..]);
    }
  }

  /** `LayeredDedupe` over `InMemoryRecentDedupe` and `StorageDedupe`. */
  class LayeredDedupe {
    const fast: InMemoryRecentDedupe
    const store: PostgresStorage

    constructor (fast: InMemoryRecentDedupe, store: PostgresStorage)
      ensures this.fast == fast && this.store == store
    {
      this.fast := fast;
      this.store := store;
    }

    // The select of `StorageDedupe`.
    method CheckStore(key: string, hash: string) returns (decision: Decision)
      requires store.Valid()
      ensures decision == StorageCheck(store.receipts, key, hash)
      ensures decision.New? <==> forall id :: id in store.receipts ==> store.receipts[id].dedupeKey != key
      ensures decision.Duplicate? <==>
        exists id :: id in store.receipts && store.receipts[id].dedupeKey == key && store.receipts[id].payloadHash == hash
    {
      var found := store.FindByKey(key);
      if found.None? {
        decision := New;
      } else if store.receipts[found.value].payloadHash == hash {
        decision := Decision.Duplicate;
      } else {
        decision := Conflict;
      }
    }

    method Check(key: string, hash: string) returns (decision: Decision)
      requires store.Valid() && fast.Valid()
      ensures decision == LayeredCheck(fast.View(), store.receipts, key, hash)
    {
      decision := fast.Check(key, hash);
      if decision == New {
        decision := CheckStore(key, hash);
      }
    }

    method Record(key: string, hash: string)
      requires fast.Valid()
      modifies fast
      ensures fast.Valid()
      ensures fast.View() == Recorded(old(fast.View()), fast.capacity, key, hash)
    {
      fast.Record(key, hash);
    }
  }

  // The tables and the cache of the objects are those of a state of the protocol.
  ghost predicate Represents(p: Pipeline<Cache>, store: PostgresStorage, fast: InMemoryRecentDedupe)
    reads store, fast
  {
    p.base.receipts == store.receipts && p.base.deliveries == store.deliveries && p.base.now == store.now && p.dedupe == fast.View()
  }

  predicate Stores(store: PostgresStorage, id: ReceiptId, key: string)
    reads store
  {
    id in store.receipts && store.receipts[id].dedupeKey == key
  }

  class HookboxPipeline {
    const site: Site
    const storage: PostgresStorage
    const dedupe: LayeredDedupe

    constructor (site: Site, storage: PostgresStorage, dedupe: LayeredDedupe)
      ensures this.site == site && this.storage == storage && this.dedupe == dedupe
    {
      this.site := site;
      this.storage := storage;
      this.dedupe := dedupe;
    }

    // Stages three and four: the transaction, and the cache record after a commit.
    method StoreAndRecord(req: Request, ghost r: nat, ghost p: Pipeline<Cache>, ghost acts: seq<Action>, ghost cur: Pipeline<Cache>)
      returns (result: IngestResult, ghost acts': seq<Action>, ghost last: Pipeline<Cache>)
      requires storage.Valid() && dedupe.store == storage && dedupe.fast.Valid()
      requires Reached(site, Layered(dedupe.fast.capacity), p, acts, cur) && Represents(cur, storage, dedupe.fast)
      requires IsAt(cur.base, r, Checked) && cur.base.ingests[r].req == req
      modifies storage`receipts, storage`deliveries, storage`nextId, dedupe.fast
      ensures storage.Valid() && dedupe.fast.Valid()
      ensures Reached(site, Layered(dedupe.fast.capacity), p, acts', last) && Represents(last, storage, dedupe.fast)
      ensures IsAt(last.base, r, Done(result)) && last.base.ingests[r].req == req
      ensures result.Accepted? <==> !KeyTaken(old(storage.receipts), KeyOf(site, req)) && req.id !in old(storage.receipts)
      ensures result.DuplicateOf? <==> KeyTaken(old(storage.receipts), KeyOf(site, req))
      ensures result.StoreErred? || result.Accepted? || (result.DuplicateOf? && Stores(storage, result.existing, KeyOf(site, req)))
      ensures !result.Accepted? ==> storage.receipts == old(storage.receipts) && storage.deliveries == old(storage.deliveries)
                                    && dedupe.fast.View() == old(dedupe.fast.View())
      ensures result.Accepted? ==>
        && result.id == req.id && storage.receipts == old(storage.receipts)[req.id := ReceiptOf(site, req)]
        && storage.receipts[req.id] == Receipt(req.provider, req.provider + ":" + site.digest(req.body), site.digest(req.body), req.body,
                                               ProcessingState.Stored, 0)
        && AddsPending(old(storage.deliveries), storage.deliveries, req.id, site.names, old(storage.nextId), storage.now)
        && storage.deliveries == InsertRows(old(storage.deliveries), req.id, Targets(site.names, old(storage.nextId)), storage.now)
        && dedupe.fast.View() == Recorded(old(dedupe.fast.View()), dedupe.fast.capacity, KeyOf(site, req), HashOf(site, req))
    {
      ghost var strategy := Layered(dedupe.fast.capacity);
      ghost var first := storage.nextId;
      var stored := storage.StoreWithDeliveries(req.id, ReceiptOf(site, req), site.names);
      last, acts' := Step(site, strategy, p, acts, cur, Commits(r, first, true));
      match stored
      case AlreadyStored(existing) =>
        last, acts' := Step(site, strategy, p, acts', last, Fetches(r));
        result := DuplicateOf(existing);
      case StoreFailed =>
        result := StoreErred;
      case Inserted =>
        dedupe.Record(KeyOf(site, req), HashOf(site, req));
        last, acts' := Step(site, strategy, p, acts', last, Records(r));
        result := Accepted(req.id);
    }

    /** One call of `ingest`, undisturbed by others and by errors: what it answers and changes, as a run of the protocol. */
    method Ingest(req: Request, ghost r: nat, ghost p: Pipeline<Cache>)
      returns (result: IngestResult, ghost acts: seq<Action>, ghost last: Pipeline<Cache>)
      requires storage.Valid() && dedupe.store == storage && dedupe.fast.Valid()
      requires Represents(p, storage, dedupe.fast) && r !in p.base.ingests
      modifies storage`receipts, storage`deliveries, storage`nextId, dedupe.fast
      ensures storage.Valid() && dedupe.fast.Valid()
      ensures Reached(site, Layered(dedupe.fast.capacity), p, acts, last) && Represents(last, storage, dedupe.fast)
      ensures IsAt(last.base, r, Done(result)) && last.base.ingests[r].req == req
      ensures result.Rejected? <==> req.verdict.Failed?
      ensures result.Rejected? ==> result.reason == req.verdict.reason
      ensures result.Accepted? <==>
        !req.verdict.Failed? && !KeyTaken(old(storage.receipts), KeyOf(site, req)) && req.id !in old(storage.receipts)
      ensures result.DuplicateOf? <==> !req.verdict.Failed? && KeyTaken(old(storage.receipts), KeyOf(site, req))
      ensures result.DuplicateOf? ==> Stores(storage, result.existing, KeyOf(site, req))
      ensures !result.DedupeFailed?
      ensures !result.Accepted? ==> storage.receipts == old(storage.receipts) && storage.deliveries == old(storage.deliveries)
                                    && dedupe.fast.View() == old(dedupe.fast.View())
      ensures result.Accepted? ==>
        && result.id == req.id && storage.receipts == old(storage.receipts)[req.id := ReceiptOf(site, req)]
        && storage.receipts[req.id] == Receipt(req.provider, req.provider + ":" + site.digest(req.body), site.digest(req.body), req.body,
                                               ProcessingState.Stored, 0)
        && AddsPending(old(storage.deliveries), storage.deliveries, req.id, site.names, old(storage.nextId), storage.now)
        && storage.deliveries == InsertRows(old(storage.deliveries), req.id, Targets(site.names, old(storage.nextId)), storage.now)
        && dedupe.fast.View() == Recorded(old(dedupe.fast.View()), dedupe.fast.capacity, KeyOf(site, req), HashOf(site, req))
    {
      var hash := HashOf(site, req);
      var key := DedupeKey(req.provider, hash);
      ghost var strategy := Layered(dedupe.fast.capacity);
      last, acts := Step(site, strategy, p, [], p, Arrives(r, req));
      last, acts := Step(site, strategy, p, acts, last, Verifies(r));
      if req.verdict.Failed? {
        return Rejected(req.verdict.reason), acts, last;
      }
      var advisory := dedupe.Check(key, hash);
      last, acts := Step(site, strategy, p, acts, last, Checks(r));
      result, acts, last := StoreAndRecord(req, r, p, acts, last);
    }
  }

  // The actions are a run from p that ends here.
  ghost predicate Reached<D>(site: Site, s: Strategy<D>, p: Pipeline<D>, acts: seq<Action>, cur: Pipeline<D>) {
    Runs(site, s, p, acts) && After(site, s, p, acts) == cur
  }

  // A run goes on by one step.
  lemma Step<D>(site: Site, s: Strategy<D>, p: Pipeline<D>, acts: seq<Action>, cur: Pipeline<D>, a: Action)
    returns (next: Pipeline<D>, acts': seq<Action>)
    requires Reached(site, s, p, acts, cur) && Enabled(cur.base, a)
    ensures next == Next(site, s, cur, a) && Reached(site, s, p, acts', next)
  {
    acts' := acts + [a];
    next := Next(site, s, cur, a);
    RunsExtend(site, s, p, acts, a);
  }

  lemma {:induction false} RunsExtend<D>(site: Site, s: Strategy<D>, p: Pipeline<D>, acts: seq<Action>, a: Action)
    requires Runs(site, s, p, acts) && Enabled(After(site, s, p, acts).base, a)
    ensures Runs(site, s, p, acts + [a])
    ensures After(site, s, p, acts + [a]) == Next(site, s, After(site, s, p, acts), a)
    decreases |acts|
  {
    if acts == [] {
      assert (acts + [a])[1..] == [];
    } else {
      assert (acts + [a])[1..] == acts[1..] + [a];
      RunsExtend(site, s, Next(site, s, p, acts[0]), acts[1..], a);
    }
  }
}
