/** The bounded in-memory cache of recently accepted dedupe keys. */
module RecentDedupe {
  datatype Decision = New | Duplicate | Conflict

  // Keys in insertion order, oldest first, and the hash each was recorded with.
  datatype Cache = Cache(hashes: map<string, string>, order: seq<string>)

  const EMPTY := Cache(map[], [])

  function CheckCache(c: Cache, key: string, hash: string): Decision {
    if key !in c.hashes then New else if c.hashes[key] == hash then Duplicate else Conflict
  }

  function Evicted(c: Cache): Cache {
    if c.order == [] then c else Cache(c.hashes - {c.order[0]}, c.order[1..])
  }

  function Recorded(c: Cache, capacity: nat, key: string, hash: string): Cache {
    if key in c.hashes then c
    else
      var room := if |c.hashes| >= capacity then Evicted(c) else c;
      Cache(room.hashes[key := hash], room.order + [key])
  }

  // The order lists every cached key once, and the cache is within its capacity.
  ghost predicate Consistent(c: Cache, capacity: nat) {
    && (forall i, j :: 0 <= i < j < |c.order| ==> c.order[i] != c.order[j])
    && (forall key :: key in c.hashes <==> key in c.order)
    && |c.order| <= capacity
  }

  lemma {:induction false} KeysCounted(c: Cache, capacity: nat)
    requires Consistent(c, capacity)
    ensures |c.hashes| == |c.order|
    decreases |c.order|
  {
    if c.order == [] {
      assert c.hashes.Keys == {};
    } else {
      var key := c.order[0];
      var rest := Cache(c.hashes - {key}, c.order[1..]);
      assert key in c.order;
      forall k | k in rest.hashes ensures k in rest.order {
        var i :| 0 <= i < |c.order| && c.order[i] == k;
        assert rest.order[i - 1] == k;
      }
      KeysCounted(rest, capacity);
      assert rest.hashes.Keys == c.hashes.Keys - {key};
    }
  }

  // A record that inserts: the key and its hash.
  datatype Entry = Entry(key: string, hash: string)

  // The cache after a sequence of records, together with the effective insertions among them.
  datatype Trace = Trace(cache: Cache, effective: seq<Entry>)

  function Replay(capacity: nat, records: seq<Entry>): Trace {
    if records == [] then Trace(EMPTY, [])
    else
      var before, e := Replay(capacity, records[..|records| - 1]), records[|records| - 1];
      Trace(Recorded(before.cache, capacity, e.key, e.hash),
            if e.key in before.cache.hashes then before.effective else before.effective + [e])
  }

  function Window(effective: seq<Entry>, capacity: nat): seq<Entry> {
    if |effective| <= capacity then effective else effective[|effective| - capacity..]
  }

  // The cache holds exactly these entries, oldest first.
  ghost predicate Holds(c: Cache, entries: seq<Entry>) {
    && |c.order| == |entries|
    && forall i :: 0 <= i < |entries| ==>
         c.order[i] == entries[i].key && entries[i].key in c.hashes && c.hashes[entries[i].key] == entries[i].hash
  }

  lemma EvictedHolds(c: Cache, capacity: nat, window: seq<Entry>)
    requires Consistent(c, capacity) && Holds(c, window) && |window| > 0
    ensures Consistent(Evicted(c), capacity - 1) && Holds(Evicted(c), window[1..])
  {
    var c' := Evicted(c);
    forall key | key in c'.hashes ensures key in c'.order {
      var i :| 0 <= i < |c.order| && c.order[i] == key;
      assert c'.order[i - 1] == key;
    }
  }

  lemma AppendedHolds(c: Cache, capacity: nat, window: seq<Entry>, e: Entry)
    requires capacity >= 1 && Consistent(c, capacity - 1) && Holds(c, window) && e.key !in c.hashes
    ensures var c' := Cache(c.hashes[e.key := e.hash], c.order + [e.key]);
            Consistent(c', capacity) && Holds(c', window + [e])
  {
    var c' := Cache(c.hashes[e.key := e.hash], c.order + [e.key]);
    forall i | 0 <= i < |c.order| ensures c.order[i] in c.hashes && c.order[i] != e.key {
      assert c.order[i] in c.order;
    }
    assert c'.order[|c.order|] == e.key;
  }

  // The entries cached after one more record.
  function Pushed(window: seq<Entry>, capacity: nat, e: Entry): seq<Entry> {
    (if |window| >= capacity && |window| > 0 then window[1..] else window) + [e]
  }

  lemma RecordedHolds(c: Cache, capacity: nat, window: seq<Entry>, e: Entry)
    requires capacity >= 1 && Consistent(c, capacity) && Holds(c, window)
    ensures var c' := Recorded(c, capacity, e.key, e.hash);
            Consistent(c', capacity) && Holds(c', if e.key in c.hashes then window else Pushed(window, capacity, e))
  {
    KeysCounted(c, capacity);
    if e.key !in c.hashes {
      if |c.hashes| >= capacity {
        EvictedHolds(c, capacity, window);
        AppendedHolds(Evicted(c), capacity, window[1..], e);
      } else {
        AppendedHolds(c, capacity, window, e);
      }
    }
  }

  lemma PushedWindow(effective: seq<Entry>, capacity: nat, e: Entry)
    requires capacity >= 1
    ensures Window(effective + [e], capacity) == Pushed(Window(effective, capacity), capacity, e)
  {
  }

  /** The cache is exactly the last `capacity` effective insertions, oldest first, with their hashes. */
  lemma {:induction false} CacheIsWindow(capacity: nat, records: seq<Entry>)
    requires capacity >= 1
    ensures var t := Replay(capacity, records);
            Consistent(t.cache, capacity) && Holds(t.cache, Window(t.effective, capacity))
    decreases |records|
  {
    if records != [] {
      var before, e := Replay(capacity, records[..|records| - 1]), records[|records| - 1];
      CacheIsWindow(capacity, records[..|records| - 1]);
      RecordedHolds(before.cache, capacity, Window(before.effective, capacity), e);
      PushedWindow(before.effective, capacity, e);
    }
  }

  /** A key inserted as effective insertion i stays cached until `capacity` more insertions have taken effect,
      and the insertion that completes them evicts it. */
  lemma EvictedInTurn(capacity: nat, records: seq<Entry>, i: nat)
    requires capacity >= 1 && i < |Replay(capacity, records).effective|
    ensures var t := Replay(capacity, records);
            var later := |t.effective| - 1 - i;
            && (later < capacity ==> t.effective[i].key in t.cache.hashes
                                     && t.cache.hashes[t.effective[i].key] == t.effective[i].hash)
            && (later == capacity ==> t.effective[i].key !in t.cache.hashes)
  {
    CacheIsWindow(capacity, records);
    DistinctNearby(capacity, records, i);
    var t := Replay(capacity, records);
    InOrOut(t.cache, capacity, t.effective, i);
  }

  lemma InOrOut(c: Cache, capacity: nat, effective: seq<Entry>, i: nat)
    requires Consistent(c, capacity) && Holds(c, Window(effective, capacity)) && i < |effective|
    requires forall j :: i < j < |effective| && j - i <= capacity ==> effective[i].key != effective[j].key
    ensures |effective| - 1 - i < capacity ==> effective[i].key in c.hashes && c.hashes[effective[i].key] == effective[i].hash
    ensures |effective| - 1 - i == capacity ==> effective[i].key !in c.hashes
  {
    var w := Window(effective, capacity);
    if |effective| - 1 - i < capacity {
      assert w[i - (|effective| - |w|)] == effective[i];
    }
    if |effective| - 1 - i == capacity {
      forall k | 0 <= k < |w| ensures c.order[k] != effective[i].key {
        assert w[k] == effective[i + 1 + k];
      }
    }
  }

  // Any capacity + 1 consecutive effective insertions insert different keys.
  lemma {:induction false} DistinctNearby(capacity: nat, records: seq<Entry>, i: nat)
    requires capacity >= 1
    ensures var eff := Replay(capacity, records).effective;
            forall j :: i < j < |eff| && j - i <= capacity ==> eff[i].key != eff[j].key
    decreases |records|
  {
    if records != [] {
      var before, e := Replay(capacity, records[..|records| - 1]), records[|records| - 1];
      DistinctNearby(capacity, records[..|records| - 1], i);
      CacheIsWindow(capacity, records[..|records| - 1]);
      var n, w := |before.effective|, Window(before.effective, capacity);
      if e.key !in before.cache.hashes && i < n <= i + capacity {
        assert w[i - (n - |w|)] == before.effective[i];
      }
    }
  }

  /** `InMemoryRecentDedupe`: a map and a queue behind a mutex; each call holds the mutex throughout. */
  class InMemoryRecentDedupe {
    const capacity: nat
    var hashes: map<string, string>
    var order: seq<string>

    ghost function View(): Cache
      reads this
    {
      Cache(hashes, order)
    }

    ghost predicate Valid()
      reads this
    {
      capacity >= 1 && Consistent(View(), capacity)
    }

    // The original panics on a capacity of zero.
    constructor (capacity: nat)
      requires capacity > 0
      ensures Valid() && View() == EMPTY && this.capacity == capacity
    {
      this.capacity := capacity;
      hashes := map[];
      order := [];
    }

    method Check(key: string, hash: string) returns (decision: Decision)
      requires Valid()
      ensures decision == New <==> key !in order
      ensures decision == Duplicate <==> key in order && hashes[key] == hash
    {
      if key !in hashes {
        decision := New;
      } else if hashes[key] == hash {
        decision := Duplicate;
      } else {
        decision := Conflict;
      }
    }

    method Record(key: string, hash: string)
      requires Valid()
      modifies this
      ensures Valid()
      ensures View() == Recorded(old(View()), capacity, key, hash)
      ensures key in order
    {
      RecordedKeepsConsistent(View(), capacity, key, hash);
      if key in hashes {
        return;
      }
      if |hashes| >= capacity {
        if |order| > 0 {
          var oldest := order[0];
          order := order[1..];
          hashes := hashes - {oldest};
        }
      }
      hashes := hashes[key := hash];
      order := order + [key];
    }
  }

  lemma RecordedKeepsConsistent(c: Cache, capacity: nat, key: string, hash: string)
    requires capacity >= 1 && Consistent(c, capacity)
    ensures Consistent(Recorded(c, capacity, key, hash), capacity)
  {
    var window := seq(|c.order|, i requires 0 <= i < |c.order| =>
      Entry(c.order[i], if c.order[i] in c.hashes then c.hashes[c.order[i]] else ""));
    assert Holds(c, window) by {
      forall i | 0 <= i < |c.order| ensures c.order[i] in c.hashes {
        assert c.order[i] in c.order;
      }
    }
    RecordedHolds(c, capacity, window, Entry(key, hash));
  }
}
