/**
 The generational bounded map and the single-use recorder on top of it. Time is
 the instant each call reads from the clock.
 */
module BoundedMap {
  import opened Wrappers

  /** expires == None: never. */
  datatype Entry<V> = Entry(value: V, expires: Option<int>)

  predicate Live<V>(e: Entry<V>, now: int) { e.expires.None? || now < e.expires.value }

  function NewEntry<V>(value: V, ttl: int, now: int): Entry<V>
  {
    Entry(value, if ttl > 0 then Some(now + ttl) else None)
  }

  datatype Gens<V> = Gens(cur: map<string, Entry<V>>, prev: map<string, Entry<V>>)

  predicate Resident<V>(m: Gens<V>, key: string) { key in m.cur || key in m.prev }

  function Find<V>(m: Gens<V>, key: string): Entry<V>
    requires Resident(m, key)
  {
    if key in m.cur then m.cur[key] else m.prev[key]
  }

  /** What a lookup finds: a resident entry that has not expired. */
  function Lookup<V>(m: Gens<V>, key: string, now: int): Option<Entry<V>>
  {
    if Resident(m, key) && Live(Find(m, key), now) then Some(Find(m, key)) else None
  }

  ghost predicate Disjoint<V>(m: Gens<V>) { m.cur.Keys !! m.prev.Keys }

  /** After a successful lookup the entry is in the live generation. */
  function Promote<V>(m: Gens<V>, key: string, e: Entry<V>): Gens<V>
  {
    Gens(m.cur[key := e], m.prev - {key})
  }

  function Drop<V>(m: Gens<V>, key: string): Gens<V>
  {
    Gens(m.cur - {key}, m.prev - {key})
  }

  predicate Rotates<V>(m: Gens<V>, limit: int, key: string) { key !in m.cur && |m.cur| >= limit }

  function Put<V>(m: Gens<V>, limit: int, key: string, e: Entry<V>): Gens<V>
  {
    if Rotates(m, limit, key) then Gens(map[key := e], m.cur - {key})
    else Gens(m.cur[key := e], m.prev - {key})
  }

  datatype Op<V> = Load(key: string)
                 | Store(key: string, value: V, ttl: int)
                 | LoadOrStore(key: string, value: V, ttl: int)
                 | Delete(key: string)

  datatype Call<V> = Call(op: Op<V>, now: int)

  /** The state after one call. An expired entry goes when a lookup meets it. */
  function Apply<V>(m: Gens<V>, limit: int, c: Call<V>): Gens<V>
  {
    var hit := Lookup(m, c.op.key, c.now);
    match c.op
    case Load(key) => if hit.Some? then Promote(m, key, hit.value) else Drop(m, key)
    case Store(key, value, ttl) => Put(m, limit, key, NewEntry(value, ttl, c.now))
    case LoadOrStore(key, value, ttl) =>
      if hit.Some? then Promote(m, key, hit.value)
      else Put(Gens(m.cur, m.prev - {key}), limit, key, NewEntry(value, ttl, c.now))
    case Delete(key) => Drop(m, key)
  }

  class Map<V(==)> {
    const limit: int
    var cur: map<string, Entry<V>>
    var prev: map<string, Entry<V>>

    ghost function Snapshot(): Gens<V>
      reads this
    {
      Gens(cur, prev)
    }

    ghost predicate Valid()
      reads this
    {
      Disjoint(Snapshot())
    }

    constructor (limit: int)
      ensures Valid() && this.limit == limit && Snapshot() == Gens(map[], map[])
    {
      this.limit, cur, prev := limit, map[], map[];
    }

    method Load(key: string, now: int) returns (found: Option<V>)
      requires Valid()
      modifies this
      ensures Valid() && Snapshot() == Apply(old(Snapshot()), limit, Call(Op.Load(key), now))
      ensures var hit := Lookup(old(Snapshot()), key, now);
              found == if hit.Some? then Some(hit.value.value) else None
    {
      if key in cur {
        if Live(cur[key], now) {
          assert cur[key := cur[key]] == cur && prev - {key} == prev;
          return Some(cur[key].value);
        }
        cur := cur - {key};
      }
      if key in prev {
        var e := prev[key];
        prev := prev - {key};
        if Live(e, now) {
          cur := cur[key := e];
          return Some(e.value);
        }
      }
      return None;
    }

    method StoreLocked(key: string, value: V, ttl: int, now: int)
      requires Valid()
      modifies this
      ensures Valid() && Snapshot() == Put(old(Snapshot()), limit, key, NewEntry(value, ttl, now))
    {
      if key !in cur && |cur| >= limit {
        prev, cur := cur, map[];
      }
      prev := prev - {key};
      var e := Entry(value, None);
      if ttl > 0 { e := e.(expires := Some(now + ttl)); }
      cur := cur[key := e];
    }

    method Store(key: string, value: V, ttl: int, now: int)
      requires Valid()
      modifies this
      ensures Valid() && Snapshot() == Apply(old(Snapshot()), limit, Call(Op.Store(key, value, ttl), now))
    {
      StoreLocked(key, value, ttl, now);
    }

    method LoadOrStore(key: string, value: V, ttl: int, now: int) returns (actual: V, loaded: bool)
      requires Valid()
      modifies this
      ensures Valid() && Snapshot() == Apply(old(Snapshot()), limit, Call(Op.LoadOrStore(key, value, ttl), now))
      ensures var hit := Lookup(old(Snapshot()), key, now);
              loaded == hit.Some? && actual == if loaded then hit.value.value else value
    {
      if key in cur && Live(cur[key], now) {
        assert cur[key := cur[key]] == cur && prev - {key} == prev;
        return cur[key].value, true;
      }
      if key in prev {
        var e := prev[key];
        prev := prev - {key};
        if Live(e, now) {
          cur := cur[key := e];
          return e.value, true;
        }
      }
      assert prev == old(prev) - {key};
      StoreLocked(key, value, ttl, now);
      return value, false;
    }

    method Delete(key: string)
      requires Valid()
      modifies this
      ensures Valid() && Snapshot() == Drop(old(Snapshot()), key)
    {
      cur := cur - {key};
      prev := prev - {key};
    }
  }

  // ---- every run ----

  const MAX_ONCE_RECORDS := 100_000

  function Replay<V>(m: Gens<V>, limit: int, calls: seq<Call<V>>): Gens<V>
  {
    if calls == [] then m
    else Apply(Replay(m, limit, calls[..|calls| - 1]), limit, calls[|calls| - 1])
  }

  /** One call on the unbounded map the calls describe. */
  function Remember<V>(plain: map<string, Entry<V>>, m: Gens<V>, c: Call<V>): map<string, Entry<V>>
  {
    match c.op
    case Load(_) => plain
    case Store(key, value, ttl) => plain[key := NewEntry(value, ttl, c.now)]
    case LoadOrStore(key, value, ttl) =>
      if Lookup(m, key, c.now).Some? then plain else plain[key := NewEntry(value, ttl, c.now)]
    case Delete(key) => plain - {key}
  }

  /** What was stored last under each key and not deleted since. */
  function LastStored<V>(m: Gens<V>, limit: int, calls: seq<Call<V>>): map<string, Entry<V>>
  {
    if calls == [] then m.prev + m.cur
    else
      var init := calls[..|calls| - 1];
      Remember(LastStored(m, limit, init), Replay(m, limit, init), calls[|calls| - 1])
  }

  ghost predicate Agrees<V>(a: map<string, Entry<V>>, plain: map<string, Entry<V>>)
  {
    forall k :: k in a ==> k in plain && plain[k] == a[k]
  }

  ghost predicate Backed<V>(m: Gens<V>, plain: map<string, Entry<V>>)
  {
    Disjoint(m) && Agrees(m.cur, plain) && Agrees(m.prev, plain)
  }

  lemma AgreesAfter<V>(a: map<string, Entry<V>>, plain: map<string, Entry<V>>, key: string, e: Entry<V>)
    requires Agrees(a, plain)
    ensures Agrees(a[key := e], plain[key := e])
    ensures Agrees(a - {key}, plain[key := e])
    ensures Agrees(a - {key}, plain - {key})
    ensures Agrees(a - {key}, plain)
  {
  }

  lemma PutStaysBacked<V>(m: Gens<V>, plain: map<string, Entry<V>>, limit: int, key: string, e: Entry<V>)
    requires Backed(m, plain)
    ensures Backed(Put(m, limit, key, e), plain[key := e])
  {
    AgreesAfter(m.cur, plain, key, e);
    AgreesAfter(m.prev, plain, key, e);
    AgreesAfter(map[], plain, key, e);
  }

  lemma MoveStaysBacked<V>(m: Gens<V>, plain: map<string, Entry<V>>, key: string)
    requires Backed(m, plain)
    ensures Resident(m, key) ==> Backed(Promote(m, key, Find(m, key)), plain)
    ensures Backed(Drop(m, key), plain) && Backed(Drop(m, key), plain - {key})
    ensures Backed(Gens(m.cur, m.prev - {key}), plain)
  {
  }

  lemma StepStaysBacked<V>(m: Gens<V>, plain: map<string, Entry<V>>, limit: int, c: Call<V>)
    requires Backed(m, plain)
    ensures Backed(Apply(m, limit, c), Remember(plain, m, c))
  {
    MoveStaysBacked(m, plain, c.op.key);
    match c.op
    case Load(_) =>
    case Delete(_) =>
    case Store(key, value, ttl) => PutStaysBacked(m, plain, limit, key, NewEntry(value, ttl, c.now));
    case LoadOrStore(key, value, ttl) =>
      PutStaysBacked(Gens(m.cur, m.prev - {key}), plain, limit, key, NewEntry(value, ttl, c.now));
  }

  lemma {:induction false} RunStaysBacked<V>(m: Gens<V>, limit: int, calls: seq<Call<V>>)
    requires Disjoint(m)
    ensures Backed(Replay(m, limit, calls), LastStored(m, limit, calls))
  {
    if calls != [] {
      var init := calls[..|calls| - 1];
      RunStaysBacked(m, limit, init);
      StepStaysBacked(Replay(m, limit, init), LastStored(m, limit, init), limit, calls[|calls| - 1]);
    }
  }

  /** Over every run: the generations share no key, and whatever a lookup returns is the
      value last stored under that key, not deleted since and not expired. */
  lemma HitIsLastStored<V>(limit: int, calls: seq<Call<V>>, key: string, now: int)
    ensures var empty: Gens<V> := Gens(map[], map[]);
            var g := Replay(empty, limit, calls);
            var plain := LastStored(empty, limit, calls);
            && Disjoint(g)
            && (Lookup(g, key, now).Some? ==>
                  && key in plain && Lookup(g, key, now).value == plain[key]
                  && (plain[key].expires.None? || now < plain[key].expires.value))
  {
    RunStaysBacked(Gens(map[], map[]), limit, calls);
  }

  /** The keys that some call put into the live generation: inserted, or promoted. */
  function Entered<V>(m: Gens<V>, limit: int, calls: seq<Call<V>>): set<string>
  {
    if calls == [] then {}
    else
      var init := calls[..|calls| - 1];
      Entered(m, limit, init) +
      (Replay(m, limit, calls).cur.Keys - Replay(m, limit, init).cur.Keys)
  }

  /** No call overwrites or deletes key, and every call on key sees e unexpired. */
  ghost predicate Undisturbed<V>(calls: seq<Call<V>>, key: string, e: Entry<V>)
  {
    forall i :: 0 <= i < |calls| && calls[i].op.key == key ==>
      (calls[i].op.Load? || calls[i].op.LoadOrStore?) && Live(e, calls[i].now)
  }

  /** key still maps to e, and if it left the live generation, everything in there came later. */
  ghost predicate Keeps<V>(g: Gens<V>, key: string, e: Entry<V>, entered: set<string>)
  {
    Disjoint(g) &&
    if key in g.cur then g.cur[key] == e
    else key in g.prev && g.prev[key] == e && g.cur.Keys <= entered
  }

  ghost predicate Kept<V>(m: Gens<V>, limit: int, calls: seq<Call<V>>, key: string, e: Entry<V>)
  {
    Keeps(Replay(m, limit, calls), key, e, Entered(m, limit, calls))
  }

  ghost predicate Displaced<V>(m: Gens<V>, limit: int, calls: seq<Call<V>>, key: string)
  {
    |Entered(m, limit, calls) - {key}| > limit
  }

  lemma SubsetSize<T>(a: set<T>, b: set<T>)
    requires a <= b
    ensures |a| <= |b|
  {
    assert b == a + (b - a);
  }

  /** A rotation: key stays one generation back, or it was there already and goes, and then
      the live generation, at least `limit` keys strong, had come in since, and now other. */
  lemma RotationKeepsFate<V>(g: Gens<V>, limit: int, other: string, x: Entry<V>,
                             key: string, e: Entry<V>, entered: set<string>)
    requires Keeps(g, key, e, entered) && other != key && Rotates(g, limit, other)
    ensures if key in g.cur then Keeps(Put(g, limit, other, x), key, e, entered + {other})
            else |entered + {other} - {key}| > limit
  {
    if key in g.cur {
      assert Put(g, limit, other, x).cur.Keys == {other};
    } else {
      SubsetSize(g.cur.Keys + {other}, entered + {other} - {key});
      assert |g.cur.Keys + {other}| == |g.cur| + 1;
    }
  }

  lemma InsertKeepsFate<V>(g: Gens<V>, limit: int, other: string, x: Entry<V>,
                           key: string, e: Entry<V>, entered: set<string>)
    requires Keeps(g, key, e, entered) && other != key && !Rotates(g, limit, other)
    ensures var g' := Put(g, limit, other, x);
            Keeps(g', key, e, entered + (g'.cur.Keys - g.cur.Keys))
  {
    assert Put(g, limit, other, x).cur.Keys == g.cur.Keys + {other};
  }

  lemma PutKeepsFate<V>(g: Gens<V>, limit: int, other: string, x: Entry<V>,
                        key: string, e: Entry<V>, entered: set<string>)
    requires Keeps(g, key, e, entered) && other != key
    ensures var g' := Put(g, limit, other, x);
            var entered' := entered + (g'.cur.Keys - g.cur.Keys);
            Keeps(g', key, e, entered') || |entered' - {key}| > limit
  {
    if Rotates(g, limit, other) {
      RotationKeepsFate(g, limit, other, x, key, e, entered);
      assert map[other := x].Keys - g.cur.Keys == {other};
    } else {
      InsertKeepsFate(g, limit, other, x, key, e, entered);
    }
  }

  lemma MoveKeepsFate<V>(g: Gens<V>, other: string, x: Entry<V>, key: string, e: Entry<V>, entered: set<string>)
    requires Keeps(g, key, e, entered) && other != key
    ensures Keeps(Promote(g, other, x), key, e, entered + (Promote(g, other, x).cur.Keys - g.cur.Keys))
    ensures Keeps(Drop(g, other), key, e, entered + (Drop(g, other).cur.Keys - g.cur.Keys))
    ensures Keeps(Gens(g.cur, g.prev - {other}), key, e, entered)
  {
    assert Promote(g, other, x).cur.Keys == g.cur.Keys + {other};
    assert Drop(g, other).cur.Keys == g.cur.Keys - {other};
  }

  lemma StepKeepsFate<V>(g: Gens<V>, limit: int, c: Call<V>, key: string, e: Entry<V>, entered: set<string>)
    requires Keeps(g, key, e, entered)
    requires c.op.key == key ==> (c.op.Load? || c.op.LoadOrStore?) && Live(e, c.now)
    ensures var g' := Apply(g, limit, c);
            var entered' := entered + (g'.cur.Keys - g.cur.Keys);
            Keeps(g', key, e, entered') || |entered' - {key}| > limit
  {
    var hit := Lookup(g, c.op.key, c.now);
    if c.op.key == key {
      assert hit == Some(e);
    } else {
      MoveKeepsFate(g, c.op.key, if hit.Some? then hit.value else e, key, e, entered);
      match c.op
      case Load(_) =>
      case Delete(_) =>
      case Store(other, value, ttl) =>
        PutKeepsFate(g, limit, other, NewEntry(value, ttl, c.now), key, e, entered);
      case LoadOrStore(other, value, ttl) =>
        PutKeepsFate(Gens(g.cur, g.prev - {other}), limit, other, NewEntry(value, ttl, c.now), key, e, entered);
    }
  }

  /** A live key that is touched, and then neither overwritten nor deleted, stays resident
      with its value until more than `limit` distinct other keys were inserted or promoted. */
  lemma {:induction false} EvictionTakesMoreThanLimit<V>(m: Gens<V>, limit: int, calls: seq<Call<V>>,
                                                       key: string, e: Entry<V>)
    requires Disjoint(m) && key in m.cur && m.cur[key] == e
    requires Undisturbed(calls, key, e)
    ensures Kept(m, limit, calls, key, e) || Displaced(m, limit, calls, key)
  {
    if calls != [] {
      var init := calls[..|calls| - 1];
      EvictionTakesMoreThanLimit(m, limit, init, key, e);
      if Displaced(m, limit, init, key) {
        SubsetSize(Entered(m, limit, init) - {key}, Entered(m, limit, calls) - {key});
      } else {
        StepKeepsFate(Replay(m, limit, init), limit, calls[|calls| - 1], key, e, Entered(m, limit, init));
      }
    }
  }

  // ---- the single-use recorder ----

  class MemOnce {
    const seen: Map<()>

    constructor ()
      ensures seen.Valid() && seen.limit == MAX_ONCE_RECORDS && fresh(seen)
      ensures seen.Snapshot() == Gens(map[], map[])
    {
      seen := new Map(MAX_ONCE_RECORDS);
    }

    /** Accepts a key exactly when no unexpired record of it is resident. */
    method TryOnce(key: string, ttl: int, now: int) returns (ok: bool)
      requires seen.Valid()
      modifies seen
      ensures seen.Valid()
      ensures var m := old(seen.Snapshot());
              ok <==> !(Resident(m, key) && (Find(m, key).expires.None? || now < Find(m, key).expires.value))
      ensures seen.Snapshot() == Apply(old(seen.Snapshot()), seen.limit, Call(LoadOrStore(key, (), ttl), now))
    {
      var _, loaded := seen.LoadOrStore(key, (), ttl, now);
      ok := !loaded;
    }
  }

  /** A run of TryOnce calls, as calls on the map. */
  ghost predicate OnceCalls(calls: seq<Call<()>>)
  {
    && (forall i :: 0 <= i < |calls| ==> calls[i].op.LoadOrStore?)
    && (forall i, j :: 0 <= i < j < |calls| ==> calls[i].now <= calls[j].now)
  }

  predicate Accepted(limit: int, calls: seq<Call<()>>, i: nat)
    requires i < |calls|
  {
    Lookup(Replay(Gens(map[], map[]), limit, calls[..i]), calls[i].op.key, calls[i].now).None?
  }

  lemma {:induction false} ReplayConcat<V>(m: Gens<V>, limit: int, a: seq<Call<V>>, b: seq<Call<V>>)
    ensures Replay(m, limit, a + b) == Replay(Replay(m, limit, a), limit, b)
  {
    if b == [] {
      assert a + b == a;
    } else {
      assert (a + b)[..|a + b| - 1] == a + b[..|b| - 1];
      ReplayConcat(m, limit, a, b[..|b| - 1]);
    }
  }

  lemma AcceptanceRecords(limit: int, calls: seq<Call<()>>, i: nat)
    requires i < |calls| && calls[i].op.LoadOrStore? && Accepted(limit, calls, i)
    ensures var m := Replay(Gens(map[], map[]), limit, calls[..i + 1]);
            var op := calls[i].op;
            Disjoint(m) && op.key in m.cur && m.cur[op.key] == NewEntry(op.value, op.ttl, calls[i].now)
  {
    assert calls[..i + 1][..i] == calls[..i];
    RunStaysBacked(Gens(map[], map[]), limit, calls[..i + 1]);
  }

  lemma RecordStaysLive(calls: seq<Call<()>>, i: nat, j: nat)
    requires OnceCalls(calls) && i < j < |calls|
    requires calls[i].op.ttl <= 0 || calls[j].now < calls[i].now + calls[i].op.ttl
    ensures var e := NewEntry(calls[i].op.value, calls[i].op.ttl, calls[i].now);
            Live(e, calls[j].now) && Undisturbed(calls[i + 1..j], calls[i].op.key, e)
  {
    var mid := calls[i + 1..j];
    forall k | 0 <= k < |mid| ensures mid[k].op.LoadOrStore? && mid[k].now <= calls[j].now {
      assert mid[k] == calls[i + 1 + k];
    }
  }

  lemma KeptIsFound<V>(g: Gens<V>, key: string, e: Entry<V>, entered: set<string>, now: int)
    requires Keeps(g, key, e, entered) && Live(e, now)
    ensures Lookup(g, key, now) == Some(e)
  {
  }

  lemma KeptBlocksAcceptance(limit: int, calls: seq<Call<()>>, i: nat, j: nat, e: Entry<()>)
    requires i < j < |calls| && calls[i].op.key == calls[j].op.key
    requires Accepted(limit, calls, j) && Live(e, calls[j].now)
    ensures !Kept(Replay(Gens(map[], map[]), limit, calls[..i + 1]), limit, calls[i + 1..j], calls[i].op.key, e)
  {
    var empty: Gens<()> := Gens(map[], map[]);
    var m := Replay(empty, limit, calls[..i + 1]);
    var mid := calls[i + 1..j];
    assert calls[..i + 1] + mid == calls[..j];
    ReplayConcat(empty, limit, calls[..i + 1], mid);
    if Kept(m, limit, mid, calls[i].op.key, e) {
      KeptIsFound(Replay(m, limit, mid), calls[i].op.key, e, Entered(m, limit, mid), calls[j].now);
      assert false;
    }
  }

  /** One key is accepted twice within the lifetime recorded the first time only after more
      than `limit` other keys entered the recorder in between. */
  lemma SecondAcceptanceTakesMoreThanLimit(limit: int, calls: seq<Call<()>>, i: nat, j: nat)
    requires OnceCalls(calls) && i < j < |calls| && calls[i].op.key == calls[j].op.key
    requires Accepted(limit, calls, i) && Accepted(limit, calls, j)
    requires calls[i].op.ttl <= 0 || calls[j].now < calls[i].now + calls[i].op.ttl
    ensures Displaced(Replay(Gens(map[], map[]), limit, calls[..i + 1]), limit, calls[i + 1..j], calls[i].op.key)
  {
    var empty: Gens<()> := Gens(map[], map[]);
    var key := calls[i].op.key;
    var e := NewEntry(calls[i].op.value, calls[i].op.ttl, calls[i].now);
    var m := Replay(empty, limit, calls[..i + 1]);
    AcceptanceRecords(limit, calls, i);
    var mid := calls[i + 1..j];
    RecordStaysLive(calls, i, j);
    EvictionTakesMoreThanLimit(m, limit, mid, key, e);
    KeptBlocksAcceptance(limit, calls, i, j, e);
  }

  // ---- how much is resident ----

  /** A lookup that finds its key in the previous generation while the live one is full. */
  predicate PromotesIntoFull<V>(m: Gens<V>, limit: int, c: Call<V>)
  {
    && (c.op.Load? || c.op.LoadOrStore?)
    && c.op.key !in m.cur && Lookup(m, c.op.key, c.now).Some?
    && |m.cur| >= limit
  }

  ghost predicate WithinLimit<V>(m: Gens<V>, limit: int) { |m.cur| <= limit && |m.prev| <= limit }

  lemma MapSizes<V>(a: map<string, V>, key: string, v: V)
    ensures |a[key := v]| == if key in a then |a| else |a| + 1
    ensures |a - {key}| == if key in a then |a| - 1 else |a|
  {
    assert a[key := v].Keys == a.Keys + {key};
    assert (a - {key}).Keys == a.Keys - {key};
  }

  lemma PutWithinLimit<V>(m: Gens<V>, limit: int, key: string, e: Entry<V>)
    requires limit >= 1 && WithinLimit(m, limit)
    ensures WithinLimit(Put(m, limit, key, e), limit)
  {
    MapSizes(m.cur, key, e);
    MapSizes(m.prev, key, e);
  }

  lemma PromoteWithinLimit<V>(m: Gens<V>, limit: int, key: string, e: Entry<V>)
    requires WithinLimit(m, limit)
    ensures WithinLimit(Promote(m, key, e), limit) <==> key in m.cur || |m.cur| < limit
  {
    MapSizes(m.cur, key, e);
    MapSizes(m.prev, key, e);
  }

  lemma DropWithinLimit<V>(m: Gens<V>, limit: int, key: string)
    requires WithinLimit(m, limit)
    ensures WithinLimit(Drop(m, key), limit) && WithinLimit(Gens(m.cur, m.prev - {key}), limit)
  {
    if key in m.cur { MapSizes(m.cur, key, m.cur[key]); } else { assert m.cur - {key} == m.cur; }
    if key in m.prev { MapSizes(m.prev, key, m.prev[key]); } else { assert m.prev - {key} == m.prev; }
  }

  lemma StepWithinLimit<V>(m: Gens<V>, limit: int, c: Call<V>)
    requires limit >= 1 && WithinLimit(m, limit)
    ensures WithinLimit(Apply(m, limit, c), limit) <==> !PromotesIntoFull(m, limit, c)
  {
    var hit := Lookup(m, c.op.key, c.now);
    DropWithinLimit(m, limit, c.op.key);
    if hit.Some? { PromoteWithinLimit(m, limit, c.op.key, hit.value); }
    match c.op
    case Load(_) =>
    case Delete(_) =>
    case Store(key, value, ttl) => PutWithinLimit(m, limit, key, NewEntry(value, ttl, c.now));
    case LoadOrStore(key, value, ttl) =>
      PutWithinLimit(Gens(m.cur, m.prev - {key}), limit, key, NewEntry(value, ttl, c.now));
  }

  /** The state before call i of a run of an initially empty map. */
  function Before<V>(limit: int, calls: seq<Call<V>>, i: nat): Gens<V>
    requires i <= |calls|
  {
    Replay(Gens(map[], map[]), limit, calls[..i])
  }

  ghost predicate AlwaysWithinLimit<V>(limit: int, calls: seq<Call<V>>)
  {
    forall i :: 0 <= i <= |calls| ==> WithinLimit(Before(limit, calls, i), limit)
  }

  ghost predicate NeverPromotesIntoFull<V>(limit: int, calls: seq<Call<V>>)
  {
    forall i :: 0 <= i < |calls| ==> !PromotesIntoFull(Before(limit, calls, i), limit, calls[i])
  }

  lemma BeforeStep<V>(limit: int, calls: seq<Call<V>>, i: nat)
    requires i < |calls|
    ensures Before(limit, calls, i + 1) == Apply(Before(limit, calls, i), limit, calls[i])
  {
    assert calls[..i + 1][..i] == calls[..i];
  }

  lemma {:induction false} WithinLimitUpTo<V>(limit: int, calls: seq<Call<V>>, n: nat)
    requires limit >= 1 && n <= |calls| && NeverPromotesIntoFull(limit, calls)
    ensures WithinLimit(Before(limit, calls, n), limit)
  {
    if n > 0 {
      WithinLimitUpTo(limit, calls, n - 1);
      BeforeStep(limit, calls, n - 1);
      StepWithinLimit(Before(limit, calls, n - 1), limit, calls[n - 1]);
    }
  }

  /** Every generation stays within the limit throughout a run exactly when no call of the
      run promotes a key into a full live generation. */
  lemma PerGenerationBoundExact<V>(limit: int, calls: seq<Call<V>>)
    requires limit >= 1
    ensures AlwaysWithinLimit(limit, calls) <==> NeverPromotesIntoFull(limit, calls)
  {
    if NeverPromotesIntoFull(limit, calls) {
      forall i | 0 <= i <= |calls| ensures WithinLimit(Before(limit, calls, i), limit) {
        WithinLimitUpTo(limit, calls, i);
      }
    }
    if AlwaysWithinLimit(limit, calls) {
      forall i | 0 <= i < |calls| ensures !PromotesIntoFull(Before(limit, calls, i), limit, calls[i]) {
        BeforeStep(limit, calls, i);
        assert WithinLimit(Before(limit, calls, i + 1), limit);
        StepWithinLimit(Before(limit, calls, i), limit, calls[i]);
      }
    }
  }

  /** Without lookups the map costs at most twice the limit. */
  lemma WritesAloneStayWithinTwiceLimit<V>(limit: int, calls: seq<Call<V>>)
    requires limit >= 1 && forall i :: 0 <= i < |calls| ==> calls[i].op.Store? || calls[i].op.Delete?
    ensures Total(Replay(Gens(map[], map[]), limit, calls)) <= 2 * limit
  {
    assert NeverPromotesIntoFull(limit, calls);
    WithinLimitUpTo(limit, calls, |calls|);
    assert calls[..|calls|] == calls;
  }

  // ---- the resident total ----

  function Total<V>(m: Gens<V>): nat { |m.cur| + |m.prev| }

  predicate Inserts<V>(m: Gens<V>, c: Call<V>)
  {
    c.op.Store? || (c.op.LoadOrStore? && Lookup(m, c.op.key, c.now).None?)
  }

  /** An insertion that takes the total past twice the limit: a rotation keeps a live generation
      that earlier promotions overfilled, or a new key joins a full total without a rotation. */
  predicate Overfills<V>(m: Gens<V>, limit: int, c: Call<V>)
  {
    Inserts(m, c) &&
    if Rotates(m, limit, c.op.key) then |m.cur| >= 2 * limit
    else !Resident(m, c.op.key) && Total(m) >= 2 * limit
  }

  lemma DropTotal<V>(m: Gens<V>, key: string)
    ensures Total(Drop(m, key)) <= Total(m)
    ensures Total(Gens(m.cur, m.prev - {key})) <= Total(m)
  {
    assert (m.cur - {key}).Keys <= m.cur.Keys && (m.prev - {key}).Keys <= m.prev.Keys;
    SubsetSize((m.cur - {key}).Keys, m.cur.Keys);
    SubsetSize((m.prev - {key}).Keys, m.prev.Keys);
  }

  lemma InsertTotal<V>(m: Gens<V>, key: string, e: Entry<V>)
    requires Disjoint(m)
    ensures Total(Gens(m.cur[key := e], m.prev - {key})) == Total(m) + if Resident(m, key) then 0 else 1
  {
    MapSizes(m.cur, key, e);
    MapSizes(m.prev, key, e);
  }

  lemma RotateTotal<V>(cur: map<string, Entry<V>>, key: string, e: Entry<V>)
    requires key !in cur
    ensures Total(Gens(map[key := e], cur - {key})) == 1 + |cur|
  {
    assert cur - {key} == cur;
    assert map[key := e].Keys == {key};
  }

  lemma PutForgetsPrev<V>(m: Gens<V>, limit: int, key: string, e: Entry<V>)
    ensures Put(Gens(m.cur, m.prev - {key}), limit, key, e) == Put(m, limit, key, e)
  {
    assert m.prev - {key} - {key} == m.prev - {key};
  }

  lemma PutTotal<V>(m: Gens<V>, limit: int, key: string, e: Entry<V>)
    requires Disjoint(m)
    ensures Total(Put(m, limit, key, e)) ==
            if Rotates(m, limit, key) then 1 + |m.cur| else Total(m) + if Resident(m, key) then 0 else 1
  {
    if Rotates(m, limit, key) { RotateTotal(m.cur, key, e); } else { InsertTotal(m, key, e); }
  }

  lemma StepTotal<V>(m: Gens<V>, limit: int, c: Call<V>)
    requires limit >= 1 && Disjoint(m) && Total(m) <= 2 * limit
    ensures Total(Apply(m, limit, c)) <= 2 * limit <==> !Overfills(m, limit, c)
  {
    var key, hit := c.op.key, Lookup(m, c.op.key, c.now);
    DropTotal(m, key);
    if hit.Some? { InsertTotal(m, key, hit.value); }
    match c.op
    case Load(_) =>
    case Delete(_) =>
    case Store(_, value, ttl) => PutTotal(m, limit, key, NewEntry(value, ttl, c.now));
    case LoadOrStore(_, value, ttl) =>
      PutForgetsPrev(m, limit, key, NewEntry(value, ttl, c.now));
      PutTotal(m, limit, key, NewEntry(value, ttl, c.now));
  }

  ghost predicate AlwaysWithinTwiceLimit<V>(limit: int, calls: seq<Call<V>>)
  {
    forall i :: 0 <= i <= |calls| ==> Total(Before(limit, calls, i)) <= 2 * limit
  }

  ghost predicate NeverOverfills<V>(limit: int, calls: seq<Call<V>>)
  {
    forall i :: 0 <= i < |calls| ==> !Overfills(Before(limit, calls, i), limit, calls[i])
  }

  lemma BeforeTotal<V>(limit: int, calls: seq<Call<V>>, i: nat)
    requires limit >= 1 && i < |calls| && Total(Before(limit, calls, i)) <= 2 * limit
    ensures Total(Before(limit, calls, i + 1)) <= 2 * limit <==> !Overfills(Before(limit, calls, i), limit, calls[i])
  {
    var empty: Gens<V> := Gens(map[], map[]);
    RunStaysBacked(empty, limit, calls[..i]);
    BeforeStep(limit, calls, i);
    StepTotal(Before(limit, calls, i), limit, calls[i]);
  }

  lemma {:induction false} TotalUpTo<V>(limit: int, calls: seq<Call<V>>, n: nat)
    requires limit >= 1 && n <= |calls| && NeverOverfills(limit, calls)
    ensures Total(Before(limit, calls, n)) <= 2 * limit
  {
    if n > 0 {
      TotalUpTo(limit, calls, n - 1);
      BeforeTotal(limit, calls, n - 1);
    }
  }

  /** At most twice the limit is resident throughout a run exactly when no call overfills. */
  lemma ResidencyBoundExact<V>(limit: int, calls: seq<Call<V>>)
    requires limit >= 1
    ensures AlwaysWithinTwiceLimit(limit, calls) <==> NeverOverfills(limit, calls)
  {
    if NeverOverfills(limit, calls) {
      forall i | 0 <= i <= |calls| ensures Total(Before(limit, calls, i)) <= 2 * limit { TotalUpTo(limit, calls, i); }
    }
    if AlwaysWithinTwiceLimit(limit, calls) {
      forall i | 0 <= i < |calls| ensures !Overfills(Before(limit, calls, i), limit, calls[i]) {
        assert Total(Before(limit, calls, i + 1)) <= 2 * limit;
        BeforeTotal(limit, calls, i);
      }
    }
  }

  function Name(i: nat): (s: string)
    ensures |s| == i
  {
    seq(i, _ => 'k')
  }

  ghost function Names(n: nat): set<string> { set i | 0 <= i < n :: Name(i) }

  /** All of the first n names, never expiring, in the live generation. */
  ghost predicate AllHot(g: Gens<()>, n: nat)
  {
    g.cur.Keys == Names(n) && g.prev == map[] && NeverExpiring(g.cur)
  }

  function Reads(n: nat): seq<Call<()>> { seq(n, i requires 0 <= i => Call(Load(Name(i)), 0)) }

  ghost predicate NeverExpiring(m: map<string, Entry<()>>) { forall k :: k in m ==> m[k].expires.None? }

  lemma {:induction false} ReadsPromote(g: Gens<()>, limit: int, n: nat, top: nat)
    requires n <= top && g.prev.Keys == Names(top) && g.cur.Keys == {Name(top)}
    requires NeverExpiring(g.cur) && NeverExpiring(g.prev)
    ensures var r := Replay(g, limit, Reads(n));
            && r.cur.Keys == Names(n) + {Name(top)} && r.prev.Keys == Names(top) - Names(n)
            && NeverExpiring(r.cur) && NeverExpiring(r.prev)
  {
    if n > 0 {
      assert Reads(n)[..n - 1] == Reads(n - 1);
      ReadsPromote(g, limit, n - 1, top);
      NamesGrow(n - 1);
      assert |Name(top)| == top && |Name(n - 1)| == n - 1;
      assert Name(n - 1) in Names(top);
      ReadPromotes(Replay(g, limit, Reads(n - 1)), limit, Name(n - 1));
    }
  }

  /** Reading an old name that never expires moves it, and nothing else. */
  lemma ReadPromotes(r: Gens<()>, limit: int, key: string)
    requires key in r.prev && key !in r.cur && NeverExpiring(r.cur) && NeverExpiring(r.prev)
    ensures var q := Apply(r, limit, Call(Load(key), 0));
            && q.cur.Keys == r.cur.Keys + {key} && q.prev.Keys == r.prev.Keys - {key}
            && NeverExpiring(q.cur) && NeverExpiring(q.prev)
  {
  }

  lemma NamesGrow(n: nat)
    ensures Names(n + 1) == Names(n) + {Name(n)} && Name(n) !in Names(n)
  {
    forall i | 0 <= i < n ensures Name(i) != Name(n) {
      assert |Name(i)| == i;
    }
  }

  lemma {:induction false} NamesSize(n: nat)
    ensures |Names(n)| == n
  {
    if n > 0 {
      NamesSize(n - 1);
      NamesGrow(n - 1);
    }
  }

  lemma ReplayOne<V>(m: Gens<V>, limit: int, c: Call<V>)
    ensures Replay(m, limit, [c]) == Apply(m, limit, c)
  {
    assert [c][..0] == [];
  }

  lemma StoreNextName(g: Gens<()>, limit: int, n: nat)
    requires AllHot(g, n)
    ensures var stored := Apply(g, limit, Call(Store(Name(n), (), 0), 0));
            if |g.cur| < limit then AllHot(stored, n + 1)
            else stored.cur == map[Name(n) := Entry((), None)] && stored.prev == g.cur
  {
    NamesGrow(n);
    var stored := Apply(g, limit, Call(Store(Name(n), (), 0), 0));
    if |g.cur| < limit {
      assert stored.cur.Keys == Names(n) + {Name(n)};
    }
  }

  lemma ReadBackAll(g: Gens<()>, limit: int, n: nat)
    requires AllHot(Gens(g.prev, map[]), n) && g.cur == map[Name(n) := Entry((), None)]
    ensures AllHot(Replay(g, limit, Reads(n)), n + 1)
  {
    NamesGrow(n);
    assert g.cur.Keys == {Name(n)};
    ReadsPromote(g, limit, n, n);
    assert Replay(g, limit, Reads(n)).prev.Keys == {};
  }

  /** Storing one more name, then reading the others back, leaves all of them live. */
  lemma HotSetStep(g: Gens<()>, limit: int, n: nat) returns (more: seq<Call<()>>)
    requires AllHot(g, n)
    ensures AllHot(Replay(g, limit, more), n + 1)
  {
    var store := Call(Store(Name(n), (), 0), 0);
    ReplayOne(g, limit, store);
    StoreNextName(g, limit, n);
    if |g.cur| < limit {
      more := [store];
    } else {
      ReadBackAll(Replay(g, limit, [store]), limit, n);
      ReplayConcat(g, limit, [store], Reads(n));
      more := [store] + Reads(n);
    }
  }

  lemma {:induction false} HotSetGrows(limit: int, n: nat) returns (calls: seq<Call<()>>)
    ensures AllHot(Replay(Gens(map[], map[]), limit, calls), n)
  {
    if n == 0 {
      calls := [];
    } else {
      var init := HotSetGrows(limit, n - 1);
      var more := HotSetStep(Replay(Gens(map[], map[]), limit, init), limit, n - 1);
      ReplayConcat(Gens(map[], map[]), limit, init, more);
      calls := init + more;
    }
  }

  /** The documented cost of at most twice the limit fails without bound: for every n there
      is a run after which n entries are resident. */
  lemma ResidencyIsUnbounded(limit: int, n: nat)
    ensures exists calls: seq<Call<()>> :: |Replay(Gens(map[], map[]), limit, calls).cur| == n
  {
    var calls := HotSetGrows(limit, n);
    NamesSize(n);
    assert |Replay(Gens(map[], map[]), limit, calls).cur| == n;
  }

  /** A promotion moves an entry and changes no count: the total stays what it was. */
  lemma PromotionConservesTotal<V>(m: Gens<V>, key: string, now: int)
    requires Disjoint(m) && Lookup(m, key, now).Some?
    ensures var p := Promote(m, key, Lookup(m, key, now).value);
            |p.cur| + |p.prev| == |m.cur| + |m.prev|
  {
    MapSizes(m.cur, key, Find(m, key));
    MapSizes(m.prev, key, Find(m, key));
  }
}
