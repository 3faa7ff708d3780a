/** Products behind a cache (labs/04-caching/write_through.go, cache_aside.go).

    The database and the cache are separate systems: any cache call may fail on its own.  The
    runs considered are sequential, in the order of one clock. */
module ProductCaches {
  import opened TtlMaps

  datatype Product = Product(id: string, name: string, price: real)

  /** A cached value: the encoding of a product, or text that does not decode. */
  datatype Blob = Json(product: Product) | Junk(text: string)

  const TTL := 300_000_000_000

  const JITTER := 15_000_000_000

  function CacheKey(id: string): string {
    "product:" + id + ":v1"
  }

  /** Different products never share a key. */
  lemma CacheKeyInjective(a: string, b: string)
    requires CacheKey(a) == CacheKey(b)
    ensures a == b
  {
    assert CacheKey(a)[8..8 + |a|] == a;
    assert CacheKey(b)[8..8 + |b|] == b;
  }

  /** The random part of a time to live. */
  type Draw = d: int | 0 <= d < JITTER

  /** Which systems fail during one operation, and the random number it draws. */
  datatype Luck = Luck(dbDown: bool, getDown: bool, setDown: bool, deleteDown: bool, draw: Draw)

  datatype Op =
    | Update(product: Product, now: int, luck: Luck)
    | ReadThrough(id: string, now: int, luck: Luck)
    | ReadAside(id: string, now: int, luck: Luck)

  datatype Write = Write(now: int, product: Product)

  /** Besides the two systems the state records every database write, when each key was last
      stored, and the products whose cache entry has not been rewritten or deleted since an update
      that could do neither. */
  datatype State = State(db: map<string, Product>, cache: Store<Blob>, writes: seq<Write>,
                         storedAt: map<string, int>, dirty: set<string>)

  datatype Answer = Found(product: Product) | NotServed

  // ---------- Operations ----------

  /** The row `p` of product `id`, written to the cache. */
  function StoreRow(s: State, id: string, p: Product, ttl: int, now: int): State {
    s.(cache := Put(s.cache, CacheKey(id), Json(p), ttl, now), storedAt := s.storedAt[CacheKey(id) := now],
       dirty := s.dirty - {id})
  }

  function DropEntry(s: State, key: string): State {
    s.(cache := Drop(s.cache, key))
  }

  function Jittered(luck: Luck): int {
    TtlWithJitter(TTL, JITTER, luck.draw)
  }

  function DoUpdate(s: State, p: Product, now: int, luck: Luck): State {
    if p.id == "" || luck.dbDown || p.id !in s.db then s
    else
      var t := s.(db := s.db[p.id := p], writes := s.writes + [Write(now, p)]);
      if !luck.setDown then StoreRow(t, p.id, p, Jittered(luck), now)
      else if !luck.deleteDown then DropEntry(t, CacheKey(p.id)).(dirty := s.dirty - {p.id})
      else t.(dirty := s.dirty + {p.id})
  }

  /** Both services read alike: a decodable hit is served; junk is deleted if possible; anything
      else falls back to the database and tries to repopulate the cache. */
  function DoRead(s: State, id: string, ttl: int, now: int, luck: Luck): (State, Answer) {
    var key := CacheKey(id);
    var (cache, found) := if luck.getDown then (s.cache, Down) else Find(s.cache, key, now);
    var s := s.(cache := cache);
    if found.Hit? && found.value.Json? then (s, Found(found.value.product))
    else
      var s := if found.Hit? && found.value.text != "" && !luck.deleteDown then DropEntry(s, key) else s;
      if luck.dbDown || id !in s.db then (s, NotServed)
      else
        var p := s.db[id];
        (if luck.setDown then s else StoreRow(s, id, p, ttl, now), Found(p))
  }

  function ReadTtl(op: Op): int
    requires !op.Update?
  {
    if op.ReadThrough? then TTL else Jittered(op.luck)
  }

  function Do(s: State, op: Op): (State, Answer) {
    match op
    case Update(p, now, luck) => (DoUpdate(s, p, now, luck), NotServed)
    case ReadThrough(id, now, luck) => DoRead(s, id, ReadTtl(op), now, luck)
    case ReadAside(id, now, luck) => DoRead(s, id, ReadTtl(op), now, luck)
  }

  /** The services as code: the database rows and the cache are mutable, the rest is record. */
  class ProductService {
    var db: map<string, Product>
    const cache: MockCache<Blob>
    ghost var writes: seq<Write>
    ghost var storedAt: map<string, int>
    ghost var dirty: set<string>

    ghost function View(): State
      reads this, cache
    {
      State(db, cache.View(), writes, storedAt, dirty)
    }

    constructor (rows: map<string, Product>)
      ensures fresh(cache) && View() == State(rows, Store(map[], map[]), [], map[], {})
    {
      db := rows;
      cache := new MockCache<Blob>();
      writes, storedAt, dirty := [], map[], {};
    }

    method UpdateProduct(p: Product, now: int, luck: Luck) returns (ok: bool)
      modifies this, cache
      ensures View() == DoUpdate(old(View()), p, now, luck)
      ensures ok <==> p.id != "" && !luck.dbDown && p.id in old(db)
    {
      if p.id == "" {
        return false;
      }
      if luck.dbDown || p.id !in db {
        return false;
      }
      db := db[p.id := p];
      writes := writes + [Write(now, p)];
      var key := CacheKey(p.id);
      var ttl := Jittered(luck);
      var stored := cache.Set(key, Json(p), ttl, now, luck.setDown);
      if stored {
        storedAt, dirty := storedAt[key := now], dirty - {p.id};
      } else {
        var deleted := cache.Delete(key, luck.deleteDown);
        dirty := if deleted then dirty - {p.id} else dirty + {p.id};
      }
      return true;
    }

    method GetProduct(id: string, ttl: int, now: int, luck: Luck) returns (a: Answer)
      modifies this, cache
      ensures (View(), a) == DoRead(old(View()), id, ttl, now, luck)
    {
      var key := CacheKey(id);
      var found := cache.Get(key, now, luck.getDown);
      if found.Hit? {
        if found.value.Json? {
          return Found(found.value.product);
        }
        if found.value.text != "" {
          var _ := cache.Delete(key, luck.deleteDown);
        }
      }
      if luck.dbDown || id !in db {
        return NotServed;
      }
      var p := db[id];
      var stored := cache.Set(key, Json(p), ttl, now, luck.setDown);
      if stored {
        storedAt, dirty := storedAt[key := now], dirty - {id};
      }
      return Found(p);
    }
  }

  // ---------- Runs ----------

  ghost predicate ValidRun(ops: seq<Op>) {
    forall i, j :: 0 <= i < j < |ops| ==> ops[i].now <= ops[j].now
  }

  /** No product is cached yet; leftover junk is allowed. */
  ghost predicate Init(s: State) {
    && s.writes == [] && s.dirty == {} && s.storedAt == map[]
    && (forall id :: id in s.db ==> s.db[id].id == id)
    && (forall key :: key in s.cache.data ==> s.cache.data[key].Junk?)
  }

  function Exec(s: State, ops: seq<Op>): State {
    if ops == [] then s else Do(Exec(s, ops[..|ops| - 1]), ops[|ops| - 1]).0
  }

  /** The database after the first `n` writes. */
  function Replay(db: map<string, Product>, writes: seq<Write>, n: nat): map<string, Product>
    requires n <= |writes|
  {
    if n == 0 then db else Replay(db, writes, n - 1)[writes[n - 1].product.id := writes[n - 1].product]
  }

  /** The database held `p` for `id` at time `t`: after `n` writes none of which came later than
      `t`, and with no later write before `t`. */
  ghost predicate HeldAfter(db: map<string, Product>, writes: seq<Write>, id: string, p: Product, t: int, n: nat) {
    && n <= |writes|
    && id in Replay(db, writes, n) && Replay(db, writes, n)[id] == p
    && (forall i :: 0 <= i < n ==> writes[i].now <= t)
    && (forall i :: n <= i < |writes| ==> t <= writes[i].now)
  }

  ghost predicate HeldAt(db: map<string, Product>, writes: seq<Write>, id: string, p: Product, t: int) {
    exists n: nat :: HeldAfter(db, writes, id, p, t, n)
  }

  /** The cached product under `key` decodes to what the database held when it was stored, and
      its lease runs at most `TTL + JITTER` from then. */
  ghost predicate EntryHonest(db0: map<string, Product>, s: State, id: string) {
    var key := CacheKey(id);
    key in s.cache.data && s.cache.data[key].Json? ==>
      && key in s.storedAt && key in s.cache.expiries
      && s.cache.expiries[key] < s.storedAt[key] + TTL + JITTER
      && HeldAt(db0, s.writes, id, s.cache.data[key].product, s.storedAt[key])
  }

  /** A cached `id` that is not marked is what the database holds. */
  ghost predicate EntryCurrent(s: State, id: string) {
    var key := CacheKey(id);
    key in s.cache.data && s.cache.data[key].Json? && id !in s.dirty ==>
      id in s.db && s.cache.data[key].product == s.db[id]
  }

  ghost predicate Inv(db0: map<string, Product>, s: State, now: int) {
    && s.db == Replay(db0, s.writes, |s.writes|)
    && (forall i :: 0 <= i < |s.writes| ==> s.writes[i].now <= now)
    && (forall key :: key in s.storedAt ==> s.storedAt[key] <= now)
    && (forall id :: EntryHonest(db0, s, id))
    && (forall id :: EntryCurrent(s, id))
  }

  lemma {:induction false} ReplayPrefix(db: map<string, Product>, a: seq<Write>, w: Write, n: nat)
    requires n <= |a|
    ensures Replay(db, a + [w], n) == Replay(db, a, n)
  {
    if n > 0 {
      ReplayPrefix(db, a, w, n - 1);
    }
  }

  /** A later write does not change what was held earlier. */
  lemma HeldStays(db: map<string, Product>, writes: seq<Write>, w: Write, id: string, p: Product, t: int)
    requires HeldAt(db, writes, id, p, t) && t <= w.now
    ensures HeldAt(db, writes + [w], id, p, t)
  {
    var n: nat :| HeldAfter(db, writes, id, p, t, n);
    ReplayPrefix(db, writes, w, n);
    assert HeldAfter(db, writes + [w], id, p, t, n);
  }

  lemma HeldNow(db: map<string, Product>, writes: seq<Write>, id: string, now: int)
    requires id in Replay(db, writes, |writes|) && forall i :: 0 <= i < |writes| ==> writes[i].now <= now
    ensures HeldAt(db, writes, id, Replay(db, writes, |writes|)[id], now)
  {
    assert HeldAfter(db, writes, id, Replay(db, writes, |writes|)[id], now, |writes|);
  }

  /** Storing the current row keeps the invariant. */
  lemma StoreKeepsInv(db0: map<string, Product>, s: State, id: string, ttl: int, now: int)
    requires Inv(db0, s, now) && id in s.db && 0 < ttl < TTL + JITTER
    ensures Inv(db0, StoreRow(s, id, s.db[id], ttl, now), now)
  {
    var s' := StoreRow(s, id, s.db[id], ttl, now);
    HeldNow(db0, s.writes, id, now);
    forall other ensures EntryHonest(db0, s', other) && EntryCurrent(s', other) {
      assert EntryHonest(db0, s, other) && EntryCurrent(s, other);
      if CacheKey(other) == CacheKey(id) {
        CacheKeyInjective(other, id);
      }
    }
  }

  lemma DropKeepsInv(db0: map<string, Product>, s: State, key: string, now: int)
    requires Inv(db0, s, now)
    ensures Inv(db0, DropEntry(s, key), now)
  {
    forall id ensures EntryHonest(db0, DropEntry(s, key), id) && EntryCurrent(DropEntry(s, key), id) {
      assert EntryHonest(db0, s, id) && EntryCurrent(s, id);
    }
  }

  /** The database write alone: the entry of the written product may now be stale. */
  lemma WriteKeepsHonesty(db0: map<string, Product>, s: State, p: Product, now: int)
    requires Inv(db0, s, now)
    ensures
      var s' := s.(db := s.db[p.id := p], writes := s.writes + [Write(now, p)]);
      && s'.db == Replay(db0, s'.writes, |s'.writes|)
      && (forall id :: EntryHonest(db0, s', id))
      && (forall id :: id != p.id ==> EntryCurrent(s', id))
  {
    var w := Write(now, p);
    var s' := s.(db := s.db[p.id := p], writes := s.writes + [w]);
    ReplayPrefix(db0, s.writes, w, |s.writes|);
    forall id ensures EntryHonest(db0, s', id) && (id != p.id ==> EntryCurrent(s', id)) {
      assert EntryHonest(db0, s, id) && EntryCurrent(s, id);
      var key := CacheKey(id);
      if key in s.cache.data && s.cache.data[key].Json? {
        HeldStays(db0, s.writes, w, id, s.cache.data[key].product, s.storedAt[key]);
      }
    }
  }

  /** Once the entry is rewritten or dropped the product is clean again. */
  lemma RefreshKeepsInv(db0: map<string, Product>, s: State, id: string, luck: Luck, now: int, clean: set<string>)
    requires Inv(db0, s, now) && id in s.db && clean == s.dirty - {id}
    ensures Inv(db0, StoreRow(s, id, s.db[id], Jittered(luck), now).(dirty := clean), now)
    ensures Inv(db0, DropEntry(s, CacheKey(id)).(dirty := clean), now)
  {
    var a := StoreRow(s, id, s.db[id], Jittered(luck), now);
    var b := DropEntry(s, CacheKey(id));
    StoreKeepsInv(db0, s, id, Jittered(luck), now);
    DropKeepsInv(db0, s, CacheKey(id), now);
    forall other
      ensures EntryHonest(db0, a.(dirty := clean), other) && EntryCurrent(a.(dirty := clean), other)
      ensures EntryHonest(db0, b.(dirty := clean), other) && EntryCurrent(b.(dirty := clean), other)
    {
      assert EntryHonest(db0, a, other) && EntryCurrent(a, other);
      assert EntryHonest(db0, b, other) && EntryCurrent(b, other);
      if CacheKey(other) == CacheKey(id) {
        CacheKeyInjective(other, id);
      }
    }
  }

  lemma UpdateKeepsInv(db0: map<string, Product>, s: State, p: Product, now: int, luck: Luck)
    requires Inv(db0, s, now)
    ensures Inv(db0, DoUpdate(s, p, now, luck), now)
  {
    if p.id != "" && !luck.dbDown && p.id in s.db {
      WriteKeepsHonesty(db0, s, p, now);
      var s' := s.(db := s.db[p.id := p], writes := s.writes + [Write(now, p)], dirty := s.dirty + {p.id});
      forall id ensures EntryHonest(db0, s', id) && EntryCurrent(s', id) {
        var t := s.(db := s.db[p.id := p], writes := s.writes + [Write(now, p)]);
        assert EntryHonest(db0, t, id) && (id != p.id ==> EntryCurrent(t, id));
      }
      assert Inv(db0, s', now);
      RefreshKeepsInv(db0, s', p.id, luck, now, s.dirty - {p.id});
    }
  }

  /** A read leaves the state alone or drops the entry, and then may store the current row. */
  lemma ReadOutcomes(s: State, id: string, ttl: int, now: int, luck: Luck)
    ensures
      var s', dropped := DoRead(s, id, ttl, now, luck).0, DropEntry(s, CacheKey(id));
      || s' == s || s' == dropped
      || (id in s.db && (s' == StoreRow(s, id, s.db[id], ttl, now) || s' == StoreRow(dropped, id, s.db[id], ttl, now)))
  {
  }

  lemma ReadKeepsInv(db0: map<string, Product>, s: State, id: string, ttl: int, now: int, luck: Luck)
    requires Inv(db0, s, now) && 0 < ttl < TTL + JITTER
    ensures Inv(db0, DoRead(s, id, ttl, now, luck).0, now)
  {
    var key := CacheKey(id);
    DropKeepsInv(db0, s, key, now);
    if id in s.db {
      StoreKeepsInv(db0, s, id, ttl, now);
      StoreKeepsInv(db0, DropEntry(s, key), id, ttl, now);
    }
    ReadOutcomes(s, id, ttl, now, luck);
  }

  lemma InvLater(db0: map<string, Product>, s: State, now: int, later: int)
    requires Inv(db0, s, now) && now <= later
    ensures Inv(db0, s, later)
  {
  }

  /** The invariant of every run, at the time of its last operation. */
  lemma {:induction false} EveryRun(s0: State, ops: seq<Op>, now: int)
    requires Init(s0) && ValidRun(ops)
    requires forall i :: 0 <= i < |ops| ==> ops[i].now <= now
    ensures Inv(s0.db, Exec(s0, ops), now)
  {
    if ops != [] {
      var op := ops[|ops| - 1];
      EveryRun(s0, ops[..|ops| - 1], op.now);
      var s := Exec(s0, ops[..|ops| - 1]);
      match op {
        case Update(p, t, luck) => UpdateKeepsInv(s0.db, s, p, t, luck);
        case ReadThrough(id, t, luck) => ReadKeepsInv(s0.db, s, id, ReadTtl(op), t, luck);
        case ReadAside(id, t, luck) => ReadKeepsInv(s0.db, s, id, ReadTtl(op), t, luck);
      }
      InvLater(s0.db, Exec(s0, ops), op.now, now);
    }
  }

  // ---------- When a read is current ----------

  /** An update of `id` that reaches the database and neither sets nor deletes the cache entry. */
  predicate FailsBothWays(db: map<string, Product>, op: Op, id: string) {
    && op.Update? && op.product.id == id && id != "" && id in db
    && !op.luck.dbDown && op.luck.setDown && op.luck.deleteDown
  }

  /** The cache holds a product under `id` that has not expired. */
  predicate LiveEntry(s: State, id: string, now: int) {
    var found := Find(s.cache, CacheKey(id), now).1;
    found.Hit? && found.value.Json?
  }

  /** An operation that rewrites the entry of `id` with the current row, or deletes it: an update
      that does not fail both ways, or a read that goes to the database and stores what it finds. */
  predicate Refreshes(s: State, op: Op, id: string) {
    && id in s.db && !op.luck.dbDown
    && if op.Update? then op.product.id == id && id != "" && !(op.luck.setDown && op.luck.deleteDown)
       else op.id == id && (op.luck.getDown || !LiveEntry(s, id, op.now)) && !op.luck.setDown
  }

  lemma StepMarks(s: State, op: Op, id: string)
    ensures id in Do(s, op).0.dirty <==> FailsBothWays(s.db, op, id) || (id in s.dirty && !Refreshes(s, op, id))
    ensures Do(s, op).0.db.Keys == s.db.Keys
  {
  }

  /** The `i`-th operation failed both ways on `id`, and no later one has refreshed its entry. */
  ghost predicate MarkedSince(s0: State, ops: seq<Op>, id: string, i: nat) {
    && i < |ops| && FailsBothWays(s0.db, ops[i], id)
    && forall j :: i < j < |ops| ==> !Refreshes(Exec(s0, ops[..j]), ops[j], id)
  }

  lemma {:induction false} RowsStay(s0: State, ops: seq<Op>)
    ensures Exec(s0, ops).db.Keys == s0.db.Keys
  {
    if ops != [] {
      RowsStay(s0, ops[..|ops| - 1]);
      StepMarks(Exec(s0, ops[..|ops| - 1]), ops[|ops| - 1], "");
    }
  }

  lemma MarkedOnwards(s0: State, ops: seq<Op>, id: string, i: nat)
    requires ops != [] && MarkedSince(s0, ops[..|ops| - 1], id, i)
    requires !Refreshes(Exec(s0, ops[..|ops| - 1]), ops[|ops| - 1], id)
    ensures MarkedSince(s0, ops, id, i)
  {
    var front := ops[..|ops| - 1];
    forall j | i < j < |ops| ensures !Refreshes(Exec(s0, ops[..j]), ops[j], id) {
      if j < |front| {
        assert front[..j] == ops[..j] && front[j] == ops[j];
      }
    }
  }

  lemma MarkedBefore(s0: State, ops: seq<Op>, id: string, i: nat)
    requires i < |ops| - 1 && MarkedSince(s0, ops, id, i)
    ensures MarkedSince(s0, ops[..|ops| - 1], id, i) && !Refreshes(Exec(s0, ops[..|ops| - 1]), ops[|ops| - 1], id)
  {
    var front := ops[..|ops| - 1];
    forall j | i < j < |front| ensures !Refreshes(Exec(s0, front[..j]), front[j], id) {
      assert front[..j] == ops[..j] && front[j] == ops[j];
    }
  }

  /** What the mark means: some update of the product failed both ways, and since then no update
      got through to the cache and no read refilled it. */
  lemma {:induction false} MarkedIff(s0: State, ops: seq<Op>, id: string)
    requires Init(s0)
    ensures id in Exec(s0, ops).dirty <==> exists i: nat :: MarkedSince(s0, ops, id, i)
  {
    if ops != [] {
      var n := |ops| - 1;
      var front, op := ops[..n], ops[n];
      MarkedIff(s0, front, id);
      RowsStay(s0, front);
      StepMarks(Exec(s0, front), op, id);
      forall j | 0 <= j <= n ensures ops[..j] == front[..j] {
      }
      if FailsBothWays(s0.db, op, id) {
        assert MarkedSince(s0, ops, id, n);
      } else if id in Exec(s0, ops).dirty {
        var i: nat :| MarkedSince(s0, front, id, i);
        MarkedOnwards(s0, ops, id, i);
      }
      if i: nat :| MarkedSince(s0, ops, id, i) {
        if i < n {
          MarkedBefore(s0, ops, id, i);
        }
      }
    }
  }

  lemma ValidParts(ops: seq<Op>, op: Op)
    requires ValidRun(ops + [op])
    ensures ValidRun(ops) && forall i :: 0 <= i < |ops| ==> ops[i].now <= op.now
  {
    var all := ops + [op];
    assert all[|ops|] == op;
    assert forall i :: 0 <= i < |ops| ==> all[i] == ops[i];
  }

  /** A read by either service, after any run, returns the database's current row, unless the
      product is marked: see `MarkedIff`. */
  lemma ReadIsCurrent(s0: State, ops: seq<Op>, op: Op)
    requires Init(s0) && ValidRun(ops + [op]) && !op.Update?
    requires op.id !in Exec(s0, ops).dirty
    ensures
      var s := Exec(s0, ops);
      var answer := Do(s, op).1;
      && (answer.Found? ==> op.id in s.db && answer.product == s.db[op.id])
      && (!op.luck.dbDown && op.id in s.db ==> answer.Found?)
  {
    ValidParts(ops, op);
    EveryRun(s0, ops, op.now);
    assert EntryCurrent(Exec(s0, ops), op.id);
  }

  /** Exactly when a read serves something else than the current row: it can reach the cache, and
      the live entry there is another product.  That takes a mark. */
  lemma ReadIsStaleIff(s0: State, ops: seq<Op>, op: Op)
    requires Init(s0) && ValidRun(ops + [op]) && !op.Update?
    ensures
      var s := Exec(s0, ops);
      var answer := Do(s, op).1;
      && (answer.Found? && !(op.id in s.db && answer.product == s.db[op.id]) <==>
          && !op.luck.getDown && LiveEntry(s, op.id, op.now)
          && !(op.id in s.db && s.cache.data[CacheKey(op.id)].product == s.db[op.id]))
      && (answer.Found? && !(op.id in s.db && answer.product == s.db[op.id]) ==> op.id in s.dirty)
  {
    ValidParts(ops, op);
    EveryRun(s0, ops, op.now);
    assert EntryCurrent(Exec(s0, ops), op.id);
  }

  /** An update that fails both ways leaves whatever was cached: the next read that reaches a live
      entry serves the old product. */
  lemma FailedUpdateServesOld(s: State, up: Op, op: Op, id: string)
    requires FailsBothWays(s.db, up, id) && !op.Update? && op.id == id && !op.luck.getDown && LiveEntry(s, id, op.now)
    ensures
      var s' := Do(s, up).0;
      && s'.db[id] == up.product && Do(s', op).1 == Found(s.cache.data[CacheKey(id)].product)
  {
  }

  // ---------- What the cache is good for ----------

  /** An update changes exactly its own row, and only if it has an id, the row exists and the database
      is up; otherwise it changes nothing at all. */
  lemma UpdateWrites(s: State, p: Product, now: int, luck: Luck)
    ensures
      var s' := Do(s, Update(p, now, luck)).0;
      if p.id != "" && !luck.dbDown && p.id in s.db
      then s'.db == s.db[p.id := p] && s'.writes == s.writes + [Write(now, p)]
      else s' == s
  {
  }

  /** The operation stores the row of `id` in the cache: an update whose set succeeds, or a read that
      goes to the database and can store what it finds. */
  predicate Stores(s: State, op: Op, id: string) {
    && id in s.db && !op.luck.dbDown && !op.luck.setDown
    && if op.Update? then op.product.id == id && id != ""
       else op.id == id && (op.luck.getDown || !LiveEntry(s, id, op.now))
  }

  /** A read that finds text that does not decode removes it, if it can, whether or not it can store a
      row in its place. */
  lemma JunkIsDropped(s: State, read: Op)
    requires !read.Update? && !read.luck.getDown && !read.luck.deleteDown
    requires
      var found := Find(s.cache, CacheKey(read.id), read.now).1;
      found.Hit? && found.value.Junk? && found.value.text != ""
    ensures
      var s', key := Do(s, read).0, CacheKey(read.id);
      key in s'.cache.data ==> read.id in s.db && s'.cache.data[key] == Json(s.db[read.id])
  {
  }

  /** A read-through stores for five minutes sharp, everything else with the random part on top. */
  lemma StoredUntil(s: State, op: Op, id: string)
    requires Stores(s, op, id)
    ensures
      var s', key := Do(s, op).0, CacheKey(id);
      && key in s'.cache.data && id in s'.db && s'.cache.data[key] == Json(s'.db[id])
      && key in s'.cache.expiries
      && s'.cache.expiries[key] == op.now + 300_000_000_000 + if op.ReadThrough? then 0 else op.luck.draw
  {
  }

  /** A stored row is served for five minutes, database or no database ... */
  lemma StoredIsServed(s: State, op: Op, read: Op, id: string)
    requires Stores(s, op, id) && !read.Update? && read.id == id && !read.luck.getDown
    requires op.now <= read.now <= op.now + 300_000_000_000
    ensures
      var s' := Do(s, op).0;
      id in s'.db && Do(s', read).1 == Found(s'.db[id])
  {
  }

  /** ... and for less than five minutes and fifteen seconds, after which the database is asked. */
  lemma StoredIsForgotten(s: State, op: Op, read: Op, id: string)
    requires Stores(s, op, id) && !read.Update? && read.id == id
    requires read.now >= op.now + 315_000_000_000
    ensures
      var s' := Do(s, op).0;
      Do(s', read).1 == if read.luck.dbDown || id !in s'.db then NotServed else Found(s'.db[id])
  {
  }

  /** Even then it returns a row the database held within the last five minutes and fifteen
      seconds. */
  lemma ReadIsRecent(s0: State, ops: seq<Op>, op: Op) returns (t: int)
    requires Init(s0) && ValidRun(ops + [op]) && !op.Update?
    ensures
      var s := Exec(s0, ops);
      var answer := Do(s, op).1;
      answer.Found? ==>
        op.now - 315_000_000_000 < t <= op.now && HeldAt(s0.db, s.writes, op.id, answer.product, t)
  {
    ValidParts(ops, op);
    EveryRun(s0, ops, op.now);
    var s := Exec(s0, ops);
    var key := CacheKey(op.id);
    assert EntryHonest(s0.db, s, op.id);
    t := op.now;
    if !op.luck.getDown && Find(s.cache, key, op.now).1.Hit? && s.cache.data[key].Json? {
      t := s.storedAt[key];
    } else if op.id in s.db {
      HeldNow(s0.db, s.writes, op.id, op.now);
    }
  }

  /** The exception is real: an update that fails both ways leaves the old row in the cache, and
      the next read serves it. */
  lemma StaleReadWitness()
    ensures
      var old_, new_ := Product("a", "old", 1.0), Product("a", "new", 2.0);
      var fine, bad := Luck(false, false, false, false, 0), Luck(false, false, true, true, 0);
      var s0 := State(map["a" := old_], Store(map[], map[]), [], map[], {});
      var s1 := Do(s0, ReadThrough("a", 0, fine)).0;
      var s2 := Do(s1, Update(new_, 1, bad)).0;
      Init(s0) && s2.db == map["a" := new_] && s2.dirty == {"a"} && Do(s2, ReadThrough("a", 2, fine)).1 == Found(old_)
  {
  }

  /** The key as it is printed. */
  lemma KeyText()
    ensures CacheKey("sku-1") == "product:sku-1:v1"
  {
  }
}
