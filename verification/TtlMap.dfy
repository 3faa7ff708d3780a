/** The in-memory stores with time to live (labs/04-caching/mock_cache.go): the values they hold
    and what each operation does to them.  Instants and durations are nanosecond counts. */
module TtlMaps {

  datatype Store<V> = Store(data: map<string, V>, expiries: map<string, int>)

  datatype Lookup<V> = Hit(value: V) | Miss | Down

  predicate Expired<V>(m: Store<V>, key: string, now: int) {
    key in m.expiries && now > m.expiries[key]
  }

  function Drop<V>(m: Store<V>, key: string): Store<V> {
    Store(m.data - {key}, m.expiries - {key})
  }

  /** `removeExpired`. */
  function Purge<V>(m: Store<V>, key: string, now: int): Store<V> {
    if Expired(m, key, now) then Drop(m, key) else m
  }

  /** A positive time to live sets the expiry, any other removes it. */
  function Put<V>(m: Store<V>, key: string, v: V, ttl: int, now: int): Store<V> {
    Store(m.data[key := v], if ttl > 0 then m.expiries[key := now + ttl] else m.expiries - {key})
  }

  /** `MockCache.Get`, which drops the entry it finds expired. */
  function Find<V>(m: Store<V>, key: string, now: int): (Store<V>, Lookup<V>) {
    if key !in m.data then (m, Miss)
    else if Expired(m, key, now) then (Drop(m, key), Miss)
    else (m, Hit(m.data[key]))
  }

  /** `TTLWithJitter`: `draw` is the random number, which lies in `[0, maxJitter)`. */
  function TtlWithJitter(base: int, maxJitter: int, draw: int): (ttl: int)
    requires maxJitter > 0 ==> 0 <= draw < maxJitter
    ensures base <= ttl
    ensures if maxJitter > 0 then ttl < base + maxJitter else ttl == base
  {
    if maxJitter <= 0 then base else base + draw
  }

  /** Every time to live from `base` up to, but not reaching, `base + maxJitter` can be drawn, each by
      one number. */
  lemma JitterCovers(base: int, maxJitter: int, ttl: int)
    requires maxJitter > 0 && base <= ttl < base + maxJitter
    ensures forall draw :: 0 <= draw < maxJitter ==>
              (TtlWithJitter(base, maxJitter, draw) == ttl <==> draw == ttl - base)
  {
  }

  /** A value set with a positive time to live is found up to and including its expiry and not after;
      one set without is always found; and other keys are found as before. */
  lemma SetThenGet<V>(m: Store<V>, key: string, v: V, ttl: int, now: int, other: string, later: int)
    ensures
      var m' := Put(m, key, v, ttl, now);
      && (other == key ==> Find(m', other, later).1 == if ttl > 0 && later > now + ttl then Miss else Hit(v))
      && (other != key ==> Find(m', other, later).1 == Find(m, other, later).1)
  {
  }

  /** A deleted key is not found, and other keys are found as before. */
  lemma DeleteThenGet<V>(m: Store<V>, key: string, other: string, later: int)
    ensures Find(Drop(m, key), other, later).1 == if other == key then Miss else Find(m, other, later).1
  {
  }

  /** Looking a key up changes what is found later only by dropping an entry already expired. */
  lemma GetThenGet<V>(m: Store<V>, key: string, now: int, other: string, later: int)
    requires now <= later
    ensures Find(Find(m, key, now).0, other, later).1 == Find(m, other, later).1
  {
  }

  /** An expired entry is gone once it has been looked for; anything else stays as it is. */
  lemma ExpiredIsDropped<V>(m: Store<V>, key: string, now: int)
    ensures
      var m' := Find(m, key, now).0;
      if key in m.data && key in m.expiries && now > m.expiries[key]
      then m'.data == m.data - {key} && m'.expiries == m.expiries - {key} else m' == m
  {
  }

  /** `MockCache`; `down` says whether the backend fails this call. */
  class MockCache<V> {
    var data: map<string, V>
    var expiries: map<string, int>

    ghost function View(): Store<V>
      reads this
    {
      Store(data, expiries)
    }

    constructor ()
      ensures View() == Store(map[], map[])
    {
      data, expiries := map[], map[];
    }

    method Get(key: string, now: int, down: bool) returns (r: Lookup<V>)
      modifies this
      ensures (View(), r) == if down then (old(View()), Down) else Find(old(View()), key, now)
    {
      if down {
        return Down;
      }
      if key !in data {
        return Miss;
      }
      if key in expiries && now > expiries[key] {
        data := data - {key};
        expiries := expiries - {key};
        return Miss;
      }
      return Hit(data[key]);
    }

    method Set(key: string, value: V, ttl: int, now: int, down: bool) returns (ok: bool)
      modifies this
      ensures ok == !down
      ensures View() == if down then old(View()) else Put(old(View()), key, value, ttl, now)
    {
      if down {
        return false;
      }
      data := data[key := value];
      if ttl > 0 {
        expiries := expiries[key := now + ttl];
      } else {
        expiries := expiries - {key};
      }
      return true;
    }

    method Delete(key: string, down: bool) returns (ok: bool)
      modifies this
      ensures ok == !down
      ensures View() == if down then old(View()) else Drop(old(View()), key)
    {
      if down {
        return false;
      }
      data := data - {key};
      expiries := expiries - {key};
      return true;
    }
  }
}
