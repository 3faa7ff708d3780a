/** The distributed lock (labs/04-caching/distributed_lock.go) over the lock half of the
    in-memory store (labs/04-caching/mock_cache.go). */
module Leases {
  import opened TtlMaps

  type Locks = Store<string>

  /** One call on the shared store.  `SetNX` reads the clock twice: once to purge an expired
      holder (`check`) and once to stamp the new lease (`stamp`). */
  datatype Op =
    | Acquire(key: string, token: string, ttl: int, check: int, stamp: int)
    | Release(key: string, token: string, now: int)
    | Peek(key: string, now: int)
  {
    function First(): int {
      if Acquire? then check else now
    }

    function Last(): int {
      if Acquire? then stamp else now
    }
  }

  function SetNX(m: Locks, key: string, token: string, ttl: int, check: int, stamp: int): (Locks, bool) {
    var m := Purge(m, key, check);
    if key in m.data then (m, false) else (Put(m, key, token, ttl, stamp), true)
  }

  function CompareAndDel(m: Locks, key: string, token: string, now: int): (Locks, bool) {
    var m := Purge(m, key, now);
    if key in m.data && m.data[key] == token then (Drop(m, key), true) else (m, false)
  }

  /** The effect of a call and whether it succeeded.  `TryAcquireLock` refuses a time to live
      that is not positive before it reaches the store. */
  function Do(m: Locks, op: Op): (Locks, bool) {
    match op
    case Acquire(key, token, ttl, check, stamp) =>
      if ttl <= 0 then (m, false) else SetNX(m, key, token, ttl, check, stamp)
    case Release(key, token, now) => CompareAndDel(m, key, token, now)
    case Peek(key, now) => (Purge(m, key, now), key in Purge(m, key, now).data)
  }

  /** What `WithLock` reports; `released` is false when the lease was no longer its own. */
  datatype LockResult = Refused | Contended | Ran(fnOk: bool, released: bool)

  function After(m: Locks, ops: seq<Op>): Locks {
    if ops == [] then m else Do(After(m, ops[..|ops| - 1]), ops[|ops| - 1]).0
  }

  class MockRedisClient {
    var data: map<string, string>
    var expiries: map<string, int>

    ghost function View(): Locks
      reads this
    {
      Store(data, expiries)
    }

    constructor ()
      ensures View() == Store(map[], map[])
    {
      data, expiries := map[], map[];
    }

    method RemoveExpired(key: string, now: int)
      modifies this
      ensures View() == Purge(old(View()), key, now)
    {
      if key in expiries && now > expiries[key] {
        data := data - {key};
        expiries := expiries - {key};
      }
    }

    method SetIfAbsent(key: string, value: string, ttl: int, check: int, stamp: int) returns (ok: bool)
      modifies this
      ensures (View(), ok) == SetNX(old(View()), key, value, ttl, check, stamp)
    {
      RemoveExpired(key, check);
      if key in data {
        return false;
      }
      data := data[key := value];
      if ttl > 0 {
        expiries := expiries[key := stamp + ttl];
      } else {
        expiries := expiries - {key};
      }
      return true;
    }

    method CompareAndDelete(key: string, value: string, now: int) returns (ok: bool)
      modifies this
      ensures (View(), ok) == CompareAndDel(old(View()), key, value, now)
    {
      RemoveExpired(key, now);
      if key !in data || data[key] != value {
        return false;
      }
      data := data - {key};
      expiries := expiries - {key};
      return true;
    }

    method Perform(op: Op) returns (ok: bool)
      modifies this
      ensures (View(), ok) == Do(old(View()), op)
    {
      match op {
        case Acquire(key, token, ttl, check, stamp) =>
          if ttl <= 0 {
            return false;
          }
          ok := SetIfAbsent(key, token, ttl, check, stamp);
        case Release(key, token, now) =>
          ok := CompareAndDelete(key, token, now);
        case Peek(key, now) =>
          RemoveExpired(key, now);
          ok := key in data;
      }
    }

    /** Try once to take the lock, run the protected function, and release on the way out.
        `meanwhile` is what other clients do to the store while the function runs. */
    method WithLock(take: Op, fnOk: bool, meanwhile: seq<Op>, releaseAt: int) returns (r: LockResult)
      requires take.Acquire?
      modifies this
      ensures r == Refused <==> take.ttl <= 0
      ensures r == Contended <==> take.ttl > 0 && !Do(old(View()), take).1
      ensures !r.Ran? ==> View() == Do(old(View()), take).0
      ensures r.Ran? ==>
                var (m, released) := CompareAndDel(After(Do(old(View()), take).0, meanwhile), take.key, take.token,
                  releaseAt);
                r == Ran(fnOk, released) && View() == m
    {
      if take.ttl <= 0 {
        return Refused;
      }
      var acquired := Perform(take);
      if !acquired {
        return Contended;
      }
      ghost var m := View();
      for i := 0 to |meanwhile|
        invariant View() == After(m, meanwhile[..i])
      {
        var _ := Perform(meanwhile[i]);
        assert meanwhile[..i + 1][..i] == meanwhile[..i];
      }
      assert meanwhile[..|meanwhile|] == meanwhile;
      var released := CompareAndDelete(take.key, take.token, releaseAt);
      return Ran(fnOk, released);
    }
  }

  // ---------- Runs ----------

  /** The store before call `k` of a run that starts with no locks. */
  function At(ops: seq<Op>, k: nat): Locks
    requires k <= |ops|
  {
    if k == 0 then Store(map[], map[]) else Do(At(ops, k - 1), ops[k - 1]).0
  }

  predicate Succeeds(ops: seq<Op>, k: nat)
    requires k < |ops|
  {
    Do(At(ops, k), ops[k]).1
  }

  predicate Acquires(ops: seq<Op>, k: nat, key: string)
    requires k < |ops|
  {
    ops[k].Acquire? && ops[k].key == key && Succeeds(ops, k)
  }

  predicate Releases(ops: seq<Op>, k: nat, key: string, token: string)
    requires k < |ops|
  {
    ops[k].Release? && ops[k].key == key && ops[k].token == token && Succeeds(ops, k)
  }

  /** One clock, read in the order of the calls. */
  ghost predicate Monotone(ops: seq<Op>) {
    && (forall i :: 0 <= i < |ops| ==> ops[i].First() <= ops[i].Last())
    && (forall i, j :: 0 <= i < j < |ops| ==> ops[i].Last() <= ops[j].First())
  }

  /** The lease taken by call `i` is still in force before call `k`. */
  ghost predicate Holds(ops: seq<Op>, i: nat, k: nat)
    requires i < k <= |ops| && ops[i].Acquire?
  {
    var m, op := At(ops, k), ops[i];
    && op.key in m.data && m.data[op.key] == op.token
    && op.key in m.expiries && m.expiries[op.key] == op.stamp + op.ttl
  }

  /** A lease ends only through a release with its own token or by running out. */
  lemma {:induction false} LeaseEnds(ops: seq<Op>, i: nat, k: nat)
    requires Monotone(ops) && i < k <= |ops| && ops[i].Acquire? && Acquires(ops, i, ops[i].key)
    ensures || Holds(ops, i, k)
            || (exists m :: i < m < k && Releases(ops, m, ops[i].key, ops[i].token))
            || (k > i + 1 && ops[k - 1].Last() > ops[i].stamp + ops[i].ttl)
  {
    if k > i + 1 {
      LeaseEnds(ops, i, k - 1);
      assert ops[k - 2].Last() <= ops[k - 1].First() <= ops[k - 1].Last();
      if Holds(ops, i, k - 1) && !Holds(ops, i, k) {
        var op := ops[k - 1];
        assert op.key == ops[i].key;
        if !Expired(At(ops, k - 1), op.key, op.First()) {
          assert Releases(ops, k - 1, ops[i].key, ops[i].token);
        }
      }
    }
  }

  /** Two successful acquisitions of a key are separated by a release with the first token, or
      by more than the first lease's time to live. */
  lemma AcquisitionsSeparated(ops: seq<Op>, i: nat, j: nat, key: string)
    requires Monotone(ops) && i < j < |ops| && Acquires(ops, i, key) && Acquires(ops, j, key)
    ensures || (exists m :: i < m < j && Releases(ops, m, key, ops[i].token))
            || ops[j].check > ops[i].stamp + ops[i].ttl
  {
    LeaseEnds(ops, i, j);
    if j > i + 1 {
      assert ops[j - 1].Last() <= ops[j].First();
    }
  }

  /** Call `i` is the latest successful acquisition of `key` before call `k`. */
  ghost predicate Latest(ops: seq<Op>, i: nat, k: nat, key: string)
    requires k <= |ops|
  {
    i < k && Acquires(ops, i, key) && forall j :: i < j < k ==> !Acquires(ops, j, key)
  }

  /** Whatever token a key stores was put there by the latest acquisition of that key. */
  lemma {:induction false} StoredTokenIsLatest(ops: seq<Op>, k: nat, key: string) returns (i: nat)
    requires k <= |ops| && key in At(ops, k).data
    ensures Latest(ops, i, k, key) && At(ops, k).data[key] == ops[i].token
    ensures key in At(ops, k).expiries && At(ops, k).expiries[key] == ops[i].stamp + ops[i].ttl
  {
    if Acquires(ops, k - 1, key) {
      i := k - 1;
    } else {
      assert key in At(ops, k - 1).data;
      i := StoredTokenIsLatest(ops, k - 1, key);
      forall j | i < j < k ensures !Acquires(ops, j, key) {
      }
    }
  }

  /** A release only ever removes the lease of the acquisition whose token it carries, while that
      lease is the latest and has not run out.  With unique tokens, a late release by an old
      holder therefore never removes a newer holder's lock. */
  lemma ReleaseRemovesOwnLease(ops: seq<Op>, k: nat, key: string, token: string) returns (i: nat)
    requires k < |ops| && Releases(ops, k, key, token)
    ensures Latest(ops, i, k, key) && ops[i].token == token && ops[k].now <= ops[i].stamp + ops[i].ttl
  {
    i := StoredTokenIsLatest(ops, k, key);
  }

  /** A release that carries any other token, or names any other key, leaves a lease in force. */
  lemma LateReleaseIsHarmless(ops: seq<Op>, i: nat, k: nat)
    requires i < k < |ops| && ops[i].Acquire? && Holds(ops, i, k)
    requires ops[k].Release? && (ops[k].token != ops[i].token || ops[k].key != ops[i].key)
    requires ops[k].now <= ops[i].stamp + ops[i].ttl
    ensures Holds(ops, i, k + 1)
  {
    assert At(ops, k + 1) == Do(At(ops, k), ops[k]).0;
  }

  // ---------- Exactly when calls succeed ----------

  /** Call `i` took a lease on `key` that nobody has released with its token since, and that has not
      run out at time `now` of call `k`. */
  ghost predicate InForce(ops: seq<Op>, i: nat, k: nat, key: string, now: int)
    requires k <= |ops|
  {
    && i < k && Acquires(ops, i, key) && now <= ops[i].stamp + ops[i].ttl
    && forall m :: i < m < k ==> !Releases(ops, m, key, ops[i].token)
  }

  /** A released key stays free until somebody acquires it. */
  lemma {:induction false} FreeUntilAcquired(ops: seq<Op>, m: nat, k: nat, key: string, token: string)
    requires m < k <= |ops| && Releases(ops, m, key, token) && forall j :: m < j < k ==> !Acquires(ops, j, key)
    ensures key !in At(ops, k).data
  {
    if k > m + 1 {
      FreeUntilAcquired(ops, m, k - 1, key, token);
      assert !Acquires(ops, k - 1, key);
    }
  }

  /** The store holds an unexpired token under a key exactly when some lease on it is in force, and
      then it is that lease's token. */
  lemma StoredIffInForce(ops: seq<Op>, k: nat, key: string, now: int)
    requires Monotone(ops) && k <= |ops| && (k > 0 ==> ops[k - 1].Last() <= now)
    ensures key in At(ops, k).data && !Expired(At(ops, k), key, now) <==>
            exists i: nat :: InForce(ops, i, k, key, now)
    ensures forall i: nat :: InForce(ops, i, k, key, now) ==>
              key in At(ops, k).data && At(ops, k).data[key] == ops[i].token
  {
    if key in At(ops, k).data && !Expired(At(ops, k), key, now) {
      var i := StoredTokenIsLatest(ops, k, key);
      forall m | i < m < k ensures !Releases(ops, m, key, ops[i].token) {
        if Releases(ops, m, key, ops[i].token) {
          FreeUntilAcquired(ops, m, k, key, ops[i].token);
        }
      }
      assert InForce(ops, i, k, key, now);
    }
    forall i: nat | InForce(ops, i, k, key, now)
      ensures key in At(ops, k).data && At(ops, k).data[key] == ops[i].token && !Expired(At(ops, k), key, now)
    {
      LeaseEnds(ops, i, k);
    }
  }

  /** An acquisition succeeds if and only if its time to live is positive and no earlier lease on the
      key is unexpired and unreleased. */
  lemma AcquireSucceedsIff(ops: seq<Op>, k: nat)
    requires Monotone(ops) && k < |ops| && ops[k].Acquire?
    ensures Succeeds(ops, k) <==>
            ops[k].ttl > 0 && !exists i: nat :: InForce(ops, i, k, ops[k].key, ops[k].check)
  {
    assert k > 0 ==> ops[k - 1].Last() <= ops[k].First();
    StoredIffInForce(ops, k, ops[k].key, ops[k].check);
  }

  /** A release succeeds if and only if the lease in force on the key is one with its token. */
  lemma ReleaseSucceedsIff(ops: seq<Op>, k: nat)
    requires Monotone(ops) && k < |ops| && ops[k].Release?
    ensures Succeeds(ops, k) <==>
            exists i: nat :: InForce(ops, i, k, ops[k].key, ops[k].now) && ops[i].token == ops[k].token
  {
    assert k > 0 ==> ops[k - 1].Last() <= ops[k].First();
    StoredIffInForce(ops, k, ops[k].key, ops[k].now);
  }
}
