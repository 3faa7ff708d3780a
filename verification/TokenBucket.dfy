/** The in-process token bucket (labs/95-rate-limiting/token_bucket.go), in exact arithmetic.

    Time is in seconds.  The clock is a parameter of every call. */
module TokenBuckets {

  datatype Bucket = Bucket(tokens: real, lastRefill: real)

  function Min(a: real, b: real): real {
    if a < b then a else b
  }

  /** Tokens accrued by time `t` at a constant rate. */
  function Linear(rate: real): real -> real {
    t => t * rate
  }

  /** The level after topping up for the time since the last call, before the request is served.
      `accrued(t)` is the supply generated up to time `t`. */
  function Refilled(capacity: real, accrued: real -> real, b: Bucket, now: real): real {
    Min(capacity, b.tokens + (accrued(now) - accrued(b.lastRefill)))
  }

  predicate Allows(capacity: real, accrued: real -> real, b: Bucket, now: real, n: real) {
    Refilled(capacity, accrued, b, now) >= n
  }

  function Used(capacity: real, accrued: real -> real, b: Bucket, now: real, n: real): Bucket {
    var level := Refilled(capacity, accrued, b, now);
    Bucket(if level >= n then level - n else level, now)
  }

  lemma ElapsedTimesRate(rate: real, last: real, now: real)
    ensures (now - last) * rate == Linear(rate)(now) - Linear(rate)(last)
  {
  }

  class TokenBucket {
    const capacity: real
    const rate: real
    var tokens: real
    var lastRefill: real

    ghost function View(): Bucket
      reads this
    {
      Bucket(tokens, lastRefill)
    }

    constructor (capacity: real, rate: real, now: real)
      ensures this.capacity == capacity && this.rate == rate && View() == Bucket(capacity, now)
    {
      this.capacity, this.rate, tokens, lastRefill := capacity, rate, capacity, now;
    }

    method Use(n: real, now: real) returns (ok: bool)
      modifies this
      ensures ok == Allows(capacity, Linear(rate), old(View()), now, n)
      ensures View() == Used(capacity, Linear(rate), old(View()), now, n)
    {
      var elapsed := now - lastRefill;
      ElapsedTimesRate(rate, lastRefill, now);
      tokens := tokens + elapsed * rate;
      if tokens > capacity {
        tokens := capacity;
      }
      lastRefill := now;
      if tokens >= n {
        tokens := tokens - n;
        return true;
      }
      return false;
    }
  }

  // ---------- Runs ----------

  datatype Request = Request(now: real, n: real)

  /** A limiter created full at time `start`, and the requests made of it. */
  datatype Run = Run(capacity: real, accrued: real -> real, start: real, reqs: seq<Request>) {

    /** Non-negative settings and requests, and a clock that never goes back. */
    ghost predicate Valid() {
      && capacity >= 0.0
      && (forall s, t :: s <= t ==> accrued(s) <= accrued(t))
      && (forall i :: 0 <= i < |reqs| ==> reqs[i].n >= 0.0 && reqs[i].now >= start)
      && (forall i, j :: 0 <= i < j < |reqs| ==> reqs[i].now <= reqs[j].now)
    }

    function At(k: nat): Bucket
      requires k <= |reqs|
    {
      if k == 0 then Bucket(capacity, start)
      else Used(capacity, accrued, At(k - 1), reqs[k - 1].now, reqs[k - 1].n)
    }

    predicate GrantedAt(k: nat)
      requires k < |reqs|
    {
      Allows(capacity, accrued, At(k), reqs[k].now, reqs[k].n)
    }

    /** Tokens granted by the first `k` requests at times in `[t1, t2]`. */
    function GrantedWithin(t1: real, t2: real, k: nat): real
      requires k <= |reqs|
    {
      if k == 0 then 0.0
      else
        GrantedWithin(t1, t2, k - 1) +
        if GrantedAt(k - 1) && t1 <= reqs[k - 1].now <= t2 then reqs[k - 1].n else 0.0
    }

    /** What a window `[t1, t2]` may spend: a full bucket and what accrues meanwhile. */
    function Allowance(t1: real, t2: real): real {
      capacity + (accrued(t2) - accrued(t1))
    }
  }

  lemma {:induction false} Level(r: Run, k: nat)
    requires r.Valid() && k <= |r.reqs|
    ensures 0.0 <= r.At(k).tokens <= r.capacity
    ensures r.At(k).lastRefill == if k == 0 then r.start else r.reqs[k - 1].now
  {
    if k > 0 {
      Level(r, k - 1);
      assert r.At(k - 1).lastRefill <= r.reqs[k - 1].now;
    }
  }

  /** What a window has granted plus what is left in the bucket never exceeds the allowance. */
  lemma {:induction false} Potential(r: Run, t1: real, t2: real, k: nat)
    requires r.Valid() && t1 <= t2 && 0 < k <= |r.reqs|
    ensures r.reqs[k - 1].now < t1 ==> r.GrantedWithin(t1, t2, k) == 0.0
    ensures t1 <= r.reqs[k - 1].now <= t2 ==>
              r.GrantedWithin(t1, t2, k) + r.At(k).tokens <= r.Allowance(t1, r.reqs[k - 1].now)
    ensures t2 < r.reqs[k - 1].now ==> r.GrantedWithin(t1, t2, k) <= r.Allowance(t1, t2)
  {
    var now := r.reqs[k - 1].now;
    Level(r, k - 1);
    if k > 1 {
      var before := r.reqs[k - 2].now;
      assert before <= now;
      Potential(r, t1, t2, k - 1);
    }
  }

  /** Over any time window the tokens granted total at most the window's allowance. */
  lemma WindowAllowance(r: Run, t1: real, t2: real)
    requires r.Valid() && t1 <= t2
    ensures r.GrantedWithin(t1, t2, |r.reqs|) <= r.Allowance(t1, t2)
  {
    if |r.reqs| > 0 {
      Potential(r, t1, t2, |r.reqs|);
      Level(r, |r.reqs|);
    }
  }

  /** The promised bound for the constant-rate bucket: `capacity + rate * (t2 - t1)`. */
  lemma WindowBound(r: Run, rate: real, t1: real, t2: real)
    requires rate >= 0.0 && r.accrued == Linear(rate) && r.Valid() && t1 <= t2
    ensures r.GrantedWithin(t1, t2, |r.reqs|) <= r.capacity + rate * (t2 - t1)
  {
    WindowAllowance(r, t1, t2);
    ElapsedTimesRate(rate, t1, t2);
  }

  /** Widening the end of a window past every request adds nothing. */
  lemma {:induction false} WindowEnd(r: Run, t1: real, t2: real, t3: real, k: nat)
    requires k <= |r.reqs|
    requires forall i :: 0 <= i < k ==> r.reqs[i].now <= t2 && r.reqs[i].now <= t3
    ensures r.GrantedWithin(t1, t2, k) == r.GrantedWithin(t1, t3, k)
  {
    if k > 0 {
      WindowEnd(r, t1, t2, t3, k - 1);
    }
  }

  lemma {:induction false} GrantedNonNegative(r: Run, t1: real, t2: real, k: nat)
    requires r.Valid() && k <= |r.reqs|
    ensures r.GrantedWithin(t1, t2, k) >= 0.0
  {
    if k > 0 {
      GrantedNonNegative(r, t1, t2, k - 1);
    }
  }

  /** One request carries the account of a shortfall forward. */
  lemma Shortfall(r: Run, s: real, k: nat, now: real)
    requires 0 < k <= |r.reqs|
    requires s <= r.reqs[k - 1].now <= now
    requires Refilled(r.capacity, r.accrued, r.At(k - 1), r.reqs[k - 1].now)
             >= r.Allowance(s, r.reqs[k - 1].now) - r.GrantedWithin(s, now, k - 1)
    requires r.At(k).tokens + (r.accrued(now) - r.accrued(r.reqs[k - 1].now)) <= r.capacity
    ensures Refilled(r.capacity, r.accrued, r.At(k), now) >= r.Allowance(s, now) - r.GrantedWithin(s, now, k)
  {
  }

  lemma ShortfallAtEarlierCall(r: Run, s: real, k: nat, now: real)
    requires r.Valid() && 0 < k <= |r.reqs|
    requires s <= r.reqs[k - 1].now <= now
    requires Refilled(r.capacity, r.accrued, r.At(k - 1), r.reqs[k - 1].now)
             >= r.Allowance(s, r.reqs[k - 1].now) - r.GrantedWithin(s, r.reqs[k - 1].now, k - 1)
    requires r.At(k).tokens + (r.accrued(now) - r.accrued(r.reqs[k - 1].now)) <= r.capacity
    ensures Refilled(r.capacity, r.accrued, r.At(k), now) >= r.Allowance(s, now) - r.GrantedWithin(s, now, k)
  {
    WindowEnd(r, s, r.reqs[k - 1].now, now, k - 1);
    Shortfall(r, s, k, now);
  }

  /** A shortfall is always explained by a window's spending: `s` is the last moment the bucket
      was full, and all that is missing now was granted since. */
  lemma {:induction false} LastFull(r: Run, k: nat, now: real) returns (s: real)
    requires r.Valid() && k <= |r.reqs| && r.At(k).lastRefill <= now
    ensures s <= now
    ensures Refilled(r.capacity, r.accrued, r.At(k), now) >= r.Allowance(s, now) - r.GrantedWithin(s, now, k)
  {
    var b := r.At(k);
    if b.tokens + (r.accrued(now) - r.accrued(b.lastRefill)) > r.capacity {
      s := now;
      GrantedNonNegative(r, s, now, k);
    } else if k == 0 {
      s := r.start;
    } else {
      Level(r, k);
      Level(r, k - 1);
      s := LastFull(r, k - 1, r.reqs[k - 1].now);
      ShortfallAtEarlierCall(r, s, k, now);
    }
  }

  lemma GrantKeepsAllowance(r: Run, k: nat, s: real)
    requires r.Valid() && k < |r.reqs| && r.GrantedAt(k) && s <= r.reqs[k].now
    ensures r.GrantedWithin(s, r.reqs[k].now, k) + r.reqs[k].n <= r.Allowance(s, r.reqs[k].now)
  {
    Potential(r, s, r.reqs[k].now, k + 1);
    Level(r, k + 1);
    assert r.GrantedWithin(s, r.reqs[k].now, k + 1) == r.GrantedWithin(s, r.reqs[k].now, k) + r.reqs[k].n;
  }

  /** The bucket is the most permissive limiter the bound allows: a request is granted exactly
      when granting it keeps every window that ends now within its allowance. */
  lemma GrantsExactlyWhatWindowsAllow(r: Run, k: nat)
    requires r.Valid() && k < |r.reqs|
    ensures
      var now := r.reqs[k].now;
      r.GrantedAt(k) <==>
      forall s :: s <= now ==> r.GrantedWithin(s, now, k) + r.reqs[k].n <= r.Allowance(s, now)
  {
    var now, n := r.reqs[k].now, r.reqs[k].n;
    if r.GrantedAt(k) {
      forall s | s <= now ensures r.GrantedWithin(s, now, k) + n <= r.Allowance(s, now) {
        GrantKeepsAllowance(r, k, s);
      }
    } else {
      Level(r, k);
      assert r.At(k).lastRefill <= now;
      var s := LastFull(r, k, now);
      assert r.GrantedWithin(s, now, k) + n > r.Allowance(s, now);
    }
  }
}
