/** The two Lua limiters (labs/95-rate-limiting/distributed.go) as atomic transformers of one
    Redis key, with and without the key expiring underneath them.

    The caller's `now` and the server's expiry clock are the same clock. */
module RedisScripts {
  import TokenBuckets

  function Ceil(x: real): (c: int)
    ensures x <= c as real < x + 1.0
  {
    -((-x).Floor)
  }

  // ---------- Token bucket script ----------

  datatype Hash = Absent | Hash(tokens: real, lastUpdate: real)

  datatype TokenParams = TokenParams(capacity: real, fillTime: real) {
    ghost predicate Valid() {
      capacity >= 0.0 && fillTime > 0.0
    }

    /** The script's arithmetic on this elapsed time stays among the numbers. */
    predicate Usable(elapsed: real) {
      fillTime != 0.0 || capacity >= 0.0 || elapsed == 0.0
    }

    function Rate(): real
      requires fillTime != 0.0
    {
      capacity / fillTime
    }

    /** The level after a refill.  With a fill time of zero the rate is infinite, or not a number
        after no time at all, and `math.min` gives the capacity either way. */
    function Topped(tokens: real, elapsed: real): real
      requires Usable(elapsed)
    {
      if fillTime == 0.0 then capacity else TokenBuckets.Min(capacity, tokens + elapsed * Rate())
    }
  }

  datatype Call = Call(now: real, requested: real)

  /** The time the script counts as passed; an absent hash was updated just now. */
  function Elapsed(h: Hash, now: real): real {
    if h.Hash? && now - h.lastUpdate > 0.0 then now - h.lastUpdate else 0.0
  }

  /** One evaluation against the stored hash: the hash written back and the decision. */
  function TokenScript(p: TokenParams, h: Hash, c: Call): (Hash, bool)
    requires p.Usable(Elapsed(h, c.now))
  {
    var topped := p.Topped(if h.Absent? then p.capacity else h.tokens, Elapsed(h, c.now));
    if topped >= c.requested then (Hash(topped - c.requested, c.now), true) else (Hash(topped, c.now), false)
  }

  /** A stored hash and the instant Redis drops it. */
  datatype TokenKey = TokenKey(hash: Hash, expiresAt: real) {
    function Live(now: real): Hash {
      if now >= expiresAt then Absent else hash
    }

    /** `EXPIRE` deletes a key at once unless its time to live is positive. */
    predicate Fits(p: TokenParams) {
      hash.Hash? ==> p.fillTime > 0.0
    }
  }

  function TokenEval(p: TokenParams, k: TokenKey, c: Call): (r: (TokenKey, bool))
    requires k.Fits(p)
    ensures r.0.Fits(p)
  {
    var (h, ok) := TokenScript(p, k.Live(c.now), c);
    var ttl := Ceil(p.fillTime);
    (TokenKey(if ttl <= 0 then Absent else h, c.now + ttl as real), ok)
  }

  /** The key as Redis holds it, updated by each script call. */
  class TokenBucketKey {
    const params: TokenParams
    var hash: Hash
    var expiresAt: real

    ghost predicate Valid()
      reads this
    {
      View().Fits(params)
    }

    ghost function View(): TokenKey
      reads this
    {
      TokenKey(hash, expiresAt)
    }

    constructor (p: TokenParams)
      ensures params == p && View() == TokenKey(Absent, 0.0) && Valid()
    {
      params, hash, expiresAt := p, Absent, 0.0;
    }

    method Eval(c: Call) returns (allowed: bool)
      requires Valid()
      modifies this
      ensures Valid() && (View(), allowed) == TokenEval(params, old(View()), c)
    {
      if c.now >= expiresAt {
        hash := Absent;
      }
      var lastUpdate, tokens := c.now, params.capacity;
      if hash.Hash? {
        lastUpdate, tokens := hash.lastUpdate, hash.tokens;
      }
      var elapsed := c.now - lastUpdate;
      if elapsed < 0.0 {
        elapsed := 0.0;
      }
      tokens := params.Topped(tokens, elapsed);
      allowed := tokens >= c.requested;
      if allowed {
        tokens := tokens - c.requested;
      }
      hash := Hash(tokens, c.now);
      var ttl := Ceil(params.fillTime);
      expiresAt := c.now + ttl as real;
      if ttl <= 0 {
        hash := Absent;
      }
    }
  }

  /** The hash after `k` calls if Redis never dropped it. */
  function KeptHash(p: TokenParams, calls: seq<Call>, k: nat): Hash
    requires (p.fillTime != 0.0 || p.capacity >= 0.0) && k <= |calls|
  {
    if k == 0 then Absent else TokenScript(p, KeptHash(p, calls, k - 1), calls[k - 1]).0
  }

  /** The key after `k` calls when Redis drops it on time. */
  function ExpiringKey(p: TokenParams, calls: seq<Call>, k: nat): (r: TokenKey)
    requires k <= |calls|
    ensures r.Fits(p)
  {
    if k == 0 then TokenKey(Absent, 0.0) else TokenEval(p, ExpiringKey(p, calls, k - 1), calls[k - 1]).0
  }

  /** A key idle for its whole time to live would have been full again. */
  lemma IdleMeansFull(p: TokenParams, elapsed: real)
    requires p.Valid() && elapsed >= p.fillTime
    ensures elapsed * p.Rate() >= p.capacity
  {
    var rate := p.Rate();
    assert rate * p.fillTime == p.capacity;
    assert rate >= 0.0;
    assert (elapsed - p.fillTime) * rate >= 0.0;
  }

  lemma {:induction false} GainNonNegative(p: TokenParams, elapsed: real)
    requires p.Valid() && elapsed >= 0.0
    ensures elapsed * p.Rate() >= 0.0
  {
    assert p.Rate() >= 0.0;
  }

  /** Dropping the hash at its expiry gives the same next state and decision as keeping it. */
  lemma ExpiryIsInvisibleToOneCall(p: TokenParams, k: TokenKey, c: Call)
    requires p.Valid()
    requires k.hash.Hash? ==> k.hash.tokens >= 0.0 && k.expiresAt >= k.hash.lastUpdate + p.fillTime
    ensures TokenScript(p, k.Live(c.now), c) == TokenScript(p, k.hash, c)
    ensures TokenScript(p, k.hash, c).0.tokens >= 0.0
  {
    GainNonNegative(p, 0.0);
    if k.hash.Hash? {
      var elapsed := c.now - k.hash.lastUpdate;
      if elapsed >= 0.0 {
        GainNonNegative(p, elapsed);
      }
      if c.now >= k.expiresAt {
        IdleMeansFull(p, elapsed);
      }
    }
  }

  /** Over any run, expiring the key changes nothing: the hash written back is the same. */
  lemma {:induction false} TokenExpiryKeepsHash(p: TokenParams, calls: seq<Call>, k: nat)
    requires p.Valid() && k <= |calls|
    ensures ExpiringKey(p, calls, k).hash == KeptHash(p, calls, k)
    ensures k > 0 ==>
              && KeptHash(p, calls, k).Hash? && KeptHash(p, calls, k).tokens >= 0.0
              && ExpiringKey(p, calls, k).expiresAt >= KeptHash(p, calls, k).lastUpdate + p.fillTime
  {
    if k > 0 {
      TokenExpiryKeepsHash(p, calls, k - 1);
      ExpiryIsInvisibleToOneCall(p, ExpiringKey(p, calls, k - 1), calls[k - 1]);
    }
  }

  /** Over any run expiring the key changes no decision, a fill time of zero included: then the key
      is deleted as soon as it is written, and every call finds a full bucket either way. */
  lemma TokenExpiryChangesNothing(p: TokenParams, calls: seq<Call>, k: nat)
    requires p.capacity >= 0.0 && p.fillTime >= 0.0 && k < |calls|
    ensures TokenEval(p, ExpiringKey(p, calls, k), calls[k]).1 == TokenScript(p, KeptHash(p, calls, k), calls[k]).1
  {
    if p.fillTime > 0.0 {
      TokenExpiryKeepsHash(p, calls, k);
      ExpiryIsInvisibleToOneCall(p, ExpiringKey(p, calls, k), calls[k]);
    }
  }

  /** With no fill time every call finds a full bucket, and is granted exactly what fits into it. */
  lemma ZeroFillTime(p: TokenParams, calls: seq<Call>, k: nat)
    requires p.fillTime == 0.0 && k < |calls|
    ensures TokenEval(p, ExpiringKey(p, calls, k), calls[k]).1 <==> calls[k].requested <= p.capacity
    ensures TokenEval(p, ExpiringKey(p, calls, k), calls[k]).0.hash == Absent
  {
  }

  /** Each call, granted or not, puts the expiry off to its own time plus the fill time, rounded up to a
      whole number. */
  lemma TokenExpiresAfter(p: TokenParams, k: TokenKey, c: Call) returns (n: int)
    requires k.Fits(p)
    ensures TokenEval(p, k, c).0.expiresAt == c.now + n as real && p.fillTime <= n as real < p.fillTime + 1.0
  {
    n := Ceil(p.fillTime);
  }

  /** The calls as requests to an in-process bucket created full at the first call. */
  ghost function AsBucketRun(p: TokenParams, calls: seq<Call>): TokenBuckets.Run
    requires p.Valid() && calls != []
  {
    TokenBuckets.Run(p.capacity, TokenBuckets.Linear(p.Rate()), calls[0].now,
                     seq(|calls|, i requires 0 <= i < |calls| =>
                       TokenBuckets.Request(calls[i].now, calls[i].requested)))
  }

  lemma ScriptStepIsBucketStep(p: TokenParams, b: TokenBuckets.Bucket, c: Call)
    requires p.Valid() && b.lastRefill <= c.now
    ensures
      var accrued := TokenBuckets.Linear(p.Rate());
      var after := TokenBuckets.Used(p.capacity, accrued, b, c.now, c.requested);
      TokenScript(p, Hash(b.tokens, b.lastRefill), c)
      == (Hash(after.tokens, after.lastRefill), TokenBuckets.Allows(p.capacity, accrued, b, c.now, c.requested))
  {
    TokenBuckets.ElapsedTimesRate(p.Rate(), b.lastRefill, c.now);
    var e := c.now - b.lastRefill;
    var elapsed := if e > 0.0 then e else 0.0;
    assert elapsed == e;
    var accrued := TokenBuckets.Linear(p.Rate());
    var gain := elapsed * p.Rate();
    assert gain == accrued(c.now) - accrued(b.lastRefill);
    assert TokenBuckets.Refilled(p.capacity, accrued, b, c.now) == TokenBuckets.Min(p.capacity, b.tokens + gain);
  }

  lemma FirstCall(p: TokenParams, calls: seq<Call>)
    requires p.Valid() && calls != []
    ensures TokenScript(p, Absent, calls[0]).1 == AsBucketRun(p, calls).GrantedAt(0)
    ensures
      var b := AsBucketRun(p, calls).At(1);
      TokenScript(p, Absent, calls[0]).0 == Hash(b.tokens, b.lastRefill) && b.lastRefill == calls[0].now
  {
    var r := AsBucketRun(p, calls);
    assert r.At(0) == TokenBuckets.Bucket(p.capacity, calls[0].now);
    ScriptStepIsBucketStep(p, r.At(0), calls[0]);
    assert TokenScript(p, Absent, calls[0]) == TokenScript(p, Hash(p.capacity, calls[0].now), calls[0]);
    assert r.At(1) == TokenBuckets.Used(p.capacity, r.accrued, r.At(0), r.reqs[0].now, r.reqs[0].n);
  }

  /** With a monotone clock the script makes, call by call, the decisions of the in-process
      bucket of rate `capacity / fillTime`; every window bound of that bucket carries over. */
  lemma {:induction false} ScriptRefinesBucket(p: TokenParams, calls: seq<Call>, k: nat)
    requires p.Valid() && k <= |calls| && calls != []
    requires forall i, j :: 0 <= i < j < |calls| ==> calls[i].now <= calls[j].now
    ensures k > 0 ==> (var b := AsBucketRun(p, calls).At(k);
                       KeptHash(p, calls, k) == Hash(b.tokens, b.lastRefill) && b.lastRefill == calls[k - 1].now)
    ensures k < |calls| ==>
              TokenScript(p, KeptHash(p, calls, k), calls[k]).1 == AsBucketRun(p, calls).GrantedAt(k)
  {
    var r := AsBucketRun(p, calls);
    if k == 0 {
      FirstCall(p, calls);
    } else {
      ScriptRefinesBucket(p, calls, k - 1);
      if k == 1 {
        FirstCall(p, calls);
      } else {
        ScriptStepIsBucketStep(p, r.At(k - 1), calls[k - 1]);
      }
      if k < |calls| {
        ScriptStepIsBucketStep(p, r.At(k), calls[k]);
      }
    }
  }

  // ---------- Sliding window script ----------

  datatype WindowParams = WindowParams(window: real, limit: int)

  /** The sorted set holds each admitted timestamp as both member and score, so a set of scores
      describes it; an absent key is the empty set. */
  function Kept(p: WindowParams, z: set<real>, now: real): set<real> {
    set s | s in z && !(0.0 <= s <= now - p.window)
  }

  function WindowScript(p: WindowParams, z: set<real>, now: real): (set<real>, bool) {
    var z := Kept(p, z, now);
    if |z| < p.limit then (z + {now}, true) else (z, false)
  }

  datatype WindowKey = WindowKey(scores: set<real>, expiresAt: real) {
    function Live(now: real): set<real> {
      if now >= expiresAt then {} else scores
    }
  }

  /** `EXPIRE` is reached only when the request is admitted. */
  function WindowEval(p: WindowParams, k: WindowKey, now: real): (WindowKey, bool) {
    var (z, ok) := WindowScript(p, k.Live(now), now);
    (WindowKey(z, if ok then now + p.window else k.expiresAt), ok)
  }

  class SlidingWindowKey {
    const params: WindowParams
    var scores: set<real>
    var expiresAt: real

    ghost function View(): WindowKey
      reads this
    {
      WindowKey(scores, expiresAt)
    }

    constructor (p: WindowParams)
      ensures params == p && View() == WindowKey({}, 0.0)
    {
      params, scores, expiresAt := p, {}, 0.0;
    }

    method Eval(now: real) returns (allowed: bool)
      modifies this
      ensures (View(), allowed) == WindowEval(params, old(View()), now)
    {
      if now >= expiresAt {
        scores := {};
      }
      var clearBefore := now - params.window;
      scores := set s | s in scores && !(0.0 <= s <= clearBefore);
      if |scores| < params.limit {
        scores := scores + {now};
        expiresAt := now + params.window;
        return true;
      }
      return false;
    }
  }

  ghost predicate Clocked(times: seq<real>) {
    && (forall i :: 0 <= i < |times| ==> times[i] >= 0.0)
    && (forall i, j :: 0 <= i < j < |times| ==> times[i] <= times[j])
  }

  /** A run of the script on a key that never expires: the set before and after each call, and
      each call's decision. */
  datatype WindowTrace = WindowTrace(times: seq<real>, scores: seq<set<real>>, admitted: seq<bool>) {
    ghost predicate Valid(p: WindowParams) {
      && |scores| == |times| + 1 && |admitted| == |times|
      && scores[0] == {}
      && forall k: nat :: k < |times| ==> Steps(p, k)
    }

    ghost predicate Steps(p: WindowParams, k: nat)
      requires |scores| == |times| + 1 && |admitted| == |times| && k < |times|
    {
      (scores[k + 1], admitted[k]) == WindowScript(p, scores[k], times[k])
    }

    /** Request `i` was admitted at a time after `lo`. */
    predicate Counts(i: nat, lo: real)
      requires i < |times| == |admitted|
    {
      admitted[i] && times[i] > lo
    }

    /** The distinct timestamps after `lo` admitted by the first `k` requests. */
    function Times(k: nat, lo: real): set<real>
      requires k <= |times| == |admitted|
    {
      if k == 0 then {} else if Counts(k - 1, lo) then Times(k - 1, lo) + {times[k - 1]} else Times(k - 1, lo)
    }

    /** How many of the first `k` requests were admitted after `lo`. */
    function Count(k: nat, lo: real): nat
      requires k <= |times| == |admitted|
    {
      if k == 0 then 0 else Count(k - 1, lo) + if Counts(k - 1, lo) then 1 else 0
    }

    /** Request `i` was admitted after `lo` with the timestamp of an earlier such request. */
    predicate RepeatsAt(i: nat, lo: real)
      requires i < |times| == |admitted|
    {
      Counts(i, lo) && times[i] in Times(i, lo)
    }

    ghost predicate Repeats(k: nat, lo: real)
      requires k <= |times| == |admitted|
    {
      exists i: nat :: i < k && RepeatsAt(i, lo)
    }
  }

  /** Every sequence of call times has its run. */
  function Trace(p: WindowParams, times: seq<real>): (t: WindowTrace)
    ensures t.times == times && t.Valid(p)
  {
    if times == [] then WindowTrace([], [{}], [])
    else
      var n := |times| - 1;
      var t := Trace(p, times[..n]);
      var (z, ok) := WindowScript(p, t.scores[n], times[n]);
      var t' := WindowTrace(times, t.scores + [z], t.admitted + [ok]);
      assert forall k: nat :: k < n ==> t.Steps(p, k) ==> t'.Steps(p, k);
      assert t'.Steps(p, n);
      t'
  }

  /** The key after `k` calls when Redis drops it on time. */
  function ExpiringScores(p: WindowParams, times: seq<real>, k: nat): WindowKey
    requires k <= |times|
  {
    if k == 0 then WindowKey({}, 0.0) else WindowEval(p, ExpiringScores(p, times, k - 1), times[k - 1]).0
  }

  /** Expiry drops a set only when every score in it has left the window. */
  lemma WindowExpiryIsInvisibleToOneCall(p: WindowParams, k: WindowKey, now: real)
    requires forall s :: s in k.scores ==> 0.0 <= s <= k.expiresAt - p.window
    ensures WindowScript(p, k.Live(now), now) == WindowScript(p, k.scores, now)
  {
    assert Kept(p, k.Live(now), now) == Kept(p, k.scores, now);
  }

  /** Over any run with a monotone clock, expiring the key changes no decision. */
  lemma {:induction false} WindowExpiryChangesNothing(p: WindowParams, t: WindowTrace, k: nat)
    requires t.Valid(p) && Clocked(t.times) && k <= |t.times|
    ensures ExpiringScores(p, t.times, k).scores == t.scores[k]
    ensures forall s :: s in t.scores[k] ==> 0.0 <= s <= ExpiringScores(p, t.times, k).expiresAt - p.window
    ensures k > 0 && t.scores[k] != {} ==>
              ExpiringScores(p, t.times, k).expiresAt <= t.times[k - 1] + p.window
    ensures k < |t.times| ==> WindowEval(p, ExpiringScores(p, t.times, k), t.times[k]).1 == t.admitted[k]
  {
    if k > 0 {
      WindowExpiryChangesNothing(p, t, k - 1);
      assert t.Steps(p, k - 1);
      WindowExpiryIsInvisibleToOneCall(p, ExpiringScores(p, t.times, k - 1), t.times[k - 1]);
      assert k > 1 ==> t.times[k - 2] <= t.times[k - 1];
    }
    if k < |t.times| {
      assert t.Steps(p, k);
      WindowExpiryIsInvisibleToOneCall(p, ExpiringScores(p, t.times, k), t.times[k]);
    }
  }

  /** Only an admitted call puts the expiry off, to its own time plus the window. */
  lemma WindowExpiresAfter(p: WindowParams, k: WindowKey, now: real)
    ensures
      var (k', ok) := WindowEval(p, k, now);
      k'.expiresAt == (if ok then now + p.window else k.expiresAt) && (ok ==> now in k'.scores)
  {
  }

  /** Raising the floor only drops timestamps at or below it. */
  lemma {:induction false} RaiseFloor(t: WindowTrace, k: nat, lo: real, hi: real)
    requires k <= |t.times| == |t.admitted| && lo <= hi
    ensures t.Times(k, hi) == set x | x in t.Times(k, lo) && x > hi
    ensures t.Count(k, hi) <= t.Count(k, lo)
  {
    if k > 0 {
      RaiseFloor(t, k - 1, lo, hi);
    }
  }

  lemma {:induction false} TimesBounded(t: WindowTrace, k: nat, lo: real)
    requires Clocked(t.times) && k <= |t.times| == |t.admitted|
    ensures forall x :: x in t.Times(k, lo) ==> x >= 0.0 && k > 0 && x <= t.times[k - 1]
  {
    if k > 0 {
      TimesBounded(t, k - 1, lo);
      assert k > 1 ==> t.times[k - 2] <= t.times[k - 1];
    }
  }

  /** One script call keeps the stored scores equal to the admitted timestamps. */
  lemma ScoresStep(p: WindowParams, z: set<real>, admitted: set<real>, t: real, now: real)
    requires 0.0 <= t <= now && Kept(p, z, t) == admitted
    requires forall x :: x in admitted ==> x >= 0.0
    ensures
      var (z', ok) := WindowScript(p, z, t);
      var later := set x | x in admitted && x > now - p.window;
      Kept(p, z', now) == if ok && t > now - p.window then later + {t} else later
  {
  }

  lemma {:induction false} ScoresAreAdmittedTimes(p: WindowParams, t: WindowTrace, k: nat, now: real)
    requires t.Valid(p) && Clocked(t.times) && k <= |t.times| && (k > 0 ==> t.times[k - 1] <= now)
    ensures Kept(p, t.scores[k], now) == t.Times(k, now - p.window)
  {
    if k > 0 {
      var at, w := t.times[k - 1], p.window;
      assert k > 1 ==> t.times[k - 2] <= at;
      assert t.Steps(p, k - 1);
      ScoresAreAdmittedTimes(p, t, k - 1, at);
      TimesBounded(t, k - 1, at - w);
      ScoresStep(p, t.scores[k - 1], t.Times(k - 1, at - w), at, now);
      RaiseFloor(t, k - 1, at - w, now - w);
    }
  }

  /** The script admits exactly when fewer than `limit` distinct timestamps were admitted in the
      preceding window. */
  lemma AdmitsByDistinctTimes(p: WindowParams, t: WindowTrace, k: nat, lo: real)
    requires t.Valid(p) && Clocked(t.times) && k < |t.times| && lo == t.times[k] - p.window
    ensures t.admitted[k] <==> |t.Times(k, lo)| < p.limit
  {
    assert k > 0 ==> t.times[k - 1] <= t.times[k];
    ScoresAreAdmittedTimes(p, t, k, t.times[k]);
    assert t.Steps(p, k);
  }

  lemma RepeatsStep(t: WindowTrace, k: nat, lo: real)
    requires 0 < k <= |t.times| == |t.admitted|
    ensures t.Repeats(k, lo) <==>
            t.Repeats(k - 1, lo) || t.RepeatsAt(k - 1, lo)
  {
    if t.Repeats(k, lo) {
      var i: nat :| i < k && t.RepeatsAt(i, lo);
      assert i < k - 1 ==> t.Repeats(k - 1, lo);
    }
  }

  /** Requests and distinct timestamps count the same exactly when no timestamp repeats. */
  lemma {:induction false} CountsAgreeUnlessRepeated(t: WindowTrace, k: nat, lo: real)
    requires k <= |t.times| == |t.admitted|
    ensures |t.Times(k, lo)| <= t.Count(k, lo)
    ensures |t.Times(k, lo)| == t.Count(k, lo) <==> !t.Repeats(k, lo)
  {
    if k > 0 {
      CountsAgreeUnlessRepeated(t, k - 1, lo);
      var before, at := t.Times(k - 1, lo), t.times[k - 1];
      RepeatsStep(t, k, lo);
      assert at in before ==> before + {at} == before;
    }
  }

  /** So it admits by the number of requests admitted in the preceding window, as the limit
      promises, exactly unless the limit lies between the distinct timestamps and the requests. */
  lemma AdmitsByCountIff(p: WindowParams, t: WindowTrace, k: nat, lo: real)
    requires t.Valid(p) && Clocked(t.times) && k < |t.times| && lo == t.times[k] - p.window
    ensures (t.admitted[k] <==> t.Count(k, lo) < p.limit) <==> !(|t.Times(k, lo)| < p.limit <= t.Count(k, lo))
    ensures !t.Repeats(k, lo) ==> (t.admitted[k] <==> t.Count(k, lo) < p.limit)
  {
    AdmitsByDistinctTimes(p, t, k, lo);
    CountsAgreeUnlessRepeated(t, k, lo);
  }

  ghost predicate Increasing(times: seq<real>) {
    forall i, j :: 0 <= i < j < |times| ==> times[i] < times[j]
  }

  /** With strictly increasing timestamps a request is admitted exactly when fewer than `limit`
      requests were admitted in the preceding window. */
  lemma AdmitsExactly(p: WindowParams, t: WindowTrace, k: nat)
    requires t.Valid(p) && Clocked(t.times) && Increasing(t.times) && k < |t.times|
    ensures t.admitted[k] <==> t.Count(k, t.times[k] - p.window) < p.limit
  {
    var lo := t.times[k] - p.window;
    forall i: nat | i < k ensures !t.RepeatsAt(i, lo) {
      TimesBounded(t, i, lo);
    }
    AdmitsByCountIff(p, t, k, lo);
  }

  /** With strictly increasing timestamps no window ending at a request ever holds more than
      `limit` admitted requests. */
  lemma {:induction false} WindowLimitHolds(p: WindowParams, t: WindowTrace, k: nat)
    requires t.Valid(p) && Clocked(t.times) && Increasing(t.times) && k < |t.times| && p.limit >= 0
    ensures t.Count(k + 1, t.times[k] - p.window) <= p.limit
  {
    var lo := t.times[k] - p.window;
    if t.admitted[k] {
      AdmitsExactly(p, t, k);
    } else if k > 0 {
      assert t.times[k - 1] < t.times[k];
      WindowLimitHolds(p, t, k - 1);
      RaiseFloor(t, k, t.times[k - 1] - p.window, lo);
    }
  }

  // ---------- Which call times are counted right ----------

  /** Call `k` of the run with these times is admitted by the number of requests admitted in the
      preceding window. */
  ghost predicate CountsRight(p: WindowParams, times: seq<real>, k: nat)
    requires k < |times|
  {
    var t := Trace(p, times);
    t.admitted[k] <==> t.Count(k, times[k] - p.window) < p.limit
  }

  /** Whatever the window and the limit, every call is. */
  ghost predicate AlwaysRight(times: seq<real>) {
    forall p, k: nat :: k < |times| ==> CountsRight(p, times, k)
  }

  lemma RightUpToLast(p: WindowParams, times: seq<real>, k: nat)
    requires Clocked(times) && k < |times| && Increasing(times[..|times| - 1])
    ensures CountsRight(p, times, k)
  {
    var t, lo, front := Trace(p, times), times[k] - p.window, times[..|times| - 1];
    forall i: nat | i < k ensures !t.RepeatsAt(i, lo) {
      TimesBounded(t, i, lo);
      assert i > 0 ==> front[i - 1] < front[i];
    }
    AdmitsByCountIff(p, t, k, lo);
  }

  function FirstTimes(times: seq<real>, k: nat): set<real>
    requires k <= |times|
  {
    if k == 0 then {} else FirstTimes(times, k - 1) + {times[k - 1]}
  }

  lemma {:induction false} FirstTimesGrow(times: seq<real>, j: nat, k: nat)
    requires j <= k <= |times|
    ensures FirstTimes(times, j) <= FirstTimes(times, k) && |FirstTimes(times, j)| <= |FirstTimes(times, k)|
    ensures forall i :: 0 <= i < k ==> times[i] in FirstTimes(times, k)
  {
    if k > 0 {
      FirstTimesGrow(times, if j < k then j else j - 1, k - 1);
      var before, at := FirstTimes(times, k - 1), times[k - 1];
      assert at in before ==> before + {at} == before;
    }
  }

  /** Below time zero a floor excludes nothing. */
  lemma {:induction false} AllInWindow(t: WindowTrace, k: nat, lo: real)
    requires Clocked(t.times) && k <= |t.times| == |t.admitted| && lo < 0.0
    requires forall i :: 0 <= i < k ==> t.admitted[i]
    ensures t.Times(k, lo) == FirstTimes(t.times, k) && t.Count(k, lo) == k
  {
    if k > 0 {
      AllInWindow(t, k - 1, lo);
    }
  }

  /** With a window reaching back before time zero and room for one more distinct timestamp than
      there are, everything is admitted. */
  lemma {:induction false} AllAdmitted(p: WindowParams, times: seq<real>, k: nat, j: nat)
    requires Clocked(times) && j <= k < |times|
    requires p == WindowParams(times[k] + 1.0, |FirstTimes(times, k)| + 1)
    ensures forall i :: 0 <= i < j ==> Trace(p, times).admitted[i]
  {
    if j > 0 {
      AllAdmitted(p, times, k, j - 1);
      var t, lo := Trace(p, times), times[j - 1] - p.window;
      AdmitsByDistinctTimes(p, t, j - 1, lo);
      AllInWindow(t, j - 1, lo);
      FirstTimesGrow(times, j - 1, k);
    }
  }

  /** A timestamp used twice, with a call after it: that call is admitted one too many. */
  lemma RepeatOvershoots(times: seq<real>, i: nat, j: nat)
    requires Clocked(times) && i < j && j + 1 < |times| && times[i] == times[j]
    ensures !CountsRight(WindowParams(times[j + 1] + 1.0, |FirstTimes(times, j + 1)| + 1), times, j + 1)
  {
    var k := j + 1;
    var p := WindowParams(times[k] + 1.0, |FirstTimes(times, k)| + 1);
    var t, lo := Trace(p, times), times[k] - p.window;
    AllAdmitted(p, times, k, k);
    AllInWindow(t, k, lo);
    AllInWindow(t, j, lo);
    FirstTimesGrow(times, 0, j);
    assert t.RepeatsAt(j, lo);
    CountsAgreeUnlessRepeated(t, k, lo);
    AdmitsByCountIff(p, t, k, lo);
  }

  /** Exactly the call times that repeat nothing, the last call aside, are counted right whatever
      the window and the limit. */
  lemma AlwaysRightIff(times: seq<real>)
    requires Clocked(times)
    ensures AlwaysRight(times) <==> times == [] || Increasing(times[..|times| - 1])
  {
    if times != [] {
      var front := times[..|times| - 1];
      if Increasing(front) {
        forall p, k: nat | k < |times| ensures CountsRight(p, times, k) {
          RightUpToLast(p, times, k);
        }
      } else {
        var i: nat, j: nat :| i < j < |front| && !(front[i] < front[j]);
        RepeatOvershoots(times, i, j);
      }
    }
  }

  /** Repeated timestamps defeat the limit: three requests at one instant pass a limit of two. */
  lemma RepeatedTimestampsOvershoot()
    ensures
      var p := WindowParams(10.0, 2);
      var t := WindowTrace([5.0, 5.0, 5.0], [{}, {5.0}, {5.0}, {5.0}], [true, true, true]);
      t.Valid(p) && Clocked(t.times) && t.Count(3, -5.0) == 3 > p.limit
  {
    var p := WindowParams(10.0, 2);
    var t := WindowTrace([5.0, 5.0, 5.0], [{}, {5.0}, {5.0}, {5.0}], [true, true, true]);
    assert WindowScript(p, {}, 5.0) == ({5.0}, true) by {
      assert Kept(p, {}, 5.0) == {};
    }
    assert WindowScript(p, {5.0}, 5.0) == ({5.0}, true) by {
      assert Kept(p, {5.0}, 5.0) == {5.0};
      assert {5.0} + {5.0} == {5.0};
    }
    assert t.Steps(p, 0) && t.Steps(p, 1) && t.Steps(p, 2);
    assert t.Count(1, -5.0) == 1;
    assert t.Count(2, -5.0) == 2;
  }
}
