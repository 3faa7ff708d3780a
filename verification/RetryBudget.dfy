/** The fixed-window retry budget (labs/97-retry/budget.go). */
module RetryBudgets {

  datatype Budget = Budget(used: int, lastReplenish: int)

  function Replenished(window: int, b: Budget, now: int): Budget {
    if now - b.lastReplenish >= window then Budget(0, now) else b
  }

  predicate Allows(budget: int, window: int, b: Budget, now: int) {
    Replenished(window, b, now).used < budget
  }

  function Consumed(budget: int, window: int, b: Budget, now: int): Budget {
    var r := Replenished(window, b, now);
    if r.used < budget then r.(used := r.used + 1) else r
  }

  class RetryBudget {
    const budget: int
    const window: int
    var used: int
    var lastReplenish: int

    ghost function View(): Budget
      reads this
    {
      Budget(used, lastReplenish)
    }

    constructor (budget: int, window: int, now: int)
      ensures this.budget == budget && this.window == window && View() == Budget(0, now)
    {
      this.budget, this.window, used, lastReplenish := budget, window, 0, now;
    }

    method TryConsume(now: int) returns (ok: bool)
      modifies this
      ensures ok == Allows(budget, window, old(View()), now)
      ensures View() == Consumed(budget, window, old(View()), now)
    {
      if now - lastReplenish >= window {
        used := 0;
        lastReplenish := now;
      }
      if used < budget {
        used := used + 1;
        return true;
      }
      return false;
    }
  }

  // ---------- Runs: the calls still to come, as the times at which they are made ----------

  ghost predicate Sorted(from: int, times: seq<int>) {
    && (forall i :: 0 <= i < |times| ==> from <= times[i])
    && (forall i, j :: 0 <= i < j < |times| ==> times[i] <= times[j])
  }

  /** Retries granted at times in `[a, b)` by the calls `times`, from state `s`. */
  function Granted(budget: int, window: int, s: Budget, times: seq<int>, a: int, b: int): nat
    decreases |times|
  {
    if times == [] then 0
    else
      (if Allows(budget, window, s, times[0]) && a <= times[0] < b then 1 else 0)
      + Granted(budget, window, Consumed(budget, window, s, times[0]), times[1..], a, b)
  }

  lemma SortedTail(from: int, times: seq<int>)
    requires Sorted(from, times) && times != []
    ensures Sorted(times[0], times[1..])
  {
  }

  lemma {:induction false} NothingPastEnd(budget: int, window: int, s: Budget, times: seq<int>, a: int, b: int)
    requires Sorted(b, times)
    ensures Granted(budget, window, s, times, a, b) == 0
    decreases |times|
  {
    if times != [] {
      SortedTail(b, times);
      assert Sorted(b, times[1..]);
      NothingPastEnd(budget, window, Consumed(budget, window, s, times[0]), times[1..], a, b);
    }
  }

  /** With `k` more replenishments possible before `b`, at most the rest of this window's budget
      and `k` whole budgets can be granted. */
  lemma {:induction false} FromHere(budget: int, window: int, s: Budget, times: seq<int>, a: int, b: int, k: nat)
    requires window > 0 && 0 <= s.used <= budget
    requires Sorted(s.lastReplenish, times) && b <= s.lastReplenish + (k + 1) * window
    ensures Granted(budget, window, s, times, a, b) <= budget - s.used + k * budget
    decreases |times|
  {
    assert k * budget >= 0;
    if times != [] {
      var now := times[0];
      var s' := Consumed(budget, window, s, now);
      SortedTail(s.lastReplenish, times);
      if now >= b {
        NothingPastEnd(budget, window, s, times, a, b);
      } else if now - s.lastReplenish >= window {
        assert (k + 1) * window == k * window + window;
        assert k > 0;
        assert k * window == (k - 1) * window + window;
        assert k * budget == (k - 1) * budget + budget;
        FromHere(budget, window, s', times[1..], a, b, k - 1);
      } else {
        FromHere(budget, window, s', times[1..], a, b, k);
      }
    }
  }

  /** Any interval `[a, a + k * window)` contains at most `(k + 1) * budget` granted retries,
      wherever it starts relative to the limiter's own windows. */
  lemma {:induction false} IntervalBound(budget: int, window: int, s: Budget, times: seq<int>, a: int, k: nat)
    requires window > 0 && 0 <= s.used <= budget && k >= 1
    requires Sorted(s.lastReplenish, times)
    ensures Granted(budget, window, s, times, a, a + k * window) <= (k + 1) * budget
    decreases |times|
  {
    assert (k + 1) * budget == k * budget + budget;
    assert k * budget == (k - 1) * budget + budget;
    assert (k - 1) * budget >= 0;
    if times != [] {
      var now := times[0];
      var s' := Consumed(budget, window, s, now);
      SortedTail(s.lastReplenish, times);
      var b := a + k * window;
      assert (k - 1 + 1) * window == k * window;
      assert (k + 1) * window == k * window + window;
      if now < a {
        IntervalBound(budget, window, s', times[1..], a, k);
      } else if now - s.lastReplenish >= window {
        FromHere(budget, window, s', times[1..], a, b, k - 1);
      } else {
        FromHere(budget, window, s', times[1..], a, b, k);
      }
    }
  }

  // ---------- When the bound is reached ----------

  function Copies(t: int, n: nat): seq<int> {
    if n == 0 then [] else [t] + Copies(t, n - 1)
  }

  /** `k` bursts of `budget` calls, one window apart. */
  function Bursts(budget: nat, window: int, t: int, k: nat): seq<int>
    decreases k
  {
    if k == 0 then [] else Copies(t, budget) + Bursts(budget, window, t + window, k - 1)
  }

  /** A burst that fits the budget left at time `t` is granted in full. */
  lemma {:induction false} BurstGranted(budget: int, window: int, s: Budget, t: int, n: nat, rest: seq<int>, a: int,
                                        b: int)
    requires window > 0 && a <= t < b && Replenished(window, s, t) == s && s.used + n <= budget
    ensures Granted(budget, window, s, Copies(t, n) + rest, a, b) ==
            n + Granted(budget, window, Budget(s.used + n, s.lastReplenish), rest, a, b)
    decreases n
  {
    if n == 0 {
      assert Copies(t, n) + rest == rest;
    } else {
      var times, s' := Copies(t, n) + rest, Consumed(budget, window, s, t);
      assert times[1..] == Copies(t, n - 1) + rest;
      assert s' == Budget(s.used + 1, s.lastReplenish);
      BurstGranted(budget, window, s', t, n - 1, rest, a, b);
    }
  }

  /** Granting is the same whether the budget was replenished just before or by the first call. */
  lemma ReplenishFirst(budget: int, window: int, s: Budget, times: seq<int>, a: int, b: int)
    requires window > 0 && times != []
    ensures Granted(budget, window, s, times, a, b) ==
            Granted(budget, window, Replenished(window, s, times[0]), times, a, b)
  {
    var r := Replenished(window, s, times[0]);
    assert Replenished(window, r, times[0]) == r;
  }

  lemma {:induction false} BurstsGranted(budget: nat, window: int, s: Budget, t: int, k: nat, a: int, b: int)
    requires budget > 0 && window > 0 && t - s.lastReplenish >= window && a <= t && t + (k - 1) * window < b
    ensures Granted(budget, window, s, Bursts(budget, window, t, k), a, b) == k * budget
    decreases k
  {
    if k > 0 {
      var rest := Bursts(budget, window, t + window, k - 1);
      var r := Budget(0, t);
      assert (k - 1) * window >= 0 && (k - 1) * window == (k - 2) * window + window;
      assert Copies(t, budget)[0] == t;
      assert (Copies(t, budget) + rest)[0] == t;
      ReplenishFirst(budget, window, s, Copies(t, budget) + rest, a, b);
      BurstGranted(budget, window, r, t, budget, rest, a, b);
      BurstsGranted(budget, window, Budget(budget, t), t + window, k - 1, a, b);
      assert k * budget == budget + (k - 1) * budget;
    }
  }

  lemma {:induction false} CopiesAre(t: int, n: nat)
    ensures |Copies(t, n)| == n && forall i :: 0 <= i < n ==> Copies(t, n)[i] == t
  {
    if n > 0 {
      CopiesAre(t, n - 1);
    }
  }

  lemma {:induction false} BurstsSorted(budget: nat, window: int, t: int, k: nat)
    requires window > 0
    ensures Sorted(t, Bursts(budget, window, t, k))
    decreases k
  {
    if k > 0 {
      CopiesAre(t, budget);
      BurstsSorted(budget, window, t + window, k - 1);
    }
  }

  ghost predicate Reaches(budget: int, window: int, k: nat, times: seq<int>, a: int) {
    Sorted(0, times) && Granted(budget, window, Budget(0, 0), times, a, a + k * window) == (k + 1) * budget
  }

  /** Spending the first window's budget in its last instant and each later one at its start. */
  lemma LateThenEarly(budget: nat, window: int, k: nat)
    requires budget >= 1 && window >= 2 && k >= 1
    ensures Reaches(budget, window, k, Copies(window - 1, budget) + Bursts(budget, window, window, k), window - 1)
  {
    var a, b, late := window - 1, window - 1 + k * window, Bursts(budget, window, window, k);
    assert k * window >= window && window + (k - 1) * window == k * window;
    CopiesAre(a, budget);
    BurstsSorted(budget, window, window, k);
    BurstGranted(budget, window, Budget(0, 0), a, budget, late, a, b);
    BurstsGranted(budget, window, Budget(budget, 0), window, k, a, b);
    assert (k + 1) * budget == budget + k * budget;
  }

  /** A window of one instant leaves no room for that: at most one budget to an instant. */
  lemma {:induction false} OneInstantWindows(budget: int, s: Budget, times: seq<int>, a: int, k: nat)
    requires 0 <= s.used <= budget && k >= 1 && Sorted(s.lastReplenish, times)
    ensures Granted(budget, 1, s, times, a, a + k) <= k * budget
    decreases |times|
  {
    assert k * budget == (k - 1) * budget + budget && (k - 1) * budget >= 0;
    if times != [] {
      var now := times[0];
      var s' := Consumed(budget, 1, s, now);
      SortedTail(s.lastReplenish, times);
      if now < a {
        OneInstantWindows(budget, s', times[1..], a, k);
      } else {
        FromHere(budget, 1, s', times[1..], a, a + k, k - 1);
      }
    }
  }

  /** The interval bound is attained, for every budget and number of windows, exactly when a
      window has more than one instant. */
  lemma IntervalBoundIsReachedIff(budget: nat, window: int, k: nat)
    requires budget >= 1 && window >= 1 && k >= 1
    ensures (exists times, a :: Reaches(budget, window, k, times, a)) <==> window >= 2
  {
    if window >= 2 {
      LateThenEarly(budget, window, k);
    } else if times, a :| Reaches(budget, window, k, times, a) {
      OneInstantWindows(budget, Budget(0, 0), times, a, k);
      assert false;
    }
  }

  // ---------- Exactly which retries are granted ----------

  /** The limiter after the first `k` calls. */
  function StateAt(budget: int, window: int, created: int, times: seq<int>, k: nat): Budget
    requires k <= |times|
  {
    if k == 0 then Budget(0, created)
    else Consumed(budget, window, StateAt(budget, window, created, times, k - 1), times[k - 1])
  }

  predicate GrantedAt(budget: int, window: int, created: int, times: seq<int>, k: nat)
    requires k < |times|
  {
    Allows(budget, window, StateAt(budget, window, created, times, k), times[k])
  }

  /** The start of the window the first `k` calls end in: windows start at creation, and at each first
      call at least `window` after the last start. */
  function StartAfter(window: int, created: int, times: seq<int>, k: nat): int
    requires k <= |times|
  {
    if k == 0 then created
    else
      var start := StartAfter(window, created, times, k - 1);
      if times[k - 1] - start >= window then times[k - 1] else start
  }

  /** Call `k` starts a window of its own. */
  predicate Opens(window: int, created: int, times: seq<int>, k: nat)
    requires k < |times|
  {
    times[k] - StartAfter(window, created, times, k) >= window
  }

  /** How many calls were made before call `k` in its window. */
  function EarlierInWindow(window: int, created: int, times: seq<int>, k: nat): nat
    requires k < |times|
  {
    if k == 0 || Opens(window, created, times, k) then 0 else EarlierInWindow(window, created, times, k - 1) + 1
  }

  lemma {:induction false} StateFromTimes(budget: int, window: int, created: int, times: seq<int>, k: nat)
    requires k < |times|
    ensures StateAt(budget, window, created, times, k).lastReplenish == StartAfter(window, created, times, k)
    ensures
      var n := EarlierInWindow(window, created, times, k);
      var r := Replenished(window, StateAt(budget, window, created, times, k), times[k]);
      r.used == if n < budget then n else if budget > 0 then budget else 0
  {
    if k > 0 {
      StateFromTimes(budget, window, created, times, k - 1);
    }
  }

  /** A retry is granted if and only if fewer than `budget` calls were made before it in its window,
      whether those were granted or not. */
  lemma GrantedIff(budget: int, window: int, created: int, times: seq<int>, k: nat)
    requires k < |times|
    ensures GrantedAt(budget, window, created, times, k) <==> EarlierInWindow(window, created, times, k) < budget
  {
    StateFromTimes(budget, window, created, times, k);
  }

  lemma {:induction false} SamePrefix(budget: int, window: int, created: int, times: seq<int>, r: nat, k: nat)
    requires k <= r < |times|
    ensures StateAt(budget, window, created, times[..r] + times[r + 1..], k) ==
            StateAt(budget, window, created, times, k)
  {
    if k > 0 {
      SamePrefix(budget, window, created, times, r, k - 1);
    }
  }

  lemma {:induction false} SameSuffix(budget: int, window: int, created: int, times: seq<int>, r: nat, k: nat)
    requires r < k <= |times| && !GrantedAt(budget, window, created, times, r) && budget > 0
    ensures StateAt(budget, window, created, times[..r] + times[r + 1..], k - 1) ==
            StateAt(budget, window, created, times, k)
  {
    var shorter := times[..r] + times[r + 1..];
    if k == r + 1 {
      SamePrefix(budget, window, created, times, r, r);
    } else {
      SameSuffix(budget, window, created, times, r, k - 1);
      assert shorter[k - 2] == times[k - 1];
    }
  }

  lemma {:induction false} NothingWithoutBudget(budget: int, window: int, created: int, times: seq<int>, k: nat)
    requires budget <= 0 && k < |times|
    ensures StateAt(budget, window, created, times, k).used == 0 && !GrantedAt(budget, window, created, times, k)
  {
    if k > 0 {
      NothingWithoutBudget(budget, window, created, times, k - 1);
    }
  }

  /** Asking in vain has no effect: leaving a refused call out changes no other decision. */
  lemma RefusalsDoNotCount(budget: int, window: int, created: int, times: seq<int>, r: nat, k: nat)
    requires r < |times| && k < |times| && k != r && !GrantedAt(budget, window, created, times, r)
    ensures
      var shorter := times[..r] + times[r + 1..];
      GrantedAt(budget, window, created, shorter, if k < r then k else k - 1) <==>
      GrantedAt(budget, window, created, times, k)
  {
    var shorter := times[..r] + times[r + 1..];
    if budget <= 0 {
      NothingWithoutBudget(budget, window, created, times, k);
      NothingWithoutBudget(budget, window, created, shorter, if k < r then k else k - 1);
    } else if k < r {
      SamePrefix(budget, window, created, times, r, k);
    } else {
      SameSuffix(budget, window, created, times, r, k);
    }
  }
}
