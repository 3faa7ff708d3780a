/** The three-state circuit breaker (labs/96-circuit-breaker/breaker.go).

    The breaker's two halves, `Before` (admission) and `After` (completion), are
    separate events, so a call admitted in one state may finish in another.  A run is
    any sequence of events; the theorems quantify over all of them. */
module Breakers {

  datatype Mode = Closed | Open | HalfOpen

  /** Durations and instants are nanosecond counts. */
  datatype Config = Config(failureThreshold: int, resetTimeout: int, maxHalfOpenProbes: int) {
    predicate Normal() {
      failureThreshold > 0 && resetTimeout > 0 && maxHalfOpenProbes > 0
    }
  }

  datatype Verdict = Admitted | CircuitOpen | TooManyProbes

  datatype Breaker = Breaker(mode: Mode, consecFailures: int, openedAt: int, activeProbes: int)

  const DEFAULT_THRESHOLD := 5

  const DEFAULT_TIMEOUT := 60_000_000_000

  const DEFAULT_PROBES := 1

  /** The defaults `New` fills in; a usable configuration passes through unchanged. */
  function Normalize(c: Config): (r: Config)
    ensures r.Normal()
    ensures c.Normal() ==> r == c
    ensures c.failureThreshold <= 0 ==> r.failureThreshold == 5
    ensures c.resetTimeout <= 0 ==> r.resetTimeout == 60_000_000_000
    ensures c.maxHalfOpenProbes <= 0 ==> r.maxHalfOpenProbes == 1
  {
    Config(
      if c.failureThreshold <= 0 then DEFAULT_THRESHOLD else c.failureThreshold,
      if c.resetTimeout <= 0 then DEFAULT_TIMEOUT else c.resetTimeout,
      if c.maxHalfOpenProbes <= 0 then DEFAULT_PROBES else c.maxHalfOpenProbes)
  }

  const FRESH := Breaker(Closed, 0, 0, 0)

  function CheckTransition(c: Config, b: Breaker, now: int): Breaker {
    if b.mode.Open? && now - b.openedAt >= c.resetTimeout then b.(mode := HalfOpen, activeProbes := 0) else b
  }

  function Before(c: Config, b: Breaker, now: int): (Breaker, Verdict) {
    var b := CheckTransition(c, b, now);
    match b.mode
    case Open => (b, CircuitOpen)
    case HalfOpen =>
      if b.activeProbes >= c.maxHalfOpenProbes then (b, TooManyProbes)
      else (b.(activeProbes := b.activeProbes + 1), Admitted)
    case Closed => (b, Admitted)
  }

  function After(c: Config, b: Breaker, now: int, ok: bool): Breaker {
    if b.mode.HalfOpen? then
      var b := b.(activeProbes := b.activeProbes - 1);
      if ok then b.(mode := Closed, consecFailures := 0) else b.(mode := Open, openedAt := now)
    else if ok then
      b.(consecFailures := 0)
    else
      var b := b.(consecFailures := b.consecFailures + 1);
      if b.consecFailures >= c.failureThreshold then b.(mode := Open, openedAt := now) else b
  }

  /** The mutable breaker; every method is tied to its function above. */
  class CircuitBreaker {
    const cfg: Config
    var mode: Mode
    var consecFailures: int
    var openedAt: int
    var activeProbes: int

    ghost function View(): Breaker
      reads this
    {
      Breaker(mode, consecFailures, openedAt, activeProbes)
    }

    constructor (c: Config)
      ensures cfg == Normalize(c) && View() == FRESH
    {
      cfg := Normalize(c);
      mode, consecFailures, openedAt, activeProbes := Closed, 0, 0, 0;
    }

    method CheckStateTransition(now: int)
      modifies this
      ensures View() == CheckTransition(cfg, old(View()), now)
    {
      if mode == Open {
        if now - openedAt >= cfg.resetTimeout {
          mode := HalfOpen;
          activeProbes := 0;
        }
      }
    }

    method State(now: int) returns (m: Mode)
      modifies this
      ensures View() == CheckTransition(cfg, old(View()), now)
      ensures m == mode
    {
      CheckStateTransition(now);
      m := mode;
    }

    method BeforeExecution(now: int) returns (v: Verdict)
      modifies this
      ensures (View(), v) == Before(cfg, old(View()), now)
    {
      CheckStateTransition(now);
      match mode {
        case Open => v := CircuitOpen;
        case HalfOpen =>
          if activeProbes >= cfg.maxHalfOpenProbes {
            v := TooManyProbes;
          } else {
            activeProbes := activeProbes + 1;
            v := Admitted;
          }
        case Closed => v := Admitted;
      }
    }

    method AfterExecution(now: int, ok: bool)
      modifies this
      ensures View() == After(cfg, old(View()), now, ok)
    {
      if mode == HalfOpen {
        activeProbes := activeProbes - 1;
        if ok {
          mode := Closed;
          consecFailures := 0;
        } else {
          mode := Open;
          openedAt := now;
        }
        return;
      }
      if ok {
        consecFailures := 0;
      } else {
        consecFailures := consecFailures + 1;
        if consecFailures >= cfg.failureThreshold {
          mode := Open;
          openedAt := now;
        }
      }
    }
  }

  // ---------- Runs ----------

  datatype Event = Attempt(now: int) | Finish(now: int, ok: bool) | Inspect(now: int)

  function Apply(c: Config, b: Breaker, e: Event): Breaker {
    match e
    case Attempt(now) => Before(c, b, now).0
    case Finish(now, ok) => After(c, b, now, ok)
    case Inspect(now) => CheckTransition(c, b, now)
  }

  /** The breaker after the first `k` events of a run. */
  function At(c: Config, evs: seq<Event>, k: nat): Breaker
    requires k <= |evs|
  {
    if k == 0 then FRESH else Apply(c, At(c, evs, k - 1), evs[k - 1])
  }

  predicate AdmittedAt(c: Config, evs: seq<Event>, k: nat)
    requires k < |evs|
  {
    evs[k].Attempt? && Before(c, At(c, evs, k), evs[k].now).1 == Admitted
  }

  /** How many calls events `i` to `j - 1` admitted. */
  function CountAdmitted(c: Config, evs: seq<Event>, i: nat, j: nat): nat
    requires i <= j <= |evs|
  {
    if i == j then 0
    else CountAdmitted(c, evs, i, j - 1) + if AdmittedAt(c, evs, j - 1) then 1 else 0
  }

  /** Events `i` to `j` (states after `i` .. `j` events) all leave the breaker in mode `m`. */
  ghost predicate Stretch(c: Config, evs: seq<Event>, m: Mode, i: nat, j: nat)
    requires i <= j <= |evs|
  {
    forall k: nat :: i <= k <= j ==> At(c, evs, k).mode == m
  }

  ghost predicate Monotone(evs: seq<Event>) {
    forall i, j :: 0 <= i < j < |evs| ==> evs[i].now <= evs[j].now
  }

  /** What every reachable breaker satisfies. */
  ghost predicate Inv(c: Config, b: Breaker) {
    && (b.mode.HalfOpen? ==> 0 <= b.activeProbes <= c.maxHalfOpenProbes)
    && (b.mode.Closed? ==> 0 <= b.consecFailures < c.failureThreshold)
    && b.consecFailures >= 0
  }

  lemma {:induction false} Reachable(c: Config, evs: seq<Event>, k: nat)
    requires c.Normal() && k <= |evs|
    ensures Inv(c, At(c, evs, k))
  {
    if k > 0 {
      Reachable(c, evs, k - 1);
    }
  }

  /** Over a half-open stretch the probe counter grows by exactly the calls admitted. */
  lemma {:induction false} ProbesGrowByAdmissions(c: Config, evs: seq<Event>, i: nat, j: nat)
    requires i <= j <= |evs| && Stretch(c, evs, HalfOpen, i, j)
    ensures At(c, evs, j).activeProbes == At(c, evs, i).activeProbes + CountAdmitted(c, evs, i, j)
  {
    if i < j {
      ProbesGrowByAdmissions(c, evs, i, j - 1);
      assert At(c, evs, j - 1).mode == At(c, evs, j).mode == HalfOpen;
    }
  }

  lemma {:induction false} SplitCount(c: Config, evs: seq<Event>, i: nat, m: nat, j: nat)
    requires i <= m <= j <= |evs|
    ensures CountAdmitted(c, evs, i, j) == CountAdmitted(c, evs, i, m) + CountAdmitted(c, evs, m, j)
  {
    if m < j {
      SplitCount(c, evs, i, m, j - 1);
    }
  }

  /** A half-open episode: event `i - 1` entered it and it has lasted until after event `j - 1`.
      `activeProbes` counts exactly the calls the episode admitted, the entering event included,
      so an episode admits at most `maxHalfOpenProbes` calls, however late calls finish. */
  lemma EpisodeAdmissions(c: Config, evs: seq<Event>, i: nat, j: nat)
    requires c.Normal() && 0 < i <= j <= |evs|
    requires Stretch(c, evs, HalfOpen, i, j) && At(c, evs, i - 1).mode != HalfOpen
    ensures At(c, evs, j).activeProbes == CountAdmitted(c, evs, i - 1, j)
    ensures CountAdmitted(c, evs, i - 1, j) <= c.maxHalfOpenProbes
  {
    assert At(c, evs, i).mode == HalfOpen;
    ProbesGrowByAdmissions(c, evs, i, j);
    SplitCount(c, evs, i - 1, i, j);
    assert CountAdmitted(c, evs, i - 1, i - 1) == 0;
    assert At(c, evs, i) == Apply(c, At(c, evs, i - 1), evs[i - 1]);
    Reachable(c, evs, j);
    assert At(c, evs, j).mode == HalfOpen;
  }

  /** Any part of a half-open episode, wherever it starts, obeys the same cap. */
  lemma StretchAdmissions(c: Config, evs: seq<Event>, i: nat, j: nat)
    requires c.Normal() && i <= j <= |evs| && Stretch(c, evs, HalfOpen, i, j)
    ensures CountAdmitted(c, evs, i, j) <= c.maxHalfOpenProbes
  {
    ProbesGrowByAdmissions(c, evs, i, j);
    Reachable(c, evs, i);
    Reachable(c, evs, j);
    assert At(c, evs, i).mode == At(c, evs, j).mode == HalfOpen;
  }

  /** Event `i` tripped the breaker: a failed completion opened it, or opened it again. */
  predicate TripsAt(c: Config, evs: seq<Event>, i: nat)
    requires i < |evs|
  {
    evs[i].Finish? && !evs[i].ok && At(c, evs, i + 1).mode.Open? && At(c, evs, i + 1).openedAt == evs[i].now
  }

  lemma {:induction false} StaysOpen(c: Config, evs: seq<Event>, i: nat, j: nat)
    requires c.Normal() && Monotone(evs) && i < j <= |evs| && TripsAt(c, evs, i)
    requires forall k :: i < k < j ==> evs[k].now < evs[i].now + c.resetTimeout
    ensures At(c, evs, j).mode.Open? && At(c, evs, j).openedAt >= evs[i].now
  {
    if j > i + 1 {
      StaysOpen(c, evs, i, j - 1);
      assert evs[i].now <= evs[j - 1].now;
    }
  }

  /** After any trip no call is admitted until the whole reset timeout has passed, even though
      late failures may finish, and trip the breaker again, in the meantime. */
  lemma NoAdmissionDuringCooldown(c: Config, evs: seq<Event>, i: nat, j: nat)
    requires c.Normal() && Monotone(evs) && i < j < |evs|
    requires TripsAt(c, evs, i) && AdmittedAt(c, evs, j)
    ensures evs[j].now >= evs[i].now + c.resetTimeout
  {
    if evs[j].now < evs[i].now + c.resetTimeout {
      forall k | i < k < j ensures evs[k].now < evs[i].now + c.resetTimeout {
        assert evs[k].now <= evs[j].now;
      }
      StaysOpen(c, evs, i, j);
      assert false;
    }
  }

  /** The failed completions at the end of events `i .. j - 1`, admissions and inspections aside. */
  function TrailingFailures(evs: seq<Event>, i: nat, j: nat): nat
    requires i <= j <= |evs|
  {
    if i == j then 0
    else match evs[j - 1]
      case Finish(_, ok) => if ok then 0 else TrailingFailures(evs, i, j - 1) + 1
      case _ => TrailingFailures(evs, i, j - 1)
  }

  /** In a closed episode, starting at `i`, the counter is the trailing run of failures of that
      episode and stays below the threshold. */
  lemma {:induction false} ClosedCounter(c: Config, evs: seq<Event>, i: nat, j: nat)
    requires c.Normal() && i <= j <= |evs| && Stretch(c, evs, Closed, i, j)
    requires i == 0 || At(c, evs, i - 1).mode != Closed
    ensures At(c, evs, j).consecFailures == TrailingFailures(evs, i, j) < c.failureThreshold
  {
    Reachable(c, evs, j);
    assert At(c, evs, j).mode == Closed;
    if i < j {
      ClosedCounter(c, evs, i, j - 1);
      assert At(c, evs, j - 1).mode == Closed;
    }
  }

  /** A closed episode ends exactly at the failure that completes a run of `failureThreshold`. */
  lemma ClosedEpisodeEnds(c: Config, evs: seq<Event>, i: nat, j: nat)
    requires c.Normal() && i <= j < |evs| && Stretch(c, evs, Closed, i, j)
    requires i == 0 || At(c, evs, i - 1).mode != Closed
    ensures At(c, evs, j + 1).mode != Closed <==>
            evs[j].Finish? && TrailingFailures(evs, i, j + 1) == c.failureThreshold
    ensures At(c, evs, j + 1).mode != Closed ==> TripsAt(c, evs, j)
  {
    ClosedCounter(c, evs, i, j);
    assert At(c, evs, j).mode == Closed;
    assert At(c, evs, j + 1) == Apply(c, At(c, evs, j), evs[j]);
  }

  /** The only way back to Closed is a success that finishes while the breaker is half open; the
      call need not be one of the episode's probes. */
  lemma ClosesOnSuccessWhileHalfOpen(c: Config, evs: seq<Event>, k: nat)
    requires k < |evs| && At(c, evs, k).mode != Closed
    ensures At(c, evs, k + 1).mode == Closed <==>
            At(c, evs, k).mode == HalfOpen && evs[k].Finish? && evs[k].ok
  {
    assert At(c, evs, k + 1) == Apply(c, At(c, evs, k), evs[k]);
  }

  // ---------- Every verdict and every mode, from the events ----------

  /** Failures since the last success, those that finished in a half-open episode aside. */
  function Streak(c: Config, evs: seq<Event>, k: nat): nat
    requires k <= |evs|
  {
    if k == 0 then 0
    else match evs[k - 1]
      case Finish(_, ok) =>
        if ok then 0 else Streak(c, evs, k - 1) + if At(c, evs, k - 1).mode.HalfOpen? then 0 else 1
      case _ => Streak(c, evs, k - 1)
  }

  lemma {:induction false} CounterIsStreak(c: Config, evs: seq<Event>, k: nat)
    requires k <= |evs|
    ensures At(c, evs, k).consecFailures == Streak(c, evs, k)
  {
    if k > 0 {
      CounterIsStreak(c, evs, k - 1);
    }
  }

  /** Event `i` is a failure that trips: any in a half-open episode, and elsewhere one that makes the
      streak reach the threshold or lengthens it beyond. */
  predicate Trips(c: Config, evs: seq<Event>, i: nat)
    requires i < |evs|
  {
    evs[i].Finish? && !evs[i].ok && (At(c, evs, i).mode.HalfOpen? || Streak(c, evs, i + 1) >= c.failureThreshold)
  }

  /** The last event before `k` that tripped; -1 if none did. */
  function LastTrip(c: Config, evs: seq<Event>, k: nat): (r: int)
    requires k <= |evs|
    ensures -1 <= r < k
  {
    if k == 0 then -1 else if Trips(c, evs, k - 1) then k - 1 else LastTrip(c, evs, k - 1)
  }

  lemma {:induction false} OpenSinceLastTrip(c: Config, evs: seq<Event>, k: nat)
    requires k <= |evs|
    ensures
      var t := LastTrip(c, evs, k);
      At(c, evs, k).mode.Open? ==> t >= 0 && At(c, evs, k).openedAt == evs[t].now
  {
    if k > 0 {
      OpenSinceLastTrip(c, evs, k - 1);
      CounterIsStreak(c, evs, k);
    }
  }

  /** The breaker's next mode, for every event in every mode. */
  lemma NextMode(c: Config, evs: seq<Event>, k: nat)
    requires k < |evs|
    ensures
      var e, now, t := evs[k], At(c, evs, k + 1).mode, LastTrip(c, evs, k);
      match At(c, evs, k).mode
      case Closed => now == (if Trips(c, evs, k) then Open else Closed)
      case Open => now == (if t >= 0 && !e.Finish? && e.now - evs[t].now >= c.resetTimeout then HalfOpen else Open)
      case HalfOpen => now == (if !e.Finish? then HalfOpen else if e.ok then Closed else Open)
  {
    OpenSinceLastTrip(c, evs, k);
    CounterIsStreak(c, evs, k + 1);
    assert At(c, evs, k + 1) == Apply(c, At(c, evs, k), evs[k]);
  }

  /** What an attempt is answered. */
  function VerdictAt(c: Config, evs: seq<Event>, k: nat): Verdict
    requires k < |evs| && evs[k].Attempt?
  {
    Before(c, At(c, evs, k), evs[k].now).1
  }

  /** A closed breaker admits every attempt; an open one exactly those that come when the reset timeout
      has passed since its last trip. */
  lemma VerdictOutside(c: Config, evs: seq<Event>, k: nat)
    requires c.Normal() && k < |evs| && evs[k].Attempt? && !At(c, evs, k).mode.HalfOpen?
    ensures
      var t := LastTrip(c, evs, k);
      VerdictAt(c, evs, k) ==
      if At(c, evs, k).mode.Closed? || (t >= 0 && evs[k].now - evs[t].now >= c.resetTimeout) then Admitted
      else CircuitOpen
  {
    OpenSinceLastTrip(c, evs, k);
  }

  /** In a half-open episode an attempt is admitted exactly while the episode has admitted fewer calls
      than the configured limit. */
  lemma VerdictInEpisode(c: Config, evs: seq<Event>, i: nat, k: nat)
    requires c.Normal() && 0 < i <= k < |evs| && evs[k].Attempt?
    requires Stretch(c, evs, HalfOpen, i, k) && At(c, evs, i - 1).mode != HalfOpen
    ensures VerdictAt(c, evs, k) ==
            if CountAdmitted(c, evs, i - 1, k) < c.maxHalfOpenProbes then Admitted else TooManyProbes
  {
    EpisodeAdmissions(c, evs, i, k);
    assert At(c, evs, k).mode == HalfOpen;
  }

  // ---------- Episodes ended by late calls ----------

  /** The probe counter never falls below -1. */
  lemma {:induction false} ProbesAtLeastMinusOne(c: Config, evs: seq<Event>, k: nat)
    requires c.Normal() && k <= |evs|
    ensures At(c, evs, k).activeProbes >= -1
  {
    if k > 0 {
      ProbesAtLeastMinusOne(c, evs, k - 1);
      Reachable(c, evs, k - 1);
    }
  }

  /** A half-open episode is ended by a completion, and leaves the counter at one less than the
      calls it admitted: at -1 exactly when it admitted none. */
  lemma EpisodeEnds(c: Config, evs: seq<Event>, i: nat, j: nat)
    requires c.Normal() && 0 < i <= j < |evs|
    requires Stretch(c, evs, HalfOpen, i, j) && At(c, evs, i - 1).mode != HalfOpen && At(c, evs, j + 1).mode != HalfOpen
    ensures evs[j].Finish? && CountAdmitted(c, evs, i - 1, j + 1) == CountAdmitted(c, evs, i - 1, j)
    ensures At(c, evs, j + 1).activeProbes == CountAdmitted(c, evs, i - 1, j) - 1
    ensures At(c, evs, j + 1).activeProbes == -1 <==> CountAdmitted(c, evs, i - 1, j) == 0
  {
    EpisodeAdmissions(c, evs, i, j);
    assert At(c, evs, j).mode == HalfOpen;
    assert At(c, evs, j + 1) == Apply(c, At(c, evs, j), evs[j]);
  }

  function CountFinished(evs: seq<Event>, i: nat, j: nat): nat
    requires i <= j <= |evs|
  {
    if i == j then 0 else CountFinished(evs, i, j - 1) + if evs[j - 1].Finish? then 1 else 0
  }

  /** Calls admitted by the first `k` events and not finished by them. */
  function InFlight(c: Config, evs: seq<Event>, k: nat): int
    requires k <= |evs|
  {
    CountAdmitted(c, evs, 0, k) - CountFinished(evs, 0, k)
  }

  /** Only admitted calls finish. */
  ghost predicate Feasible(c: Config, evs: seq<Event>) {
    forall k :: 0 <= k <= |evs| ==> InFlight(c, evs, k) >= 0
  }

  /** In a half-open stretch nothing has finished yet, so what is in flight is what was when it
      began and what it admitted. */
  lemma {:induction false} HalfOpenInFlight(c: Config, evs: seq<Event>, i: nat, j: nat)
    requires i <= j <= |evs| && Stretch(c, evs, HalfOpen, i, j)
    ensures InFlight(c, evs, j) == InFlight(c, evs, i) + CountAdmitted(c, evs, i, j)
  {
    if i < j {
      HalfOpenInFlight(c, evs, i, j - 1);
      assert At(c, evs, j - 1).mode == At(c, evs, j).mode == HalfOpen;
      assert !evs[j - 1].Finish?;
    }
  }

  /** If no call is in flight when an episode begins, only a probe of its own can end it: closing
      then takes an admitted probe. */
  lemma ProbeNeededWithoutLateCalls(c: Config, evs: seq<Event>, i: nat, j: nat)
    requires c.Normal() && Feasible(c, evs) && 0 < i <= j < |evs| && InFlight(c, evs, i - 1) == 0
    requires Stretch(c, evs, HalfOpen, i, j) && At(c, evs, i - 1).mode != HalfOpen && At(c, evs, j + 1).mode != HalfOpen
    ensures CountAdmitted(c, evs, i - 1, j) >= 1
  {
    EpisodeEnds(c, evs, i, j);
    assert At(c, evs, i).mode == HalfOpen;
    assert At(c, evs, i) == Apply(c, At(c, evs, i - 1), evs[i - 1]);
    HalfOpenInFlight(c, evs, i, j);
    SplitCount(c, evs, i - 1, i, j);
    SplitCount(c, evs, 0, i - 1, i);
    assert InFlight(c, evs, j + 1) >= 0;
  }

  lemma {:induction false} PrefixRun(c: Config, evs: seq<Event>, more: seq<Event>, k: nat)
    requires k <= |evs|
    ensures At(c, evs + more, k) == At(c, evs, k)
    ensures CountAdmitted(c, evs + more, 0, k) == CountAdmitted(c, evs, 0, k)
    ensures CountFinished(evs + more, 0, k) == CountFinished(evs, 0, k)
  {
    if k > 0 {
      PrefixRun(c, evs, more, k - 1);
    }
  }

  /** Otherwise it need not: after any run that leaves the breaker half open with no probe
      admitted, the breaker can close at once, on no probe, exactly when some earlier call is
      still in flight. */
  lemma ClosesWithoutProbeIff(c: Config, evs: seq<Event>, now: int)
    requires c.Normal() && Feasible(c, evs)
    requires At(c, evs, |evs|).mode == HalfOpen && At(c, evs, |evs|).activeProbes == 0
    ensures
      var more := evs + [Finish(now, true)];
      && At(c, more, |more|).mode == Closed && At(c, more, |more|).activeProbes == -1
      && (Feasible(c, more) <==> InFlight(c, evs, |evs|) > 0)
  {
    var e := Finish(now, true);
    var more, n := evs + [e], |evs|;
    PrefixRun(c, evs, [e], n);
    assert At(c, more, n + 1) == Apply(c, At(c, more, n), e);
    assert InFlight(c, more, n + 1) == InFlight(c, evs, n) - 1;
    forall k | 0 <= k <= n ensures InFlight(c, more, k) == InFlight(c, evs, k) {
      PrefixRun(c, evs, [e], k);
    }
  }

  /** The episode that the last event of `evs` entered is ended by the last event of `more`, with no
      probe of its own admitted. */
  ghost predicate EndsUnprobed(c: Config, evs: seq<Event>, more: seq<Event>) {
    var all, n, j := evs + more, |evs|, |evs + more| - 1;
    && evs != [] && more != [] && Feasible(c, all)
    && Stretch(c, all, HalfOpen, n, j) && At(c, all, j + 1).mode != HalfOpen && CountAdmitted(c, all, n - 1, j) == 0
  }

  lemma UnprobedNeedsLateCall(c: Config, evs: seq<Event>, more: seq<Event>)
    requires c.Normal() && EndsUnprobed(c, evs, more) && At(c, evs, |evs| - 1).mode != HalfOpen
    ensures evs[|evs| - 1].Inspect? && InFlight(c, evs, |evs|) > 0
  {
    var all, n, j := evs + more, |evs|, |evs + more| - 1;
    PrefixRun(c, evs, more, n - 1);
    PrefixRun(c, evs, more, n);
    assert At(c, all, n).mode == HalfOpen;
    assert At(c, all, n) == Apply(c, At(c, all, n - 1), all[n - 1]) && all[n - 1] == evs[n - 1];
    EpisodeEnds(c, all, n, j);
    SplitCount(c, all, n - 1, n, j);
    HalfOpenInFlight(c, all, n, j);
    assert InFlight(c, all, j + 1) == InFlight(c, all, j) - 1;
  }

  /** An episode can end with no probe of its own exactly when it was entered by a look at the state,
      which admits nothing, while a call was in flight. */
  lemma EndsUnprobedIff(c: Config, evs: seq<Event>)
    requires c.Normal() && Feasible(c, evs) && evs != []
    requires At(c, evs, |evs| - 1).mode != HalfOpen && At(c, evs, |evs|).mode == HalfOpen
    ensures (exists more :: EndsUnprobed(c, evs, more)) <==> evs[|evs| - 1].Inspect? && InFlight(c, evs, |evs|) > 0
  {
    var n := |evs|;
    if evs[n - 1].Inspect? && InFlight(c, evs, n) > 0 {
      var e := Finish(evs[n - 1].now, true);
      assert At(c, evs, n) == Apply(c, At(c, evs, n - 1), evs[n - 1]);
      ClosesWithoutProbeIff(c, evs, e.now);
      PrefixRun(c, evs, [e], n);
      assert CountAdmitted(c, evs + [e], n - 1, n) == 0;
      assert EndsUnprobed(c, evs, [e]);
    }
    if more :| EndsUnprobed(c, evs, more) {
      UnprobedNeedsLateCall(c, evs, more);
    }
  }

  /** For instance: two calls admitted while closed, one of which fails and trips the breaker; the
      other succeeds in the half-open episode and closes it with no probe admitted. */
  lemma LateFinishUnderflowsProbes()
    ensures
      var c := Config(1, 10, 1);
      var evs := [Attempt(0), Attempt(0), Finish(1, false), Inspect(11), Finish(12, true)];
      && Monotone(evs) && At(c, evs, 5) == Breaker(Closed, 0, 1, -1) && CountAdmitted(c, evs, 3, 5) == 0
  {
    var c := Config(1, 10, 1);
    var evs := [Attempt(0), Attempt(0), Finish(1, false), Inspect(11), Finish(12, true)];
    assert At(c, evs, 1) == FRESH;
    assert At(c, evs, 2) == FRESH;
    assert At(c, evs, 3) == Breaker(Open, 1, 1, 0);
    assert At(c, evs, 4) == Breaker(HalfOpen, 1, 1, 0);
    assert CountAdmitted(c, evs, 3, 4) == 0;
  }
}
