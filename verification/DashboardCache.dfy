/** Tenant-scoped dashboard keys and the cache behind them
    (labs/04-caching/dashboard_key.go, dashboard_cache.go). */
module Dashboards {
  import opened Wrappers
  import opened Printing
  import opened TtlMaps

  /** A business date as `time.Time` shows it in its own location; `zero` marks the zero time. */
  datatype Date = Date(year: int, month: nat, day: nat, zero: bool) {
    predicate Civil() {
      1 <= month <= 12 && 1 <= day <= 31
    }

    predicate SameDay(d: Date) {
      year == d.year && month == d.month && day == d.day
    }
  }

  function Year(y: int): string {
    if y < 0 then "-" + Padded(-y, 4) else Padded(y, 4)
  }

  /** The layout `2006-01-02`. */
  function FormatDate(d: Date): string {
    Year(d.year) + "-" + Padded(d.month, 2) + "-" + Padded(d.day, 2)
  }

  lemma FixedTail(y: string, m: string, d: string, y': string, m': string, d': string)
    requires |m| == |m'| == |d| == |d'| == 2 && y + "-" + m + "-" + d == y' + "-" + m' + "-" + d'
    ensures y == y' && m == m' && d == d'
  {
    var s := y + "-" + m + "-" + d;
    var n := |s|;
    assert s[n - 2..] == d && s[n - 2..] == d';
    assert s[n - 5..n - 3] == m && s[n - 5..n - 3] == m';
    assert s[..n - 6] == y && s[..n - 6] == y';
  }

  lemma SameYear(a: int, b: int)
    requires Year(a) == Year(b)
    ensures a == b
  {
    PaddedRoundTrip(if a < 0 then -a else a, 4);
    PaddedRoundTrip(if b < 0 then -b else b, 4);
    assert a < 0 ==> Year(a)[0] == '-' && Year(a)[1..] == Padded(-a, 4);
    assert b < 0 ==> Year(b)[0] == '-' && Year(b)[1..] == Padded(-b, 4);
    assert a >= 0 ==> Year(a)[0] != '-';
    assert b >= 0 ==> Year(b)[0] != '-';
  }

  /** The last ten characters are fixed-width, so different days format differently. */
  lemma FormatDateInjective(a: Date, b: Date)
    requires a.Civil() && b.Civil() && FormatDate(a) == FormatDate(b)
    ensures a.SameDay(b)
  {
    TwoDigits(a.month); TwoDigits(a.day); TwoDigits(b.month); TwoDigits(b.day);
    FixedTail(Year(a.year), Padded(a.month, 2), Padded(a.day, 2), Year(b.year), Padded(b.month, 2), Padded(b.day, 2));
    PaddedRoundTrip(a.month, 2); PaddedRoundTrip(a.day, 2); PaddedRoundTrip(b.month, 2); PaddedRoundTrip(b.day, 2);
    SameYear(a.year, b.year);
  }

  datatype KeyBuilder = KeyBuilder(tenantID: int, branchID: int, date: Date, version: int)

  /** Rejects a non-positive tenant or branch and the zero date. */
  function NewTenantDashboardKey(tenantID: int, branchID: int, date: Date): Option<KeyBuilder> {
    if tenantID <= 0 || branchID <= 0 || date.zero then None else Some(KeyBuilder(tenantID, branchID, date, 1))
  }

  const PREFIX := "cmms:dashboard:v"

  function Build(b: KeyBuilder): string {
    PREFIX + Dec(b.version) + ":tenant:" + Dec(b.tenantID) + ":branch:" + Dec(b.branchID) + ":date:" +
      FormatDate(b.date)
  }

  function Fields(b: KeyBuilder): (string, string, string, string) {
    (Dec(b.version), Dec(b.tenantID), Dec(b.branchID), FormatDate(b.date))
  }

  lemma Regroup(p: string, f: (string, string, string, string),
                c1: string, t1: string, c2: string, t2: string, c3: string, t3: string)
    requires c1 == ":" + t1 && c2 == ":" + t2 && c3 == ":" + t3
    ensures p + f.0 + c1 + f.1 + c2 + f.2 + c3 + f.3 == Record(p, t1, t2, t3, f)
  {
  }

  lemma BuildIsRecord(b: KeyBuilder)
    ensures Build(b) == Record(PREFIX, "tenant:", "branch:", "date:", Fields(b))
  {
    Regroup(PREFIX, Fields(b), ":tenant:", "tenant:", ":branch:", "branch:", ":date:", "date:");
  }

  /** The printed key determines version, tenant, branch and formatted date, whatever their
      values, negative ones included. */
  lemma BuildInjective(a: KeyBuilder, b: KeyBuilder)
    requires Build(a) == Build(b)
    ensures a.version == b.version && a.tenantID == b.tenantID && a.branchID == b.branchID
    ensures FormatDate(a.date) == FormatDate(b.date)
    ensures a.date.Civil() && b.date.Civil() ==> a.date.SameDay(b.date)
  {
    DecHasNoColon(a.version); DecHasNoColon(b.version);
    DecHasNoColon(a.tenantID); DecHasNoColon(b.tenantID);
    DecHasNoColon(a.branchID); DecHasNoColon(b.branchID);
    BuildIsRecord(a);
    BuildIsRecord(b);
    RecordInjective(PREFIX, "tenant:", "branch:", "date:", Fields(a), Fields(b));
    DecInjective(a.version, b.version);
    DecInjective(a.tenantID, b.tenantID);
    DecInjective(a.branchID, b.branchID);
    if a.date.Civil() && b.date.Civil() {
      FormatDateInjective(a.date, b.date);
    }
  }

  // ---------- The service ----------

  datatype Dashboard = Dashboard(branchID: int, date: string, invoiceCount: int, revenue: real)

  datatype Blob = Json(dashboard: Dashboard) | Junk(text: string)

  /** Which tenant, branch and day a dashboard was fetched for. */
  datatype Scope = Scope(tenantID: int, branchID: int, day: string)

  datatype Fetch = Fetch(scope: Scope, dashboard: Dashboard)

  const TTL := 30_000_000_000

  const JITTER := 10_000_000_000

  type Draw = d: int | 0 <= d < JITTER

  /** `answer` is what the repository would return, if asked. */
  datatype Op =
    | Get(tenantID: int, branchID: int, date: Date, now: int, answer: Option<Dashboard>,
          getDown: bool, setDown: bool, deleteDown: bool, draw: Draw)
    | Invalidate(tenantID: int, branchID: int, date: Date, deleteDown: bool)
  {
    function Target(): Scope {
      Scope(tenantID, branchID, FormatDate(date))
    }

    function Key(): string {
      Build(KeyBuilder(tenantID, branchID, date, 1))
    }

    predicate Valid() {
      tenantID > 0 && branchID > 0 && !date.zero
    }
  }

  /** `fetched` records every successful query of the repository. */
  datatype State = State(cache: Store<Blob>, fetched: seq<Fetch>)

  datatype Answer = Served(dashboard: Dashboard) | Fail | Invalidated

  function Do(s: State, op: Op): (State, Answer) {
    if !op.Valid() then (s, Fail)
    else match op
      case Invalidate(_, _, _, deleteDown) =>
        if deleteDown then (s, Fail) else (s.(cache := Drop(s.cache, op.Key())), Invalidated)
      case Get(_, _, _, now, answer, getDown, setDown, deleteDown, draw) =>
        var (cache, found) := if getDown then (s.cache, Down) else Find(s.cache, op.Key(), now);
        if found.Hit? && found.value.Json? then (s.(cache := cache), Served(found.value.dashboard))
        else
          var cache :=
            if found.Hit? && found.value.text != "" && !deleteDown then Drop(cache, op.Key()) else cache;
          if answer.None? then (s.(cache := cache), Fail)
          else
            var d := answer.value;
            var cache :=
              if setDown then cache else Put(cache, op.Key(), Json(d), TtlWithJitter(TTL, JITTER, draw), now);
            (State(cache, s.fetched + [Fetch(op.Target(), d)]), Served(d))
  }

  /** The cache can be reached and holds a live dashboard for the operation's scope. */
  predicate FromCache(s: State, op: Op)
    requires op.Get?
  {
    var found := Find(s.cache, op.Key(), op.now).1;
    !op.getDown && found.Hit? && found.value.Json?
  }

  /** What a request is answered: an error if its scope is not valid, else what is cached, else what the
      repository returns. */
  lemma GetAnswers(s: State, op: Op)
    requires op.Get?
    ensures
      var (s', a) := Do(s, op);
      if op.tenantID <= 0 || op.branchID <= 0 || op.date.zero then s' == s && a == Fail
      else if FromCache(s, op) then
        op.Key() in s.cache.data && a == Served(s.cache.data[op.Key()].dashboard) && s'.fetched == s.fetched
      else if op.answer.None? then a == Fail && s'.fetched == s.fetched
      else a == Served(op.answer.value) && s'.fetched == s.fetched + [Fetch(op.Target(), op.answer.value)]
  {
  }

  /** A dashboard that was fetched and stored is served again for thirty seconds without asking the
      repository, and is forgotten after less than forty. */
  lemma FetchedIsCached(s: State, op: Op, again: Op)
    requires op.Get? && op.Valid() && !FromCache(s, op) && op.answer.Some? && !op.setDown
    requires again.Get? && again.Target() == op.Target() && again.Key() == op.Key() && again.Valid()
    ensures
      var s' := Do(s, op).0;
      && (op.now <= again.now <= op.now + 30_000_000_000 && !again.getDown ==>
            FromCache(s', again) && Do(s', again).1 == Served(op.answer.value))
      && (again.now >= op.now + 40_000_000_000 ==> !FromCache(s', again))
      && op.Key() in s'.cache.expiries && s'.cache.expiries[op.Key()] == op.now + 30_000_000_000 + op.draw
  {
  }

  /** A request that finds text that does not decode removes it, if it can. */
  lemma JunkIsDropped(s: State, op: Op)
    requires op.Get? && op.Valid() && !op.getDown && !op.deleteDown
    requires
      var found := Find(s.cache, op.Key(), op.now).1;
      found.Hit? && found.value.Junk? && found.value.text != ""
    ensures
      var s' := Do(s, op).0;
      op.Key() in s'.cache.data ==> op.answer.Some? && s'.cache.data[op.Key()] == Json(op.answer.value)
  {
  }

  /** After an invalidation the repository is asked. */
  lemma InvalidatedIsAsked(s: State, op: Op, again: Op)
    requires op.Invalidate? && op.Valid() && !op.deleteDown
    requires again.Get? && again.Key() == op.Key()
    ensures Do(s, op).1 == Invalidated && !FromCache(Do(s, op).0, again)
  {
  }

  class DashboardCacheService {
    const cache: MockCache<Blob>
    var queries: nat
    ghost var fetched: seq<Fetch>

    ghost function View(): State
      reads this, cache
    {
      State(cache.View(), fetched)
    }

    constructor ()
      ensures fresh(cache) && View() == State(Store(map[], map[]), []) && queries == 0
    {
      cache := new MockCache<Blob>();
      queries, fetched := 0, [];
    }

    method GetDashboardWithTenant(op: Op) returns (a: Answer)
      requires op.Get?
      modifies this, cache
      ensures (View(), a) == Do(old(View()), op)
      ensures queries == old(queries) + if op.Valid() && !FromCache(old(View()), op) then 1 else 0
    {
      var b := NewTenantDashboardKey(op.tenantID, op.branchID, op.date);
      if b.None? {
        return Fail;
      }
      var key := Build(b.value);
      var found := cache.Get(key, op.now, op.getDown);
      if found.Hit? {
        if found.value.Json? {
          return Served(found.value.dashboard);
        }
        if found.value.text != "" {
          var _ := cache.Delete(key, op.deleteDown);
        }
      }
      queries := queries + 1;
      if op.answer.None? {
        return Fail;
      }
      var d := op.answer.value;
      fetched := fetched + [Fetch(op.Target(), d)];
      var ttl := TtlWithJitter(TTL, JITTER, op.draw);
      var _ := cache.Set(key, Json(d), ttl, op.now, op.setDown);
      return Served(d);
    }

    method InvalidateDashboard(op: Op) returns (a: Answer)
      requires op.Invalidate?
      modifies this, cache
      ensures (View(), a) == Do(old(View()), op)
    {
      var b := NewTenantDashboardKey(op.tenantID, op.branchID, op.date);
      if b.None? {
        return Fail;
      }
      var ok := cache.Delete(Build(b.value), op.deleteDown);
      return if ok then Invalidated else Fail;
    }
  }

  // ---------- Runs ----------

  function Exec(s: State, ops: seq<Op>): State {
    if ops == [] then s else Do(Exec(s, ops[..|ops| - 1]), ops[|ops| - 1]).0
  }

  ghost predicate FetchedFor(s: State, op: Op, d: Dashboard) {
    exists i :: 0 <= i < |s.fetched| && s.fetched[i] == Fetch(op.Target(), d)
  }

  /** Every cached dashboard was fetched for the scope its key prints. */
  ghost predicate Inv(s: State) {
    forall op: Op :: op.Key() in s.cache.data && s.cache.data[op.Key()].Json? ==>
      FetchedFor(s, op, s.cache.data[op.Key()].dashboard)
  }

  lemma SameKeySameScope(a: Op, b: Op)
    ensures a.Key() == b.Key() <==> a.Target() == b.Target()
  {
    if a.Key() == b.Key() {
      BuildInjective(KeyBuilder(a.tenantID, a.branchID, a.date, 1), KeyBuilder(b.tenantID, b.branchID, b.date, 1));
    }
  }

  /** An operation touches no key but its own, and stores only what it has just fetched. */
  lemma DoTouchesOwnKey(s: State, op: Op)
    ensures
      var s' := Do(s, op).0;
      && s.fetched <= s'.fetched
      && forall key :: key in s'.cache.data ==>
           || (key in s.cache.data && s'.cache.data[key] == s.cache.data[key])
           || (&& key == op.Key() && s'.cache.data[key].Json?
               && s'.fetched == s.fetched + [Fetch(op.Target(), s'.cache.data[key].dashboard)])
  {
  }

  lemma DoKeepsInv(s: State, op: Op)
    requires Inv(s)
    ensures Inv(Do(s, op).0)
  {
    var s' := Do(s, op).0;
    DoTouchesOwnKey(s, op);
    forall q: Op | q.Key() in s'.cache.data && s'.cache.data[q.Key()].Json?
      ensures FetchedFor(s', q, s'.cache.data[q.Key()].dashboard)
    {
      SameKeySameScope(q, op);
      if q.Key() in s.cache.data && s'.cache.data[q.Key()] == s.cache.data[q.Key()] {
        assert FetchedFor(s, q, s.cache.data[q.Key()].dashboard);
        var i :| 0 <= i < |s.fetched| && s.fetched[i] == Fetch(q.Target(), s.cache.data[q.Key()].dashboard);
        assert s'.fetched[i] == s.fetched[i];
      } else {
        assert s'.fetched[|s.fetched|] == Fetch(q.Target(), s'.cache.data[q.Key()].dashboard);
      }
    }
  }

  lemma {:induction false} EveryRun(ops: seq<Op>)
    ensures Inv(Exec(State(Store(map[], map[]), []), ops))
  {
    if ops != [] {
      EveryRun(ops[..|ops| - 1]);
      DoKeepsInv(Exec(State(Store(map[], map[]), []), ops[..|ops| - 1]), ops[|ops| - 1]);
    }
  }

  /** Tenant isolation: whatever is served for a tenant, branch and day, from the cache or not,
      was fetched from the repository for exactly that tenant, branch and day. */
  lemma ServedFromOwnScope(ops: seq<Op>, op: Op)
    requires op.Get?
    ensures
      var (s, answer) := Do(Exec(State(Store(map[], map[]), []), ops), op);
      answer.Served? ==> FetchedFor(s, op, answer.dashboard)
  {
    EveryRun(ops);
    var before := Exec(State(Store(map[], map[]), []), ops);
    var (s, answer) := Do(before, op);
    if answer.Served? {
      if s.fetched == before.fetched {
        assert FetchedFor(before, op, answer.dashboard);
      } else {
        assert s.fetched[|before.fetched|] == Fetch(op.Target(), answer.dashboard);
      }
    }
  }

  /** Invalidating one scope removes its entry and no other scope's. */
  lemma InvalidateIsScoped(s: State, op: Op, other: Op)
    requires op.Invalidate? && Do(s, op).1 == Invalidated
    ensures
      var s' := Do(s, op).0;
      && op.Key() !in s'.cache.data
      && (other.Target() != op.Target() ==>
            && (other.Key() in s'.cache.data <==> other.Key() in s.cache.data)
            && (other.Key() in s.cache.data ==> s'.cache.data[other.Key()] == s.cache.data[other.Key()])
            && (other.Key() in s'.cache.expiries <==> other.Key() in s.cache.expiries)
            && (other.Key() in s.cache.expiries ==> s'.cache.expiries[other.Key()] == s.cache.expiries[other.Key()]))
  {
    SameKeySameScope(op, other);
  }

  lemma DateText()
    ensures FormatDate(Date(2024, 5, 9, false)) == "2024-05-09"
  {
    assert Digits(2) == "2";
    assert Digits(20) == "20";
    assert Digits(202) == "202";
    assert Digits(2024) == "2024";
    assert Zeros(1) == "0";
    assert Padded(5, 2) == "05" && Padded(9, 2) == "09";
  }

  /** The key as it is printed. */
  lemma KeyText()
    ensures Build(KeyBuilder(7, 3, Date(2024, 5, 9, false), 1)) == "cmms:dashboard:v1:tenant:7:branch:3:date:2024-05-09"
  {
    DateText();
    assert Dec(1) == "1" && Dec(7) == "7" && Dec(3) == "3";
    var a := PREFIX + Dec(1) + ":tenant:";
    assert a == "cmms:dashboard:v1:tenant:";
    var b := a + Dec(7) + ":branch:";
    assert b == "cmms:dashboard:v1:tenant:7:branch:";
    var c := b + Dec(3) + ":date:";
    assert c == "cmms:dashboard:v1:tenant:7:branch:3:date:";
    assert c + "2024-05-09" == "cmms:dashboard:v1:tenant:7:branch:3:date:2024-05-09";
  }
}
