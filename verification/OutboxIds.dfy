/** Event ids of the outbox (labs/03-database-transaction/external.go): an id names an invoice and a
    nanosecond, so what is known of an id is known of an event as long as no invoice is paid twice
    in one nanosecond. */
module OutboxIds {
  import opened Printing
  import opened MockDb
  import opened OutboxPipeline
  import opened OutboxMarks

  lemma DecHasNoUnderscore(n: int)
    ensures '_' !in Dec(n)
  {
    DigitsRoundTrip(if n < 0 then -n else n);
  }

  lemma IdParts(a: string, x: string, b: string, y: string)
    requires '_' !in a && '_' !in b && "evt_" + a + "_" + x == "evt_" + b + "_" + y
    ensures a == b && x == y
  {
    assert ("evt_" + a + "_" + x)[4..] == a + "_" + x;
    assert ("evt_" + b + "_" + y)[4..] == b + "_" + y;
    SplitAt('_', a, x, b, y);
  }

  lemma EventIdInjective(inv: int, nano: int, inv': int, nano': int)
    requires EventId(inv, nano) == EventId(inv', nano')
    ensures inv == inv' && nano == nano'
  {
    DecHasNoUnderscore(inv);
    DecHasNoUnderscore(inv');
    IdParts(Dec(inv), Dec(nano), Dec(inv'), Dec(nano'));
    DecInjective(inv, inv');
    DecInjective(nano, nano');
  }

  /** The ids of the stored events. */
  ghost function Ids(outbox: seq<Row>): (r: seq<Value>)
    ensures |r| == |outbox| && forall i :: 0 <= i < |outbox| ==> r[i] == Col(outbox[i], "id")
  {
    seq(|outbox|, i requires 0 <= i < |outbox| => Col(outbox[i], "id"))
  }

  ghost predicate Distinct(ids: seq<Value>) {
    forall i, j :: 0 <= i < j < |ids| ==> ids[i] != ids[j]
  }

  lemma SameIdSameRow(outbox: seq<Row>, i: nat, e: Event)
    requires Distinct(Ids(outbox)) && i < |outbox| && Formed(outbox[i]) && Stored(outbox, e) &&
             e.id == EventOf(outbox[i]).id
    ensures e == EventOf(outbox[i])
  {
    var j :| 0 <= j < |outbox| && IsStored(outbox[j], e);
    assert Ids(outbox)[j] == Text(e.id) == Ids(outbox)[i];
  }

  /** With distinct ids, an event marked published is itself one the broker accepted. */
  lemma PublishedEventAccepted(s: State, i: nat)
    requires Inv(s) && Distinct(Ids(Of(s.tables).outbox))
    requires i < |Of(s.tables).outbox| && Col(Of(s.tables).outbox[i], "status") == PUBLISHED
    ensures Formed(Of(s.tables).outbox[i]) && EventOf(Of(s.tables).outbox[i]) in s.broker
  {
    var outbox, broker := Of(s.tables).outbox, s.broker;
    assert RowOk(outbox[i], Of(s.tables).invoices, broker);
    var b :| 0 <= b < |broker| && broker[b].id == EventOf(outbox[i]).id;
    assert Stored(outbox, broker[b]);
    SameIdSameRow(outbox, i, broker[b]);
  }

  /** Without, it need not be: marking an event marks every row with its id, also one whose event
      was never sent. */
  lemma SharedIdMarksUnsent(s: State, a: Action, s': State, j: nat, e: Event)
    requires Inv(s) && MarksNow(s, a) && s' == Step(s, a)
    requires j < |Of(s.tables).outbox| && IsStored(Of(s.tables).outbox[j], e)
    requires e.id == Current(s, a.d).id && e !in s.broker
    ensures HasTables(s'.tables) && j < |Of(s'.tables).outbox| && IsStored(Of(s'.tables).outbox[j], e)
    ensures Col(Of(s'.tables).outbox[j], "status") == PUBLISHED && e !in s'.broker
  {
    MarkResult(s, a, s');
    MarkedRow(Of(s.tables).outbox[j], a.now);
  }

  lemma {:induction false} PaidCount(rows: seq<Row>, inv: int, v: Value)
    ensures CountWhere(Paid(rows, inv), "order_id", v) == CountWhere(rows, "order_id", v)
  {
    if rows != [] {
      var n := |rows| - 1;
      PaidCount(rows[..n], inv, v);
      assert Paid(rows, inv)[..n] == Paid(rows[..n], inv);
      PaidRow(rows[n]);
    }
  }

  /** Two payments of one invoice in one nanosecond, with different payloads. */
  lemma PaidTwice(s0: State, inv: int, nano: int, x: string, y: string, now: Value)
    requires Init(s0) && CountWhere(Of(s0.tables).invoices, "order_id", Number(inv)) > 0
    ensures
      var s := Step(Step(s0, Pay(inv, nano, x, now)), Pay(inv, nano, y, now));
      && HasTables(s.tables) && s.broker == [] && s.dispatchers == s0.dispatchers
      && Of(s.tables).outbox == [OutboxRow(inv, nano, x, now), OutboxRow(inv, nano, y, now)]
  {
    var s1 := Step(s0, Pay(inv, nano, x, now));
    PayIsAtomic(s0.tables, inv, nano, x, now);
    PaidCount(Of(s0.tables).invoices, inv, Number(inv));
    PayIsAtomic(s1.tables, inv, nano, y, now);
  }

  lemma FetchSendResult(s: State, d: nat, s1: State)
    requires d < |s.dispatchers| && s.dispatchers[d].Idle? && Fetched(s.tables) != []
    requires s1 == Step(Step(s, Fetch(d)), Send(d, true))
    ensures
      var batch := Fetched(s.tables);
      s1 == State(s.tables, s.broker + [batch[0]], s.dispatchers[d := Busy(batch, 0, true)])
  {
  }

  lemma FirstOfTwo(s: State, d: nat, e: Event, e': Event, now: Value)
    requires Inv(s) && s.broker == [] && d < |s.dispatchers| && s.dispatchers[d].Idle? && e != e' && e.id == e'.id
    requires
      var o := Of(s.tables).outbox;
      |o| == 2 && PendingAt(o, 0, e) && PendingAt(o, 1, e')
    ensures
      var s1 := Step(Step(s, Fetch(d)), Send(d, true));
      && s1.tables == s.tables && s1.dispatchers[d].Busy? && s1.dispatchers[d].sent
      && s1.dispatchers[d].next < |s1.dispatchers[d].batch|
      && (var sent := s1.dispatchers[d].batch[s1.dispatchers[d].next]; (sent == e || sent == e') && s1.broker == [sent])
  {
    FormedRows(s);
    FetchedPending(s.tables, e);
    var first := Fetched(s.tables)[0];
    FetchedPending(s.tables, first);
    assert first in Fetched(s.tables);
    var i: nat :| PendingAt(Of(s.tables).outbox, i, first);
    assert i == 0 || i == 1;
    FetchSendResult(s, d, Step(Step(s, Fetch(d)), Send(d, true)));
  }

  lemma PaidTwiceStored(s0: State, inv: int, nano: int, x: string, y: string, now: Value, s: State)
    requires Init(s0) && CountWhere(Of(s0.tables).invoices, "order_id", Number(inv)) > 0
    requires s == Step(Step(s0, Pay(inv, nano, x, now)), Pay(inv, nano, y, now))
    ensures Inv(s) && s.broker == [] && s.dispatchers == s0.dispatchers && |Of(s.tables).outbox| == 2
    ensures PendingAt(Of(s.tables).outbox, 0, Event(EventId(inv, nano), "InvoicePaid", Dec(inv), x))
    ensures PendingAt(Of(s.tables).outbox, 1, Event(EventId(inv, nano), "InvoicePaid", Dec(inv), y))
  {
    var a1, a2 := Pay(inv, nano, x, now), Pay(inv, nano, y, now);
    EveryRun(s0, []);
    StepKeepsInv(s0, a1);
    StepKeepsInv(Step(s0, a1), a2);
    PaidTwice(s0, inv, nano, x, y, now);
    OutboxRowForm(inv, nano, x, now);
    OutboxRowForm(inv, nano, y, now);
  }

  /** One fetch, one accepted publish. */
  ghost function FetchSend(s: State, d: nat): State {
    Step(Step(s, Fetch(d)), Send(d, true))
  }

  lemma FetchSendKeeps(s: State, d: nat)
    requires Inv(s)
    ensures Inv(FetchSend(s, d))
  {
    StepKeepsInv(s, Fetch(d));
    StepKeepsInv(Step(s, Fetch(d)), Send(d, true));
  }

  ghost function TwicePaid(s: State, inv: int, nano: int, x: string, y: string, now: Value): State {
    Step(Step(s, Pay(inv, nano, x, now)), Pay(inv, nano, y, now))
  }

  /** Then one fetch, one accepted publish and its mark leave an event marked published that was
      never sent. */
  lemma RepeatedPaymentLosesEvent(s0: State, d: nat, inv: int, nano: int, x: string, y: string, now: Value)
      returns (j: nat)
    requires Init(s0) && CountWhere(Of(s0.tables).invoices, "order_id", Number(inv)) > 0
    requires x != y && d < |s0.dispatchers|
    ensures
      var s := Step(FetchSend(TwicePaid(s0, inv, nano, x, y, now), d), Mark(d, true, now));
      && HasTables(s.tables) && j < |Of(s.tables).outbox| && Formed(Of(s.tables).outbox[j])
      && Col(Of(s.tables).outbox[j], "status") == PUBLISHED && EventOf(Of(s.tables).outbox[j]) !in s.broker
  {
    var paid := TwicePaid(s0, inv, nano, x, y, now);
    var s1 := FetchSend(paid, d);
    var e := Event(EventId(inv, nano), "InvoicePaid", Dec(inv), x);
    var e' := e.(payload := y);
    PaidTwiceStored(s0, inv, nano, x, y, now, paid);
    FirstOfTwo(paid, d, e, e', now);
    FetchSendKeeps(paid, d);
    j := if s1.broker == [e] then 1 else 0;
    SharedIdMarksUnsent(s1, Mark(d, true, now), Step(s1, Mark(d, true, now)), j, if s1.broker == [e] then e' else e);
  }

  // ---------- Payments can always bring it about ----------

  lemma {:induction false} UnsentPayload(broker: seq<Event>) returns (p: string)
    ensures forall i :: 0 <= i < |broker| ==> |broker[i].payload| < |p|
  {
    if broker == [] {
      p := "x";
    } else {
      var n := |broker| - 1;
      var q := UnsentPayload(broker[..n]);
      p := q + broker[n].payload + "x";
      assert forall i :: 0 <= i < n ==> broker[..n][i] == broker[i];
    }
  }

  /** Paying a known invoice leaves its event pending. */
  lemma PaidIsPending(s: State, inv: int, x: string, s': State)
    requires Inv(s) && AllSent(s) && CountWhere(Of(s.tables).invoices, "order_id", Number(inv)) > 0
    requires s' == Step(s, Pay(inv, 0, x, Nil))
    ensures Inv(s') && AllSent(s') && s'.broker == s.broker && s'.dispatchers == s.dispatchers
    ensures CountWhere(Of(s'.tables).invoices, "order_id", Number(inv)) > 0
    ensures Pending(s', Event(EventId(inv, 0), "InvoicePaid", Dec(inv), x))
    ensures forall e :: Pending(s, e) ==> Pending(s', e)
  {
    UnmarkedKeeps(s, Pay(inv, 0, x, Nil), s');
    PayIsAtomic(s.tables, inv, 0, x, Nil);
    PaidCount(Of(s.tables).invoices, inv, Number(inv));
    OutboxRowForm(inv, 0, x, Nil);
    var o, o' := Of(s.tables).outbox, Of(s'.tables).outbox;
    assert PendingAt(o', |o|, Event(EventId(inv, 0), "InvoicePaid", Dec(inv), x));
    forall e | Pending(s, e) ensures Pending(s', e) {
      var i: nat :| PendingAt(o, i, e);
      assert PendingAt(o', i, e);
    }
  }

  lemma InvoiceAdded(s: State, inv: int, s': State)
    requires Inv(s) && AllSent(s) && s' == Step(s, AddInvoice(map["order_id" := Number(inv)]))
    ensures Inv(s') && AllSent(s') && s'.broker == s.broker && s'.dispatchers == s.dispatchers
    ensures CountWhere(Of(s'.tables).invoices, "order_id", Number(inv)) > 0
  {
    var row := map["order_id" := Number(inv)];
    UnmarkedKeeps(s, AddInvoice(row), s');
    AddTable(s.tables, row);
    var rows := Of(s.tables).invoices;
    assert (rows + [row])[..|rows|] == rows;
  }

  /** A new invoice, paid twice in one nanosecond. */
  lemma TwoPayments(s: State, x: string, y: string, s1: State, s2: State, s3: State)
    requires Inv(s) && AllSent(s) && s.dispatchers != [] && x != y
    requires s1 == Step(s, AddInvoice(map["order_id" := Number(1)]))
    requires s2 == Step(s1, Pay(1, 0, x, Nil)) && s3 == Step(s2, Pay(1, 0, y, Nil))
    requires forall i :: 0 <= i < |s.broker| ==> s.broker[i].payload != y
    ensures Inv(s3) && AllSent(s3) && !Safe(s3)
  {
    InvoiceAdded(s, 1, s1);
    PaidIsPending(s1, 1, x, s2);
    PaidIsPending(s2, 1, y, s3);
    var e := Event(EventId(1, 0), "InvoicePaid", Dec(1), x);
    assert Markable(s3, e) && Pending(s3, e.(payload := y)) && e.(payload := y) !in s3.broker;
  }

  lemma PaymentsCanHide(s: State, s1: State, s2: State, s3: State, x: string, y: string) returns (run: seq<Action>)
    requires Inv(s) && AllSent(s) && s.dispatchers != [] && x != y
    requires s1 == Step(s, AddInvoice(map["order_id" := Number(1)]))
    requires s2 == Step(s1, Pay(1, 0, x, Nil)) && s3 == Step(s2, Pay(1, 0, y, Nil))
    requires forall i :: 0 <= i < |s.broker| ==> s.broker[i].payload != y
    ensures !AllSent(Exec(s, run))
  {
    TwoPayments(s, x, y, s1, s2, s3);
    var rest := UnsafeFails(s3);
    var r2 := [Pay(1, 0, y, Nil)] + rest;
    var r1 := [Pay(1, 0, x, Nil)] + r2;
    ExecFirst(s2, Pay(1, 0, y, Nil), rest, s3);
    ExecFirst(s1, Pay(1, 0, x, Nil), r2, s2);
    ExecFirst(s, AddInvoice(map["order_id" := Number(1)]), r1, s1);
    run := [AddInvoice(map["order_id" := Number(1)])] + r1;
  }

  lemma {:induction false} NobodyMarks(s: State, run: seq<Action>)
    requires Inv(s) && AllSent(s) && s.dispatchers == []
    ensures SentThroughout(s, run) && Exec(s, run).dispatchers == []
  {
    if run != [] {
      var front, a := run[..|run| - 1], run[|run| - 1];
      NobodyMarks(s, front);
      DispatchersStay(Exec(s, front), a, Exec(s, run));
      UnmarkedKeepsSent(Exec(s, front), a, Exec(s, run));
    }
  }

  /** With new payments allowed, only a system without dispatchers is sure to keep the promise. */
  lemma SurvivesPaymentsIff(s: State)
    requires Inv(s) && AllSent(s)
    ensures (forall run :: SentThroughout(s, run)) <==> s.dispatchers == []
  {
    if s.dispatchers == [] {
      forall run ensures SentThroughout(s, run) {
        NobodyMarks(s, run);
      }
    } else {
      var y := UnsentPayload(s.broker);
      var s1 := Step(s, AddInvoice(map["order_id" := Number(1)]));
      var s2 := Step(s1, Pay(1, 0, y + "x", Nil));
      var run := PaymentsCanHide(s, s1, s2, Step(s2, Pay(1, 0, y, Nil)), y + "x", y);
      assert !SentThroughout(s, run);
    }
  }

  // ---------- Ids of a run ----------

  lemma MarkKeepsIds(outbox: seq<Row>, id: string, now: Value)
    requires AllFormed(outbox)
    ensures Ids(Marked(outbox, id, now)) == Ids(outbox)
  {
    forall i | 0 <= i < |outbox| ensures Col(Marked(outbox, id, now)[i], "id") == Col(outbox[i], "id") {
      MarkedRow(outbox[i], now);
      assert Formed(outbox[i]);
    }
  }

  /** Only a payment adds a row, with the id of its invoice and nanosecond. */
  ghost predicate NextIds(ids: seq<Value>, ids': seq<Value>, a: Action) {
    ids' == ids || (a.Pay? && ids' == ids + [Text(EventId(a.inv, a.nano))])
  }

  lemma PayIds(s: State, a: Action)
    requires Inv(s) && a.Pay?
    ensures
      var t := Step(s, a).tables;
      HasTables(t) && NextIds(Ids(Of(s.tables).outbox), Ids(Of(t).outbox), a)
  {
    PayIsAtomic(s.tables, a.inv, a.nano, a.payload, a.now);
    OutboxRowForm(a.inv, a.nano, a.payload, a.now);
    var o, row := Of(s.tables).outbox, OutboxRow(a.inv, a.nano, a.payload, a.now);
    assert Ids(o + [row]) == Ids(o) + [Col(row, "id")];
  }

  lemma StepIds(s: State, a: Action)
    requires Inv(s)
    ensures
      var t := Step(s, a).tables;
      HasTables(t) && NextIds(Ids(Of(s.tables).outbox), Ids(Of(t).outbox), a)
  {
    var t := s.tables;
    if a.Pay? {
      PayIds(s, a);
    } else if a.AddInvoice? {
      AddTable(t, a.row);
    } else if a.Handle? && a.ok && a.delivery < |s.broker| {
      HandleIsAtomic(t, a.consumer, s.broker[a.delivery], a.now);
    } else if a.Mark? && Step(s, a).tables != t {
      var k := s.dispatchers[a.d];
      FormedRows(s);
      MarkTable(t, k.batch[k.next].id, a.now);
      MarkKeepsIds(Of(t).outbox, k.batch[k.next].id, a.now);
    }
  }

  ghost predicate PaidInRun(run: seq<Action>, v: Value) {
    exists k :: 0 <= k < |run| && run[k].Pay? && v == Text(EventId(run[k].inv, run[k].nano))
  }

  /** No invoice is paid twice in one nanosecond. */
  ghost predicate PaidApart(run: seq<Action>) {
    forall k, m :: 0 <= k < m < |run| && run[k].Pay? && run[m].Pay? ==>
      run[k].inv != run[m].inv || run[k].nano != run[m].nano
  }

  ghost predicate IdsOk(ids: seq<Value>, run: seq<Action>) {
    Distinct(ids) && forall i :: 0 <= i < |ids| ==> PaidInRun(run, ids[i])
  }

  lemma PaidStays(run: seq<Action>, v: Value)
    requires run != [] && PaidInRun(run[..|run| - 1], v)
    ensures PaidInRun(run, v)
    ensures PaidApart(run) && run[|run| - 1].Pay? ==> v != Text(EventId(run[|run| - 1].inv, run[|run| - 1].nano))
  {
    var n := |run| - 1;
    var k :| 0 <= k < n && run[..n][k].Pay? && v == Text(EventId(run[..n][k].inv, run[..n][k].nano));
    assert run[k] == run[..n][k];
    if run[n].Pay? && v == Text(EventId(run[n].inv, run[n].nano)) {
      EventIdInjective(run[k].inv, run[k].nano, run[n].inv, run[n].nano);
    }
  }

  lemma IdsStayOk(ids: seq<Value>, ids': seq<Value>, run: seq<Action>)
    requires run != [] && PaidApart(run) && IdsOk(ids, run[..|run| - 1]) && NextIds(ids, ids', run[|run| - 1])
    ensures IdsOk(ids', run)
  {
    forall i | 0 <= i < |ids| ensures PaidInRun(run, ids[i]) {
      PaidStays(run, ids[i]);
    }
    if ids' != ids {
      forall i | 0 <= i < |ids| ensures ids'[i] != ids'[|ids|] {
        PaidStays(run, ids[i]);
      }
      assert PaidInRun(run, ids'[|ids|]);
    }
  }

  lemma {:induction false} RunIds(s0: State, run: seq<Action>)
    requires Init(s0) && PaidApart(run)
    ensures Inv(Exec(s0, run)) && IdsOk(Ids(Of(Exec(s0, run).tables).outbox), run)
  {
    EveryRun(s0, run);
    if run != [] {
      var n := |run| - 1;
      RunIds(s0, run[..n]);
      var s := Exec(s0, run[..n]);
      StepIds(s, run[n]);
      IdsStayOk(Ids(Of(s.tables).outbox), Ids(Of(Exec(s0, run).tables).outbox), run);
    }
  }

  /** With distinct ids the only stored event under the id being marked is the one sent. */
  lemma DistinctIsClear(s: State, a: Action)
    requires Inv(s) && Distinct(Ids(Of(s.tables).outbox)) && MarksNow(s, a)
    ensures ClearId(s, Current(s, a.d).id)
  {
    var e, o := Current(s, a.d), Of(s.tables).outbox;
    assert DispatcherOk(s.dispatchers[a.d], o, s.broker);
    assert Stored(o, e);
    forall i: nat | i < |o| ensures ClearRow(o[i], s.broker, e.id) {
      if Formed(o[i]) && EventOf(o[i]).id == e.id {
        SameIdSameRow(o, i, e);
      }
    }
  }

  lemma {:induction false} ApartNeverHides(s0: State, run: seq<Action>)
    requires Init(s0) && PaidApart(run)
    ensures NeverHides(s0, run)
  {
    if run != [] {
      var front, a := run[..|run| - 1], run[|run| - 1];
      ApartNeverHides(s0, front);
      RunIds(s0, front);
      if MarksNow(Exec(s0, front), a) {
        DistinctIsClear(Exec(s0, front), a);
      }
    }
  }

  /** In every run in which no invoice is paid twice in one nanosecond, an event marked published
      was accepted by the broker, that very event, in every state on the way. */
  lemma PublishedMeansSent(s0: State, run: seq<Action>)
    requires Init(s0) && PaidApart(run)
    ensures SentThroughout(s0, run)
  {
    EveryRun(s0, []);
    ApartNeverHides(s0, run);
    SentThroughoutIff(s0, run);
  }
}
