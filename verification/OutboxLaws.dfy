/** What the transactions and the dispatcher of labs/03-database-transaction/external.go leave in the
    tables, column by column. */
module OutboxLaws {
  import opened Printing
  import opened MockDb
  import opened MockDbLaws
  import opened OutboxPipeline
  import opened OutboxDelivery

  /** The row has exactly these columns with these values. */
  ghost predicate Has(r: Row, cols: seq<string>, vals: seq<MockDb.Value>)
    requires |cols| == |vals|
  {
    && (forall c :: c in r <==> c in cols)
    && (forall k :: 0 <= k < |cols| ==> cols[k] in r && r[cols[k]] == vals[k])
  }

  /** An event is stored pending, never attempted, and under an id made of its invoice and instant. */
  lemma StoredEvent(inv: int, nano: int, payload: string, now: MockDb.Value)
    ensures Has(OutboxRow(inv, nano, payload, now),
                ["id", "event_type", "aggregate_id", "payload", "status", "attempts", "created_at", "published_at"],
                [Text("evt_" + Dec(inv) + "_" + Dec(nano)), Text("InvoicePaid"), Text(Dec(inv)), Text(payload),
                 Text("pending"), Number(0), now, Nil])
  {
  }

  lemma StoredMarker(consumer: string, e: Event, now: MockDb.Value)
    ensures Has(ProcessedRow(consumer, e.id, now), ["consumer_name", "event_id", "processed_at"],
                [Text(consumer), Text(e.id), now])
  {
  }

  lemma StoredCommission(e: Event, now: MockDb.Value)
    ensures Has(CommissionRow(e, now), ["event_id", "invoice_id", "amount", "created_at"],
                [Text(e.id), Text(e.aggregate), Text("10000"), now])
  {
  }

  /** `r'` is `r` with column `c` set to `v`. */
  ghost predicate SetTo(r: Row, r': Row, c: string, v: MockDb.Value) {
    && c in r' && r'[c] == v
    && (forall d :: d != c ==> (d in r' <==> d in r) && (d in r ==> r'[d] == r[d]))
  }

  lemma OneColumn(r: Row, c: string, v: MockDb.Value)
    ensures SetTo(r, Assign(r, [Pair(c, v)]), c, v)
  {
    AssignDecides(r, [Pair(c, v)], 0);
    forall d | d != c
      ensures (d in Assign(r, [Pair(c, v)]) <==> d in r) && (d in r ==> Assign(r, [Pair(c, v)])[d] == r[d])
    {
      AssignKeeps(r, [Pair(c, v)], d);
    }
  }

  lemma {:induction false} NoMatch(rows: seq<Row>, col: string, val: MockDb.Value)
    requires CountWhere(rows, col, val) == 0
    ensures forall i :: 0 <= i < |rows| ==> !EqualVal(Col(rows[i], col), val)
  {
    if rows != [] {
      NoMatch(rows[..|rows| - 1], col, val);
      assert forall i :: 0 <= i < |rows| - 1 ==> rows[..|rows| - 1][i] == rows[i];
    }
  }

  lemma PayRefused(t: Tables, inv: int, nano: int, payload: string, now: MockDb.Value)
    requires HasTables(t) && CountWhere(t["invoices"], "order_id", Number(inv)) == 0
    ensures PayTx(t, inv, nano, payload, now) == (t, InvoicePaid)
  {
  }

  /** Paying sets the status of exactly the invoices with that number, and stores one event. */
  lemma PayMeans(t: Tables, inv: int, nano: int, payload: string, now: MockDb.Value)
    requires HasTables(t)
    ensures
      var (t', o) := PayTx(t, inv, nano, payload, now);
      var rows := t["invoices"];
      HasTables(t') &&
      if forall i :: 0 <= i < |rows| ==> !EqualVal(Col(rows[i], "order_id"), Number(inv))
      then o == InvoicePaid && t' == t
      else
        && o == Committed && |t'["invoices"]| == |rows|
        && (forall i :: 0 <= i < |rows| ==>
              if EqualVal(Col(rows[i], "order_id"), Number(inv))
              then SetTo(rows[i], t'["invoices"][i], "status", Text("paid"))
              else t'["invoices"][i] == rows[i])
        && t'["outbox_events"] == t["outbox_events"] + [OutboxRow(inv, nano, payload, now)]
        && t'["processed_events"] == t["processed_events"] && t'["commissions"] == t["commissions"]
  {
    var rows := t["invoices"];
    PayIsAtomic(t, inv, nano, payload, now);
    if CountWhere(rows, "order_id", Number(inv)) > 0 {
      SomeMatch(rows, "order_id", Number(inv));
      forall i | 0 <= i < |rows| && EqualVal(Col(rows[i], "order_id"), Number(inv))
        ensures SetTo(rows[i], Paid(rows, inv)[i], "status", Text("paid"))
      {
        OneColumn(rows[i], "status", PAID);
      }
    } else {
      NoMatch(rows, "order_id", Number(inv));
      PayRefused(t, inv, nano, payload, now);
    }
  }

  /** Handling adds one marker and one commission, unless this consumer's marker for this event is there. */
  lemma HandleMeans(t: Tables, consumer: string, e: Event, now: MockDb.Value)
    requires HasTables(t)
    ensures
      var (t', o) := HandleTx(t, consumer, e, now);
      var rows := t["processed_events"];
      HasTables(t') &&
      if exists i :: && 0 <= i < |rows| && Col(rows[i], "consumer_name") == Text(consumer)
                     && Col(rows[i], "event_id") == Text(e.id)
      then o == Duplicate && Of(t') == Of(t)
      else
        && o == Committed && t'["invoices"] == t["invoices"] && t'["outbox_events"] == t["outbox_events"]
        && t'["processed_events"] == rows + [ProcessedRow(consumer, e.id, now)]
        && t'["commissions"] == t["commissions"] + [CommissionRow(e, now)]
  {
    var rows, row, keys := t["processed_events"], ProcessedRow(consumer, e.id, now), ["consumer_name", "event_id"];
    HandleIsAtomic(t, consumer, e, now);
    assert Col(row, "consumer_name") == Text(consumer) && Col(row, "event_id") == Text(e.id);
    assert keys[0] in keys && keys[1] in keys;
    assert forall k :: k in keys ==> k == "consumer_name" || k == "event_id";
    forall i | 0 <= i < |rows|
      ensures Conflicts(rows[i], row, keys) <==>
              Col(rows[i], "consumer_name") == Text(consumer) && Col(rows[i], "event_id") == Text(e.id)
    {
    }
  }

  lemma TwoColumns(r: Row, now: MockDb.Value)
    ensures
      var r' := Assign(r, [Pair("status", PUBLISHED), Pair("published_at", now)]);
      && Col(r', "status") == Text("published") && Col(r', "published_at") == now
      && forall d :: d != "status" && d != "published_at" ==> Col(r', d) == Col(r, d)
  {
    var sets := [Pair("status", PUBLISHED), Pair("published_at", now)];
    assert "status"[0] == 's' && "published_at"[0] == 'p';
    AssignDecides(r, sets, 0);
    AssignDecides(r, sets, 1);
    forall d | d != "status" && d != "published_at" ensures Col(Assign(r, sets), d) == Col(r, d) {
      AssignKeeps(r, sets, d);
    }
  }

  // ---------- A batch, failures and all ----------

  /** The events of the batch's first `n` that the broker accepts, in order. */
  function AcceptedOf(batch: seq<Event>, n: nat, accepts: nat -> bool): seq<Event>
    requires n <= |batch|
  {
    if n == 0 then [] else AcceptedOf(batch, n - 1, accepts) + if accepts(n - 1) then [batch[n - 1]] else []
  }

  /** Event `i` of the batch is accepted and marked, and has this id. */
  ghost predicate MarkedBy(batch: seq<Event>, i: nat, n: nat, accepts: nat -> bool, marks: nat -> bool, id: string) {
    i < n <= |batch| && accepts(i) && marks(i) && batch[i].id == id
  }

  /** Some event of the batch's first `n` with this id is accepted and marked. */
  ghost predicate SomeMarked(batch: seq<Event>, n: nat, accepts: nat -> bool, marks: nat -> bool, id: string) {
    exists i: nat :: MarkedBy(batch, i, n, accepts, marks, id)
  }

  ghost predicate RowAfter(r: Row, r': Row, batch: seq<Event>, n: nat, accepts: nat -> bool, marks: nat -> bool) {
    && Formed(r) && IsStored(r', EventOf(r))
    && (Col(r', "status") == PUBLISHED <==>
        Col(r, "status") == PUBLISHED || SomeMarked(batch, n, accepts, marks, EventOf(r).id))
  }

  lemma MarkedMore(batch: seq<Event>, n: nat, accepts: nat -> bool, marks: nat -> bool, id: string)
    requires 0 < n <= |batch|
    ensures SomeMarked(batch, n, accepts, marks, id) <==>
            || SomeMarked(batch, n - 1, accepts, marks, id)
            || (accepts(n - 1) && marks(n - 1) && batch[n - 1].id == id)
  {
    var m: nat := n - 1;
    if i: nat :| MarkedBy(batch, i, n, accepts, marks, id) {
      assert i < m ==> MarkedBy(batch, i, m, accepts, marks, id);
    }
    if i: nat :| MarkedBy(batch, i, m, accepts, marks, id) {
      assert MarkedBy(batch, i, n, accepts, marks, id);
    }
    if accepts(n - 1) && marks(n - 1) && batch[n - 1].id == id {
      assert MarkedBy(batch, n - 1, n, accepts, marks, id);
    }
  }

  lemma RowSkipped(r: Row, r1: Row, batch: seq<Event>, n: nat, accepts: nat -> bool, marks: nat -> bool)
    requires 0 < n <= |batch| && RowAfter(r, r1, batch, n - 1, accepts, marks) && !(accepts(n - 1) && marks(n - 1))
    ensures RowAfter(r, r1, batch, n, accepts, marks)
  {
    MarkedMore(batch, n, accepts, marks, EventOf(r).id);
  }

  lemma RowMarked(r: Row, r1: Row, r2: Row, batch: seq<Event>, n: nat,
                  accepts: nat -> bool, marks: nat -> bool, now: MockDb.Value)
    requires 0 < n <= |batch| && RowAfter(r, r1, batch, n - 1, accepts, marks) && accepts(n - 1) && marks(n - 1)
    requires r2 == if EqualVal(Col(r1, "id"), Text(batch[n - 1].id))
                   then Assign(r1, [Pair("status", PUBLISHED), Pair("published_at", now)]) else r1
    ensures Formed(r2) && RowAfter(r, r2, batch, n, accepts, marks)
  {
    MarkedRow(r1, now);
    var id := EventOf(r).id;
    MarkedMore(batch, n, accepts, marks, id);
    assert |"pending"| == 7 && |"published"| == 9;
  }

  /** Every event of a batch is tried once whatever happens to the others: the broker gets exactly those
      it accepts, in order, and a row is published afterwards exactly if it was or if an event with
      its id was accepted and marked. */
  lemma {:induction false} BatchOutcome(t: Tables, broker: seq<Event>, batch: seq<Event>, n: nat,
                                        accepts: nat -> bool, marks: nat -> bool, now: nat -> MockDb.Value)
    requires HasTables(t) && AllFormed(t["outbox_events"]) && n <= |batch|
    ensures
      var (t', b) := AfterEvents(t, broker, batch, n, accepts, marks, now);
      && HasTables(t') && b == broker + AcceptedOf(batch, n, accepts) && |t'["outbox_events"]| == |t["outbox_events"]|
      && AllFormed(t'["outbox_events"])
      && forall j :: 0 <= j < |t["outbox_events"]| ==>
           RowAfter(t["outbox_events"][j], t'["outbox_events"][j], batch, n, accepts, marks)
  {
    var o := t["outbox_events"];
    if n == 0 {
      forall j | 0 <= j < |o| ensures RowAfter(o[j], o[j], batch, 0, accepts, marks) {
        assert Formed(o[j]);
      }
    } else {
      BatchOutcome(t, broker, batch, n - 1, accepts, marks, now);
      var (t1, b1) := AfterEvents(t, broker, batch, n - 1, accepts, marks, now);
      var o1 := t1["outbox_events"];
      MarkTable(t1, batch[n - 1].id, now(n - 1));
      if accepts(n - 1) && marks(n - 1) {
        var o2 := Marked(o1, batch[n - 1].id, now(n - 1));
        forall j | 0 <= j < |o| ensures Formed(o2[j]) && RowAfter(o[j], o2[j], batch, n, accepts, marks) {
          RowMarked(o[j], o1[j], o2[j], batch, n, accepts, marks, now(n - 1));
        }
      } else {
        forall j | 0 <= j < |o| ensures RowAfter(o[j], o1[j], batch, n, accepts, marks) {
          RowSkipped(o[j], o1[j], batch, n, accepts, marks);
        }
      }
    }
  }

  /** The number reported is that of events both accepted and marked. */
  lemma {:induction false} DispatchedCounts(n: nat, accepts: nat -> bool, marks: nat -> bool)
    ensures Dispatched(n, accepts, marks) == |set i: nat | i < n && accepts(i) && marks(i)|
  {
    if n == 0 {
      assert (set i: nat | i < 0 && accepts(i) && marks(i)) == {};
    } else {
      DispatchedCounts(n - 1, accepts, marks);
      var before := set i: nat | i < n - 1 && accepts(i) && marks(i);
      assert (set i: nat | i < n && accepts(i) && marks(i)) ==
             before + if accepts(n - 1) && marks(n - 1) then {n - 1} else {};
    }
  }

  /** Payments and deliveries change the tables as their transactions do, a delivery that fails changes
      nothing, and neither touches the broker or a dispatcher. */
  lemma ClientStepMeans(s: State, a: Action)
    requires a.Pay? || a.Handle?
    ensures
      var s' := Step(s, a);
      && s'.broker == s.broker && s'.dispatchers == s.dispatchers
      && s'.tables == if a.Pay? then PayTx(s.tables, a.inv, a.nano, a.payload, a.now).0
                      else if a.ok && a.delivery < |s.broker|
                      then HandleTx(s.tables, a.consumer, s.broker[a.delivery], a.now).0
                      else s.tables
  {
  }

  /** A dispatcher does not fetch during a batch, send an event twice, or mark one it has not sent. */
  lemma DispatcherWaits(s: State, d: nat, ok: bool, now: MockDb.Value)
    requires d < |s.dispatchers|
    ensures
      var k := s.dispatchers[d];
      && (k.Busy? ==> Step(s, Fetch(d)) == s)
      && (k.Idle? ==> Step(s, Send(d, ok)) == s && Step(s, Mark(d, ok, now)) == s)
      && (k.Busy? && k.next < |k.batch| ==>
            if k.sent then Step(s, Send(d, ok)) == s else Step(s, Mark(d, ok, now)) == s)
  {
  }

  /** A batch that is done leaves its dispatcher idle, and so does a crash, with nothing else changed. */
  lemma DispatcherStops(s: State, d: nat, ok: bool)
    requires d < |s.dispatchers|
    ensures Step(s, Crash(d)) == s.(dispatchers := s.dispatchers[d := Idle])
    ensures s.dispatchers[d].Busy? && s.dispatchers[d].next >= |s.dispatchers[d].batch| ==>
              Step(s, Send(d, ok)) == s.(dispatchers := s.dispatchers[d := Idle])
  {
  }
}
