/** The outbox pipeline of labs/03-database-transaction/external.go on the engine of `MockDb`:
    paying an invoice stores an event in the same transaction, dispatchers publish stored events
    at least once, and consumers record each event they handle with its commission.

    Database transactions are single steps, since every run of the engine is serial.  Clocks, the
    event's payload and each injected failure are parameters of the steps. */
module OutboxPipeline {
  import opened Printing
  import opened MockDb

  datatype Event = Event(id: string, kind: string, aggregate: string, payload: string)

  const PENDING: Value := Text("pending")

  const PUBLISHED: Value := Text("published")

  const PAID: Value := Text("paid")

  // ---------- Transactions ----------

  datatype Outcome = Committed | InvoicePaid | Duplicate | Failed

  function EventId(inv: int, nano: int): string {
    "evt_" + Dec(inv) + "_" + Dec(nano)
  }

  function OutboxRow(inv: int, nano: int, payload: string, now: Value): Row {
    map["id" := Text(EventId(inv, nano)), "event_type" := Text("InvoicePaid"), "aggregate_id" := Text(Dec(inv)),
        "payload" := Text(payload), "status" := PENDING, "attempts" := Number(0), "created_at" := now,
        "published_at" := Nil]
  }

  /** `PayInvoiceWithOutbox`: every failure rolls back. */
  function PayTx(t: Tables, inv: int, nano: int, payload: string, now: Value): (Tables, Outcome) {
    var (t1, r1) := Run(t, Update("invoices", [Pair("status", PAID)], "order_id", Number(inv)));
    if r1.UnknownTable? then (t, Failed)
    else if r1 == Affected(0) then (t, InvoicePaid)
    else
      var (t2, r2) := Run(t1, Insert("outbox_events", OutboxRow(inv, nano, payload, now)));
      if r2.UnknownTable? then (t, Failed) else (t2, Committed)
  }

  function ProcessedRow(consumer: string, id: string, now: Value): Row {
    map["consumer_name" := Text(consumer), "event_id" := Text(id), "processed_at" := now]
  }

  function CommissionRow(e: Event, now: Value): Row {
    map["event_id" := Text(e.id), "invoice_id" := Text(e.aggregate), "amount" := Text("10000"), "created_at" := now]
  }

  /** `HandleEvent`: the marker and the commission, or neither. */
  function HandleTx(t: Tables, consumer: string, e: Event, now: Value): (Tables, Outcome) {
    var keys := ["consumer_name", "event_id"];
    var (t1, r1) := Run(t, InsertOnConflict("processed_events", ProcessedRow(consumer, e.id, now), keys));
    if r1.UnknownTable? then (t, Failed)
    else if r1 == Affected(0) then (t, Duplicate)
    else
      var (t2, r2) := Run(t1, Insert("commissions", CommissionRow(e, now)));
      if r2.UnknownTable? then (t, Failed) else (t2, Committed)
  }

  function MarkStmt(id: string, now: Value): Stmt {
    Update("outbox_events", [Pair("status", PUBLISHED), Pair("published_at", now)], "id", Text(id))
  }

  function MarkIn(t: Tables, id: string, now: Value): Tables {
    Run(t, MarkStmt(id, now)).0
  }

  const PENDING_QUERY: Stmt :=
    Select("outbox_events", ["id", "event_type", "aggregate_id", "payload"], [Pair("status", PENDING)], -1)

  /** Scanning into strings fails on a nil column, and the row is skipped. */
  function Scan(rows: seq<seq<Value>>): seq<Event> {
    if rows == [] then []
    else
      var v := rows[|rows| - 1];
      Scan(rows[..|rows| - 1]) +
      if |v| == 4 && !v[0].Nil? && !v[1].Nil? && !v[2].Nil? && !v[3].Nil?
      then [Event(Show(v[0]), Show(v[1]), Show(v[2]), Show(v[3]))] else []
  }

  function Fetched(t: Tables): seq<Event> {
    var r := Run(t, PENDING_QUERY).1;
    if r.Rows? then Scan(r.rows) else []
  }

  // ---------- The machine ----------

  /** A dispatcher inside `DispatchBatch`; `sent` when the broker has accepted the current event. */
  datatype Dispatcher = Idle | Busy(batch: seq<Event>, next: nat, sent: bool)

  datatype State = State(tables: Tables, broker: seq<Event>, dispatchers: seq<Dispatcher>)

  datatype Action =
    | AddInvoice(row: Row)
    | Pay(inv: int, nano: int, payload: string, now: Value)
    | Fetch(d: nat)
    | Send(d: nat, accepted: bool)
    | Mark(d: nat, ok: bool, now: Value)
    | Crash(d: nat)
    | Handle(consumer: string, delivery: nat, ok: bool, now: Value)

  function SetDispatcher(s: State, d: nat, k: Dispatcher): State
    requires d < |s.dispatchers|
  {
    s.(dispatchers := s.dispatchers[d := k])
  }

  function AfterMark(s: State, id: string, now: Value): State {
    s.(tables := MarkIn(s.tables, id, now))
  }

  function DispatcherStep(s: State, a: Action): State
    requires (a.Fetch? || a.Send? || a.Mark? || a.Crash?) && a.d < |s.dispatchers|
  {
    var k := s.dispatchers[a.d];
    if a.Crash? then SetDispatcher(s, a.d, Idle)
    else if a.Fetch? then if k.Idle? then SetDispatcher(s, a.d, Busy(Fetched(s.tables), 0, false)) else s
    else if k.Idle? then s
    else if k.next >= |k.batch| then SetDispatcher(s, a.d, Idle)
    else if a.Send? then
      if k.sent then s
      else if !a.accepted then SetDispatcher(s, a.d, k.(next := k.next + 1))
      else SetDispatcher(s, a.d, k.(sent := true)).(broker := s.broker + [k.batch[k.next]])
    else if !k.sent then s
    else
      var s1 := SetDispatcher(s, a.d, k.(next := k.next + 1, sent := false));
      if a.ok then AfterMark(s1, k.batch[k.next].id, a.now) else s1
  }

  function Step(s: State, a: Action): State {
    match a
    case AddInvoice(row) => s.(tables := Run(s.tables, Insert("invoices", row)).0)
    case Pay(inv, nano, payload, now) => s.(tables := PayTx(s.tables, inv, nano, payload, now).0)
    case Handle(consumer, i, ok, now) =>
      if i < |s.broker| && ok then s.(tables := HandleTx(s.tables, consumer, s.broker[i], now).0) else s
    case _ => if a.d < |s.dispatchers| then DispatcherStep(s, a) else s
  }

  function Exec(s: State, run: seq<Action>): State {
    if run == [] then s else Step(Exec(s, run[..|run| - 1]), run[|run| - 1])
  }

  // ---------- The four tables ----------

  datatype Db = Db(invoices: seq<Row>, outbox: seq<Row>, processed: seq<Row>, commissions: seq<Row>)

  ghost predicate HasTables(t: Tables) {
    "invoices" in t && "outbox_events" in t && "processed_events" in t && "commissions" in t
  }

  ghost function Of(t: Tables): Db
    requires HasTables(t)
  {
    Db(t["invoices"], t["outbox_events"], t["processed_events"], t["commissions"])
  }

  lemma Names()
    ensures "invoices" != "outbox_events" && "invoices" != "processed_events" && "invoices" != "commissions"
    ensures "outbox_events" != "processed_events" && "outbox_events" != "commissions" &&
            "processed_events" != "commissions"
  {
    assert |"invoices"| == 8 && |"outbox_events"| == 13 && |"processed_events"| == 16 && |"commissions"| == 11;
  }

  ghost function Paid(rows: seq<Row>, inv: int): seq<Row> {
    Updated(rows, [Pair("status", PAID)], "order_id", Number(inv))
  }

  ghost function Marked(rows: seq<Row>, id: string, now: Value): seq<Row> {
    Updated(rows, [Pair("status", PUBLISHED), Pair("published_at", now)], "id", Text(id))
  }

  /** Paying is all or nothing: both the invoice's rows and the event, or no change. */
  lemma PayIsAtomic(t: Tables, inv: int, nano: int, payload: string, now: Value)
    requires HasTables(t)
    ensures
      var (t', r) := PayTx(t, inv, nano, payload, now);
      var n := CountWhere(Of(t).invoices, "order_id", Number(inv));
      && HasTables(t')
      && r == (if n == 0 then InvoicePaid else Committed)
      && Of(t') == if n == 0 then Of(t)
                   else Of(t).(invoices := Paid(Of(t).invoices, inv),
                               outbox := Of(t).outbox + [OutboxRow(inv, nano, payload, now)])
  {
    Names();
  }

  /** Handling is all or nothing, and does something exactly when no marker is there yet. */
  lemma HandleIsAtomic(t: Tables, consumer: string, e: Event, now: Value)
    requires HasTables(t)
    ensures
      var (t', r) := HandleTx(t, consumer, e, now);
      var row := ProcessedRow(consumer, e.id, now);
      var dup := HasConflict(Of(t).processed, row, ["consumer_name", "event_id"]);
      && HasTables(t')
      && r == (if dup then Duplicate else Committed)
      && Of(t') == if dup then Of(t)
                   else Of(t).(processed := Of(t).processed + [row],
                               commissions := Of(t).commissions + [CommissionRow(e, now)])
  {
    Names();
  }

  lemma MarkTable(t: Tables, id: string, now: Value)
    requires HasTables(t)
    ensures
      var t' := MarkIn(t, id, now);
      HasTables(t') && Of(t') == Of(t).(outbox := Marked(Of(t).outbox, id, now))
  {
    Names();
  }

  lemma AddTable(t: Tables, row: Row)
    requires HasTables(t)
    ensures
      var t' := Run(t, Insert("invoices", row)).0;
      HasTables(t') && Of(t') == Of(t).(invoices := Of(t).invoices + [row])
  {
    Names();
  }

  // ---------- What every run keeps ----------

  ghost predicate Formed(r: Row) {
    && Col(r, "id").Text? && Col(r, "event_type").Text? && Col(r, "aggregate_id").Text? && Col(r, "payload").Text?
    && (Col(r, "status") == PENDING || Col(r, "status") == PUBLISHED)
  }

  ghost function EventOf(r: Row): Event
    requires Formed(r)
  {
    Event(Col(r, "id").text, Col(r, "event_type").text, Col(r, "aggregate_id").text, Col(r, "payload").text)
  }

  /** This row stores this event. */
  ghost predicate IsStored(r: Row, e: Event) {
    Formed(r) && EventOf(r) == e
  }

  ghost predicate Stored(outbox: seq<Row>, e: Event) {
    exists i :: 0 <= i < |outbox| && IsStored(outbox[i], e)
  }

  ghost predicate IsPaid(r: Row, aggregate: string) {
    EqualVal(Col(r, "order_id"), Text(aggregate)) && Col(r, "status") == PAID
  }

  /** Some invoice with this number has been paid. */
  ghost predicate PaidFor(invoices: seq<Row>, aggregate: string) {
    exists i :: 0 <= i < |invoices| && IsPaid(invoices[i], aggregate)
  }

  ghost predicate Accepted(broker: seq<Event>, id: string) {
    exists i :: 0 <= i < |broker| && broker[i].id == id
  }

  /** A stored event's invoice is paid, and one marked published was accepted by the broker. */
  ghost predicate RowOk(r: Row, invoices: seq<Row>, broker: seq<Event>) {
    && Formed(r) && PaidFor(invoices, EventOf(r).aggregate)
    && (Col(r, "status") == PUBLISHED ==> Accepted(broker, EventOf(r).id))
  }

  ghost predicate OutboxOk(db: Db, broker: seq<Event>) {
    forall i :: 0 <= i < |db.outbox| ==> RowOk(db.outbox[i], db.invoices, broker)
  }

  ghost predicate AllStored(outbox: seq<Row>, events: seq<Event>) {
    forall i :: 0 <= i < |events| ==> Stored(outbox, events[i])
  }

  ghost predicate DispatcherOk(k: Dispatcher, outbox: seq<Row>, broker: seq<Event>) {
    k.Busy? ==> AllStored(outbox, k.batch) && (k.sent ==> k.next < |k.batch| && k.batch[k.next] in broker)
  }

  ghost predicate DispatchersOk(ks: seq<Dispatcher>, outbox: seq<Row>, broker: seq<Event>) {
    forall d :: 0 <= d < |ks| ==> DispatcherOk(ks[d], outbox, broker)
  }

  ghost predicate Inv(s: State) {
    && HasTables(s.tables)
    && OutboxOk(Of(s.tables), s.broker)
    && AllStored(Of(s.tables).outbox, s.broker)
    && DispatchersOk(s.dispatchers, Of(s.tables).outbox, s.broker)
  }

  // ---------- Rows ----------

  lemma OutboxRowForm(inv: int, nano: int, payload: string, now: Value)
    ensures
      var r := OutboxRow(inv, nano, payload, now);
      IsStored(r, Event(EventId(inv, nano), "InvoicePaid", Dec(inv), payload)) && Col(r, "status") == PENDING
  {
  }

  /** Marking changes a row's status and nothing that makes up its event. */
  lemma MarkedRow(r: Row, now: Value)
    ensures
      var r' := Assign(r, [Pair("status", PUBLISHED), Pair("published_at", now)]);
      && Col(r', "status") == PUBLISHED
      && (Formed(r) ==> IsStored(r', EventOf(r)))
  {
    var sets := [Pair("status", PUBLISHED), Pair("published_at", now)];
    assert sets[..1] == [Pair("status", PUBLISHED)] && sets[..1][..0] == [];
    assert Assign(r, sets[..1]) == r["status" := PUBLISHED];
    assert Assign(r, sets) == r["status" := PUBLISHED]["published_at" := now];
    assert "status"[0] == 's' && "published_at"[0] == 'p' && "id"[0] == 'i' && "event_type"[0] == 'e';
    assert "aggregate_id"[0] == 'a' && |"payload"| == 7 && |"published_at"| == 12;
  }

  lemma PaidRow(r: Row)
    ensures
      var r' := Assign(r, [Pair("status", PAID)]);
      && Col(r', "status") == PAID && Col(r', "order_id") == Col(r, "order_id")
  {
    var sets := [Pair("status", PAID)];
    assert sets[..0] == [];
    assert Assign(r, sets) == r["status" := PAID];
    assert "status"[0] == 's' && "order_id"[0] == 'o';
  }

  // ---------- What steps only add to ----------

  ghost predicate Grows(outbox: seq<Row>, outbox': seq<Row>) {
    |outbox| <= |outbox'| && forall i, e :: 0 <= i < |outbox| && IsStored(outbox[i], e) ==> IsStored(outbox'[i], e)
  }

  ghost predicate PaidGrows(invoices: seq<Row>, invoices': seq<Row>) {
    |invoices| <= |invoices'| && forall i, g :: 0 <= i < |invoices| && IsPaid(invoices[i], g) ==>
      IsPaid(invoices'[i], g)
  }

  lemma StoredGrows(outbox: seq<Row>, outbox': seq<Row>, events: seq<Event>)
    requires Grows(outbox, outbox') && AllStored(outbox, events)
    ensures AllStored(outbox', events)
  {
    forall i | 0 <= i < |events| ensures Stored(outbox', events[i]) {
      assert Stored(outbox, events[i]);
      var j :| 0 <= j < |outbox| && IsStored(outbox[j], events[i]);
      assert IsStored(outbox'[j], events[i]);
    }
  }

  lemma AcceptedGrows(broker: seq<Event>, broker': seq<Event>, id: string)
    requires broker <= broker' && Accepted(broker, id)
    ensures Accepted(broker', id)
  {
    var i :| 0 <= i < |broker| && broker[i].id == id;
    assert broker'[i].id == id;
  }

  lemma DispatcherKept(k: Dispatcher, outbox: seq<Row>, outbox': seq<Row>, broker: seq<Event>, broker': seq<Event>)
    requires DispatcherOk(k, outbox, broker) && Grows(outbox, outbox') && broker <= broker'
    ensures DispatcherOk(k, outbox', broker')
  {
    if k.Busy? {
      StoredGrows(outbox, outbox', k.batch);
    }
  }

  lemma RowKept(r: Row, invoices: seq<Row>, invoices': seq<Row>, broker: seq<Event>, broker': seq<Event>)
    requires RowOk(r, invoices, broker) && PaidGrows(invoices, invoices') && broker <= broker'
    ensures RowOk(r, invoices', broker')
  {
    var i :| 0 <= i < |invoices| && IsPaid(invoices[i], EventOf(r).aggregate);
    assert IsPaid(invoices'[i], EventOf(r).aggregate);
    if Col(r, "status") == PUBLISHED {
      AcceptedGrows(broker, broker', EventOf(r).id);
    }
  }

  lemma MarkedGrows(outbox: seq<Row>, id: string, now: Value)
    ensures Grows(outbox, Marked(outbox, id, now))
  {
    forall i, e | 0 <= i < |outbox| && IsStored(outbox[i], e) ensures IsStored(Marked(outbox, id, now)[i], e) {
      MarkedRow(outbox[i], now);
    }
  }

  lemma PaidGrowsBy(invoices: seq<Row>, inv: int)
    ensures PaidGrows(invoices, Paid(invoices, inv))
  {
    forall i, g | 0 <= i < |invoices| && IsPaid(invoices[i], g) ensures IsPaid(Paid(invoices, inv)[i], g) {
      PaidRow(invoices[i]);
    }
  }

  lemma {:induction false} SomeMatch(rows: seq<Row>, col: string, val: Value)
    requires CountWhere(rows, col, val) > 0
    ensures exists i :: 0 <= i < |rows| && EqualVal(Col(rows[i], col), val)
  {
    var n := |rows| - 1;
    if !EqualVal(Col(rows[n], col), val) {
      SomeMatch(rows[..n], col, val);
      var i :| 0 <= i < n && EqualVal(Col(rows[..n][i], col), val);
      assert rows[i] == rows[..n][i];
    }
  }

  lemma PayingPays(invoices: seq<Row>, inv: int)
    requires CountWhere(invoices, "order_id", Number(inv)) > 0
    ensures PaidFor(Paid(invoices, inv), Dec(inv))
  {
    SomeMatch(invoices, "order_id", Number(inv));
    var i :| 0 <= i < |invoices| && EqualVal(Col(invoices[i], "order_id"), Number(inv));
    PaidRow(invoices[i]);
    assert IsPaid(Paid(invoices, inv)[i], Dec(inv));
  }

  // ---------- Steps keep the invariant ----------

  /** Steps that leave the dispatchers and the broker alone and only add to the tables. */
  lemma TablesStep(s: State, t: Tables)
    requires Inv(s) && HasTables(t)
    requires Grows(Of(s.tables).outbox, Of(t).outbox) && OutboxOk(Of(t), s.broker)
    ensures Inv(s.(tables := t))
  {
    var o, o' := Of(s.tables).outbox, Of(t).outbox;
    StoredGrows(o, o', s.broker);
    forall d | 0 <= d < |s.dispatchers| ensures DispatcherOk(s.dispatchers[d], o', s.broker) {
      DispatcherKept(s.dispatchers[d], o, o', s.broker, s.broker);
    }
  }

  lemma PayKeepsInv(s: State, inv: int, nano: int, payload: string, now: Value)
    requires Inv(s)
    ensures Inv(Step(s, Pay(inv, nano, payload, now)))
  {
    var db, t := Of(s.tables), PayTx(s.tables, inv, nano, payload, now).0;
    PayIsAtomic(s.tables, inv, nano, payload, now);
    if CountWhere(db.invoices, "order_id", Number(inv)) > 0 {
      var db' := Of(t);
      PaidGrowsBy(db.invoices, inv);
      PayingPays(db.invoices, inv);
      OutboxRowForm(inv, nano, payload, now);
      forall i | 0 <= i < |db'.outbox| ensures RowOk(db'.outbox[i], db'.invoices, s.broker) {
        if i < |db.outbox| {
          RowKept(db.outbox[i], db.invoices, db'.invoices, s.broker, s.broker);
        }
      }
      TablesStep(s, t);
    } else {
      TablesStep(s, t);
    }
  }

  lemma AddKeepsInv(s: State, row: Row)
    requires Inv(s)
    ensures Inv(Step(s, AddInvoice(row)))
  {
    var db, t := Of(s.tables), Run(s.tables, Insert("invoices", row)).0;
    AddTable(s.tables, row);
    forall i | 0 <= i < |db.outbox| ensures RowOk(db.outbox[i], Of(t).invoices, s.broker) {
      RowKept(db.outbox[i], db.invoices, Of(t).invoices, s.broker, s.broker);
    }
    TablesStep(s, t);
  }

  /** Marking an accepted event. */
  lemma MarkKeepsRows(s: State, id: string, now: Value, s': State)
    requires Inv(s) && Accepted(s.broker, id) && s' == AfterMark(s, id, now)
    ensures Inv(s')
  {
    var db, t := Of(s.tables), MarkIn(s.tables, id, now);
    MarkTable(s.tables, id, now);
    var o' := Marked(db.outbox, id, now);
    MarkedGrows(db.outbox, id, now);
    forall i | 0 <= i < |o'| ensures RowOk(o'[i], db.invoices, s.broker) {
      var r := db.outbox[i];
      assert RowOk(r, db.invoices, s.broker) && IsStored(r, EventOf(r));
      MarkedRow(r, now);
    }
    TablesStep(s, t);
  }

  lemma HandleKeepsRows(s: State, consumer: string, e: Event, now: Value)
    requires Inv(s)
    ensures Inv(s.(tables := HandleTx(s.tables, consumer, e, now).0))
  {
    HandleIsAtomic(s.tables, consumer, e, now);
    TablesStep(s, HandleTx(s.tables, consumer, e, now).0);
  }

  lemma SetKeepsInv(s: State, d: nat, k: Dispatcher)
    requires Inv(s) && d < |s.dispatchers| && DispatcherOk(k, Of(s.tables).outbox, s.broker)
    ensures Inv(SetDispatcher(s, d, k))
  {
  }

  lemma SendKeepsInv(s: State, e: Event)
    requires Inv(s) && Stored(Of(s.tables).outbox, e)
    ensures Inv(s.(broker := s.broker + [e]))
  {
    var db, b' := Of(s.tables), s.broker + [e];
    forall i | 0 <= i < |db.outbox| ensures RowOk(db.outbox[i], db.invoices, b') {
      RowKept(db.outbox[i], db.invoices, db.invoices, s.broker, b');
    }
    forall d | 0 <= d < |s.dispatchers| ensures DispatcherOk(s.dispatchers[d], db.outbox, b') {
      DispatcherKept(s.dispatchers[d], db.outbox, db.outbox, s.broker, b');
    }
  }

  // ---------- What a dispatcher fetches ----------

  lemma {:induction false} InFilter(rows: seq<Row>, conds: seq<Pair>, r: Row)
    ensures r in Filter(rows, conds) <==> r in rows && Matches(r, conds)
  {
    if rows != [] {
      var n := |rows| - 1;
      InFilter(rows[..n], conds, r);
      assert rows == rows[..n] + [rows[n]];
    }
  }

  ghost predicate AllFormed(rows: seq<Row>) {
    forall i :: 0 <= i < |rows| ==> Formed(rows[i])
  }

  const EVENT_COLS: seq<string> := ["id", "event_type", "aggregate_id", "payload"]

  /** Well-formed rows scan back to exactly the events they store. */
  lemma {:induction false} ScanRows(rows: seq<Row>)
    requires AllFormed(rows)
    ensures
      var es := Scan(ProjectAll(rows, EVENT_COLS));
      |es| == |rows| && forall i :: 0 <= i < |rows| ==> es[i] == EventOf(rows[i])
  {
    if rows != [] {
      var n := |rows| - 1;
      ScanRows(rows[..n]);
      assert ProjectAll(rows, EVENT_COLS)[..n] == ProjectAll(rows[..n], EVENT_COLS);
      var v := ProjectAll(rows, EVENT_COLS)[n];
      assert v == Project(rows[n], EVENT_COLS);
      assert Formed(rows[n]);
      assert |v| == 4 && v[0] == Col(rows[n], "id") && v[1] == Col(rows[n], "event_type");
      assert v[2] == Col(rows[n], "aggregate_id") && v[3] == Col(rows[n], "payload");
    }
  }

  ghost predicate PendingAt(outbox: seq<Row>, i: nat, e: Event) {
    i < |outbox| && IsStored(outbox[i], e) && Col(outbox[i], "status") == PENDING
  }

  lemma PendingOrPublished(v: Value)
    requires v == PENDING || v == PUBLISHED
    ensures EqualVal(v, PENDING) <==> v == PENDING
  {
    assert |"pending"| == 7 && |"published"| == 9;
  }

  /** A batch holds exactly the stored events still pending. */
  lemma FetchedPending(t: Tables, e: Event)
    requires HasTables(t) && AllFormed(Of(t).outbox)
    ensures e in Fetched(t) <==> exists i :: PendingAt(Of(t).outbox, i, e)
  {
    var outbox, conds := Of(t).outbox, [Pair("status", PENDING)];
    var rows := Filter(outbox, conds);
    assert Fetched(t) == Scan(ProjectAll(rows, EVENT_COLS));
    forall i | 0 <= i < |rows| ensures Formed(rows[i]) && rows[i] in outbox && Col(rows[i], "status") == PENDING {
      assert rows[i] in rows;
      InFilter(outbox, conds, rows[i]);
      assert EqualVal(Col(rows[i], conds[0].col), conds[0].val);
      PendingOrPublished(Col(rows[i], "status"));
    }
    ScanRows(rows);
    if e in Fetched(t) {
      var j :| 0 <= j < |rows| && EventOf(rows[j]) == e;
      var i: nat :| i < |outbox| && outbox[i] == rows[j];
      assert PendingAt(outbox, i, e);
    }
    if i: nat :| PendingAt(outbox, i, e) {
      var r := outbox[i];
      PendingOrPublished(Col(r, "status"));
      assert Matches(r, conds);
      InFilter(outbox, conds, r);
      var j :| 0 <= j < |rows| && rows[j] == r;
      assert Fetched(t)[j] == e;
    }
  }

  lemma FormedRows(s: State)
    requires Inv(s)
    ensures AllFormed(Of(s.tables).outbox)
  {
    var db := Of(s.tables);
    assert forall i :: 0 <= i < |db.outbox| ==> RowOk(db.outbox[i], db.invoices, s.broker);
  }

  lemma FetchedStored(s: State)
    requires Inv(s)
    ensures AllStored(Of(s.tables).outbox, Fetched(s.tables))
  {
    var outbox := Of(s.tables).outbox;
    FormedRows(s);
    forall e | e in Fetched(s.tables) ensures Stored(outbox, e) {
      FetchedPending(s.tables, e);
      var i: nat :| PendingAt(outbox, i, e);
      assert IsStored(outbox[i], e);
    }
  }

  // ---------- Every run ----------

  lemma SendStep(s: State, d: nat)
    requires Inv(s) && d < |s.dispatchers|
    requires var k := s.dispatchers[d]; k.Busy? && k.next < |k.batch|
    ensures
      var k := s.dispatchers[d];
      Inv(SetDispatcher(s, d, k.(sent := true)).(broker := s.broker + [k.batch[k.next]]))
  {
    var k := s.dispatchers[d];
    var e, outbox := k.batch[k.next], Of(s.tables).outbox;
    assert Stored(outbox, e) by { assert DispatcherOk(k, outbox, s.broker); }
    var s1 := s.(broker := s.broker + [e]);
    SendKeepsInv(s, e);
    assert s1.broker[|s.broker|] == e;
    SetKeepsInv(s1, d, k.(sent := true));
    assert SetDispatcher(s1, d, k.(sent := true)) == SetDispatcher(s, d, k.(sent := true)).(broker := s.broker + [e]);
  }

  /** A dispatcher about to mark an event: the broker has accepted it. */
  lemma MovePastSent(s: State, d: nat)
    requires Inv(s) && d < |s.dispatchers|
    requires var k := s.dispatchers[d]; k.Busy? && k.sent
    ensures
      var k := s.dispatchers[d];
      && k.next < |k.batch| && k.batch[k.next] in s.broker && Accepted(s.broker, k.batch[k.next].id)
      && Inv(SetDispatcher(s, d, k.(next := k.next + 1, sent := false)))
  {
    var k := s.dispatchers[d];
    assert DispatcherOk(k, Of(s.tables).outbox, s.broker);
    SetKeepsInv(s, d, k.(next := k.next + 1, sent := false));
  }

  lemma SkipStep(s: State, d: nat)
    requires Inv(s) && d < |s.dispatchers|
    requires var k := s.dispatchers[d]; k.Busy? && !k.sent
    ensures var k := s.dispatchers[d]; Inv(SetDispatcher(s, d, k.(next := k.next + 1)))
  {
    var k := s.dispatchers[d];
    assert DispatcherOk(k, Of(s.tables).outbox, s.broker);
    SetKeepsInv(s, d, k.(next := k.next + 1));
  }

  lemma DispatcherKeepsInv(s: State, a: Action, s': State)
    requires Inv(s) && (a.Fetch? || a.Send? || a.Mark? || a.Crash?) && a.d < |s.dispatchers|
    requires s' == DispatcherStep(s, a)
    ensures Inv(s')
  {
    var k := s.dispatchers[a.d];
    if a.Fetch? && k.Idle? {
      FetchedStored(s);
      SetKeepsInv(s, a.d, Busy(Fetched(s.tables), 0, false));
    } else if a.Crash? || (!a.Fetch? && k.Busy? && k.next >= |k.batch|) {
      SetKeepsInv(s, a.d, Idle);
    } else if a.Send? && k.Busy? && !k.sent {
      if a.accepted {
        SendStep(s, a.d);
      } else {
        SkipStep(s, a.d);
      }
    } else if a.Mark? && k.Busy? && k.sent {
      MovePastSent(s, a.d);
      var s1 := SetDispatcher(s, a.d, k.(next := k.next + 1, sent := false));
      if a.ok {
        MarkKeepsRows(s1, k.batch[k.next].id, a.now, s');
      }
    }
  }

  lemma StepKeepsInv(s: State, a: Action)
    requires Inv(s)
    ensures Inv(Step(s, a))
  {
    match a {
      case AddInvoice(row) => AddKeepsInv(s, row);
      case Pay(inv, nano, payload, now) => PayKeepsInv(s, inv, nano, payload, now);
      case Handle(consumer, i, ok, now) =>
        if i < |s.broker| && ok {
          HandleKeepsRows(s, consumer, s.broker[i], now);
        }
      case _ =>
        if a.d < |s.dispatchers| {
          DispatcherKeepsInv(s, a, DispatcherStep(s, a));
        }
    }
  }

  /** Any invoices, and no event, marker or commission yet. */
  ghost predicate Init(s: State) {
    && HasTables(s.tables)
    && Of(s.tables).outbox == [] && Of(s.tables).processed == [] && Of(s.tables).commissions == []
    && s.broker == [] && forall d :: 0 <= d < |s.dispatchers| ==> s.dispatchers[d].Idle?
  }

  /** In every run of payments, dispatches, crashes and deliveries: a stored event's invoice is
      paid, an event marked published was accepted by the broker, and every broker event is a
      stored one. */
  lemma {:induction false} EveryRun(s0: State, run: seq<Action>)
    requires Init(s0)
    ensures Inv(Exec(s0, run))
  {
    if run != [] {
      EveryRun(s0, run[..|run| - 1]);
      StepKeepsInv(Exec(s0, run[..|run| - 1]), run[|run| - 1]);
    }
  }

  /** Every event the broker ever accepts has a committed paid invoice. */
  lemma BrokerEventsArePaid(s: State, i: nat)
    requires Inv(s) && i < |s.broker|
    ensures PaidFor(Of(s.tables).invoices, s.broker[i].aggregate)
  {
    var outbox := Of(s.tables).outbox;
    assert Stored(outbox, s.broker[i]);
    var j :| 0 <= j < |outbox| && IsStored(outbox[j], s.broker[i]);
    assert RowOk(outbox[j], Of(s.tables).invoices, s.broker);
  }
}
