/** Delivery of outbox events (labs/03-database-transaction/external.go): no paid invoice without
    an event, no event lost by a dispatcher, one commission for each consumer that handled it. */
module OutboxDelivery {
  import opened MockDb
  import opened OutboxPipeline

  // ---------- The dispatcher's loop ----------

  class InMemoryBroker {
    var published: seq<Event>
    var calls: nat
    const failUpTo: nat

    constructor (failUpTo: nat)
      ensures published == [] && calls == 0 && this.failUpTo == failUpTo
    {
      published, calls, this.failUpTo := [], 0, failUpTo;
    }

    /** Fails for the first `failUpTo` calls. */
    method Publish(e: Event) returns (ok: bool)
      modifies this
      ensures calls == old(calls) + 1 && ok == (calls > failUpTo)
      ensures published == if ok then old(published) + [e] else old(published)
    {
      calls := calls + 1;
      if calls <= failUpTo {
        return false;
      }
      published := published + [e];
      return true;
    }
  }

  /** The tables and the broker after a dispatcher has tried the first `n` events of its batch. */
  function AfterEvents(t: Tables, broker: seq<Event>, batch: seq<Event>, n: nat,
                       accepts: nat -> bool, marks: nat -> bool, now: nat -> Value): (Tables, seq<Event>)
    requires n <= |batch|
  {
    if n == 0 then (t, broker)
    else
      var (t1, b1) := AfterEvents(t, broker, batch, n - 1, accepts, marks, now);
      var e := batch[n - 1];
      if !accepts(n - 1) then (t1, b1)
      else (if marks(n - 1) then MarkIn(t1, e.id, now(n - 1)) else t1, b1 + [e])
  }

  /** How many of the first `n` events were both accepted and marked. */
  function Dispatched(n: nat, accepts: nat -> bool, marks: nat -> bool): nat {
    if n == 0 then 0 else Dispatched(n - 1, accepts, marks) + if accepts(n - 1) && marks(n - 1) then 1 else 0
  }

  /** A broker that has `down` failures left. */
  function UpAfter(down: int): nat -> bool {
    i => i >= down
  }

  method ScanAll(rows: seq<seq<Value>>) returns (pending: seq<Event>)
    ensures pending == Scan(rows)
  {
    pending := [];
    for n := 0 to |rows|
      invariant pending == Scan(rows[..n])
    {
      assert rows[..n + 1][..n] == rows[..n];
      var v := rows[n];
      if |v| == 4 && !v[0].Nil? && !v[1].Nil? && !v[2].Nil? && !v[3].Nil? {
        pending := pending + [Event(Show(v[0]), Show(v[1]), Show(v[2]), Show(v[3]))];
      }
    }
    assert rows[..|rows|] == rows;
  }

  class OutboxDispatcher {
    var tables: Tables
    const broker: InMemoryBroker

    constructor (tables: Tables, broker: InMemoryBroker)
      ensures this.tables == tables && this.broker == broker
    {
      this.tables, this.broker := tables, broker;
    }

    /** The query and the scan of its rows. */
    method FetchPending() returns (pending: seq<Event>)
      ensures pending == Fetched(tables)
    {
      var (_, reply) := Run(tables, PENDING_QUERY);
      pending := [];
      if reply.Rows? {
        pending := ScanAll(reply.rows);
      }
    }

    /** `marks(i)` is whether the update after event `i` succeeds. */
    method DispatchBatch(marks: nat -> bool, now: nat -> Value) returns (dispatched: nat)
      modifies this, broker
      ensures
        var batch, c := Fetched(old(tables)), old(broker.calls);
        var accepts := UpAfter(broker.failUpTo - c);
        && (tables, broker.published) == AfterEvents(old(tables), old(broker.published), batch, |batch|, accepts,
          marks, now)
        && dispatched == Dispatched(|batch|, accepts, marks)
        && broker.calls == c + |batch|
    {
      dispatched := 0;
      var pending := FetchPending();
      ghost var c := broker.calls;
      ghost var accepts := UpAfter(broker.failUpTo - c);
      for n := 0 to |pending|
        invariant broker.calls == c + n
        invariant (tables, broker.published) ==
                  AfterEvents(old(tables), old(broker.published), pending, n, accepts, marks, now)
        invariant dispatched == Dispatched(n, accepts, marks)
      {
        var ok := broker.Publish(pending[n]);
        assert ok == accepts(n);
        if !ok {
          continue;
        }
        if !marks(n) {
          continue;
        }
        tables := MarkIn(tables, pending[n].id, now(n));
        dispatched := dispatched + 1;
      }
    }
  }

  /** The steps of dispatcher `d` through the first `n` events. */
  function Script(d: nat, n: nat, accepts: nat -> bool, marks: nat -> bool, now: nat -> Value): seq<Action> {
    if n == 0 then [Fetch(d)]
    else
      Script(d, n - 1, accepts, marks, now) +
      if accepts(n - 1) then [Send(d, true), Mark(d, marks(n - 1), now(n - 1))] else [Send(d, false)]
  }

  lemma ExecLast(s: State, run: seq<Action>, a: Action, s1: State)
    requires Exec(s, run) == s1
    ensures Exec(s, run + [a]) == Step(s1, a)
  {
    var all := run + [a];
    assert all != [] && all[..|all| - 1] == run && all[|all| - 1] == a;
  }

  lemma FetchIs(s: State, d: nat)
    requires d < |s.dispatchers| && s.dispatchers[d].Idle?
    ensures Step(s, Fetch(d)) == State(s.tables, s.broker, s.dispatchers[d := Busy(Fetched(s.tables), 0, false)])
  {
  }

  lemma SendIs(t: Tables, b: seq<Event>, ks: seq<Dispatcher>, d: nat, batch: seq<Event>, n: nat, ok: bool)
    requires d < |ks| && n < |batch|
    ensures
      var s := State(t, b, ks[d := Busy(batch, n, false)]);
      Step(s, Send(d, ok)) ==
      if ok then State(t, b + [batch[n]], ks[d := Busy(batch, n, true)])
        else State(t, b, ks[d := Busy(batch, n + 1, false)])
  {
  }

  lemma MarkIs(t: Tables, b: seq<Event>, ks: seq<Dispatcher>, d: nat, batch: seq<Event>, n: nat, ok: bool, now: Value)
    requires d < |ks| && n < |batch|
    ensures
      var s := State(t, b, ks[d := Busy(batch, n, true)]);
      Step(s, Mark(d, ok, now)) ==
      State(if ok then MarkIn(t, batch[n].id, now) else t, b, ks[d := Busy(batch, n + 1, false)])
  {
  }

  lemma SendMark(s: State, run: seq<Action>, t: Tables, b: seq<Event>, ks: seq<Dispatcher>, d: nat, batch: seq<Event>,
                 n: nat, ok: bool, now: Value)
    requires d < |ks| && n < |batch|
    requires Exec(s, run) == State(t, b, ks[d := Busy(batch, n, false)])
    ensures Exec(s, run + [Send(d, false)]) == State(t, b, ks[d := Busy(batch, n + 1, false)])
    ensures Exec(s, run + [Send(d, true), Mark(d, ok, now)]) ==
            State(if ok then MarkIn(t, batch[n].id, now) else t, b + [batch[n]], ks[d := Busy(batch, n + 1, false)])
  {
    SendIs(t, b, ks, d, batch, n, false);
    ExecLast(s, run, Send(d, false), Exec(s, run));
    SendIs(t, b, ks, d, batch, n, true);
    ExecLast(s, run, Send(d, true), Exec(s, run));
    MarkIs(t, b + [batch[n]], ks, d, batch, n, ok, now);
    ExecLast(s, run + [Send(d, true)], Mark(d, ok, now), Exec(s, run + [Send(d, true)]));
    assert run + [Send(d, true), Mark(d, ok, now)] == run + [Send(d, true)] + [Mark(d, ok, now)];
  }

  /** An uninterrupted batch is a run of the machine, whatever the other dispatchers are doing. */
  lemma {:induction false} ScriptRuns(s: State, d: nat, n: nat, accepts: nat -> bool, marks: nat -> bool,
                                      now: nat -> Value)
    requires d < |s.dispatchers| && s.dispatchers[d].Idle? && n <= |Fetched(s.tables)|
    ensures
      var batch := Fetched(s.tables);
      var (t, b) := AfterEvents(s.tables, s.broker, batch, n, accepts, marks, now);
      Exec(s, Script(d, n, accepts, marks, now)) == State(t, b, s.dispatchers[d := Busy(batch, n, false)])
  {
    var batch := Fetched(s.tables);
    if n == 0 {
      assert [Fetch(d)] == [] + [Fetch(d)];
      ExecLast(s, [], Fetch(d), s);
      FetchIs(s, d);
    } else {
      ScriptRuns(s, d, n - 1, accepts, marks, now);
      var (t, b) := AfterEvents(s.tables, s.broker, batch, n - 1, accepts, marks, now);
      SendMark(s, Script(d, n - 1, accepts, marks, now), t, b, s.dispatchers, d, batch, n - 1, marks(n - 1),
        now(n - 1));
    }
  }

  // ---------- A batch without failures leaves nothing pending ----------

  /** This row is published, or its event is still to come in the batch. */
  ghost predicate Left(r: Row, batch: seq<Event>, n: nat) {
    Formed(r) && (Col(r, "status") == PUBLISHED || exists m :: n <= m < |batch| && IsStored(r, batch[m]))
  }

  ghost predicate AllLeft(outbox: seq<Row>, batch: seq<Event>, n: nat) {
    forall i :: 0 <= i < |outbox| ==> Left(outbox[i], batch, n)
  }

  lemma FetchLeavesNone(s: State)
    requires Inv(s)
    ensures AllLeft(Of(s.tables).outbox, Fetched(s.tables), 0)
  {
    var outbox, batch := Of(s.tables).outbox, Fetched(s.tables);
    FormedRows(s);
    forall i: nat | i < |outbox| ensures Left(outbox[i], batch, 0) {
      var r := outbox[i];
      if Col(r, "status") == PENDING {
        FetchedPending(s.tables, EventOf(r));
        assert PendingAt(outbox, i, EventOf(r));
        var m :| 0 <= m < |batch| && batch[m] == EventOf(r);
        assert IsStored(r, batch[m]);
      }
    }
  }

  lemma MarkLeaves(outbox: seq<Row>, batch: seq<Event>, n: nat, now: Value)
    requires n < |batch| && AllLeft(outbox, batch, n)
    ensures AllLeft(Marked(outbox, batch[n].id, now), batch, n + 1)
  {
    var outbox' := Marked(outbox, batch[n].id, now);
    forall i | 0 <= i < |outbox'| ensures Left(outbox'[i], batch, n + 1) {
      var r := outbox[i];
      MarkedRow(r, now);
      assert Left(r, batch, n);
      assert IsStored(r, EventOf(r)) && IsStored(outbox'[i], EventOf(r));
      if Col(r, "status") != PUBLISHED {
        var m :| n <= m < |batch| && IsStored(r, batch[m]);
        if m > n {
          assert IsStored(outbox'[i], batch[m]);
        }
      }
    }
  }

  lemma {:induction false} CleanTries(s: State, n: nat, now: nat -> Value)
    requires Inv(s) && n <= |Fetched(s.tables)|
    ensures
      var (t, b) := AfterEvents(s.tables, s.broker, Fetched(s.tables), n, UpAfter(0), UpAfter(0), now);
      HasTables(t) && AllLeft(Of(t).outbox, Fetched(s.tables), n)
  {
    if n == 0 {
      FetchLeavesNone(s);
    } else {
      CleanTries(s, n - 1, now);
      var batch := Fetched(s.tables);
      var (t, b) := AfterEvents(s.tables, s.broker, batch, n - 1, UpAfter(0), UpAfter(0), now);
      MarkTable(t, batch[n - 1].id, now(n - 1));
      MarkLeaves(Of(t).outbox, batch, n - 1, now(n - 1));
    }
  }

  lemma {:induction false} ExecKeepsInv(s: State, run: seq<Action>)
    requires Inv(s)
    ensures Inv(Exec(s, run))
  {
    if run != [] {
      ExecKeepsInv(s, run[..|run| - 1]);
      StepKeepsInv(Exec(s, run[..|run| - 1]), run[|run| - 1]);
    }
  }

  /** The steps of a batch in which the broker accepts and the database marks everything. */
  function CleanBatch(s: State, d: nat, now: nat -> Value): seq<Action> {
    Script(d, |Fetched(s.tables)|, UpAfter(0), UpAfter(0), now)
  }

  ghost predicate Delivered(r: Row, broker: seq<Event>) {
    Formed(r) && Col(r, "status") == PUBLISHED && Accepted(broker, EventOf(r).id)
  }

  /** After a batch without failures every stored event is published, and so is with the broker. */
  lemma CleanBatchDrains(s: State, d: nat, now: nat -> Value)
    requires Inv(s) && d < |s.dispatchers| && s.dispatchers[d].Idle?
    ensures
      var s' := Exec(s, CleanBatch(s, d, now));
      Inv(s') && forall i :: 0 <= i < |Of(s'.tables).outbox| ==> Delivered(Of(s'.tables).outbox[i], s'.broker)
  {
    var n, s' := |Fetched(s.tables)|, Exec(s, CleanBatch(s, d, now));
    ScriptRuns(s, d, n, UpAfter(0), UpAfter(0), now);
    CleanTries(s, n, now);
    ExecKeepsInv(s, CleanBatch(s, d, now));
    var outbox := Of(s'.tables).outbox;
    forall i | 0 <= i < |outbox| ensures Delivered(outbox[i], s'.broker) {
      assert Left(outbox[i], Fetched(s.tables), n) && RowOk(outbox[i], Of(s'.tables).invoices, s'.broker);
    }
  }

  // ---------- No paid invoice without an event ----------

  ghost predicate EventFor(outbox: seq<Row>, invoice: Row) {
    exists i :: 0 <= i < |outbox| && Formed(outbox[i]) &&
      EqualVal(Col(invoice, "order_id"), Text(EventOf(outbox[i]).aggregate))
  }

  ghost predicate NoneLost(t: Tables) {
    HasTables(t) &&
    forall i :: 0 <= i < |Of(t).invoices| && Col(Of(t).invoices[i], "status") == PAID ==>
      EventFor(Of(t).outbox, Of(t).invoices[i])
  }

  lemma EventForGrows(outbox: seq<Row>, outbox': seq<Row>, invoice: Row, invoice': Row)
    requires Grows(outbox, outbox') && EventFor(outbox, invoice) &&
             Col(invoice', "order_id") == Col(invoice, "order_id")
    ensures EventFor(outbox', invoice')
  {
    var i :| 0 <= i < |outbox| && Formed(outbox[i]) &&
      EqualVal(Col(invoice, "order_id"), Text(EventOf(outbox[i]).aggregate));
    assert IsStored(outbox[i], EventOf(outbox[i])) && IsStored(outbox'[i], EventOf(outbox[i]));
  }

  lemma PayLosesNone(t: Tables, inv: int, nano: int, payload: string, now: Value)
    requires NoneLost(t)
    ensures NoneLost(PayTx(t, inv, nano, payload, now).0)
  {
    var db, t' := Of(t), PayTx(t, inv, nano, payload, now).0;
    PayIsAtomic(t, inv, nano, payload, now);
    if CountWhere(db.invoices, "order_id", Number(inv)) > 0 {
      var row := OutboxRow(inv, nano, payload, now);
      var outbox', invoices' := db.outbox + [row], Paid(db.invoices, inv);
      OutboxRowForm(inv, nano, payload, now);
      forall i | 0 <= i < |invoices'| && Col(invoices'[i], "status") == PAID ensures EventFor(outbox', invoices'[i]) {
        PaidRow(db.invoices[i]);
        if EqualVal(Col(db.invoices[i], "order_id"), Number(inv)) {
          assert outbox'[|db.outbox|] == row;
        } else {
          EventForGrows(db.outbox, outbox', db.invoices[i], invoices'[i]);
        }
      }
    }
  }

  lemma OthersLoseNone(t: Tables, t': Tables)
    requires NoneLost(t) && HasTables(t') && Grows(Of(t).outbox, Of(t').outbox) && |Of(t).invoices| <= |Of(t').invoices|
    requires Of(t').invoices[..|Of(t).invoices|] == Of(t).invoices
    requires forall i :: |Of(t).invoices| <= i < |Of(t').invoices| ==> Col(Of(t').invoices[i], "status") != PAID
    ensures NoneLost(t')
  {
    forall i | 0 <= i < |Of(t').invoices| && Col(Of(t').invoices[i], "status") == PAID
      ensures EventFor(Of(t').outbox, Of(t').invoices[i])
    {
      var r := Of(t').invoices[i];
      assert r == Of(t).invoices[i];
      EventForGrows(Of(t).outbox, Of(t').outbox, r, r);
    }
  }

  lemma StepLosesNone(s: State, a: Action)
    requires NoneLost(s.tables) && (a.AddInvoice? ==> Col(a.row, "status") != PAID)
    ensures NoneLost(Step(s, a).tables)
  {
    var t, t' := s.tables, Step(s, a).tables;
    if a.Pay? {
      PayLosesNone(t, a.inv, a.nano, a.payload, a.now);
    } else if a.AddInvoice? {
      AddTable(t, a.row);
      OthersLoseNone(t, t');
    } else if a.Handle? && a.ok && a.delivery < |s.broker| {
      HandleIsAtomic(t, a.consumer, s.broker[a.delivery], a.now);
      OthersLoseNone(t, t');
    } else if a.Mark? && t' != t {
      var k := s.dispatchers[a.d];
      MarkTable(t, k.batch[k.next].id, a.now);
      MarkedGrows(Of(t).outbox, k.batch[k.next].id, a.now);
      OthersLoseNone(t, t');
    }
  }

  /** Starting with unpaid invoices only, every invoice ever paid has its event stored: nothing
      is paid that consumers will not hear of. */
  lemma {:induction false} NoEventIsLost(s0: State, run: seq<Action>)
    requires Init(s0)
    requires forall i :: 0 <= i < |Of(s0.tables).invoices| ==> Col(Of(s0.tables).invoices[i], "status") != PAID
    requires forall i :: 0 <= i < |run| && run[i].AddInvoice? ==> Col(run[i].row, "status") != PAID
    ensures NoneLost(Exec(s0, run).tables)
  {
    if run != [] {
      NoEventIsLost(s0, run[..|run| - 1]);
      StepLosesNone(Exec(s0, run[..|run| - 1]), run[|run| - 1]);
    }
  }
}
