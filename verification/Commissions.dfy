/** What consumers make of redelivered events (labs/03-database-transaction/external.go): one
    marker and one commission for each consumer of an event, however often it arrives. */
module Commissions {
  import opened MockDb
  import opened OutboxPipeline
  import opened OutboxDelivery

  ghost predicate Marker(r: Row, consumer: string, id: string) {
    Col(r, "consumer_name") == Text(consumer) && Col(r, "event_id") == Text(id)
  }

  ghost predicate IsMarker(r: Row) {
    Col(r, "consumer_name").Text? && Col(r, "event_id").Text?
  }

  ghost predicate HasMarker(processed: seq<Row>, consumer: string, id: string) {
    exists i :: 0 <= i < |processed| && Marker(processed[i], consumer, id)
  }

  ghost predicate SameMarker(a: Row, b: Row) {
    Col(a, "consumer_name") == Col(b, "consumer_name") && Col(a, "event_id") == Col(b, "event_id")
  }

  /** No event is marked twice by the same consumer. */
  ghost predicate MarkedOnce(processed: seq<Row>) {
    && (forall i :: 0 <= i < |processed| ==> IsMarker(processed[i]))
    && (forall i, j :: 0 <= i < j < |processed| ==> !SameMarker(processed[i], processed[j]))
  }

  ghost function OfEvent(rows: seq<Row>, id: string): nat {
    CountWhere(rows, "event_id", Text(id))
  }

  /** A commission is for an event the broker delivered, and for that event's invoice. */
  ghost predicate Earned(r: Row, broker: seq<Event>) {
    exists i :: 0 <= i < |broker| && Col(r, "event_id") == Text(broker[i].id) &&
      Col(r, "invoice_id") == Text(broker[i].aggregate)
  }

  ghost predicate AllEarned(commissions: seq<Row>, broker: seq<Event>) {
    forall i :: 0 <= i < |commissions| ==> Earned(commissions[i], broker)
  }

  ghost predicate Balanced(db: Db) {
    forall id :: OfEvent(db.processed, id) == OfEvent(db.commissions, id)
  }

  ghost predicate ConsumersOk(s: State) {
    && HasTables(s.tables)
    && MarkedOnce(Of(s.tables).processed) && Balanced(Of(s.tables)) && AllEarned(Of(s.tables).commissions, s.broker)
  }

  lemma RowShapes(consumer: string, e: Event, now: Value)
    ensures Marker(ProcessedRow(consumer, e.id, now), consumer, e.id)
    ensures Col(CommissionRow(e, now), "event_id") == Text(e.id) &&
            Col(CommissionRow(e, now), "invoice_id") == Text(e.aggregate)
  {
  }

  lemma ConflictIsMarker(processed: seq<Row>, consumer: string, id: string, now: Value)
    ensures HasConflict(processed, ProcessedRow(consumer, id, now), ["consumer_name", "event_id"]) <==>
            HasMarker(processed, consumer, id)
  {
    var row, keys := ProcessedRow(consumer, id, now), ["consumer_name", "event_id"];
    assert Marker(row, consumer, id);
    assert keys[0] in keys && keys[1] in keys;
    forall i | 0 <= i < |processed| ensures Conflicts(processed[i], row, keys) <==> Marker(processed[i], consumer, id) {
      if Marker(processed[i], consumer, id) {
        assert forall k :: k in keys ==> k == "consumer_name" || k == "event_id";
      }
    }
  }

  lemma CountAppend(rows: seq<Row>, r: Row, id: string)
    ensures OfEvent(rows + [r], id) == OfEvent(rows, id) + if EqualVal(Col(r, "event_id"), Text(id)) then 1 else 0
  {
    assert (rows + [r])[..|rows|] == rows;
  }

  lemma HandleEffect(s: State, consumer: string, e: Event, now: Value, t: Tables)
    requires ConsumersOk(s) && e in s.broker && t == HandleTx(s.tables, consumer, e, now).0
    ensures ConsumersOk(s.(tables := t)) && HasMarker(Of(t).processed, consumer, e.id)
  {
    var db := Of(s.tables);
    HandleIsAtomic(s.tables, consumer, e, now);
    ConflictIsMarker(db.processed, consumer, e.id, now);
    RowShapes(consumer, e, now);
    if !HasMarker(db.processed, consumer, e.id) {
      var p, c := ProcessedRow(consumer, e.id, now), CommissionRow(e, now);
      assert Of(t).processed[|db.processed|] == p;
      forall id ensures OfEvent(Of(t).processed, id) == OfEvent(Of(t).commissions, id) {
        CountAppend(db.processed, p, id);
        CountAppend(db.commissions, c, id);
      }
      forall i | 0 <= i < |db.processed| ensures !SameMarker(db.processed[i], p) {
        assert !Marker(db.processed[i], consumer, e.id);
      }
      assert Earned(c, s.broker);
    }
  }

  lemma BrokerGrows(s: State, a: Action)
    ensures s.broker <= Step(s, a).broker
  {
  }

  lemma EarnedGrows(commissions: seq<Row>, broker: seq<Event>, broker': seq<Event>)
    requires AllEarned(commissions, broker) && broker <= broker'
    ensures AllEarned(commissions, broker')
  {
    forall i | 0 <= i < |commissions| ensures Earned(commissions[i], broker') {
      assert Earned(commissions[i], broker);
      var j :| 0 <= j < |broker| && Col(commissions[i], "event_id") == Text(broker[j].id) &&
        Col(commissions[i], "invoice_id") == Text(broker[j].aggregate);
      assert broker'[j] == broker[j];
    }
  }

  /** Only handling touches markers and commissions. */
  lemma OthersKeep(s: State, a: Action)
    requires HasTables(s.tables) && !a.Handle?
    ensures
      var t := Step(s, a).tables;
      HasTables(t) && Of(t).processed == Of(s.tables).processed && Of(t).commissions == Of(s.tables).commissions
  {
    var t := s.tables;
    if a.Pay? {
      PayIsAtomic(t, a.inv, a.nano, a.payload, a.now);
    } else if a.AddInvoice? {
      AddTable(t, a.row);
    } else if a.Mark? && Step(s, a).tables != t {
      var k := s.dispatchers[a.d];
      MarkTable(t, k.batch[k.next].id, a.now);
    }
  }

  lemma StepKeepsConsumers(s: State, a: Action)
    requires ConsumersOk(s)
    ensures ConsumersOk(Step(s, a))
  {
    if a.Handle? {
      if a.ok && a.delivery < |s.broker| {
        HandleEffect(s, a.consumer, s.broker[a.delivery], a.now, Step(s, a).tables);
      }
    } else {
      OthersKeep(s, a);
      BrokerGrows(s, a);
      EarnedGrows(Of(s.tables).commissions, s.broker, Step(s, a).broker);
    }
  }

  /** In every run: no marker twice, as many commissions as markers for every event, and no
      commission but for a delivered event. */
  lemma {:induction false} EveryRunCounts(s0: State, run: seq<Action>)
    requires Init(s0)
    ensures ConsumersOk(Exec(s0, run))
  {
    if run != [] {
      EveryRunCounts(s0, run[..|run| - 1]);
      StepKeepsConsumers(Exec(s0, run[..|run| - 1]), run[|run| - 1]);
    }
  }

  // ---------- One commission for each consumer ----------

  /** The consumers that have marked this event. */
  ghost function ConsumersOf(processed: seq<Row>, id: string): set<string> {
    if processed == [] then {}
    else
      var last := processed[|processed| - 1];
      ConsumersOf(processed[..|processed| - 1], id) +
      if IsMarker(last) && Col(last, "event_id") == Text(id) then {Col(last, "consumer_name").text} else {}
  }

  lemma {:induction false} InConsumers(processed: seq<Row>, id: string, c: string)
    ensures c in ConsumersOf(processed, id) <==> HasMarker(processed, c, id)
  {
    if processed != [] {
      var n := |processed| - 1;
      InConsumers(processed[..n], id, c);
      if i :| 0 <= i < |processed| && Marker(processed[i], c, id) {
        if i < n {
          assert Marker(processed[..n][i], c, id);
        }
      }
      if i :| 0 <= i < n && Marker(processed[..n][i], c, id) {
        assert Marker(processed[i], c, id);
      }
    }
  }

  lemma LastIsNew(processed: seq<Row>, c: string, id: string)
    requires MarkedOnce(processed) && processed != [] && Marker(processed[|processed| - 1], c, id)
    ensures !HasMarker(processed[..|processed| - 1], c, id)
  {
    var n := |processed| - 1;
    if i :| 0 <= i < n && Marker(processed[..n][i], c, id) {
      assert SameMarker(processed[i], processed[n]);
      assert false;
    }
  }

  lemma {:induction false} CountIsConsumers(processed: seq<Row>, id: string)
    requires MarkedOnce(processed)
    ensures OfEvent(processed, id) == |ConsumersOf(processed, id)|
  {
    if processed != [] {
      var n := |processed| - 1;
      var front, last := processed[..n], processed[n];
      CountIsConsumers(front, id);
      assert IsMarker(last);
      if Col(last, "event_id") == Text(id) {
        var c := Col(last, "consumer_name").text;
        LastIsNew(processed, c, id);
        InConsumers(front, id, c);
      }
    }
  }

  /** In every run an event has exactly one commission for each consumer that marked it. */
  lemma OneCommissionPerConsumer(s0: State, run: seq<Action>, id: string)
    requires Init(s0)
    ensures
      var s := Exec(s0, run);
      HasTables(s.tables) && OfEvent(Of(s.tables).commissions, id) == |ConsumersOf(Of(s.tables).processed, id)|
  {
    EveryRunCounts(s0, run);
    CountIsConsumers(Of(Exec(s0, run).tables).processed, id);
  }

  /** No commission without a committed paid invoice. */
  lemma CommissionsArePaidFor(s0: State, run: seq<Action>, i: nat)
    requires Init(s0)
    ensures
      var s := Exec(s0, run);
      && HasTables(s.tables)
      && (i < |Of(s.tables).commissions| ==>
            exists g :: Col(Of(s.tables).commissions[i], "invoice_id") == Text(g) && PaidFor(Of(s.tables).invoices, g))
  {
    var s := Exec(s0, run);
    EveryRun(s0, run);
    EveryRunCounts(s0, run);
    var db := Of(s.tables);
    if i < |db.commissions| {
      assert Earned(db.commissions[i], s.broker);
      var j: nat :| j < |s.broker| && Col(db.commissions[i], "event_id") == Text(s.broker[j].id)
                    && Col(db.commissions[i], "invoice_id") == Text(s.broker[j].aggregate);
      BrokerEventsArePaid(s, j);
    }
  }

  // ---------- Exactly one ----------

  ghost predicate OnlyBy(rows: seq<Row>, c: string) {
    forall i :: 0 <= i < |rows| ==> Col(rows[i], "consumer_name") == Text(c)
  }

  ghost predicate OnlyConsumer(run: seq<Action>, c: string) {
    forall i :: 0 <= i < |run| && run[i].Handle? ==> run[i].consumer == c
  }

  lemma StepOnlyBy(s: State, a: Action, c: string)
    requires HasTables(s.tables) && OnlyBy(Of(s.tables).processed, c) && (a.Handle? ==> a.consumer == c)
    ensures HasTables(Step(s, a).tables) && OnlyBy(Of(Step(s, a).tables).processed, c)
  {
    if a.Handle? {
      if a.ok && a.delivery < |s.broker| {
        HandleIsAtomic(s.tables, c, s.broker[a.delivery], a.now);
        RowShapes(c, s.broker[a.delivery], a.now);
      }
    } else {
      OthersKeep(s, a);
    }
  }

  lemma {:induction false} ExecOnlyBy(s: State, run: seq<Action>, c: string)
    requires HasTables(s.tables) && OnlyBy(Of(s.tables).processed, c) && OnlyConsumer(run, c)
    ensures HasTables(Exec(s, run).tables) && OnlyBy(Of(Exec(s, run).tables).processed, c)
  {
    if run != [] {
      ExecOnlyBy(s, run[..|run| - 1], c);
      StepOnlyBy(Exec(s, run[..|run| - 1]), run[|run| - 1], c);
    }
  }

  /** A consumer's marker, it being the only consumer, means exactly one commission. */
  lemma MarkerMeansOne(s: State, c: string, id: string)
    requires ConsumersOk(s) && OnlyBy(Of(s.tables).processed, c) && HasMarker(Of(s.tables).processed, c, id)
    ensures OfEvent(Of(s.tables).commissions, id) == 1
  {
    var rows := Of(s.tables).processed;
    CountIsConsumers(rows, id);
    var i :| 0 <= i < |rows| && Marker(rows[i], c, id);
    InConsumers(rows, id, c);
    forall d | d in ConsumersOf(rows, id) ensures d == c {
      InConsumers(rows, id, d);
    }
    assert ConsumersOf(rows, id) == {c};
  }

  /** The broker delivers its first `n` events to one consumer, which handles each. */
  function DeliverAll(c: string, n: nat, now: Value): seq<Action> {
    if n == 0 then [] else DeliverAll(c, n - 1, now) + [Handle(c, n - 1, true, now)]
  }

  ghost predicate HandledUpTo(s: State, c: string, n: nat)
    requires HasTables(s.tables) && n <= |s.broker|
  {
    forall i :: 0 <= i < n ==> HasMarker(Of(s.tables).processed, c, s.broker[i].id)
  }

  lemma HandleKeepsMarkers(t: Tables, consumer: string, e: Event, now: Value, c: string, id: string)
    requires HasTables(t) && HasMarker(Of(t).processed, c, id)
    ensures
      var t' := HandleTx(t, consumer, e, now).0;
      HasTables(t') && HasMarker(Of(t').processed, c, id)
  {
    var t' := HandleTx(t, consumer, e, now).0;
    HandleIsAtomic(t, consumer, e, now);
    var i :| 0 <= i < |Of(t).processed| && Marker(Of(t).processed[i], c, id);
    assert Of(t').processed[i] == Of(t).processed[i];
  }

  /** From `s` on, the first `n` of the broker's events have been handled and nothing else done. */
  ghost predicate Delivering(s: State, s': State, c: string, n: nat) {
    && HasTables(s.tables) && n <= |s.broker| && s'.broker == s.broker
    && ConsumersOk(s') && Of(s'.tables).outbox == Of(s.tables).outbox
    && OnlyBy(Of(s'.tables).processed, c) && HandledUpTo(s', c, n)
  }

  lemma DeliverStep(s: State, s1: State, s2: State, c: string, n: nat, now: Value)
    requires Delivering(s, s1, c, n) && n < |s.broker| && s2 == Step(s1, Handle(c, n, true, now))
    ensures Delivering(s, s2, c, n + 1)
  {
    HandleEffect(s1, c, s1.broker[n], now, s2.tables);
    HandleIsAtomic(s1.tables, c, s1.broker[n], now);
    StepOnlyBy(s1, Handle(c, n, true, now), c);
    forall i | 0 <= i < n ensures HasMarker(Of(s2.tables).processed, c, s2.broker[i].id) {
      HandleKeepsMarkers(s1.tables, c, s1.broker[n], now, c, s1.broker[i].id);
    }
  }

  lemma DeliverNone(s: State, c: string)
    requires ConsumersOk(s) && OnlyBy(Of(s.tables).processed, c)
    ensures Delivering(s, s, c, 0)
  {
  }

  lemma DeliverLast(s: State, c: string, n: nat, now: Value)
    ensures Exec(s, DeliverAll(c, n + 1, now)) == Step(Exec(s, DeliverAll(c, n, now)), Handle(c, n, true, now))
  {
    ExecLast(s, DeliverAll(c, n, now), Handle(c, n, true, now), Exec(s, DeliverAll(c, n, now)));
    assert DeliverAll(c, n + 1, now) == DeliverAll(c, n, now) + [Handle(c, n, true, now)];
  }

  lemma {:induction false} DeliverMarks(s: State, c: string, n: nat, now: Value, s': State)
    requires ConsumersOk(s) && OnlyBy(Of(s.tables).processed, c) && n <= |s.broker| &&
             s' == Exec(s, DeliverAll(c, n, now))
    ensures Delivering(s, s', c, n)
  {
    if n == 0 {
      DeliverNone(s, c);
    } else {
      var s1 := Exec(s, DeliverAll(c, n - 1, now));
      DeliverMarks(s, c, n - 1, now, s1);
      assert s' == Step(s1, Handle(c, n - 1, true, now)) by { DeliverLast(s, c, n - 1, now); }
      DeliverStep(s, s1, s', c, n - 1, now);
    }
  }

  lemma ScriptHandlesNothing(d: nat, n: nat, accepts: nat -> bool, marks: nat -> bool, now: nat -> Value, c: string)
    ensures OnlyConsumer(Script(d, n, accepts, marks, now), c)
  {
    if n > 0 {
      ScriptHandlesNothing(d, n - 1, accepts, marks, now, c);
    }
  }

  ghost predicate CommissionedOnce(db: Db, i: nat)
    requires i < |db.outbox| && Formed(db.outbox[i])
  {
    OfEvent(db.commissions, EventOf(db.outbox[i]).id) == 1
  }

  lemma {:induction false} ExecKeepsConsumers(s: State, run: seq<Action>)
    requires ConsumersOk(s)
    ensures ConsumersOk(Exec(s, run))
  {
    if run != [] {
      ExecKeepsConsumers(s, run[..|run| - 1]);
      StepKeepsConsumers(Exec(s, run[..|run| - 1]), run[|run| - 1]);
    }
  }

  lemma FinishOff(s: State, d: nat, now: nat -> Value, c: string, later: Value)
    requires Inv(s) && ConsumersOk(s) && OnlyBy(Of(s.tables).processed, c)
    requires d < |s.dispatchers| && s.dispatchers[d].Idle?
    ensures
      var s1 := Exec(s, CleanBatch(s, d, now));
      var s2 := Exec(s1, DeliverAll(c, |s1.broker|, later));
      && HasTables(s2.tables)
      && (forall i :: 0 <= i < |Of(s2.tables).outbox| ==>
        Formed(Of(s2.tables).outbox[i]) && CommissionedOnce(Of(s2.tables), i))
  {
    var s1 := Exec(s, CleanBatch(s, d, now));
    CleanBatchDrains(s, d, now);
    ExecKeepsConsumers(s, CleanBatch(s, d, now));
    ScriptHandlesNothing(d, |Fetched(s.tables)|, UpAfter(0), UpAfter(0), now, c);
    ExecOnlyBy(s, CleanBatch(s, d, now), c);
    var s2 := Exec(s1, DeliverAll(c, |s1.broker|, later));
    DeliverMarks(s1, c, |s1.broker|, later, s2);
    var outbox := Of(s2.tables).outbox;
    forall i | 0 <= i < |outbox| ensures Formed(outbox[i]) && CommissionedOnce(Of(s2.tables), i) {
      assert Delivered(Of(s1.tables).outbox[i], s1.broker);
      var id := EventOf(outbox[i]).id;
      var j :| 0 <= j < |s1.broker| && s1.broker[j].id == id;
      assert HasMarker(Of(s2.tables).processed, c, s2.broker[j].id);
      MarkerMeansOne(s2, c, id);
    }
  }

  /** After any run with a single consumer, however its dispatchers failed or crashed, one batch
      without failures and one delivery of the broker's events leave exactly one commission for
      every event ever stored. */
  lemma ExactlyOne(s0: State, run: seq<Action>, d: nat, now: nat -> Value, c: string, later: Value)
    requires Init(s0) && OnlyConsumer(run, c)
    requires d < |Exec(s0, run).dispatchers| && Exec(s0, run).dispatchers[d].Idle?
    ensures
      var s1 := Exec(Exec(s0, run), CleanBatch(Exec(s0, run), d, now));
      var s2 := Exec(s1, DeliverAll(c, |s1.broker|, later));
      && HasTables(s2.tables)
      && (forall i :: 0 <= i < |Of(s2.tables).outbox| ==>
        Formed(Of(s2.tables).outbox[i]) && CommissionedOnce(Of(s2.tables), i))
  {
    var s := Exec(s0, run);
    EveryRun(s0, run);
    EveryRunCounts(s0, run);
    ExecOnlyBy(s0, run, c);
    FinishOff(s, d, now, c, later);
  }
}
