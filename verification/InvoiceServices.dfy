/** The transactions of labs/03-database-transaction/external.go as the code runs them, statement
    by statement on one connection of the engine with its row objects.  A call that finds the mutex
    taken waits while other connections go on, and then comes out as the all-or-nothing transaction
    of `OutboxPipeline` on what they have left. */
module InvoiceServices {
  import opened MockDb
  import MockDbConnections
  import opened MockDbServer
  import opened OutboxPipeline

  /** The machine after the calls other connections made meanwhile. */
  ghost function After(v: MockDbConnections.State, meanwhile: seq<MockDbConnections.Action>,
                       n: nat): MockDbConnections.State
    requires n <= |meanwhile|
  {
    MockDbConnections.Exec(v, meanwhile[..n])
  }

  /** Calls of connections other than `i`. */
  ghost predicate ByOthers(meanwhile: seq<MockDbConnections.Action>, i: nat) {
    forall k :: 0 <= k < |meanwhile| ==> meanwhile[k].c != i
  }

  ghost predicate Ready(s: Server, i: nat)
    reads s, s.db, s.conns, s.rows
  {
    s.Valid() && i < |s.conns| && s.conns[i].tx.NoTx?
  }

  /** Inside a transaction of connection `i` that began on `begun` and has reached `work`. */
  ghost predicate Inside(s: Server, i: nat, begun: Tables, work: Tables)
    reads s, s.db, s.conns, s.rows
  {
    && s.Valid() && i < |s.conns| && s.conns[i].tx.Tx?
    && s.view.committed == begun && s.view.conns[i].InTx? && s.view.conns[i].work == work
  }

  lemma OthersLeave(v: MockDbConnections.State, a: MockDbConnections.Action, i: nat)
    requires i < |v.conns| && a.c != i
    ensures
      var v' := MockDbConnections.Step(v, a);
      |v'.conns| == |v.conns| && v'.conns[i] == v.conns[i]
  {
  }

  lemma AfterNext(v: MockDbConnections.State, meanwhile: seq<MockDbConnections.Action>, n: nat)
    requires n < |meanwhile|
    ensures After(v, meanwhile, n + 1) == MockDbConnections.Step(After(v, meanwhile, n), meanwhile[n])
  {
    assert meanwhile[..n + 1][..n] == meanwhile[..n];
  }

  /** One call of another connection. */
  method LetOther(s: Server, i: nat, a: MockDbConnections.Action)
    requires Ready(s, i) && a.c != i
    modifies s, s.db, s.conns, s.rows
    ensures Ready(s, i) && fresh(s.rows - old(s.rows)) && s.view == MockDbConnections.Step(old(s.view), a)
  {
    assert s.view.conns[i] == s.conns[i].Abs();
    OthersLeave(s.view, a, i);
    var _, _ := s.Do(a);
    assert s.view.conns[i] == s.conns[i].Abs();
  }

  /** The mutex was taken before each of the first `n` calls. */
  ghost predicate HeldUntil(v: MockDbConnections.State, meanwhile: seq<MockDbConnections.Action>, n: nat)
    requires n <= |meanwhile|
  {
    n == 0 || (HeldUntil(v, meanwhile, n - 1) && After(v, meanwhile, n - 1).held)
  }

  /** Blocks on the mutex: others' calls go on until it is free, or for as long as they last. */
  method Await(s: Server, i: nat, meanwhile: seq<MockDbConnections.Action>) returns (n: nat)
    requires Ready(s, i) && ByOthers(meanwhile, i)
    modifies s, s.db, s.conns, s.rows
    ensures Ready(s, i) && fresh(s.rows - old(s.rows)) && n <= |meanwhile| && s.view == After(old(s.view), meanwhile, n)
    ensures s.db.locked ==> n == |meanwhile|
    ensures HeldUntil(old(s.view), meanwhile, n)
  {
    n := 0;
    ghost var v := s.view;
    while n < |meanwhile| && s.db.locked
      invariant Ready(s, i) && fresh(s.rows - old(s.rows)) && n <= |meanwhile|
      invariant s.view == After(v, meanwhile, n)
      invariant HeldUntil(v, meanwhile, n)
    {
      assert s.view.held;
      AfterNext(v, meanwhile, n);
      LetOther(s, i, meanwhile[n]);
      n := n + 1;
    }
  }

  method Begin(s: Server, i: nat)
    requires Ready(s, i) && !s.db.locked
    modifies s, s.db, s.conns, s.rows
    ensures Inside(s, i, old(s.view).committed, old(s.view).committed) && fresh(s.rows - old(s.rows))
  {
    s.Open(i);
    assert s.view.conns[i] == s.conns[i].Abs();
  }

  method Say(s: Server, i: nat, q: Stmt, ghost begun: Tables, ghost work: Tables) returns (reply: Reply)
    requires Inside(s, i, begun, work)
    modifies s, s.db, s.conns, s.rows
    ensures Inside(s, i, begun, Run(work, q).0) && reply == Run(work, q).1 && fresh(s.rows - old(s.rows))
  {
    assert s.view.conns[i] == s.conns[i].Abs();
    reply := s.Speak(i, q);
    assert s.view.conns[i] == s.conns[i].Abs();
  }

  method BeginWith(s: Server, i: nat, q: Stmt) returns (reply: Reply)
    requires Ready(s, i) && !s.db.locked
    modifies s, s.db, s.conns, s.rows
    ensures
      var t := old(s.view).committed;
      Inside(s, i, t, Run(t, q).0) && reply == Run(t, q).1 && fresh(s.rows - old(s.rows))
  {
    ghost var t := s.view.committed;
    Begin(s, i);
    reply := Say(s, i, q, t, t);
  }

  /** Ends the transaction: publishes its work or goes back to where it began. */
  method End(s: Server, i: nat, commit: bool, ghost begun: Tables, ghost work: Tables)
    requires Inside(s, i, begun, work)
    modifies s, s.db, s.conns, s.rows
    ensures Ready(s, i) && s.view.committed == (if commit then work else begun) && !s.view.held
  {
    s.Close(i, commit);
    assert s.view.conns[i] == s.conns[i].Abs();
  }

  /** Both statements, or neither if the first affects no row. */
  ghost function Both(t: Tables, first: Stmt, second: Stmt, none: Outcome): (Tables, Outcome) {
    var (t1, r1) := Run(t, first);
    if r1.UnknownTable? then (t, Failed)
    else if r1 == Affected(0) then (t, none)
    else
      var (t2, r2) := Run(t1, second);
      if r2.UnknownTable? then (t, Failed) else (t2, Committed)
  }

  /** The second statement and the commit, or the rollback if it fails. */
  method Finish(s: Server, i: nat, second: Stmt, ghost begun: Tables, ghost work: Tables) returns (o: Outcome)
    requires Inside(s, i, begun, work)
    modifies s, s.db, s.conns, s.rows
    ensures Ready(s, i) && !s.view.held
    ensures (s.view.committed, o) ==
            if Run(work, second).1.UnknownTable? then (begun, Failed) else (Run(work, second).0, Committed)
  {
    var r2 := Say(s, i, second, begun, work);
    End(s, i, !r2.UnknownTable?, begun, Run(work, second).0);
    o := if r2.UnknownTable? then Failed else Committed;
  }

  /** The shape both services share: begin, a statement that must affect a row, a second one,
      commit; anything else rolls back. */
  method InOneTransaction(s: Server, i: nat, first: Stmt, second: Stmt, none: Outcome) returns (o: Outcome)
    requires Ready(s, i) && !s.db.locked
    modifies s, s.db, s.conns, s.rows
    ensures Ready(s, i) && !s.view.held
    ensures (s.view.committed, o) == Both(old(s.view).committed, first, second, none)
  {
    ghost var t := s.view.committed;
    var r1 := BeginWith(s, i, first);
    if r1.UnknownTable? || r1 == Affected(0) {
      End(s, i, false, t, Run(t, first).0);
      return if r1.UnknownTable? then Failed else none;
    }
    o := Finish(s, i, second, t, Run(t, first).0);
  }

  /** Pays on the tables as they are when the mutex is free; `done` is false only if the others
      never freed it. */
  method PayInvoiceWithOutbox(s: Server, i: nat, meanwhile: seq<MockDbConnections.Action>,
                              inv: int, nano: int, payload: string, now: Value) returns (n: nat, done: bool, o: Outcome)
    requires Ready(s, i) && ByOthers(meanwhile, i)
    modifies s, s.db, s.conns, s.rows
    ensures Ready(s, i) && n <= |meanwhile| && HeldUntil(old(s.view), meanwhile, n)
    ensures done <==> !After(old(s.view), meanwhile, n).held
    ensures !done ==> n == |meanwhile| && s.view == After(old(s.view), meanwhile, n)
    ensures done ==>
              && (s.view.committed, o) == PayTx(After(old(s.view), meanwhile, n).committed, inv, nano, payload, now)
              && !s.view.held
  {
    n := Await(s, i, meanwhile);
    if s.db.locked {
      return n, false, Failed;
    }
    done := true;
    var update := Update("invoices", [Pair("status", PAID)], "order_id", Number(inv));
    var insert := Insert("outbox_events", OutboxRow(inv, nano, payload, now));
    o := InOneTransaction(s, i, update, insert, InvoicePaid);
  }

  method HandleEvent(s: Server, i: nat, meanwhile: seq<MockDbConnections.Action>,
                     consumer: string, e: Event, now: Value) returns (n: nat, done: bool, o: Outcome)
    requires Ready(s, i) && ByOthers(meanwhile, i)
    modifies s, s.db, s.conns, s.rows
    ensures Ready(s, i) && n <= |meanwhile| && HeldUntil(old(s.view), meanwhile, n)
    ensures done <==> !After(old(s.view), meanwhile, n).held
    ensures !done ==> n == |meanwhile| && s.view == After(old(s.view), meanwhile, n)
    ensures done ==>
              && (s.view.committed, o) == HandleTx(After(old(s.view), meanwhile, n).committed, consumer, e, now)
              && !s.view.held
  {
    n := Await(s, i, meanwhile);
    if s.db.locked {
      return n, false, Failed;
    }
    done := true;
    var claim := InsertOnConflict("processed_events", ProcessedRow(consumer, e.id, now), ["consumer_name", "event_id"]);
    var insert := Insert("commissions", CommissionRow(e, now));
    o := InOneTransaction(s, i, claim, insert, Duplicate);
  }
}
