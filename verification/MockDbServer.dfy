/** The engine of labs/03-database-transaction/mockdb/mockdb.go with any number of open connections
    on it, row objects and all. */
module MockDbServer {
  import opened Wrappers
  import opened MockDb
  import opened MockDbConnections
  import opened MockDbHeap

  /** An action that is refused or has to wait. */
  predicate Stutters(s: State, a: Action) {
    || a.c >= |s.conns|
    || (var k := s.conns[a.c];
        match a
        case Begin(_) => k.InTx? || s.held
        case Statement(_, _) => k.Closed? && s.held
        case _ => k.Closed?)
  }

  lemma StutterStep(s: State, a: Action)
    requires Stutters(s, a)
    ensures Step(s, a) == s
  {
  }

  lemma OpenStep(s: State, i: nat)
    requires i < |s.conns| && s.conns[i].Closed? && !s.held
    ensures Step(s, MockDbConnections.Begin(i)) == s.(held := true, conns := s.conns[i := InTx(s.committed, [], [])])
  {
  }

  /** An open transaction after one more statement. */
  function Spoken(k: Conn, q: Stmt): Conn
    requires k.InTx?
  {
    InTx(Run(k.work, q).0, k.script + [q], k.replies + [Run(k.work, q).1])
  }

  lemma SpeakStep(s: State, i: nat, q: Stmt)
    requires i < |s.conns| && s.conns[i].InTx?
    ensures
      var k := s.conns[i];
      Step(s, Statement(i, q)) == s.(conns := s.conns[i := Spoken(k, q)])
  {
  }

  lemma SpeakAloneStep(s: State, i: nat, q: Stmt)
    requires i < |s.conns| && s.conns[i].Closed? && !s.held
    ensures Step(s, Statement(i, q)) ==
            s.(committed := Run(s.committed, q).0, log := s.log + [Unit(i, [q], [Run(s.committed, q).1], true)])
  {
  }

  lemma CloseStep(s: State, i: nat, keep: bool)
    requires i < |s.conns| && s.conns[i].InTx? && s.conns[i].work.Keys == s.committed.Keys
    ensures
      var k := s.conns[i];
      Step(s, if keep then MockDbConnections.Commit(i) else MockDbConnections.Rollback(i)) ==
      s.(committed := if keep then k.work else s.committed, held := false, conns := s.conns[i := Closed],
         log := s.log + [Unit(i, k.script, k.replies, keep)])
  {
    assert s.committed + s.conns[i].work == s.conns[i].work;
  }

  class Server {
    const db: Engine
    const conns: seq<Connection>
    /** Every row object in use, and the state of the abstract machine. */
    ghost var rows: set<RowObject>
    ghost var view: State

    /** A transaction works on row objects of its own, and has reached what its statements make of
        the committed contents it began with. */
    ghost predicate OpenOk(c: Connection)
      reads this, c, db, rows
    {
      && c.tx.Tx? && db.contents.tables == c.session.begun
      && c.session.repr <= rows && c.session.repr !! db.contents.repr
      && Stores(c.tx.store, c.session.work, c.session.repr) && Follows(c.session)
    }

    /** The abstract state is what the engine and the connections hold. */
    ghost predicate Shows()
      reads this, db, conns
    {
      && view.committed == db.contents.tables && view.held == db.locked && |view.conns| == |conns|
      && forall i :: 0 <= i < |conns| ==> view.conns[i] == conns[i].Abs()
    }

    /** Different connections of one engine. */
    ghost predicate Wired()
      reads this, conns
    {
      && (forall i, j :: 0 <= i < j < |conns| ==> conns[i] != conns[j])
      && (forall i :: 0 <= i < |conns| ==> conns[i].db == db)
    }

    ghost predicate AllClosed()
      reads this, conns
    {
      forall i :: 0 <= i < |conns| ==> conns[i].tx.NoTx?
    }

    ghost predicate OnlyOpen(i: nat)
      reads this, conns
    {
      i < |conns| && forall j :: 0 <= j < |conns| && j != i ==> conns[j].tx.NoTx?
    }

    /** At most one transaction is open; it holds the mutex, and shares no row object with the
        committed tables. */
    ghost predicate Valid()
      reads this, db, conns, rows
    {
      && db.contents.repr <= rows && db.Valid() && Wired() && Shows()
      && if db.locked then exists i: nat :: OnlyOpen(i) && OpenOk(conns[i]) else AllClosed()
    }

    /** Any number of connections, none of them in a transaction yet. */
    constructor (db: Engine, conns: seq<Connection>)
      requires db.Valid() && !db.locked
      requires forall i, j :: 0 <= i < j < |conns| ==> conns[i] != conns[j]
      requires forall i :: 0 <= i < |conns| ==> conns[i].db == db && conns[i].tx.NoTx?
      ensures this.db == db && this.conns == conns && Valid()
      ensures Init(view) && view.committed == db.contents.tables
    {
      this.db, this.conns := db, conns;
      rows, view := db.contents.repr, State(db.contents.tables, false, seq(|conns|, i => Closed), []);
    }

    /** Begin on a free engine. */
    method Open(i: nat)
      requires Valid() && i < |conns| && !db.locked
      modifies this, db, conns, rows
      ensures Valid() && fresh(rows - old(rows))
      ensures view == old(view).(held := true, conns := old(view).conns[i := InTx(old(view).committed, [], [])])
    {
      var c := conns[i];
      var _ := c.Begin();
      rows := rows + c.session.repr;
      view := view.(held := true, conns := view.conns[i := c.Abs()]);
      assert OnlyOpen(i) && OpenOk(conns[i]);
    }

    /** A statement inside the open transaction. */
    method Speak(i: nat, q: Stmt) returns (reply: Reply)
      requires Valid() && i < |conns| && conns[i].tx.Tx?
      modifies this, db, conns, rows
      ensures Valid() && fresh(rows - old(rows)) && reply == Run(old(conns[i].session.work), q).1
      ensures db.committed == old(db.committed) && db.contents == old(db.contents)
      ensures
        var k := old(view).conns[i];
        k.InTx? && view == old(view).(conns := old(view).conns[i := Spoken(k, q)])
    {
      var c := conns[i];
      assert OnlyOpen(i) && OpenOk(c);
      reply := c.RunOnClone(q);
      rows := rows + c.session.repr;
      view := view.(conns := view.conns[i := c.Abs()]);
      assert OnlyOpen(i) && OpenOk(conns[i]);
    }

    /** A statement outside any transaction, on a free engine. */
    method SpeakAlone(i: nat, q: Stmt) returns (reply: Reply)
      requires Valid() && i < |conns| && !db.locked
      modifies this, db, conns, rows
      ensures Valid() && fresh(rows - old(rows)) && reply == Run(old(view).committed, q).1
      ensures view == old(view).(committed := Run(old(view).committed, q).0,
                                 log := old(view).log + [Unit(i, [q], [Run(old(view).committed, q).1], true)])
    {
      var c := conns[i];
      var done, answer := c.ExecAlone(q);
      reply := answer;
      rows := rows + db.contents.repr;
      view := view.(committed := db.contents.tables, log := view.log + [Unit(i, [q], [reply], true)]);
      assert AllClosed();
    }

    /** Ends the open transaction, keeping its work or not. */
    method Close(i: nat, keep: bool)
      requires Valid() && i < |conns| && conns[i].tx.Tx?
      modifies this, db, conns, rows
      ensures Valid() && fresh(rows - old(rows))
      ensures
        var k := old(view).conns[i];
        k.InTx? &&
        view == old(view).(committed := if keep then k.work else old(view).committed, held := false,
                           conns := old(view).conns[i := Closed],
                           log := old(view).log + [Unit(i, k.script, k.replies, keep)])
    {
      var c := conns[i];
      assert OnlyOpen(i) && OpenOk(c);
      if keep {
        var _ := c.Commit();
      } else {
        var _ := c.Rollback();
      }
      ghost var k := view.conns[i];
      view := view.(committed := db.contents.tables, held := false, conns := view.conns[i := Closed],
                    log := view.log + [Unit(i, k.script, k.replies, keep)]);
      assert AllClosed();
    }

    predicate Refuses(a: Action)
      reads this, db, conns
      requires a.c < |conns|
    {
      var open := conns[a.c].tx.Tx?;
      match a
      case Begin(_) => open || db.locked
      case Statement(_, _) => !open && db.locked
      case _ => !open
    }

    /** A statement that would block leaves everything as it was: the connection that has the mutex
        keeps its transaction, and that its row objects. */
    method Wait(i: nat, q: Stmt)
      requires Valid() && i < |conns| && conns[i].tx.NoTx? && db.locked
      modifies this, db, conns, rows
      ensures Valid() && view == old(view) && rows == old(rows)
    {
      ghost var open: nat :| OnlyOpen(open) && OpenOk(conns[open]);
      var _, _ := conns[i].ExecAlone(q);
      assert OnlyOpen(open) && OpenOk(conns[open]);
    }

    /** So does a call that is refused. */
    method Refuse(a: Action) returns (r: Outcome)
      requires Valid() && a.c < |conns| && Refuses(a) && !a.Statement?
      modifies this, db, conns, rows
      ensures Valid() && view == old(view) && rows == old(rows) && !r.Done?
    {
      var c := conns[a.c];
      match a {
        case Begin(_) => r := c.Begin();
        case Commit(_) => r := c.Commit();
        case Rollback(_) => r := c.Rollback();
      }
      if db.locked {
        ghost var open: nat :| old(OnlyOpen(open) && OpenOk(conns[open]));
        assert OnlyOpen(open) && OpenOk(conns[open]);
      }
    }

    lemma WorkKeys(i: nat)
      requires Valid() && i < |conns| && conns[i].tx.Tx?
      ensures view.conns[i].InTx? && view.conns[i].work.Keys == view.committed.Keys
    {
      assert view.conns[i] == conns[i].Abs();
      assert OpenOk(conns[i]);
      RunAllKeepsTables(conns[i].session.begun, conns[i].session.script);
    }

    /** A statement that does not have to wait. */
    method DoStatement(i: nat, q: Stmt) returns (reply: Reply)
      requires Valid() && i < |conns| && !Refuses(Statement(i, q))
      modifies this, db, conns, rows
      ensures Valid() && fresh(rows - old(rows)) && view == Step(old(view), Statement(i, q))
      ensures Some(reply) == Answer(old(view), Statement(i, q))
    {
      assert view.conns[i] == conns[i].Abs();
      if conns[i].tx.Tx? {
        SpeakStep(view, i, q);
        reply := Speak(i, q);
      } else {
        SpeakAloneStep(view, i, q);
        reply := SpeakAlone(i, q);
      }
    }

    /** Every call on every connection is one step of the machine at that connection's index, and
        returns what the machine answers. */
    method Do(a: Action) returns (r: Outcome, reply: Option<Reply>)
      requires Valid()
      modifies this, db, conns, rows
      ensures Valid() && fresh(rows - old(rows)) && view == Step(old(view), a) && reply == Answer(old(view), a)
    {
      r, reply := Done, None;
      if a.c >= |conns| {
        StutterStep(view, a);
        return;
      }
      assert view.conns[a.c] == conns[a.c].Abs();
      if Refuses(a) {
        StutterStep(view, a);
        if a.Statement? {
          Wait(a.c, a.q);
          r := Waits;
        } else {
          r := Refuse(a);
        }
        return;
      }
      match a {
        case Begin(i) =>
          OpenStep(view, i);
          Open(i);
        case Statement(i, q) =>
          var answer := DoStatement(i, q);
          reply := Some(answer);
        case Commit(i) =>
          WorkKeys(i);
          CloseStep(view, i, true);
          Close(i, true);
        case Rollback(i) =>
          WorkKeys(i);
          CloseStep(view, i, false);
          Close(i, false);
      }
    }

    /** Any calls on any connections of a fresh server: the engine's row objects end up holding what
        the finished transactions, run one at a time, leave, and every reply returned is that of the
        serial run. */
    method DoAll(run: seq<Action>) returns (replies: seq<Option<Reply>>)
      requires Valid()
      modifies this, db, conns, rows
      ensures Valid() && view == Exec(old(view), run) && Answers(old(view), run, replies)
      ensures Init(old(view)) ==> Serial(old(view).committed, view) && OneOpen(view)
      ensures Init(old(view)) ==> forall n :: 0 <= n < |run| ==> SerialAnswer(old(view), run, n, replies[n])
    {
      replies := [];
      ghost var v := view;
      for n := 0 to |run|
        invariant Valid() && fresh(rows - old(rows)) && view == Exec(v, run[..n])
        invariant Answers(v, run[..n], replies)
      {
        AnswersNext(v, run, n, replies);
        var _, reply := Do(run[n]);
        replies := replies + [reply];
      }
      assert run[..|run|] == run;
      if Init(v) {
        EveryRunIsSerial(v, run);
        AnswersAreSerial(v, run, replies);
      }
    }
  }
}
