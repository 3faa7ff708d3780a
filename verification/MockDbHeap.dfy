/** The same engine with its rows as the shared, mutable objects they are in the source
    (labs/03-database-transaction/mockdb/mockdb.go): tables list row objects, a transaction works
    on a clone of them, and a commit installs the clone's rows. */
module MockDbHeap {
  import opened MockDb
  import opened MockDbConnections

  class RowObject {
    var cells: Row

    constructor (cells: Row)
      ensures this.cells == cells
    {
      this.cells := cells;
    }
  }

  /** The tables by name; only the row objects are shared memory. */
  type Store = map<string, seq<RowObject>>

  /** The row objects, all from `repr`, hold these contents in order. */
  ghost predicate Holds(rows: seq<RowObject>, contents: seq<Row>, repr: set<RowObject>)
    reads repr
  {
    && |rows| == |contents|
    && (forall i :: 0 <= i < |rows| ==> rows[i] in repr && rows[i].cells == contents[i])
  }

  ghost predicate Distinct(rows: seq<RowObject>) {
    forall i, j :: 0 <= i < j < |rows| ==> rows[i] != rows[j]
  }

  ghost predicate Apart(rows: seq<RowObject>, others: seq<RowObject>) {
    forall r :: r in rows ==> r !in others
  }

  /** No row object sits in two places. */
  ghost predicate Separate(m: Store) {
    && (forall a :: a in m ==> Distinct(m[a]))
    && (forall a, b :: a in m && b in m && a != b ==> Apart(m[a], m[b]))
  }

  /** The store's tables have exactly these contents, in row objects from `repr` of which none
      sits in two places. */
  ghost predicate Stores(m: Store, t: Tables, repr: set<RowObject>)
    reads repr
  {
    && m.Keys == t.Keys && Separate(m)
    && (forall a :: a in m ==> Holds(m[a], t[a], repr))
  }

  // ---------- Cloning ----------

  /** `cloneTables`' inner loops: fresh copies of the rows of one table. */
  method CloneRows(rows: seq<RowObject>, ghost contents: seq<Row>, ghost repr: set<RowObject>)
    returns (out: seq<RowObject>, ghost made: set<RowObject>)
    requires Holds(rows, contents, repr)
    ensures fresh(made) && Holds(out, contents, made) && Distinct(out)
  {
    out, made := [], {};
    for n := 0 to |rows|
      invariant fresh(made) && Holds(out, contents[..n], made) && Distinct(out)
    {
      var copy := new RowObject(rows[n].cells);
      out, made := out + [copy], made + {copy};
    }
  }

  lemma HoldsMore(rows: seq<RowObject>, contents: seq<Row>, repr: set<RowObject>, more: set<RowObject>)
    requires Holds(rows, contents, repr) && repr <= more
    ensures Holds(rows, contents, more)
  {
  }

  /** Replacing or adding a table whose rows no other table has. */
  lemma PutTable(m: Store, t: Tables, repr: set<RowObject>, name: string, rows: seq<RowObject>, contents: seq<Row>,
                 more: set<RowObject>)
    requires Stores(m, t, repr) && Holds(rows, contents, more) && Distinct(rows) && repr <= more
    requires forall a :: a in m && a != name ==> Apart(m[a], rows)
    ensures Stores(m[name := rows], t[name := contents], more)
  {
    var m' := m[name := rows];
    forall a | a in m && a != name ensures Holds(m'[a], t[a], more) {
      HoldsMore(m[a], t[a], repr, more);
    }
  }

  lemma NewRowsApart(m: Store, t: Tables, repr: set<RowObject>, rows: seq<RowObject>, contents: seq<Row>,
                     made: set<RowObject>)
    requires Stores(m, t, repr) && Holds(rows, contents, made) && made !! repr
    ensures forall a :: a in m ==> Apart(m[a], rows)
  {
    forall a | a in m ensures Apart(m[a], rows) {
      assert Holds(m[a], t[a], repr);
    }
  }

  /** `cloneTables`: equal contents, and not one row shared with the original. */
  method CloneTables(m: Store, ghost t: Tables, ghost repr: set<RowObject>)
      returns (out: Store, ghost made: set<RowObject>)
    requires Stores(m, t, repr)
    ensures Stores(out, t, made) && fresh(made)
  {
    out, made := map[], {};
    var left := m.Keys;
    ghost var done: Tables := map[];
    while left != {}
      invariant left <= m.Keys && out.Keys == m.Keys - left
      invariant fresh(made) && Stores(out, done, made)
      invariant forall a :: a in done ==> done[a] == t[a]
      decreases |left|
    {
      var name :| name in left;
      assert Holds(m[name], t[name], repr);
      var rows, grown := CloneRows(m[name], t[name], repr);
      NewRowsApart(out, done, made, rows, t[name], grown);
      HoldsMore(rows, t[name], grown, made + grown);
      PutTable(out, done, made, name, rows, t[name], made + grown);
      out, done, made := out[name := rows], done[name := t[name]], made + grown;
      left := left - {name};
    }
    assert done == t;
  }

  // ---------- Statements ----------

  /** Appending a new row object to a table. */
  method Append(m: Store, ghost t: Tables, ghost repr: set<RowObject>, table: string, row: Row)
    returns (m': Store, ghost more: set<RowObject>)
    requires Stores(m, t, repr) && table in m
    ensures Stores(m', t[table := t[table] + [row]], more)
    ensures repr <= more && fresh(more - repr)
  {
    assert Holds(m[table], t[table], repr) && Distinct(m[table]);
    var o := new RowObject(row);
    more := repr + {o};
    var rows := m[table] + [o];
    NewRowsApart(m, t, repr, [o], [row], {o});
    assert Holds(rows, t[table] + [row], more) && Distinct(rows);
    forall a | a in m && a != table ensures Apart(m[a], rows) {
      assert Apart(m[a], m[table]) && Apart(m[a], [o]);
      assert o in [o];
    }
    PutTable(m, t, repr, table, rows, t[table] + [row], more);
    m' := m[table := rows];
  }

  /** The conflict scan: every key column of an existing row equals the new row's. */
  method FindConflict(rows: seq<RowObject>, ghost contents: seq<Row>, ghost repr: set<RowObject>, row: Row,
                      keys: seq<string>) returns (found: bool)
    requires Holds(rows, contents, repr)
    ensures found == HasConflict(contents, row, keys)
  {
    for n := 0 to |rows|
      invariant forall i :: 0 <= i < n ==> !Conflicts(contents[i], row, keys)
    {
      var all := true;
      for c := 0 to |keys|
        invariant all
        invariant forall i :: 0 <= i < c ==> Col(rows[n].cells, keys[i]) == Col(row, keys[i])
      {
        if Col(rows[n].cells, keys[c]) != Col(row, keys[c]) {
          all := false;
          break;
        }
      }
      if all {
        assert Conflicts(contents[n], row, keys);
        return true;
      }
    }
    return false;
  }

  lemma CountNext(rows: seq<Row>, n: nat, col: string, val: Value)
    requires n < |rows|
    ensures CountWhere(rows[..n + 1], col, val) ==
            CountWhere(rows[..n], col, val) + if EqualVal(Col(rows[n], col), val) then 1 else 0
  {
    assert rows[..n + 1][..n] == rows[..n];
  }

  lemma AssignNext(r: Row, sets: seq<Pair>, n: nat)
    requires n < |sets|
    ensures Assign(r, sets[..n + 1]) == Assign(r, sets[..n])[sets[n].col := sets[n].val]
  {
    assert sets[..n + 1][..n] == sets[..n];
  }

  /** The assignments of one matching row, in place. */
  method AssignRow(o: RowObject, sets: seq<Pair>)
    modifies o
    ensures o.cells == Assign(old(o.cells), sets)
  {
    for n := 0 to |sets|
      invariant o.cells == Assign(old(o.cells), sets[..n])
    {
      AssignNext(old(o.cells), sets, n);
      o.cells := o.cells[sets[n].col := sets[n].val];
    }
    assert sets[..|sets|] == sets;
  }

  /** `doUpdate`'s loop over the row objects of a table. */
  method UpdateRows(rows: seq<RowObject>, ghost was: seq<Row>, ghost repr: set<RowObject>, sets: seq<Pair>,
                    col: string, val: Value) returns (affected: nat)
    requires Holds(rows, was, repr) && Distinct(rows)
    modifies rows
    ensures Holds(rows, Updated(was, sets, col, val), repr)
    ensures affected == CountWhere(was, col, val)
  {
    affected := 0;
    ghost var became := Updated(was, sets, col, val);
    for n := 0 to |rows|
      invariant affected == CountWhere(was[..n], col, val)
      invariant forall i :: 0 <= i < |rows| ==> rows[i].cells == if i < n then became[i] else was[i]
    {
      CountNext(was, n, col, val);
      assert rows[n].cells == was[n];
      if EqualVal(Col(rows[n].cells, col), val) {
        AssignRow(rows[n], sets);
        affected := affected + 1;
      }
    }
    assert was[..|rows|] == was;
  }

  /** `doUpdate` touches the rows of its own table only. */
  method UpdateTable(m: Store, ghost t: Tables, ghost repr: set<RowObject>, table: string, sets: seq<Pair>,
                     col: string, val: Value)
    returns (affected: nat)
    requires Stores(m, t, repr) && table in m
    modifies m[table]
    ensures Stores(m, t[table := Updated(t[table], sets, col, val)], repr)
    ensures affected == CountWhere(t[table], col, val)
  {
    assert Holds(m[table], t[table], repr) && Distinct(m[table]);
    affected := UpdateRows(m[table], t[table], repr, sets, col, val);
    forall a | a in m && a != table ensures Holds(m[a], t[a], repr) {
      assert old(Holds(m[a], t[a], repr)) && Apart(m[a], m[table]);
      assert forall i :: 0 <= i < |m[a]| ==> m[a][i] in m[a];
    }
  }

  lemma FilterNext(rows: seq<Row>, n: nat, conds: seq<Pair>)
    requires n < |rows|
    ensures Filter(rows[..n + 1], conds) == Filter(rows[..n], conds) + if Matches(rows[n], conds) then [rows[n]] else []
  {
    assert rows[..n + 1][..n] == rows[..n];
  }

  lemma {:induction false} FilterGrows(rows: seq<Row>, n: nat, conds: seq<Pair>)
    requires n <= |rows|
    ensures Filter(rows[..n], conds) <= Filter(rows, conds)
    decreases |rows| - n
  {
    if n == |rows| {
      assert rows[..n] == rows;
    } else {
      FilterNext(rows, n, conds);
      FilterGrows(rows, n + 1, conds);
    }
  }

  /** Stopping at the limit, or at the end, has seen all that the query returns. */
  lemma Enough(rows: seq<Row>, n: nat, conds: seq<Pair>, limit: int)
    requires n <= |rows|
    requires limit >= 0 ==> |Filter(rows[..n], conds)| <= limit
    requires n == |rows| || (limit >= 0 && |Filter(rows[..n], conds)| >= limit)
    ensures Filter(rows[..n], conds) == Limited(Filter(rows, conds), limit)
  {
    FilterGrows(rows, n, conds);
    assert rows[..|rows|] == rows;
  }

  lemma ProjectNext(rows: seq<Row>, r: Row, cols: seq<string>)
    ensures ProjectAll(rows + [r], cols) == ProjectAll(rows, cols) + [Project(r, cols)]
  {
  }

  /** `doQuery`'s loop: stops as soon as the limit is reached. */
  method SelectRows(rows: seq<RowObject>, ghost contents: seq<Row>, ghost repr: set<RowObject>, cols: seq<string>,
                    conds: seq<Pair>, limit: int)
    returns (data: seq<seq<Value>>)
    requires Holds(rows, contents, repr)
    ensures data == ProjectAll(Limited(Filter(contents, conds), limit), cols)
  {
    ghost var taken: seq<Row> := [];
    data := [];
    var n := 0;
    while n < |rows| && !(limit >= 0 && |data| >= limit)
      invariant 0 <= n <= |rows|
      invariant taken == Filter(contents[..n], conds) && data == ProjectAll(taken, cols)
      invariant limit >= 0 ==> |data| <= limit
    {
      FilterNext(contents, n, conds);
      if Matches(rows[n].cells, conds) {
        ProjectNext(taken, contents[n], cols);
        data := data + [Project(rows[n].cells, cols)];
      }
      n := n + 1;
      taken := Filter(contents[..n], conds);
    }
    Enough(contents, n, conds, limit);
  }

  method CountRows(rows: seq<RowObject>, ghost contents: seq<Row>, ghost repr: set<RowObject>, conds: seq<Pair>)
      returns (count: nat)
    requires Holds(rows, contents, repr)
    ensures count == |Filter(contents, conds)|
  {
    count := 0;
    for n := 0 to |rows|
      invariant count == |Filter(contents[..n], conds)|
    {
      FilterNext(contents, n, conds);
      if Matches(rows[n].cells, conds) {
        count := count + 1;
      }
    }
    assert contents[..|rows|] == contents;
  }

  method ApplyRead(m: Store, ghost t: Tables, ghost repr: set<RowObject>, q: Stmt) returns (reply: Reply)
    requires Stores(m, t, repr) && (q.Select? || q.Count?)
    ensures (t, reply) == Run(t, q)
  {
    if q.Select? {
      var data: seq<seq<Value>> := [];
      if q.table in m {
        assert Holds(m[q.table], t[q.table], repr);
        data := SelectRows(m[q.table], t[q.table], repr, q.cols, q.conds, q.limit);
      }
      reply := Rows(data);
    } else {
      var n: nat := 0;
      if q.table in m {
        assert Holds(m[q.table], t[q.table], repr);
        n := CountRows(m[q.table], t[q.table], repr, q.conds);
      }
      reply := Counted(n);
    }
  }

  /** One statement carried out on row objects does to their contents, and answers, exactly what
      `MockDb.Run` says; rows it adds are new objects. */
  method Apply(m: Store, ghost t: Tables, ghost repr: set<RowObject>, q: Stmt)
    returns (m': Store, reply: Reply, ghost t': Tables, ghost more: set<RowObject>)
    requires Stores(m, t, repr)
    modifies repr
    ensures Stores(m', t', more) && (t', reply) == Run(t, q)
    ensures repr <= more && fresh(more - repr)
  {
    m', more, t' := m, repr, Run(t, q).0;
    if q.Select? || q.Count? {
      reply := ApplyRead(m, t, repr, q);
      return;
    }
    var table := q.table;
    if table !in m {
      reply := UnknownTable;
      return;
    }
    assert Holds(m[table], t[table], repr);
    match q {
      case Insert(_, row) =>
        m', more := Append(m, t, repr, table, row);
        reply := Affected(1);
      case InsertOnConflict(_, row, keys) =>
        var found := FindConflict(m[table], t[table], repr, row, keys);
        if !found {
          m', more := Append(m, t, repr, table, row);
        }
        reply := Affected(if found then 0 else 1);
      case Update(_, sets, col, val) =>
        var n := UpdateTable(m, t, repr, table, sets, col, val);
        reply := Affected(n);
    }
  }

  // ---------- The engine and its connections ----------

  /** What a store holds, and in which row objects. */
  datatype Contents = Contents(tables: Tables, repr: set<RowObject>)

  class Engine {
    var committed: Store
    var locked: bool
    ghost var contents: Contents

    ghost predicate Valid()
      reads this, contents.repr
    {
      Stores(committed, contents.tables, contents.repr)
    }

    constructor (names: set<string>)
      ensures Valid() && !locked && contents.tables == map a | a in names :: []
    {
      committed, locked := map a | a in names :: [], false;
      contents := Contents(map a | a in names :: [], {});
    }

    /** An autocommitted statement, with the mutex free. */
    method Exec(q: Stmt) returns (reply: Reply)
      requires Valid()
      modifies this, contents.repr
      ensures Valid() && (contents.tables, reply) == Run(old(contents.tables), q)
      ensures locked == old(locked) && fresh(contents.repr - old(contents.repr))
    {
      var store, answer, after, more := Apply(committed, contents.tables, contents.repr, q);
      committed, contents := store, Contents(after, more);
      reply := answer;
    }

    /** Commit's loop: the transaction's tables replace the committed ones, and the mutex is freed. */
    method Publish(store: Store, ghost work: Tables, ghost rows: set<RowObject>)
      requires committed.Keys <= store.Keys && Stores(store, work, rows)
      modifies this
      ensures Valid() && committed == store && contents == Contents(work, rows) && !locked
    {
      var out := committed;
      var left := store.Keys;
      while left != {}
        invariant left <= store.Keys && out.Keys <= store.Keys
        invariant forall a :: a in store && a !in left ==> a in out && out[a] == store[a]
        decreases |left|
      {
        var a :| a in left;
        out := out[a := store[a]];
        left := left - {a};
      }
      assert out == store;
      committed, locked, contents := out, false, Contents(work, rows);
    }
  }

  // The abstract steps of a lone connection.

  lemma BeginStep(t: Tables)
    ensures Step(State(t, false, [Closed], []), MockDbConnections.Begin(0)) == State(t, true, [InTx(t, [], [])], [])
  {
  }

  /** The committed contents when the transaction began, the contents and row objects of its
      store, and what its client ran and saw since. */
  datatype Session = Session(begun: Tables, work: Tables, repr: set<RowObject>, script: seq<Stmt>, replies: seq<Reply>)

  /** The session after one more statement. */
  ghost function Ran(s: Session, q: Stmt, repr: set<RowObject>): Session {
    var (t, r) := Run(s.work, q);
    Session(s.begun, t, repr, s.script + [q], s.replies + [r])
  }

  ghost function AbsOf(s: Session): Conn {
    InTx(s.work, s.script, s.replies)
  }

  lemma StatementStep(s: Session, q: Stmt, repr: set<RowObject>)
    ensures Step(State(s.begun, true, [AbsOf(s)], []), Statement(0, q)) ==
            State(s.begun, true, [AbsOf(Ran(s, q, repr))], [])
  {
  }

  lemma AloneStep(t: Tables, q: Stmt)
    ensures Step(State(t, false, [Closed], []), Statement(0, q)).(log := []) == State(Run(t, q).0, false, [Closed], [])
  {
  }

  lemma CommitStep(t: Tables, w: Tables, qs: seq<Stmt>, rs: seq<Reply>)
    ensures Step(State(t, true, [InTx(w, qs, rs)], []), MockDbConnections.Commit(0)).(log := []) ==
            State(t + w, false, [Closed], [])
  {
  }

  datatype Outcome = Done | Waits | AlreadyOpen | NotOpen

  /** A connection's `tx`: nil, or its own tables. */
  datatype Tx = NoTx | Tx(store: Store)

  ghost predicate Follows(s: Session) {
    (s.work, s.replies) == RunAll(s.begun, s.script)
  }

  lemma RanFollows(s: Session, q: Stmt, repr: set<RowObject>)
    requires Follows(s)
    ensures Follows(Ran(s, q, repr))
  {
    ExtendScript(s.begun, s.script, q);
  }

  class Connection {
    const db: Engine
    var tx: Tx
    ghost var session: Session

    /** An open transaction holds the mutex; its rows are its own, the committed contents are
        those it began with, and its contents are these with its statements applied. */
    ghost predicate Valid()
      reads this, db, db.contents.repr, session.repr
    {
      && db.Valid()
      && (tx.Tx? ==>
            && db.locked && db.contents.tables == session.begun
            && Stores(tx.store, session.work, session.repr) && session.repr !! db.contents.repr
            && Follows(session))
    }

    ghost function Abs(): Conn
      reads this
    {
      if tx.Tx? then AbsOf(session) else Closed
    }

    /** What this connection can see or change, as a state of the abstract machine. */
    ghost function Seen(): State
      reads this, db
    {
      State(db.contents.tables, db.locked, [Abs()], [])
    }

    constructor (db: Engine)
      requires db.Valid()
      ensures Valid() && tx.NoTx? && this.db == db
    {
      this.db, tx := db, NoTx;
      session := Session(map[], map[], {}, [], []);
    }

    method Begin() returns (r: Outcome)
      requires Valid()
      modifies this, db`locked
      ensures Valid() && r == (if old(tx).Tx? then AlreadyOpen else if old(db.locked) then Waits else Done)
      ensures Seen() == Step(old(Seen()), MockDbConnections.Begin(0))
      ensures r.Done? ==> fresh(session.repr) && tx.Tx? && db.locked
      ensures r.Done? ==> session.work == session.begun == old(db.contents.tables)
      ensures r.Done? ==> session.script == [] && session.replies == []
      ensures !r.Done? ==> unchanged(this) && unchanged(db)
    {
      if tx.Tx? {
        return AlreadyOpen;
      }
      if db.locked {
        return Waits;
      }
      db.locked := true;
      var clone, made := CloneTables(db.committed, db.contents.tables, db.contents.repr);
      tx := Tx(clone);
      session := Session(db.contents.tables, db.contents.tables, made, [], []);
      BeginStep(db.contents.tables);
      return Done;
    }

    method RunOnClone(q: Stmt) returns (reply: Reply)
      requires Valid() && tx.Tx?
      modifies this, session.repr
      ensures Valid() && tx.Tx? && fresh(session.repr - old(session.repr))
      ensures session == Ran(old(session), q, session.repr) && reply == Run(old(session.work), q).1
    {
      var store, answer, after, more := Apply(tx.store, session.work, session.repr, q);
      assert db.Valid() && more !! db.contents.repr;
      RanFollows(session, q, more);
      tx, session := Tx(store), Ran(session, q, more);
      reply := answer;
    }

    /** A statement inside a transaction writes to the clone only. */
    method ExecInTx(q: Stmt) returns (reply: Reply)
      requires Valid() && tx.Tx?
      modifies this, session.repr
      ensures Valid() && tx.Tx? && session.begun == old(session.begun) && fresh(session.repr - old(session.repr))
      ensures Seen() == Step(old(Seen()), Statement(0, q))
      ensures (session.work, reply) == Run(old(session.work), q)
      ensures session.script == old(session.script) + [q] && session.replies == old(session.replies) + [reply]
    {
      ghost var was := session;
      reply := RunOnClone(q);
      StatementStep(was, q, session.repr);
    }

    /** Outside a transaction a statement runs on the committed rows under the mutex. */
    method ExecAlone(q: Stmt) returns (r: Outcome, reply: Reply)
      requires Valid() && tx.NoTx?
      modifies db, db.contents.repr
      ensures Valid() && r == (if old(db.locked) then Waits else Done)
      ensures Seen() == Step(old(Seen()), Statement(0, q)).(log := [])
      ensures r.Done? ==> (db.contents.tables, reply) == Run(old(db.contents.tables), q)
      ensures r.Done? ==> !db.locked && fresh(db.contents.repr - old(db.contents.repr))
      ensures r.Waits? ==> db.contents == old(db.contents) && db.committed == old(db.committed)
    {
      if db.locked {
        return Waits, UnknownTable;
      }
      AloneStep(db.contents.tables, q);
      reply := db.Exec(q);
      r := Done;
    }

    /** `exec` and `query`: on the clone inside a transaction, on the committed rows outside. */
    method Exec(q: Stmt) returns (r: Outcome, reply: Reply)
      requires Valid()
      modifies this, session.repr, db, db.contents.repr
      ensures Valid() && r == (if old(tx).NoTx? && old(db.locked) then Waits else Done)
      ensures Seen() == Step(old(Seen()), Statement(0, q)).(log := [])
      ensures old(tx).Tx? ==> reply == Run(old(session.work), q).1
      ensures old(tx).NoTx? && r.Done? ==> reply == Run(old(db.contents.tables), q).1
      ensures r.Waits? || old(tx).Tx? ==> db.contents == old(db.contents) && db.committed == old(db.committed)
    {
      if tx.Tx? {
        reply := ExecInTx(q);
        r := Done;
      } else {
        r, reply := ExecAlone(q);
      }
    }

    /** Installs the clone's tables one by one. */
    method Commit() returns (r: Outcome)
      requires Valid()
      modifies this, db
      ensures Valid() && r == (if old(tx).Tx? then Done else NotOpen) && tx.NoTx?
      ensures Seen() == Step(old(Seen()), MockDbConnections.Commit(0)).(log := [])
      ensures r.Done? ==> db.contents.tables == old(session.work) == RunAll(old(session.begun), old(session.script)).0
      ensures r.Done? ==> db.contents.repr == old(session.repr) && !db.locked
      ensures !r.Done? ==> unchanged(this) && unchanged(db)
    {
      if tx.NoTx? {
        return NotOpen;
      }
      ghost var s := session;
      RunAllKeepsTables(s.begun, s.script);
      assert s.begun + s.work == s.work;
      CommitStep(s.begun, s.work, s.script, s.replies);
      db.Publish(tx.store, s.work, s.repr);
      tx := NoTx;
      return Done;
    }

    /** Drops the clone: the committed row objects and contents are those the transaction began with. */
    method Rollback() returns (r: Outcome)
      requires Valid()
      modifies this, db`locked
      ensures Valid() && r == (if old(tx).Tx? then Done else NotOpen) && tx.NoTx?
      ensures Seen() == Step(old(Seen()), MockDbConnections.Rollback(0)).(log := [])
      ensures r.Done? ==> db.contents.tables == old(session.begun) && !db.locked
      ensures !r.Done? ==> unchanged(this) && unchanged(db)
    {
      if tx.NoTx? {
        return NotOpen;
      }
      db.locked, tx := false, NoTx;
      return Done;
    }
  }
}
