/** The in-memory transactional engine (labs/03-database-transaction/mockdb/mockdb.go): what its
    statements do to tables of rows.

    SQL text is replaced by a datatype of the statements the engine supports. */
module MockDb {
  import opened Printing

  /** A cell.  Floats and timestamps are carried as the text they print as. */
  datatype Value = Nil | Text(text: string) | Number(number: int)

  type Row = map<string, Value>

  type Tables = map<string, seq<Row>>

  /** A column the row does not have reads as nil. */
  function Col(r: Row, c: string): Value {
    if c in r then r[c] else Nil
  }

  function Show(v: Value): string
    requires !v.Nil?
  {
    if v.Text? then v.text else Dec(v.number)
  }

  /** `equalVal`: nil equals only nil, anything else is compared as printed. */
  predicate EqualVal(a: Value, b: Value) {
    if a.Nil? || b.Nil? then a == b else Show(a) == Show(b)
  }

  datatype Pair = Pair(col: string, val: Value)

  datatype Stmt =
    | Insert(table: string, row: Row)
    | InsertOnConflict(table: string, row: Row, keys: seq<string>)
    | Update(table: string, sets: seq<Pair>, whereCol: string, whereVal: Value)
    | Select(table: string, cols: seq<string>, conds: seq<Pair>, limit: int)
    | Count(table: string, conds: seq<Pair>)

  datatype Reply = Affected(n: nat) | Rows(rows: seq<seq<Value>>) | Counted(count: nat) | UnknownTable

  // ---------- Statements ----------

  /** Assignments in order; a later one to the same column wins. */
  function Assign(r: Row, sets: seq<Pair>): Row {
    if sets == [] then r
    else
      var p := sets[|sets| - 1];
      Assign(r, sets[..|sets| - 1])[p.col := p.val]
  }

  function Updated(rows: seq<Row>, sets: seq<Pair>, col: string, val: Value): (r: seq<Row>)
    ensures |r| == |rows|
    ensures forall i :: 0 <= i < |rows| ==>
            r[i] == if EqualVal(Col(rows[i], col), val) then Assign(rows[i], sets) else rows[i]
  {
    if rows == [] then []
    else
      var n := |rows| - 1;
      Updated(rows[..n], sets, col, val) + [if EqualVal(Col(rows[n], col), val) then Assign(rows[n], sets) else rows[n]]
  }

  function CountWhere(rows: seq<Row>, col: string, val: Value): nat {
    if rows == [] then 0
    else CountWhere(rows[..|rows| - 1], col, val) + if EqualVal(Col(rows[|rows| - 1], col), val) then 1 else 0
  }

  /** `ON CONFLICT`: all key columns equal, compared as Go values and not as printed. */
  predicate Conflicts(a: Row, b: Row, keys: seq<string>) {
    forall k :: k in keys ==> Col(a, k) == Col(b, k)
  }

  predicate HasConflict(rows: seq<Row>, row: Row, keys: seq<string>) {
    exists i :: 0 <= i < |rows| && Conflicts(rows[i], row, keys)
  }

  predicate Matches(r: Row, conds: seq<Pair>) {
    forall i :: 0 <= i < |conds| ==> EqualVal(Col(r, conds[i].col), conds[i].val)
  }

  function Filter(rows: seq<Row>, conds: seq<Pair>): seq<Row> {
    if rows == [] then []
    else Filter(rows[..|rows| - 1], conds) + if Matches(rows[|rows| - 1], conds) then [rows[|rows| - 1]] else []
  }

  function Project(r: Row, cols: seq<string>): seq<Value> {
    seq(|cols|, i requires 0 <= i < |cols| => Col(r, cols[i]))
  }

  function ProjectAll(rows: seq<Row>, cols: seq<string>): seq<seq<Value>> {
    seq(|rows|, i requires 0 <= i < |rows| => Project(rows[i], cols))
  }

  function Limited(rows: seq<Row>, limit: int): seq<Row> {
    if 0 <= limit < |rows| then rows[..limit] else rows
  }

  /** One statement against a set of tables.  Reading an unknown table finds no rows. */
  function Run(t: Tables, q: Stmt): (Tables, Reply) {
    match q
    case Insert(table, row) =>
      if table !in t then (t, UnknownTable) else (t[table := t[table] + [row]], Affected(1))
    case InsertOnConflict(table, row, keys) =>
      if table !in t then (t, UnknownTable)
      else if HasConflict(t[table], row, keys) then (t, Affected(0))
      else (t[table := t[table] + [row]], Affected(1))
    case Update(table, sets, col, val) =>
      if table !in t then (t, UnknownTable)
      else (t[table := Updated(t[table], sets, col, val)], Affected(CountWhere(t[table], col, val)))
    case Select(table, cols, conds, limit) =>
      (t, Rows(if table in t then ProjectAll(Limited(Filter(t[table], conds), limit), cols) else []))
    case Count(table, conds) => (t, Counted(if table in t then |Filter(t[table], conds)| else 0))
  }

  /** A script of statements and its replies. */
  function RunAll(t: Tables, qs: seq<Stmt>): (Tables, seq<Reply>) {
    if qs == [] then (t, [])
    else
      var (t1, rs) := RunAll(t, qs[..|qs| - 1]);
      var (t2, r) := Run(t1, qs[|qs| - 1]);
      (t2, rs + [r])
  }

  lemma {:induction false} RunAllKeepsTables(t: Tables, qs: seq<Stmt>)
    ensures RunAll(t, qs).0.Keys == t.Keys
  {
    if qs != [] {
      RunAllKeepsTables(t, qs[..|qs| - 1]);
    }
  }
}
