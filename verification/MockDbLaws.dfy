/** What the statements of the in-memory engine come to, row by row
    (labs/03-database-transaction/mockdb/mockdb.go). */
module MockDbLaws {
  import opened Printing
  import opened MockDb

  /** Nil equals only nil, a number equals itself and its decimal text, a text equals itself. */
  lemma EqualValMeans(a: MockDb.Value, b: MockDb.Value)
    ensures EqualVal(a, b) <==>
            || (a.Nil? && b.Nil?)
            || (a.Text? && b.Text? && a.text == b.text)
            || (a.Number? && b.Number? && a.number == b.number)
            || (a.Text? && b.Number? && a.text == Dec(b.number))
            || (a.Number? && b.Text? && b.text == Dec(a.number))
  {
    if a.Number? && b.Number? && Dec(a.number) == Dec(b.number) {
      DecInjective(a.number, b.number);
    }
  }

  /** The row meets every condition. */
  ghost predicate Meets(r: Row, conds: seq<Pair>) {
    forall k :: 0 <= k < |conds| ==> EqualVal(if conds[k].col in r then r[conds[k].col] else Nil, conds[k].val)
  }

  /** A column that is not assigned to stays as it is ... */
  lemma {:induction false} AssignKeeps(r: Row, sets: seq<Pair>, c: string)
    requires forall k :: 0 <= k < |sets| ==> sets[k].col != c
    ensures (c in Assign(r, sets) <==> c in r) && (c in r ==> Assign(r, sets)[c] == r[c])
  {
    if sets != [] {
      AssignKeeps(r, sets[..|sets| - 1], c);
    }
  }

  /** ... and the last assignment to a column decides it. */
  lemma {:induction false} AssignDecides(r: Row, sets: seq<Pair>, k: nat)
    requires k < |sets| && forall m :: k < m < |sets| ==> sets[m].col != sets[k].col
    ensures sets[k].col in Assign(r, sets) && Assign(r, sets)[sets[k].col] == sets[k].val
  {
    var n := |sets| - 1;
    if k < n {
      assert sets[..n][k] == sets[k] && forall m :: k < m < n ==> sets[..n][m] == sets[m];
      AssignDecides(r, sets[..n], k);
    }
  }

  ghost predicate Others(t: Tables, t': Tables, table: string) {
    forall a :: a in t && a in t' && a != table ==> t'[a] == t[a]
  }

  /** An insert adds its row at the end of its table and touches no other; an unknown table is an
      error that changes nothing. */
  lemma InsertMeans(t: Tables, table: string, row: Row)
    ensures
      var (t', r) := Run(t, Insert(table, row));
      if table !in t then t' == t && r == UnknownTable
      else r == Affected(1) && t'.Keys == t.Keys && t'[table] == t[table] + [row] && Others(t, t', table)
  {
  }

  ghost predicate SameKeys(a: Row, b: Row, keys: seq<string>) {
    forall k :: 0 <= k < |keys| ==>
      (if keys[k] in a then a[keys[k]] else Nil) == (if keys[k] in b then b[keys[k]] else Nil)
  }

  lemma SameKeysIsConflict(a: Row, b: Row, keys: seq<string>)
    ensures SameKeys(a, b, keys) <==> Conflicts(a, b, keys)
  {
    if Conflicts(a, b, keys) {
      forall k | 0 <= k < |keys|
        ensures (if keys[k] in a then a[keys[k]] else Nil) == (if keys[k] in b then b[keys[k]] else Nil)
      {
        assert Col(a, keys[k]) == Col(b, keys[k]);
      }
    }
    if SameKeys(a, b, keys) {
      forall c | c in keys ensures Col(a, c) == Col(b, c) {
        var k :| 0 <= k < |keys| && keys[k] == c;
      }
    }
  }

  /** With a conflict clause the row is left out exactly when some row has all its key columns. */
  lemma InsertOnConflictMeans(t: Tables, table: string, row: Row, keys: seq<string>)
    ensures
      var (t', r) := Run(t, InsertOnConflict(table, row, keys));
      if table !in t then t' == t && r == UnknownTable
      else if exists i :: 0 <= i < |t[table]| && SameKeys(t[table][i], row, keys) then t' == t && r == Affected(0)
      else r == Affected(1) && t'.Keys == t.Keys && t'[table] == t[table] + [row] && Others(t, t', table)
  {
    if table in t {
      forall i | 0 <= i < |t[table]| ensures SameKeys(t[table][i], row, keys) <==> Conflicts(t[table][i], row, keys) {
        SameKeysIsConflict(t[table][i], row, keys);
      }
    }
  }

  // ---------- Counting and selecting ----------

  /** The places of the rows that meet the conditions, in order. */
  ghost function Places(rows: seq<Row>, conds: seq<Pair>): seq<nat> {
    if rows == [] then []
    else Places(rows[..|rows| - 1], conds) + if Meets(rows[|rows| - 1], conds) then [|rows| - 1] else []
  }

  lemma {:induction false} PlacesAre(rows: seq<Row>, conds: seq<Pair>)
    ensures
      var at := Places(rows, conds);
      && (forall i :: i in at <==> 0 <= i < |rows| && Meets(rows[i], conds))
      && (forall j, k :: 0 <= j < k < |at| ==> at[j] < at[k])
  {
    if rows != [] {
      var n := |rows| - 1;
      var front, at := rows[..n], Places(rows[..n], conds);
      PlacesAre(front, conds);
      assert forall i :: 0 <= i < n ==> front[i] == rows[i];
      assert forall k :: 0 <= k < |at| ==> at[k] in at;
    }
  }

  ghost function MeetingRows(rows: seq<Row>, conds: seq<Pair>): set<nat> {
    set i: nat | i < |rows| && Meets(rows[i], conds)
  }

  lemma {:induction false} PlacesCount(rows: seq<Row>, conds: seq<Pair>)
    ensures |Places(rows, conds)| == |MeetingRows(rows, conds)|
  {
    if rows == [] {
      assert MeetingRows(rows, conds) == {};
    } else {
      var n := |rows| - 1;
      var front := rows[..n];
      PlacesCount(front, conds);
      assert forall i :: 0 <= i < n ==> front[i] == rows[i];
      assert MeetingRows(rows, conds) == MeetingRows(front, conds) + if Meets(rows[n], conds) then {n} else {};
    }
  }

  lemma MeetsIsMatches(r: Row, conds: seq<Pair>)
    ensures Meets(r, conds) <==> Matches(r, conds)
  {
    if Matches(r, conds) {
      forall k | 0 <= k < |conds|
        ensures EqualVal(if conds[k].col in r then r[conds[k].col] else Nil, conds[k].val)
      {
        assert EqualVal(Col(r, conds[k].col), conds[k].val);
      }
    }
    if Meets(r, conds) {
      forall k | 0 <= k < |conds| ensures EqualVal(Col(r, conds[k].col), conds[k].val) {
        assert EqualVal(if conds[k].col in r then r[conds[k].col] else Nil, conds[k].val);
      }
    }
  }

  lemma {:induction false} FilterIsPlaces(rows: seq<Row>, conds: seq<Pair>)
    ensures |Filter(rows, conds)| == |Places(rows, conds)|
    ensures forall k :: 0 <= k < |Places(rows, conds)| ==>
              Places(rows, conds)[k] < |rows| && Filter(rows, conds)[k] == rows[Places(rows, conds)[k]]
  {
    if rows != [] {
      var n := |rows| - 1;
      FilterIsPlaces(rows[..n], conds);
      MeetsIsMatches(rows[n], conds);
    }
  }

  /** A count is the number of rows that meet every condition. */
  lemma CountMeans(t: Tables, table: string, conds: seq<Pair>)
    ensures
      var rows := if table in t then t[table] else [];
      Run(t, Count(table, conds)) == (t, Counted(|MeetingRows(rows, conds)|))
  {
    var rows := if table in t then t[table] else [];
    PlacesCount(rows, conds);
    FilterIsPlaces(rows, conds);
    assert table !in t ==> Filter(rows, conds) == [];
  }

  /** A select returns the wanted columns of the first rows, in table order, that meet every condition:
      all of them, or as many as the limit allows if that is not negative. */
  lemma SelectMeans(t: Tables, table: string, cols: seq<string>, conds: seq<Pair>, limit: int)
    ensures
      var rows := if table in t then t[table] else [];
      var at, r := Places(rows, conds), Run(t, Select(table, cols, conds, limit));
      && r.0 == t && r.1.Rows?
      && |r.1.rows| == (if 0 <= limit < |at| then limit else |at|)
      && forall k :: 0 <= k < |r.1.rows| ==>
           && at[k] < |rows| && |r.1.rows[k]| == |cols|
           && forall c :: 0 <= c < |cols| ==>
                r.1.rows[k][c] == if cols[c] in rows[at[k]] then rows[at[k]][cols[c]] else Nil
  {
    var rows := if table in t then t[table] else [];
    FilterIsPlaces(rows, conds);
    assert table !in t ==> Places(rows, conds) == [];
  }

  lemma {:induction false} CountWhereMeans(rows: seq<Row>, col: string, val: MockDb.Value)
    ensures CountWhere(rows, col, val) == |Places(rows, [Pair(col, val)])|
  {
    if rows != [] {
      var n, conds := |rows| - 1, [Pair(col, val)];
      CountWhereMeans(rows[..n], col, val);
      MeetsIsMatches(rows[n], conds);
      assert Matches(rows[n], conds) <==> EqualVal(Col(rows[n], conds[0].col), conds[0].val);
    }
  }

  /** An update assigns to exactly the rows that meet its condition, in place, and counts them. */
  lemma UpdateMeans(t: Tables, table: string, sets: seq<Pair>, col: string, val: MockDb.Value)
    ensures
      var (t', r) := Run(t, Update(table, sets, col, val));
      if table !in t then t' == t && r == UnknownTable
      else
        var rows, cond := t[table], [Pair(col, val)];
        && t'.Keys == t.Keys && Others(t, t', table) && |t'[table]| == |rows|
        && r == Affected(|MeetingRows(rows, cond)|)
        && forall i :: 0 <= i < |rows| ==>
             t'[table][i] == if Meets(rows[i], cond) then Assign(rows[i], sets) else rows[i]
  {
    if table in t {
      var rows, cond := t[table], [Pair(col, val)];
      CountWhereMeans(rows, col, val);
      PlacesCount(rows, cond);
      forall i | 0 <= i < |rows| ensures Meets(rows[i], cond) <==> EqualVal(Col(rows[i], col), val) {
        MeetsIsMatches(rows[i], cond);
        assert Matches(rows[i], cond) <==> EqualVal(Col(rows[i], cond[0].col), cond[0].val);
      }
    }
  }
}
