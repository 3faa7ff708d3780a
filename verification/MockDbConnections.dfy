/** Connections of the in-memory engine (labs/03-database-transaction/mockdb/mockdb.go): a
    transaction works on its own copy of the tables and holds the engine's mutex throughout. */
module MockDbConnections {
  import opened Wrappers
  import opened MockDb

  /** `work` is the copy of the tables taken at begin, `script` what ran on it since. */
  datatype Conn = Closed | InTx(work: Tables, script: seq<Stmt>, replies: seq<Reply>)

  /** A finished transaction or autocommitted statement, and what its client saw. */
  datatype Unit = Unit(conn: nat, script: seq<Stmt>, replies: seq<Reply>, kept: bool)

  /** `held` is the engine's mutex, held from begin to commit or rollback. */
  datatype State = State(committed: Tables, held: bool, conns: seq<Conn>, log: seq<Unit>)

  datatype Action = Begin(c: nat) | Statement(c: nat, q: Stmt) | Commit(c: nat) | Rollback(c: nat)

  function SetConn(s: State, c: nat, k: Conn): State
    requires c < |s.conns|
  {
    s.(conns := s.conns[c := k])
  }

  /** One action of one connection; an action that must wait for the mutex stutters. */
  function Step(s: State, a: Action): State {
    if a.c >= |s.conns| then s
    else
      var k := s.conns[a.c];
      match a
      case Begin(c) => if k.InTx? || s.held then s else SetConn(s, c, InTx(s.committed, [], [])).(held := true)
      case Statement(c, q) =>
        if k.InTx? then
          var (t, r) := Run(k.work, q);
          SetConn(s, c, InTx(t, k.script + [q], k.replies + [r]))
        else if s.held then s
        else
          var (t, r) := Run(s.committed, q);
          s.(committed := t, log := s.log + [Unit(c, [q], [r], true)])
      case Commit(c) =>
        if k.Closed? then s
        else SetConn(s, c, Closed).(committed := s.committed + k.work, held := false,
                                    log := s.log + [Unit(c, k.script, k.replies, true)])
      case Rollback(c) =>
        if k.Closed? then s
        else SetConn(s, c, Closed).(held := false, log := s.log + [Unit(c, k.script, k.replies, false)])
  }

  function Exec(s: State, run: seq<Action>): State {
    if run == [] then s else Step(Exec(s, run[..|run| - 1]), run[|run| - 1])
  }

  ghost predicate Init(s: State) {
    !s.held && s.log == [] && forall c :: 0 <= c < |s.conns| ==> s.conns[c].Closed?
  }

  /** The units run one at a time in the order they finished; a rolled-back one leaves nothing. */
  function Replay(t: Tables, log: seq<Unit>): Tables {
    if log == [] then t
    else
      var u, t1 := log[|log| - 1], Replay(t, log[..|log| - 1]);
      if u.kept then RunAll(t1, u.script).0 else t1
  }

  ghost predicate Serial(t0: Tables, s: State) {
    && s.committed == Replay(t0, s.log)
    && forall i :: 0 <= i < |s.log| ==> s.log[i].replies == RunAll(Replay(t0, s.log[..i]), s.log[i].script).1
  }

  /** An open transaction sees the committed tables with its own statements applied. */
  ghost predicate Sees(k: Conn, committed: Tables) {
    k.InTx? && (k.work, k.replies) == RunAll(committed, k.script)
  }

  /** At most one transaction is open, and it holds the mutex. */
  ghost predicate OneOpen(s: State) {
    && (forall c :: 0 <= c < |s.conns| && s.conns[c].InTx? ==> s.held && Sees(s.conns[c], s.committed))
    && (forall c, d :: 0 <= c < |s.conns| && 0 <= d < |s.conns| && s.conns[c].InTx? && s.conns[d].InTx? ==> c == d)
  }

  lemma LogUnit(t0: Tables, s: State, s': State, u: Unit)
    requires Serial(t0, s) && s'.log == s.log + [u]
    requires u.replies == RunAll(s.committed, u.script).1
    requires s'.committed == if u.kept then RunAll(s.committed, u.script).0 else s.committed
    ensures Serial(t0, s')
  {
    assert s'.log[..|s.log|] == s.log;
    forall i | 0 <= i < |s'.log| ensures s'.log[i].replies == RunAll(Replay(t0, s'.log[..i]), s'.log[i].script).1 {
      if i < |s.log| {
        assert s'.log[..i] == s.log[..i] && s'.log[i] == s.log[i];
      }
    }
  }

  lemma ExtendScript(t: Tables, qs: seq<Stmt>, q: Stmt)
    ensures
      var (t1, rs) := RunAll(t, qs);
      var (t2, r) := Run(t1, q);
      RunAll(t, qs + [q]) == (t2, rs + [r])
  {
    assert (qs + [q])[..|qs|] == qs;
  }

  lemma MoveKeepsOpen(s: State, c: nat, k: Conn)
    requires OneOpen(s) && c < |s.conns| && Sees(k, s.committed)
    requires s.conns[c].InTx? || !s.held
    ensures OneOpen(SetConn(s, c, k).(held := true))
  {
  }

  lemma CloseKeepsOpen(s: State, s': State, c: nat)
    requires OneOpen(s) && c < |s.conns| && s.conns[c].InTx? && s'.conns == s.conns[c := Closed]
    ensures OneOpen(s')
  {
  }

  lemma StatementInTx(t0: Tables, s: State, c: nat, q: Stmt)
    requires Serial(t0, s) && OneOpen(s) && c < |s.conns| && s.conns[c].InTx?
    ensures Serial(t0, Step(s, Statement(c, q))) && OneOpen(Step(s, Statement(c, q)))
  {
    var k := s.conns[c];
    var (t, r) := Run(k.work, q);
    var k' := InTx(t, k.script + [q], k.replies + [r]);
    assert Sees(k', s.committed) by { ExtendScript(s.committed, k.script, q); }
    MoveKeepsOpen(s, c, k');
    assert Step(s, Statement(c, q)) == SetConn(s, c, k').(held := true);
  }

  lemma RunOne(t: Tables, qs: seq<Stmt>)
    requires |qs| == 1
    ensures RunAll(t, qs) == (Run(t, qs[0]).0, [Run(t, qs[0]).1])
  {
    var none: seq<Reply> := [];
    assert qs[..0] == [];
    assert RunAll(t, qs[..0]) == (t, none);
    assert none + [Run(t, qs[0]).1] == [Run(t, qs[0]).1];
  }

  lemma StatementAlone(t0: Tables, s: State, c: nat, q: Stmt)
    requires Serial(t0, s) && OneOpen(s) && c < |s.conns| && s.conns[c].Closed? && !s.held
    ensures Serial(t0, Step(s, Statement(c, q))) && OneOpen(Step(s, Statement(c, q)))
  {
    var (t, r) := Run(s.committed, q);
    RunOne(s.committed, [q]);
    var s' := s.(committed := t, log := s.log + [Unit(c, [q], [r], true)]);
    LogUnit(t0, s, s', Unit(c, [q], [r], true));
    assert Step(s, Statement(c, q)) == s';
  }

  lemma StepKeepsSerial(t0: Tables, s: State, a: Action)
    requires Serial(t0, s) && OneOpen(s)
    ensures Serial(t0, Step(s, a)) && OneOpen(Step(s, a))
  {
    if a.c < |s.conns| {
      var k, s' := s.conns[a.c], Step(s, a);
      match a {
        case Begin(c) =>
          if k.Closed? && !s.held {
            MoveKeepsOpen(s, c, InTx(s.committed, [], []));
          }
        case Statement(c, q) =>
          if k.InTx? {
            StatementInTx(t0, s, c, q);
          } else if !s.held {
            StatementAlone(t0, s, c, q);
          }
        case Commit(c) =>
          if k.InTx? {
            RunAllKeepsTables(s.committed, k.script);
            assert s.committed + k.work == k.work;
            LogUnit(t0, s, s', Unit(c, k.script, k.replies, true));
            CloseKeepsOpen(s, s', c);
          }
        case Rollback(c) =>
          if k.InTx? {
            LogUnit(t0, s, s', Unit(c, k.script, k.replies, false));
            CloseKeepsOpen(s, s', c);
          }
      }
    }
  }

  /** Any run of any number of connections equals a serial one: the committed tables, and every
      reply any client received, even in a transaction later rolled back, are those of running
      the finished units one at a time. */
  lemma {:induction false} EveryRunIsSerial(s0: State, run: seq<Action>)
    requires Init(s0)
    ensures Serial(s0.committed, Exec(s0, run)) && OneOpen(Exec(s0, run))
  {
    if run != [] {
      EveryRunIsSerial(s0, run[..|run| - 1]);
      StepKeepsSerial(s0.committed, Exec(s0, run[..|run| - 1]), run[|run| - 1]);
    }
  }

  // ---------- What clients are told ----------

  /** The reply a call gets: none unless it is a statement that runs. */
  function Answer(s: State, a: Action): Option<Reply> {
    if !a.Statement? || a.c >= |s.conns| then None
    else if s.conns[a.c].InTx? then Some(Run(s.conns[a.c].work, a.q).1)
    else if s.held then None
    else Some(Run(s.committed, a.q).1)
  }

  ghost predicate IsOpen(s: State, c: nat) {
    c < |s.conns| && s.conns[c].InTx?
  }

  /** The mutex is held exactly while some transaction is open: none is left behind. */
  lemma {:induction false} HeldWhileOpen(s0: State, run: seq<Action>)
    requires Init(s0)
    ensures Exec(s0, run).held <==> exists c: nat :: IsOpen(Exec(s0, run), c)
  {
    if run != [] {
      var before, a := run[..|run| - 1], run[|run| - 1];
      var s := Exec(s0, before);
      HeldWhileOpen(s0, before);
      EveryRunIsSerial(s0, before);
      if a.c < |s.conns| {
        assert IsOpen(s, a.c) <==> s.conns[a.c].InTx?;
        assert forall c: nat :: c != a.c ==> (IsOpen(Step(s, a), c) <==> IsOpen(s, c));
        assert IsOpen(Step(s, a), a.c) <==> Step(s, a).conns[a.c].InTx?;
      }
    }
  }

  /** A statement gets a reply, and a begin takes effect, exactly when no other connection is in a
      transaction. */
  lemma WaitsIff(s0: State, run: seq<Action>, c: nat, q: Stmt)
    requires Init(s0) && c < |Exec(s0, run).conns|
    ensures
      var s := Exec(s0, run);
      var alone := forall d: nat :: IsOpen(s, d) ==> d == c;
      && (Answer(s, Statement(c, q)).Some? <==> alone)
      && (s.conns[c].Closed? ==>
            (IsOpen(Step(s, Begin(c)), c) <==> alone) && (Step(s, Statement(c, q)) != s <==> alone))
  {
    var s := Exec(s0, run);
    HeldWhileOpen(s0, run);
    EveryRunIsSerial(s0, run);
    assert s.conns[c].InTx? <==> IsOpen(s, c);
  }

  /** What the connection's open transaction has run and been told so far. */
  function Told(s: State, c: nat): (seq<Stmt>, seq<Reply>) {
    if c < |s.conns| && s.conns[c].InTx? then (s.conns[c].script, s.conns[c].replies) else ([], [])
  }

  /** Every reply goes into the log: with its transaction, or as a unit of its own. */
  lemma AnswerIsLogged(s: State, a: Action)
    requires Answer(s, a).Some?
    ensures
      var s' := Step(s, a);
      if s.conns[a.c].InTx? then Told(s', a.c) == (Told(s, a.c).0 + [a.q], Told(s, a.c).1 + [Answer(s, a).value])
      else s'.log == s.log + [Unit(a.c, [a.q], [Answer(s, a).value], true)]
  {
  }

  /** The reply call `n` of a run gets is the one it gets when the units finished by then are run one
      at a time, followed by its own transaction so far. */
  ghost predicate SerialAnswer(s0: State, run: seq<Action>, n: nat, r: Option<Reply>)
    requires n < |run|
  {
    var s := Exec(s0, run[..n]);
    var (script, replies) := Told(s, run[n].c);
    r.Some? ==> run[n].Statement? && RunAll(Replay(s0.committed, s.log), script + [run[n].q]).1 == replies + [r.value]
  }

  lemma EveryAnswerIsSerial(s0: State, run: seq<Action>, n: nat)
    requires Init(s0) && n < |run|
    ensures SerialAnswer(s0, run, n, Answer(Exec(s0, run[..n]), run[n]))
  {
    var s, a := Exec(s0, run[..n]), run[n];
    EveryRunIsSerial(s0, run[..n]);
    if Answer(s, a).Some? {
      assert s.conns[a.c].InTx? ==> Sees(s.conns[a.c], s.committed);
      ExtendScript(s.committed, Told(s, a.c).0, a.q);
    }
  }

  /** The replies of a whole run. */
  ghost predicate Answers(s0: State, run: seq<Action>, replies: seq<Option<Reply>>) {
    && |replies| == |run|
    && forall n :: 0 <= n < |run| ==> replies[n] == Answer(Exec(s0, run[..n]), run[n])
  }

  lemma AnswersNext(s0: State, run: seq<Action>, n: nat, replies: seq<Option<Reply>>)
    requires n < |run| && Answers(s0, run[..n], replies)
    ensures Answers(s0, run[..n + 1], replies + [Answer(Exec(s0, run[..n]), run[n])])
    ensures Exec(s0, run[..n + 1]) == Step(Exec(s0, run[..n]), run[n])
  {
    var one := run[..n + 1];
    assert one[..n] == run[..n];
    forall m | 0 <= m < n ensures replies[m] == Answer(Exec(s0, one[..m]), one[m]) {
      assert one[..m] == run[..n][..m] && one[m] == run[..n][m];
    }
  }

  lemma AnswersAreSerial(s0: State, run: seq<Action>, replies: seq<Option<Reply>>)
    requires Init(s0) && Answers(s0, run, replies)
    ensures forall n :: 0 <= n < |run| ==> SerialAnswer(s0, run, n, replies[n])
  {
    forall n | 0 <= n < |run| ensures SerialAnswer(s0, run, n, replies[n]) {
      EveryAnswerIsSerial(s0, run, n);
    }
  }
}
