/** Any number of transfers interleaved statement by statement under row locks
    (labs/99-deadlock/safe.go, labs/08-database-isolation-level/transfer.go).

    `SELECT ... FOR UPDATE` takes the row's lock, waiting while another transaction holds it;
    commit and rollback release every lock of the transaction, and a commit publishes its staged
    writes.  Any statement of any transfer may fail. */
module TransferMachine {
  import opened Transfers

  datatype Pc =
    | Start
    | Began
    | HoldFirst(b1: real)
    | HoldBoth(b1: real, b2: real)
    | WroteOne(b1: real, b2: real, staged: Balances)
    | WroteTwo(staged: Balances)
    | Audited(staged: Balances)
    | Done(outcome: Outcome)

  /** `attemptsLeft` counts the tries the retry wrapper still allows, this one included. */
  datatype Proc = Proc(job: Job, attemptsLeft: nat, pc: Pc)

  datatype Entry = Entry(proc: nat, job: Job, outcome: Outcome)

  /** `owner` is the lock table; `log` lists the transfers that finished, in that order. */
  datatype State = State(ledger: Ledger, owner: map<int, nat>, procs: seq<Proc>, log: seq<Entry>)

  datatype Action = Advance(proc: nat) | Fail(proc: nat, fault: Fault)

  // ---------- Steps ----------

  function Released(owner: map<int, nat>, i: nat): map<int, nat> {
    map a | a in owner && owner[a] != i :: owner[a]
  }

  function SetPc(s: State, i: nat, pc: Pc): State
    requires i < |s.procs|
  {
    s.(procs := s.procs[i := s.procs[i].(pc := pc)])
  }

  /** Leave with `o`: locks released, nothing written. */
  function Finish(s: State, i: nat, o: Outcome): State
    requires i < |s.procs|
  {
    SetPc(s, i, Done(o)).(owner := Released(s.owner, i), log := s.log + [Entry(i, s.procs[i].job, o)])
  }

  function CommitTx(s: State, i: nat, staged: Balances): State
    requires i < |s.procs|
  {
    var job := s.procs[i].job;
    var audit := if job.variant == IsolationLab
                 then s.ledger.audit + [Audit(job.fromID, job.toID, job.amount)] else s.ledger.audit;
    Finish(s, i, Ok).(ledger := Ledger(s.ledger.balances + staged, audit))
  }

  /** `SELECT ... FOR UPDATE` of row `id`: an absent row ends the transfer, a held row blocks. */
  function LockRow(s: State, i: nat, id: int, next: Pc): State
    requires i < |s.procs|
  {
    if id !in s.ledger.balances then Finish(s, i, NotFound)
    else if id in s.owner then s
    else SetPc(s, i, next).(owner := s.owner[id := i])
  }

  function Row(s: State, id: int): real {
    if id in s.ledger.balances then s.ledger.balances[id] else 0.0
  }

  function FromBalance(job: Job, b1: real, b2: real): real {
    if job.First() == job.fromID then b1 else b2
  }

  function ToBalance(job: Job, b1: real, b2: real): real {
    if job.First() == job.fromID then b2 else b1
  }

  /** The row each write touches: lock order in one service, payer then payee in the other. */
  function WriteTarget(job: Job, nth: int): int {
    match job.variant
    case DeadlockLab => if nth == 1 then job.First() else job.Second()
    case IsolationLab => if nth == 1 then job.fromID else job.toID
  }

  /** What the transfer adds to row `id`. */
  function Change(job: Job, id: int): real {
    if id == job.fromID then -job.amount else job.amount
  }

  /** The balance a write stores: one service computes it from the balance it read when it took
      the lock, the other has the database change the row as it is at the time of the write. */
  function NewBalance(s: State, job: Job, b1: real, b2: real, id: int): real {
    match job.variant
    case DeadlockLab => (if id == job.First() then b1 else b2) + Change(job, id)
    case IsolationLab => Row(s, id) + Change(job, id)
  }

  function AdvanceProc(s: State, i: nat): State
    requires i < |s.procs|
  {
    var p := s.procs[i];
    match p.pc
    case Start => if Validate(p.job) != Ok then Finish(s, i, Validate(p.job)) else SetPc(s, i, Began)
    case Began => LockRow(s, i, p.job.First(), HoldFirst(Row(s, p.job.First())))
    case HoldFirst(b1) => LockRow(s, i, p.job.Second(), HoldBoth(b1, Row(s, p.job.Second())))
    case HoldBoth(b1, b2) =>
      if !Affordable(p.job, FromBalance(p.job, b1, b2), ToBalance(p.job, b1, b2)) then Finish(s, i, Insufficient)
      else
        var id := WriteTarget(p.job, 1);
        SetPc(s, i, WroteOne(b1, b2, map[id := NewBalance(s, p.job, b1, b2, id)]))
    case WroteOne(b1, b2, staged) =>
      var id := WriteTarget(p.job, 2);
      SetPc(s, i, WroteTwo(staged[id := NewBalance(s, p.job, b1, b2, id)]))
    case WroteTwo(staged) =>
      if p.job.variant == IsolationLab then SetPc(s, i, Audited(staged)) else CommitTx(s, i, staged)
    case Audited(staged) => CommitTx(s, i, staged)
    case Done(_) => s
  }

  /** An error at the current statement rolls back; a transient one is retried while tries last. */
  function FailProc(s: State, i: nat, fault: Fault): State
    requires i < |s.procs|
  {
    var p := s.procs[i];
    if p.pc.Done? then s
    else if fault == Transient && p.attemptsLeft > 1 then
      s.(owner := Released(s.owner, i), procs := s.procs[i := Proc(p.job, p.attemptsLeft - 1, Start)])
    else Finish(s, i, Failed(fault))
  }

  /** One statement of one transfer; anything not enabled stutters. */
  function Step(s: State, a: Action): State {
    if a.proc >= |s.procs| then s
    else match a
      case Advance(i) => AdvanceProc(s, i)
      case Fail(i, fault) => FailProc(s, i, fault)
  }

  function Exec(s: State, run: seq<Action>): State {
    if run == [] then s else Step(Exec(s, run[..|run| - 1]), run[|run| - 1])
  }

  ghost predicate Init(s: State) {
    && s.owner == map[] && s.log == []
    && forall i :: 0 <= i < |s.procs| ==> s.procs[i].pc == Start
  }

  // ---------- Locks ----------

  function Held(p: Proc): set<int> {
    match p.pc
    case Start => {}
    case Began => {}
    case Done(_) => {}
    case HoldFirst(_) => {p.job.First()}
    case _ => {p.job.First(), p.job.Second()}
  }

  /** The lock table says exactly who holds what. */
  ghost predicate LocksMatch(s: State) {
    forall a, i :: 0 <= i < |s.procs| ==> (a in Held(s.procs[i]) <==> a in s.owner && s.owner[a] == i)
  }

  ghost predicate OwnersExist(s: State) {
    forall a :: a in s.owner ==> s.owner[a] < |s.procs|
  }

  function Staged(job: Job, b: Balances): Balances
    requires job.fromID in b && job.toID in b
  {
    map[job.fromID := b[job.fromID] - job.amount, job.toID := b[job.toID] + job.amount]
  }

  /** Inside a transaction the transfer passed its checks, holds rows that exist, and what it
      read, or has staged, agrees with those rows. */
  ghost predicate ProcSound(s: State, p: Proc) {
    var b, job := s.ledger.balances, p.job;
    && (!p.pc.Start? && !p.pc.Done? ==> Validate(job) == Ok)
    && (forall a :: a in Held(p) ==> a in b)
    && match p.pc
       case HoldFirst(b1) => b1 == b[job.First()]
       case HoldBoth(b1, b2) => b1 == b[job.First()] && b2 == b[job.Second()]
       case WroteOne(b1, b2, staged) =>
         && b1 == b[job.First()] && b2 == b[job.Second()]
         && Affordable(job, b[job.fromID], b[job.toID])
         && (var id := WriteTarget(job, 1); staged == map[id := b[id] + Change(job, id)])
       case WroteTwo(staged) => Affordable(job, b[job.fromID], b[job.toID]) && staged == Staged(job, b)
       case Audited(staged) => Affordable(job, b[job.fromID], b[job.toID]) && staged == Staged(job, b)
       case _ => true
  }

  ghost predicate ProcsSound(s: State) {
    forall i :: 0 <= i < |s.procs| ==> ProcSound(s, s.procs[i])
  }

  /** Statements and tries left; every effective step lowers it. */
  function Rank(p: Proc): nat {
    8 * p.attemptsLeft +
    match p.pc
    case Start => 7
    case Began => 6
    case HoldFirst(_) => 5
    case HoldBoth(_, _) => 4
    case WroteOne(_, _, _) => 3
    case WroteTwo(_) => 2
    case Audited(_) => 1
    case Done(_) => 0
  }

  /** Relative to its owner, a step takes one free lock, drops them all, or touches none. */
  ghost predicate LockEffect(s: State, s': State, i: nat)
    requires i < |s.procs| == |s'.procs|
  {
    || (s'.owner == s.owner && Held(s'.procs[i]) == Held(s.procs[i]))
    || (s'.owner == Released(s.owner, i) && Held(s'.procs[i]) == {})
    || exists id :: && id !in s.owner && s'.owner == s.owner[id := i]
                    && Held(s'.procs[i]) == Held(s.procs[i]) + {id}
  }

  /** What every step does besides the ledger: it moves one transfer forward. */
  ghost predicate Shape(s: State, s': State, i: nat)
    requires i < |s.procs|
  {
    && |s'.procs| == |s.procs| && s'.procs == s.procs[i := s'.procs[i]]
    && s'.procs[i].job == s.procs[i].job
    && (s.procs[i].pc.Done? ==> s' == s)
    && (s' != s ==> Rank(s'.procs[i]) < Rank(s.procs[i]))
    && LockEffect(s, s', i)
  }

  lemma LockRowShape(s: State, i: nat, id: int, next: Pc)
    requires i < |s.procs| && !s.procs[i].pc.Done?
    requires Rank(s.procs[i].(pc := next)) < Rank(s.procs[i])
    requires Held(s.procs[i].(pc := next)) == Held(s.procs[i]) + {id}
    ensures Shape(s, LockRow(s, i, id, next), i)
  {
  }

  lemma FinishShape(s: State, i: nat, o: Outcome)
    requires i < |s.procs| && !s.procs[i].pc.Done?
    ensures Shape(s, Finish(s, i, o), i)
  {
  }

  lemma AdvanceShape(s: State, i: nat)
    requires i < |s.procs|
    ensures Shape(s, AdvanceProc(s, i), i)
  {
    var p := s.procs[i];
    match p.pc {
      case Start => FinishShape(s, i, Validate(p.job));
      case Began => LockRowShape(s, i, p.job.First(), HoldFirst(Row(s, p.job.First())));
      case HoldFirst(b1) => LockRowShape(s, i, p.job.Second(), HoldBoth(b1, Row(s, p.job.Second())));
      case HoldBoth(_, _) => FinishShape(s, i, Insufficient);
      case WroteOne(_, _, _) =>
      case WroteTwo(staged) => FinishShape(s, i, Ok);
      case Audited(staged) => FinishShape(s, i, Ok);
      case Done(_) =>
    }
  }

  lemma StepShape(s: State, a: Action)
    requires a.proc < |s.procs|
    ensures Shape(s, Step(s, a), a.proc)
  {
    match a {
      case Advance(i) => AdvanceShape(s, i);
      case Fail(i, fault) =>
        if !s.procs[i].pc.Done? {
          FinishShape(s, i, Failed(fault));
        }
    }
  }

  lemma ShapeKeepsLocks(s: State, s': State, i: nat)
    requires i < |s.procs| && LocksMatch(s) && OwnersExist(s) && Shape(s, s', i)
    ensures LocksMatch(s') && OwnersExist(s')
  {
    forall k, j | 0 <= j < |s'.procs|
      ensures k in Held(s'.procs[j]) <==> k in s'.owner && s'.owner[k] == j
    {
      assert k in Held(s.procs[j]) <==> k in s.owner && s.owner[k] == j;
      assert k in Held(s.procs[i]) <==> k in s.owner && s.owner[k] == i;
    }
  }

  lemma StepKeepsLocks(s: State, a: Action)
    requires LocksMatch(s) && OwnersExist(s)
    ensures LocksMatch(Step(s, a)) && OwnersExist(Step(s, a))
  {
    if a.proc < |s.procs| {
      StepShape(s, a);
      ShapeKeepsLocks(s, Step(s, a), a.proc);
    }
  }

  /** Only a commit changes balances, and only in rows it holds. */
  lemma StepChangesHeldRows(s: State, a: Action)
    requires ProcsSound(s)
    ensures
      var b, b' := s.ledger.balances, Step(s, a).ledger.balances;
      && b'.Keys == b.Keys
      && forall k :: k in b && b'[k] != b[k] ==> a.proc < |s.procs| && k in Held(s.procs[a.proc])
  {
    if a.proc < |s.procs| {
      assert ProcSound(s, s.procs[a.proc]);
    }
  }

  lemma SoundFrame(s: State, s': State, p: Proc)
    requires ProcSound(s, p)
    requires forall k :: k in Held(p) ==> k in s'.ledger.balances && s'.ledger.balances[k] == s.ledger.balances[k]
    ensures ProcSound(s', p)
  {
  }

  lemma OwnStepSound(s: State, a: Action)
    requires a.proc < |s.procs| && ProcSound(s, s.procs[a.proc])
    ensures ProcSound(Step(s, a), Step(s, a).procs[a.proc])
  {
    var p := s.procs[a.proc];
    if a.Advance? && p.pc.WroteOne? {
      assert Step(s, a).procs[a.proc].pc.staged == Staged(p.job, s.ledger.balances);
    }
  }

  lemma StepKeepsProcs(s: State, a: Action)
    requires LocksMatch(s) && ProcsSound(s)
    ensures ProcsSound(Step(s, a))
  {
    if a.proc < |s.procs| {
      var s', i := Step(s, a), a.proc;
      StepChangesHeldRows(s, a);
      forall j | 0 <= j < |s'.procs| ensures ProcSound(s', s'.procs[j]) {
        assert ProcSound(s, s.procs[j]);
        if j != i {
          forall k | k in Held(s.procs[j]) ensures k !in Held(s.procs[i]) {
            assert k in s.owner && s.owner[k] == j;
          }
          SoundFrame(s, s', s.procs[j]);
        } else {
          OwnStepSound(s, a);
        }
      }
    }
  }

  // ---------- Serial equivalence ----------

  /** The logged transfers run one at a time, in completion order; a failed one does nothing. */
  function Replay(l0: Ledger, log: seq<Entry>): Ledger {
    if log == [] then l0
    else
      var e, l := log[|log| - 1], Replay(l0, log[..|log| - 1]);
      if e.outcome.Failed? then l else Serial(e.job, l).1
  }

  /** The ledger is the serial one, and every transfer that met no database error ended as it
      would have alone at its place in that order. */
  ghost predicate SerialSoFar(l0: Ledger, s: State) {
    && Replay(l0, s.log) == s.ledger
    && forall k :: 0 <= k < |s.log| && !s.log[k].outcome.Failed? ==>
         s.log[k].outcome == Serial(s.log[k].job, Replay(l0, s.log[..k])).0
  }

  /** A step that finishes transfer `i` appends its one entry, serial at this moment unless it
      failed; no other step shows in the log or the ledger. */
  ghost predicate LogEffect(s: State, s': State, i: nat)
    requires i < |s.procs| == |s'.procs|
  {
    var p, p' := s.procs[i], s'.procs[i];
    if p.pc.Done? || !p'.pc.Done? then s'.log == s.log && s'.ledger == s.ledger && (p.pc.Done? ==> p' == p)
    else
      var o := p'.pc.outcome;
      && s'.log == s.log + [Entry(i, p.job, o)]
      && if o.Failed? then s'.ledger == s.ledger else (o, s'.ledger) == Serial(p.job, s.ledger)
  }

  lemma CommitIsSerial(s: State, i: nat)
    requires i < |s.procs| && ProcSound(s, s.procs[i]) && (s.procs[i].pc.WroteTwo? || s.procs[i].pc.Audited?)
    ensures LogEffect(s, CommitTx(s, i, s.procs[i].pc.staged), i)
  {
    var job, b := s.procs[i].job, s.ledger.balances;
    assert b + Staged(job, b) == Moved(job, b);
  }

  lemma StepIsSerial(s: State, a: Action)
    requires a.proc < |s.procs| && ProcSound(s, s.procs[a.proc])
    ensures |Step(s, a).procs| == |s.procs| && LogEffect(s, Step(s, a), a.proc)
  {
    var i, p := a.proc, s.procs[a.proc];
    if a.Advance? {
      match p.pc {
        case WroteTwo(_) => CommitIsSerial(s, i);
        case Audited(_) => CommitIsSerial(s, i);
        case HoldFirst(_) => assert p.job.First() in s.ledger.balances;
        case _ =>
      }
    }
  }

  lemma StepKeepsSerial(l0: Ledger, s: State, a: Action)
    requires ProcsSound(s) && SerialSoFar(l0, s)
    ensures SerialSoFar(l0, Step(s, a))
  {
    if a.proc < |s.procs| {
      var s' := Step(s, a);
      assert ProcSound(s, s.procs[a.proc]);
      StepIsSerial(s, a);
      if s'.log != s.log {
        assert s'.log[..|s.log|] == s.log;
        forall k | 0 <= k < |s'.log| && !s'.log[k].outcome.Failed?
          ensures s'.log[k].outcome == Serial(s'.log[k].job, Replay(l0, s'.log[..k])).0
        {
          if k < |s.log| {
            assert s'.log[k] == s.log[k] && s'.log[..k] == s.log[..k];
          }
        }
      }
    }
  }

  /** Each finished transfer has exactly one entry, with its job and outcome. */
  ghost predicate LogMatches(s: State) {
    && (forall k :: 0 <= k < |s.log| ==>
          var e := s.log[k];
          e.proc < |s.procs| && s.procs[e.proc].pc == Done(e.outcome) && s.procs[e.proc].job == e.job)
    && (forall k, m :: 0 <= k < m < |s.log| ==> s.log[k].proc != s.log[m].proc)
    && (forall i :: 0 <= i < |s.procs| && s.procs[i].pc.Done? ==> exists k :: 0 <= k < |s.log| && s.log[k].proc == i)
  }

  lemma EffectKeepsLog(s: State, s': State, i: nat)
    requires LogMatches(s) && i < |s.procs| == |s'.procs| && LogEffect(s, s', i)
    requires s'.procs == s.procs[i := s'.procs[i]] && s'.procs[i].job == s.procs[i].job
    ensures LogMatches(s')
  {
    assert !s.procs[i].pc.Done? ==> forall k :: 0 <= k < |s.log| ==> s.log[k].proc != i;
    forall k | 0 <= k < |s'.log|
      ensures
        var e := s'.log[k];
        e.proc < |s'.procs| && s'.procs[e.proc].pc == Done(e.outcome) && s'.procs[e.proc].job == e.job
    {
      if k < |s.log| {
        assert s'.log[k] == s.log[k] && s.procs[s.log[k].proc].pc == Done(s.log[k].outcome);
      }
    }
    forall j | 0 <= j < |s'.procs| && s'.procs[j].pc.Done?
      ensures exists k :: 0 <= k < |s'.log| && s'.log[k].proc == j
    {
      if j == i && s'.log != s.log {
        assert s'.log[|s.log|].proc == j;
      } else {
        var k :| 0 <= k < |s.log| && s.log[k].proc == j;
        assert s'.log[k].proc == j;
      }
    }
  }

  lemma StepKeepsLog(s: State, a: Action)
    requires ProcsSound(s) && LogMatches(s)
    ensures LogMatches(Step(s, a))
  {
    if a.proc < |s.procs| {
      assert ProcSound(s, s.procs[a.proc]);
      StepIsSerial(s, a);
      StepShape(s, a);
      EffectKeepsLog(s, Step(s, a), a.proc);
    }
  }

  ghost predicate Inv(l0: Ledger, s: State) {
    LocksMatch(s) && OwnersExist(s) && ProcsSound(s) && SerialSoFar(l0, s) && LogMatches(s)
  }

  /** Serial equivalence: every interleaving of any transfers, with any database errors, leaves the
      ledger and gives the outcomes of running the finished transfers one at a time in the order
      in which they finished. */
  lemma {:induction false} EveryRunIsSerial(s0: State, run: seq<Action>)
    requires Init(s0)
    ensures Inv(s0.ledger, Exec(s0, run))
  {
    if run != [] {
      var s, a := Exec(s0, run[..|run| - 1]), run[|run| - 1];
      EveryRunIsSerial(s0, run[..|run| - 1]);
      StepKeepsLocks(s, a);
      StepKeepsProcs(s, a);
      StepKeepsSerial(s0.ledger, s, a);
      StepKeepsLog(s, a);
    }
  }

  lemma {:induction false} ReplayKeeps(l0: Ledger, log: seq<Entry>)
    ensures
      var l := Replay(l0, log);
      && Total(l.balances) == Total(l0.balances) && l.balances.Keys == l0.balances.Keys
      && (NonNegative(l0.balances) ==> NonNegative(l.balances))
  {
    if log != [] {
      ReplayKeeps(l0, log[..|log| - 1]);
      SerialKeeps(log[|log| - 1].job, Replay(l0, log[..|log| - 1]));
    }
  }

  /** Hence in every reachable state the total is what it was at the start and no account that
      started in credit is overdrawn. */
  lemma MoneyIsConserved(s0: State, run: seq<Action>)
    requires Init(s0)
    ensures
      var b := Exec(s0, run).ledger.balances;
      Total(b) == Total(s0.ledger.balances) && (NonNegative(s0.ledger.balances) ==> NonNegative(b))
  {
    EveryRunIsSerial(s0, run);
    ReplayKeeps(s0.ledger, Exec(s0, run).log);
  }

  /** What the successful transfers of a log paid into account `k`, less what they took from it. */
  function NetPaid(log: seq<Entry>, k: int): real {
    if log == [] then 0.0
    else
      var e := log[|log| - 1];
      NetPaid(log[..|log| - 1], k) +
      if e.outcome != Ok then 0.0
      else if e.job.toID == k then e.job.amount
      else if e.job.fromID == k then -e.job.amount
      else 0.0
  }

  /** The outcomes in the log are those of running its transfers in order. */
  ghost predicate SerialLog(l0: Ledger, log: seq<Entry>) {
    forall k :: 0 <= k < |log| && !log[k].outcome.Failed? ==>
      log[k].outcome == Serial(log[k].job, Replay(l0, log[..k])).0
  }

  lemma {:induction false} ReplayStatement(l0: Ledger, log: seq<Entry>, k: int)
    requires SerialLog(l0, log) && k in l0.balances
    ensures k in Replay(l0, log).balances && Replay(l0, log).balances[k] == l0.balances[k] + NetPaid(log, k)
  {
    if log != [] {
      var n := |log| - 1;
      var front, e := log[..n], log[n];
      assert forall i :: 0 <= i < n ==> front[i] == log[i] && front[..i] == log[..i];
      ReplayStatement(l0, front, k);
      SerialKeeps(e.job, Replay(l0, front));
    }
  }

  /** Account statements: in every reachable state each balance is its initial one plus what the
      transfers that reported success so far paid in, less what they took out. */
  lemma AccountStatement(s0: State, run: seq<Action>, k: int)
    requires Init(s0) && k in s0.ledger.balances
    ensures
      var s := Exec(s0, run);
      k in s.ledger.balances && s.ledger.balances[k] == s0.ledger.balances[k] + NetPaid(s.log, k)
  {
    EveryRunIsSerial(s0, run);
    ReplayStatement(s0.ledger, Exec(s0, run).log, k);
  }

  /** One service writes in lock order and commits; the other writes payer first, then payee, then the
      audit row, and commits. */
  lemma WritesInOrder(s: State, i: nat)
    requires i < |s.procs|
    ensures
      var p, pc' := s.procs[i], Step(s, Advance(i)).procs[i].pc;
      var iso, low := p.job.variant == IsolationLab, if p.job.fromID < p.job.toID then p.job.fromID else p.job.toID;
      && (pc'.WroteOne? && p.pc.HoldBoth? ==> pc'.staged.Keys == {if iso then p.job.fromID else low})
      && (p.pc.WroteOne? ==>
            && pc'.WroteTwo?
            && pc'.staged.Keys == p.pc.staged.Keys + {if iso then p.job.toID else p.job.fromID + p.job.toID - low})
      && (p.pc.WroteTwo? ==> if iso then pc' == Audited(p.pc.staged) else pc' == Done(Ok))
      && (p.pc.Audited? ==> pc' == Done(Ok))
  {
  }

  // ---------- Faults ----------

  /** What a step may add to the log: an outcome of its own, or the fault the database reports. */
  lemma StepFails(s: State, a: Action)
    ensures
      var s' := Step(s, a);
      s'.log == s.log ||
      exists o :: && a.proc < |s.procs| && s'.log == s.log + [Entry(a.proc, s.procs[a.proc].job, o)]
                  && (o.Failed? ==> a == Fail(a.proc, o.fault))
  {
    if a.proc < |s.procs| {
      var p := s.procs[a.proc];
      if a.Fail? && !p.pc.Done? && !(a.fault == Transient && p.attemptsLeft > 1) {
        assert Step(s, a).log == s.log + [Entry(a.proc, p.job, Failed(a.fault))];
      } else if a.Advance? && Step(s, a).log != s.log {
        var o := if p.pc.Start? then Validate(p.job)
                 else if p.pc.Began? || p.pc.HoldFirst? then NotFound
                 else if p.pc.HoldBoth? then Insufficient else Ok;
        assert Step(s, a).log == s.log + [Entry(a.proc, p.job, o)];
      }
    }
  }

  ghost predicate Faulted(run: seq<Action>, e: Entry) {
    e.outcome.Failed? ==> Fail(e.proc, e.outcome.fault) in run
  }

  /** A transfer fails only if the database failed one of its statements in that very way: without
      faults every transfer ends as it would alone. */
  lemma {:induction false} FailuresAreFaults(s0: State, run: seq<Action>)
    requires Init(s0)
    ensures forall k :: 0 <= k < |Exec(s0, run).log| ==> Faulted(run, Exec(s0, run).log[k])
  {
    if run != [] {
      var front, a := run[..|run| - 1], run[|run| - 1];
      var s := Exec(s0, front);
      FailuresAreFaults(s0, front);
      StepFails(s, a);
      assert run == front + [a];
      forall k | 0 <= k < |Exec(s0, run).log| ensures Faulted(run, Exec(s0, run).log[k]) {
        if k < |s.log| {
          assert Exec(s0, run).log[k] == s.log[k];
          assert Faulted(front, s.log[k]);
        }
      }
    }
  }

  /** Transient faults of transfer `i`. */
  function Transients(run: seq<Action>, i: nat): nat {
    if run == [] then 0 else Transients(run[..|run| - 1], i) + if run[|run| - 1] == Fail(i, Transient) then 1 else 0
  }

  /** No try is lost without a transient fault, and none is refused while tries are left. */
  lemma {:induction false} TriesAreUsedUp(s0: State, run: seq<Action>, i: nat)
    requires Init(s0) && i < |s0.procs| && s0.procs[i].attemptsLeft >= 1
    ensures i < |Exec(s0, run).procs|
    ensures
      var p := Exec(s0, run).procs[i];
      && 1 <= p.attemptsLeft && s0.procs[i].attemptsLeft <= p.attemptsLeft + Transients(run, i)
      && (p.pc == Done(Failed(Transient)) ==> s0.procs[i].attemptsLeft <= Transients(run, i))
  {
    if run != [] {
      var front, a := run[..|run| - 1], run[|run| - 1];
      TriesAreUsedUp(s0, front, i);
      var s := Exec(s0, front);
      if a.proc < |s.procs| {
        StepShape(s, a);
        if a.proc == i && !s.procs[i].pc.Done? {
          StepFails(s, a);
        }
      }
    }
  }

  // ---------- Deadlock freedom ----------

  /** The row transfer `i` is asking for next, if any. */
  predicate Wants(s: State, i: nat, a: int)
    requires i < |s.procs|
  {
    var p := s.procs[i];
    (p.pc.Began? && a == p.job.First()) || (p.pc.HoldFirst? && a == p.job.Second())
  }

  ghost predicate WaitsFor(s: State, i: nat, j: nat) {
    i < |s.procs| && exists a :: Wants(s, i, a) && a in s.owner && s.owner[a] == j
  }

  ghost predicate WaitChain(s: State, path: seq<nat>) {
    |path| >= 2 && forall k :: 0 <= k < |path| - 1 ==> WaitsFor(s, path[k], path[k + 1])
  }

  /** The row the head of a chain waits for. */
  ghost function Wanted(s: State, i: nat): int
    requires i < |s.procs|
  {
    if s.procs[i].pc.Began? then s.procs[i].job.First() else s.procs[i].job.Second()
  }

  /** Along waits-for edges the wanted row strictly increases: a blocked holder holds its lower row. */
  lemma WaitsUpwards(s: State, i: nat, j: nat, k: nat)
    requires LocksMatch(s) && OwnersExist(s) && ProcsSound(s) && WaitsFor(s, i, j) && WaitsFor(s, j, k)
    ensures Wanted(s, i) < Wanted(s, j)
  {
    var a := Wanted(s, i);
    assert a in s.owner && s.owner[a] == j;
    assert a in Held(s.procs[j]);
    assert ProcSound(s, s.procs[j]);
  }

  lemma {:induction false} ChainRises(s: State, path: seq<nat>)
    requires LocksMatch(s) && OwnersExist(s) && ProcsSound(s) && WaitChain(s, path)
    ensures path[0] < |s.procs| && path[|path| - 2] < |s.procs|
    ensures Wanted(s, path[0]) <= Wanted(s, path[|path| - 2])
  {
    assert WaitsFor(s, path[0], path[1]);
    if |path| > 2 {
      var init := path[..|path| - 1];
      assert WaitChain(s, init) by {
        forall k | 0 <= k < |init| - 1 ensures WaitsFor(s, init[k], init[k + 1]) {
          assert WaitsFor(s, path[k], path[k + 1]);
        }
      }
      ChainRises(s, init);
      var n := |path|;
      assert WaitsFor(s, path[n - 3], path[n - 2]) && WaitsFor(s, path[n - 2], path[n - 1]);
      WaitsUpwards(s, path[n - 3], path[n - 2], path[n - 1]);
    }
  }

  /** No reachable state has a cycle of waiting transfers. */
  lemma NoDeadlock(s0: State, run: seq<Action>, path: seq<nat>)
    requires Init(s0) && WaitChain(Exec(s0, run), path)
    ensures path[0] != path[|path| - 1]
  {
    var s, n := Exec(s0, run), |path|;
    EveryRunIsSerial(s0, run);
    ChainRises(s, path);
    assert WaitsFor(s, path[n - 2], path[n - 1]) && WaitsFor(s, path[0], path[1]);
    if path[0] == path[n - 1] {
      WaitsUpwards(s, path[n - 2], path[n - 1], path[1]);
    }
  }

  predicate Blocked(s: State, i: nat) {
    i < |s.procs| && exists a :: a in s.owner && Wants(s, i, a)
  }

  lemma UnblockedSteps(s: State, i: nat)
    requires LocksMatch(s) && i < |s.procs| && !s.procs[i].pc.Done? && !Blocked(s, i)
    ensures Step(s, Advance(i)) != s
  {
    var p, s' := s.procs[i], Step(s, Advance(i));
    assert s'.procs[i].pc != p.pc;
  }

  predicate Unfinished(s: State, i: nat) {
    i < |s.procs| && !s.procs[i].pc.Done?
  }

  function Running(s: State): set<nat> {
    set k | 0 <= k < |s.procs| && Unfinished(s, k)
  }

  lemma SubsetSize(a: set<nat>, b: set<nat>)
    requires a <= b
    ensures |a| <= |b|
  {
    assert b == a + (b - a);
  }

  /** From a blocked transfer, follow the waits upwards to one that can run. */
  lemma {:induction false} FindRunnable(s: State, i: nat, visited: set<nat>) returns (j: nat)
    requires LocksMatch(s) && OwnersExist(s) && ProcsSound(s)
    requires i < |s.procs| && !s.procs[i].pc.Done? && visited <= Running(s)
    requires i !in visited
    requires forall k :: k in visited ==> Blocked(s, k) && (Blocked(s, i) ==> Wanted(s, k) < Wanted(s, i))
    ensures j < |s.procs| && !s.procs[j].pc.Done? && !Blocked(s, j)
    decreases |Running(s)| - |visited|
  {
    if !Blocked(s, i) {
      return i;
    }
    var a :| a in s.owner && Wants(s, i, a);
    var h := s.owner[a];
    assert a in Held(s.procs[h]);
    var visited' := visited + {i};
    assert WaitsFor(s, i, h);
    if Blocked(s, h) {
      var c :| c in s.owner && Wants(s, h, c);
      assert WaitsFor(s, h, s.owner[c]);
      WaitsUpwards(s, i, h, s.owner[c]);
    } else {
      return h;
    }
    SubsetSize(visited', Running(s));
    j := FindRunnable(s, h, visited');
  }

  /** Progress: while any transfer is unfinished, some unfinished transfer can take its next step. */
  lemma SomeoneCanStep(s0: State, run: seq<Action>, i: nat) returns (j: nat)
    requires Init(s0) && i < |Exec(s0, run).procs| && !Exec(s0, run).procs[i].pc.Done?
    ensures
      var s := Exec(s0, run);
      j < |s.procs| && !s.procs[j].pc.Done? && Step(s, Advance(j)) != s
  {
    EveryRunIsSerial(s0, run);
    j := FindRunnable(Exec(s0, run), i, {});
    UnblockedSteps(Exec(s0, run), j);
  }

  /** A run stops moving only when every transfer has finished. */
  lemma StuckMeansFinished(s0: State, run: seq<Action>)
    requires Init(s0) && forall j: nat :: Step(Exec(s0, run), Advance(j)) == Exec(s0, run)
    ensures forall i :: 0 <= i < |Exec(s0, run).procs| ==> Exec(s0, run).procs[i].pc.Done?
  {
    var s := Exec(s0, run);
    forall i | 0 <= i < |s.procs| ensures s.procs[i].pc.Done? {
      if !s.procs[i].pc.Done? {
        var j := SomeoneCanStep(s0, run, i);
        assert false;
      }
    }
  }

  // ---------- Termination ----------

  function Work(procs: seq<Proc>): nat {
    if procs == [] then 0 else Work(procs[..|procs| - 1]) + Rank(procs[|procs| - 1])
  }

  lemma {:induction false} WorkUpdate(procs: seq<Proc>, i: nat, p: Proc)
    requires i < |procs|
    ensures Work(procs[i := p]) == Work(procs) - Rank(procs[i]) + Rank(p)
  {
    var n := |procs| - 1;
    if i < n {
      WorkUpdate(procs[..n], i, p);
      assert procs[i := p][..n] == procs[..n][i := p];
    } else {
      assert procs[i := p][..n] == procs[..n];
    }
  }

  /** Every step that does anything uses up work: no transfer can go on forever. */
  lemma StepUsesWork(s: State, a: Action)
    requires Step(s, a) != s
    ensures Work(Step(s, a).procs) < Work(s.procs)
  {
    var i := a.proc;
    StepShape(s, a);
    var p' := Step(s, a).procs[i];
    WorkUpdate(s.procs, i, p');
  }

  /** The steps of a run that change something. */
  function Effective(s: State, run: seq<Action>): nat {
    if run == [] then 0
    else
      var init := run[..|run| - 1];
      Effective(s, init) + if Exec(s, run) != Exec(s, init) then 1 else 0
  }

  /** Every run has at most as many effective steps as there is work at the start; with progress,
      every run that is continued while it can be finishes all its transfers. */
  lemma {:induction false} EveryRunEnds(s0: State, run: seq<Action>)
    ensures Effective(s0, run) + Work(Exec(s0, run).procs) <= Work(s0.procs)
  {
    if run != [] {
      var init := run[..|run| - 1];
      EveryRunEnds(s0, init);
      if Exec(s0, run) != Exec(s0, init) {
        StepUsesWork(Exec(s0, init), run[|run| - 1]);
      }
    }
  }
}
