/** Money transfers between account rows (labs/99-deadlock/safe.go and `TransferWithLock` of
    labs/08-database-isolation-level/transfer.go): what one transfer does on its own. */
module Transfers {

  type Balances = map<int, real>

  /** The two services differ in their checks, in how they write, and in the audit row. */
  datatype Variant = DeadlockLab | IsolationLab

  /** `DeterministicLockOrder`. */
  function LockOrder(a: int, b: int): (r: (int, int))
    ensures r.0 <= r.1 && (r == (a, b) || r == (b, a))
  {
    if a < b then (a, b) else (b, a)
  }

  datatype Job = Job(variant: Variant, fromID: int, toID: int, amount: real) {
    function First(): int {
      LockOrder(fromID, toID).0
    }

    function Second(): int {
      LockOrder(fromID, toID).1
    }
  }

  datatype Audit = Audit(fromID: int, toID: int, amount: real)

  datatype Ledger = Ledger(balances: Balances, audit: seq<Audit>)

  /** A database error: one that the wrapper retries, any other, or a cancelled context. */
  datatype Fault = Transient | Permanent | Cancelled

  datatype Outcome = Ok | SelfTransfer | BadAmount | NotFound | Insufficient | Failed(fault: Fault)

  /** Checks made before a transaction begins. */
  function Validate(job: Job): Outcome {
    if job.fromID == job.toID then SelfTransfer
    else if job.variant == IsolationLab && job.amount <= 0.0 then BadAmount
    else Ok
  }

  /** The service's own test on the two balances it read under lock. */
  predicate Affordable(job: Job, fromBalance: real, toBalance: real) {
    match job.variant
    case DeadlockLab => fromBalance - job.amount >= 0.0 && toBalance + job.amount >= 0.0
    case IsolationLab => fromBalance >= job.amount
  }

  function Moved(job: Job, b: Balances): Balances
    requires job.fromID in b && job.toID in b
  {
    b[job.fromID := b[job.fromID] - job.amount][job.toID := b[job.toID] + job.amount]
  }

  /** One transfer run alone and without faults. */
  function Serial(job: Job, l: Ledger): (Outcome, Ledger) {
    var v := Validate(job);
    if v != Ok then (v, l)
    else if job.First() !in l.balances || job.Second() !in l.balances then (NotFound, l)
    else if !Affordable(job, l.balances[job.fromID], l.balances[job.toID]) then (Insufficient, l)
    else (Ok, Ledger(Moved(job, l.balances),
                     if job.variant == IsolationLab then l.audit + [Audit(job.fromID, job.toID, job.amount)]
                       else l.audit))
  }

  // ---------- What a transfer keeps ----------

  /** The sum of the balances of `ids`, in whatever order they are added. */
  ghost function SumOf(b: Balances, ids: set<int>): real
    requires ids <= b.Keys
  {
    if ids == {} then 0.0
    else
      assert (forall k :: k !in ids) ==> ids == {};
      var k :| k in ids;
      b[k] + SumOf(b, ids - {k})
  }

  ghost function Total(b: Balances): real {
    SumOf(b, b.Keys)
  }

  lemma {:induction false} SumSplit(b: Balances, ids: set<int>, k: int)
    requires k in ids && ids <= b.Keys
    ensures SumOf(b, ids) == b[k] + SumOf(b, ids - {k})
    decreases |ids|
  {
    var j :| j in ids && SumOf(b, ids) == b[j] + SumOf(b, ids - {j});
    if j != k {
      SumSplit(b, ids - {j}, k);
      SumSplit(b, ids - {k}, j);
      assert ids - {j} - {k} == ids - {k} - {j};
    }
  }

  lemma {:induction false} SumAgree(b: Balances, b': Balances, ids: set<int>)
    requires ids <= b.Keys && ids <= b'.Keys && forall k :: k in ids ==> b[k] == b'[k]
    ensures SumOf(b, ids) == SumOf(b', ids)
  {
    if ids != {} {
      assert (forall k :: k !in ids) ==> ids == {};
      var k :| k in ids;
      SumSplit(b, ids, k);
      SumSplit(b', ids, k);
      SumAgree(b, b', ids - {k});
    }
  }

  lemma TotalUpdate(b: Balances, k: int, v: real)
    requires k in b
    ensures Total(b[k := v]) == Total(b) - b[k] + v
  {
    SumSplit(b, b.Keys, k);
    SumSplit(b[k := v], b.Keys, k);
    SumAgree(b, b[k := v], b.Keys - {k});
    assert b[k := v].Keys == b.Keys;
  }

  ghost predicate NonNegative(b: Balances) {
    forall k :: k in b ==> b[k] >= 0.0
  }

  /** A transfer neither creates nor destroys money or accounts, and overdraws none; one that
      succeeds moves its amount from payer to payee and touches no other account. */
  lemma SerialKeeps(job: Job, l: Ledger)
    ensures
      var l' := Serial(job, l).1;
      && Total(l'.balances) == Total(l.balances) && l'.balances.Keys == l.balances.Keys
      && (NonNegative(l.balances) ==> NonNegative(l'.balances))
      && (Serial(job, l).0 != Ok ==> l' == l)
      && (Serial(job, l).0 == Ok ==>
            job.fromID != job.toID && forall k :: k in l.balances ==>
              l.balances[k] - l'.balances[k] ==
                (if k == job.fromID then job.amount else if k == job.toID then -job.amount else 0.0))
  {
    if Serial(job, l).0 == Ok {
      var b := l.balances;
      var b1 := b[job.fromID := b[job.fromID] - job.amount];
      TotalUpdate(b, job.fromID, b[job.fromID] - job.amount);
      TotalUpdate(b1, job.toID, b[job.toID] + job.amount);
    }
  }

  /** Exactly which outcome a transfer has, and what it leaves in the audit table. */
  lemma SerialOutcome(job: Job, l: Ledger)
    ensures
      var (o, l') := Serial(job, l);
      var b, iso := l.balances, job.variant == IsolationLab;
      var self, bad := job.fromID == job.toID, iso && job.amount <= 0.0;
      var missing := job.fromID !in b || job.toID !in b;
      && (o == SelfTransfer <==> self)
      && (o == BadAmount <==> !self && bad)
      && (o == NotFound <==> !self && !bad && missing)
      && (o == Insufficient <==>
          && !self && !bad && !missing
          && (b[job.fromID] < job.amount || (!iso && b[job.toID] + job.amount < 0.0)))
      && (o == Ok <==>
          && !self && !missing && job.amount <= b[job.fromID]
          && if iso then 0.0 < job.amount else b[job.toID] + job.amount >= 0.0)
      && l'.audit == l.audit + if o == Ok && iso then [Audit(job.fromID, job.toID, job.amount)] else []
  {
  }

  // ---------- Statements that fail ----------

  datatype Stmt = BeginTx | LockFirst | LockSecond | WriteOne | WriteTwo | WriteAudit | Commit

  /** The order in which a transfer issues its statements. */
  function Position(st: Stmt): nat {
    match st
    case BeginTx => 0
    case LockFirst => 1
    case LockSecond => 2
    case WriteOne => 3
    case WriteTwo => 4
    case WriteAudit => 5
    case Commit => 6
  }

  /** The statements a transfer gets to as long as none fails: locks while the rows are there, and
      writes only if it will succeed. */
  ghost predicate Reaches(job: Job, l: Ledger, st: Stmt) {
    var o := Serial(job, l).0;
    match st
    case BeginTx => o != SelfTransfer && o != BadAmount
    case LockFirst => o != SelfTransfer && o != BadAmount
    case LockSecond =>
      o != SelfTransfer && o != BadAmount && (if job.fromID < job.toID then job.fromID else job.toID) in l.balances
    case WriteAudit => o == Ok && job.variant == IsolationLab
    case _ => o == Ok
  }

  /** The first statement it gets to that the database fails. */
  ghost predicate FailsAt(job: Job, l: Ledger, faults: map<Stmt, Fault>, st: Stmt) {
    && st in faults && Reaches(job, l, st)
    && forall other :: other in faults && Reaches(job, l, other) ==> Position(st) <= Position(other)
  }

  lemma FailsAtOne(job: Job, l: Ledger, faults: map<Stmt, Fault>, st: Stmt, other: Stmt)
    requires FailsAt(job, l, faults, st) && FailsAt(job, l, faults, other)
    ensures st == other
  {
    assert Position(st) == Position(other);
  }

  /** How one attempt ends: with the error of the first statement that fails, or as it would alone. */
  ghost function AttemptOutcome(job: Job, l: Ledger, faults: map<Stmt, Fault>): Outcome {
    if st :| FailsAt(job, l, faults, st) then Failed(faults[st]) else Serial(job, l).0
  }

  lemma AttemptFails(job: Job, l: Ledger, faults: map<Stmt, Fault>, st: Stmt)
    requires FailsAt(job, l, faults, st)
    ensures AttemptOutcome(job, l, faults) == Failed(faults[st])
  {
    var any :| FailsAt(job, l, faults, any) && AttemptOutcome(job, l, faults) == Failed(faults[any]);
    FailsAtOne(job, l, faults, st, any);
  }

  // ---------- The services as code ----------

  const MAX_RETRIES := 3

  class AccountStore {
    var balances: Balances
    var audit: seq<Audit>

    ghost function View(): Ledger
      reads this
    {
      Ledger(balances, audit)
    }

    constructor (b: Balances)
      ensures View() == Ledger(b, [])
    {
      balances, audit := b, [];
    }

    /** `Transfer` / `TransferWithLock`, with `faults` saying which statements the database
        fails.  Writes are staged and published by the commit; every other way out rolls back. */
    method Transfer(job: Job, faults: map<Stmt, Fault>) returns (o: Outcome)
      modifies this
      ensures o == AttemptOutcome(job, old(View()), faults)
      ensures View() == if o.Failed? then old(View()) else Serial(job, old(View())).1
    {
      var v := Validate(job);
      if v != Ok {
        return v;
      }
      var firstID, secondID := job.fromID, job.toID;
      if job.fromID > job.toID {
        firstID, secondID := job.toID, job.fromID;
      }
      if BeginTx in faults {
        AttemptFails(job, View(), faults, BeginTx);
        return Failed(faults[BeginTx]);
      }
      if LockFirst in faults {
        AttemptFails(job, View(), faults, LockFirst);
        return Failed(faults[LockFirst]);
      }
      if firstID !in balances {
        return NotFound;
      }
      var firstBal := balances[firstID];
      if LockSecond in faults {
        AttemptFails(job, View(), faults, LockSecond);
        return Failed(faults[LockSecond]);
      }
      if secondID !in balances {
        return NotFound;
      }
      var secondBal := balances[secondID];
      var staged := balances;
      match job.variant {
        case DeadlockLab =>
          if firstID == job.fromID {
            firstBal, secondBal := firstBal - job.amount, secondBal + job.amount;
          } else {
            firstBal, secondBal := firstBal + job.amount, secondBal - job.amount;
          }
          if firstBal < 0.0 || secondBal < 0.0 {
            return Insufficient;
          }
          if WriteOne in faults {
            AttemptFails(job, View(), faults, WriteOne);
            return Failed(faults[WriteOne]);
          }
          staged := staged[firstID := firstBal];
          if WriteTwo in faults {
            AttemptFails(job, View(), faults, WriteTwo);
            return Failed(faults[WriteTwo]);
          }
          staged := staged[secondID := secondBal];
          if Commit in faults {
            AttemptFails(job, View(), faults, Commit);
            return Failed(faults[Commit]);
          }
          assert staged == Moved(job, balances);
          balances := staged;
        case IsolationLab =>
          var senderBalance := if firstID == job.fromID then firstBal else secondBal;
          if senderBalance < job.amount {
            return Insufficient;
          }
          if WriteOne in faults {
            AttemptFails(job, View(), faults, WriteOne);
            return Failed(faults[WriteOne]);
          }
          staged := staged[job.fromID := staged[job.fromID] - job.amount];
          if WriteTwo in faults {
            AttemptFails(job, View(), faults, WriteTwo);
            return Failed(faults[WriteTwo]);
          }
          staged := staged[job.toID := staged[job.toID] + job.amount];
          if WriteAudit in faults {
            AttemptFails(job, View(), faults, WriteAudit);
            return Failed(faults[WriteAudit]);
          }
          if Commit in faults {
            AttemptFails(job, View(), faults, Commit);
            return Failed(faults[Commit]);
          }
          balances, audit := staged, audit + [Audit(job.fromID, job.toID, job.amount)];
      }
      return Ok;
    }

    /** The wrapper returns the result of the first attempt whose error is not transient, unless the
        context is cancelled or the three tries run out before; it applies the transfer at most
        once, and on any error the ledger is untouched. */
    method TransferWithRetry(job: Job, faults: nat -> map<Stmt, Fault>, cancelled: nat -> bool)
        returns (o: Outcome, attempts: nat)
      modifies this
      ensures 1 <= attempts <= 3
      ensures forall k: nat :: k < attempts - 1 ==>
                AttemptOutcome(job, old(View()), faults(k)) == Failed(Transient) && !cancelled(k)
      ensures
        var last := AttemptOutcome(job, old(View()), faults(attempts - 1));
        if last != Failed(Transient) then o == last
        else if cancelled(attempts - 1) then o == Failed(Cancelled)
        else o == last && attempts == 3
      ensures View() == if o.Failed? then old(View()) else Serial(job, old(View())).1
    {
      var attempt := 0;
      while attempt < MAX_RETRIES
        invariant attempt <= MAX_RETRIES
        invariant View() == old(View())
        invariant forall k: nat :: k < attempt ==>
                    AttemptOutcome(job, old(View()), faults(k)) == Failed(Transient) && !cancelled(k)
      {
        o := Transfer(job, faults(attempt));
        attempts := attempt + 1;
        if o != Failed(Transient) {
          return;
        }
        if cancelled(attempt) {
          return Failed(Cancelled), attempts;
        }
        attempt := attempt + 1;
      }
      return Failed(Transient), MAX_RETRIES;
    }
  }
}
