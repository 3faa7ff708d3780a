/** Optimistic, version-checked deposits (labs/93-optimistic-locking/safe.go).

    Each deposit reads a wallet, then updates it only if the version is still the one read, at
    most three times.  The read and the update of different calls interleave freely. */
module Deposits {

  datatype Wallet = Wallet(balance: real, version: int)

  const MAX_ATTEMPTS := 3

  /** `Unknown`: the update ran but asking how many rows it matched failed. */
  datatype Outcome = Deposited | Conflict | Failed | Unknown

  datatype Pc = Reading | Writing(balance: real, version: int) | BackingOff | Done(outcome: Outcome)

  datatype Client = Client(id: int, amount: real, attempt: nat, pc: Pc)

  /** `log` records, in order, the clients whose update matched a row. */
  datatype State = State(wallets: map<int, Wallet>, clients: seq<Client>, log: seq<nat>)

  /** How the client's next statement goes: as planned, with an error (including a cancelled
      context), or with the row count lost after the update took effect. */
  datatype Luck = Fine | Error | CountLost

  datatype Action = Action(client: nat, luck: Luck)

  function SetPc(s: State, i: nat, pc: Pc): State
    requires i < |s.clients|
  {
    s.(clients := s.clients[i := s.clients[i].(pc := pc)])
  }

  /** `UPDATE ... WHERE id = $2 AND version = $3`, and what the client makes of it. */
  function Write(s: State, i: nat, matched: Outcome, missed: Pc): State
    requires i < |s.clients| && s.clients[i].pc.Writing?
  {
    var c := s.clients[i];
    if c.id in s.wallets && s.wallets[c.id].version == c.pc.version then
      var w := Wallet(c.pc.balance + c.amount, c.pc.version + 1);
      SetPc(s, i, Done(matched)).(wallets := s.wallets[c.id := w], log := s.log + [i])
    else
      SetPc(s, i, missed)
  }

  /** One step of one client; a finished client, or an index that names none, stutters. */
  function Step(s: State, a: Action): State {
    if a.client >= |s.clients| then s
    else
      var c := s.clients[a.client];
      match c.pc
      case Reading =>
        if a.luck == Fine && c.id in s.wallets
        then SetPc(s, a.client, Writing(s.wallets[c.id].balance, s.wallets[c.id].version))
        else SetPc(s, a.client, Done(Failed))
      case Writing(_, _) =>
        (match a.luck
         case Fine => Write(s, a.client, Deposited, BackingOff)
         case Error => SetPc(s, a.client, Done(Failed))
         case CountLost => Write(s, a.client, Unknown, Done(Unknown)))
      case BackingOff =>
        if a.luck != Fine then SetPc(s, a.client, Done(Failed))
        else if c.attempt + 1 < MAX_ATTEMPTS
        then s.(clients := s.clients[a.client := c.(attempt := c.attempt + 1, pc := Reading)])
        else SetPc(s, a.client, Done(Conflict))
      case Done(_) => s
  }

  function Exec(s: State, run: seq<Action>): State {
    if run == [] then s else Step(Exec(s, run[..|run| - 1]), run[|run| - 1])
  }

  ghost predicate Init(s: State) {
    s.log == [] && forall i :: 0 <= i < |s.clients| ==> s.clients[i].pc == Reading && s.clients[i].attempt == 0
  }

  // ---------- What the log says ----------

  /** The amounts of the logged deposits to wallet `id`. */
  function Added(clients: seq<Client>, log: seq<nat>, id: int): real {
    if log == [] then 0.0
    else
      var i := log[|log| - 1];
      Added(clients, log[..|log| - 1], id)
      + if i < |clients| && clients[i].id == id then clients[i].amount else 0.0
  }

  function Updates(clients: seq<Client>, log: seq<nat>, id: int): nat {
    if log == [] then 0
    else
      var i := log[|log| - 1];
      Updates(clients, log[..|log| - 1], id) + if i < |clients| && clients[i].id == id then 1 else 0
  }

  /** Only the program counter and attempt of a client ever change. */
  ghost predicate SameJobs(a: seq<Client>, b: seq<Client>) {
    |a| == |b| && forall i :: 0 <= i < |a| ==> a[i].id == b[i].id && a[i].amount == b[i].amount
  }

  lemma {:induction false} JobsDecideTotals(a: seq<Client>, b: seq<Client>, log: seq<nat>, id: int)
    requires SameJobs(a, b)
    ensures Added(a, log, id) == Added(b, log, id) && Updates(a, log, id) == Updates(b, log, id)
  {
    if log != [] {
      JobsDecideTotals(a, b, log[..|log| - 1], id);
    }
  }

  /** Balance and version are the initial ones plus exactly the logged deposits. */
  ghost predicate Accounted(s0: State, s: State) {
    && s.wallets.Keys == s0.wallets.Keys
    && forall id :: id in s.wallets ==>
         && s.wallets[id].balance == s0.wallets[id].balance + Added(s.clients, s.log, id)
         && s.wallets[id].version == s0.wallets[id].version + Updates(s.clients, s.log, id)
  }

  /** A pending write was read from the wallet, and is stale unless the wallet is unchanged. */
  ghost predicate ReadsSound(s: State) {
    forall i :: 0 <= i < |s.clients| && s.clients[i].pc.Writing? ==>
      var c := s.clients[i];
      && c.id in s.wallets && c.pc.version <= s.wallets[c.id].version
      && (c.pc.version == s.wallets[c.id].version ==> c.pc.balance == s.wallets[c.id].balance)
  }

  predicate MayBeLogged(pc: Pc) {
    pc == Done(Deposited) || pc == Done(Unknown)
  }

  /** A client is logged at most once; success implies it, and only an unknown count blurs it. */
  ghost predicate LogSound(s: State) {
    && (forall i, j :: 0 <= i < j < |s.log| ==> s.log[i] != s.log[j])
    && (forall i :: i in s.log ==> i < |s.clients| && MayBeLogged(s.clients[i].pc))
    && (forall i :: 0 <= i < |s.clients| && s.clients[i].pc == Done(Deposited) ==> i in s.log)
  }

  ghost predicate Inv(s0: State, s: State) {
    SameJobs(s0.clients, s.clients) && Accounted(s0, s) && ReadsSound(s) && LogSound(s)
  }

  lemma StepKeepsJobs(s: State, a: Action)
    ensures SameJobs(s.clients, Step(s, a).clients)
  {
  }

  /** Every step appends to the log exactly the update it makes, if any. */
  lemma StepLogsItsUpdate(s: State, a: Action)
    ensures
      var s', i := Step(s, a), a.client;
      || (s'.log == s.log && s'.wallets == s.wallets)
      || (&& i < |s.clients| && s.clients[i].pc.Writing? && s'.log == s.log + [i]
          && var c := s.clients[i];
             && c.id in s.wallets && s.wallets[c.id].version == c.pc.version
             && MayBeLogged(s'.clients[i].pc)
             && s'.wallets == s.wallets[c.id := Wallet(c.pc.balance + c.amount, c.pc.version + 1)])
  {
  }

  lemma StepKeepsAccounted(s0: State, s: State, a: Action)
    requires Accounted(s0, s) && ReadsSound(s)
    ensures Accounted(s0, Step(s, a))
  {
    var s' := Step(s, a);
    StepKeepsJobs(s, a);
    StepLogsItsUpdate(s, a);
    forall id | id in s'.wallets
      ensures s'.wallets[id].balance == s0.wallets[id].balance + Added(s'.clients, s'.log, id)
      ensures s'.wallets[id].version == s0.wallets[id].version + Updates(s'.clients, s'.log, id)
    {
      JobsDecideTotals(s.clients, s'.clients, s.log, id);
      if s'.log != s.log {
        assert s'.log[..|s'.log| - 1] == s.log;
      }
    }
  }

  lemma StepKeepsReads(s: State, a: Action)
    requires ReadsSound(s)
    ensures ReadsSound(Step(s, a))
  {
  }

  lemma StepKeepsLog(s: State, a: Action)
    requires LogSound(s)
    ensures LogSound(Step(s, a))
  {
    var s', i := Step(s, a), a.client;
    StepLogsItsUpdate(s, a);
    if i < |s.clients| {
      assert !s.clients[i].pc.Done? ==> i !in s.log;
      assert forall j :: 0 <= j < |s.clients| && j != i ==> s'.clients[j] == s.clients[j];
      if s'.log != s.log {
        assert forall j :: j in s'.log <==> j in s.log || j == i;
      }
    }
  }

  /** The main theorem: after any interleaving of any deposits, every wallet holds its initial
      balance plus exactly the deposits whose update matched, its version counts them, no call
      is applied twice, and success means applied. */
  lemma {:induction false} EveryRunAccounted(s0: State, run: seq<Action>)
    requires Init(s0)
    ensures Inv(s0, Exec(s0, run))
  {
    if run != [] {
      EveryRunAccounted(s0, run[..|run| - 1]);
      var s, a := Exec(s0, run[..|run| - 1]), run[|run| - 1];
      StepKeepsJobs(s, a);
      StepKeepsAccounted(s0, s, a);
      StepKeepsReads(s, a);
      StepKeepsLog(s, a);
    }
  }

  /** This step's update takes effect, and the count of its rows is then lost. */
  predicate LosesCount(s: State, a: Action, i: nat) {
    && a.client == i < |s.clients| && a.luck == CountLost && s.clients[i].pc.Writing?
    && s.clients[i].id in s.wallets && s.wallets[s.clients[i].id].version == s.clients[i].pc.version
  }

  /** Some step of the run did that to client `i`. */
  ghost predicate Lost(s0: State, run: seq<Action>, i: nat) {
    run != [] && (Lost(s0, run[..|run| - 1], i) || LosesCount(Exec(s0, run[..|run| - 1]), run[|run| - 1], i))
  }

  /** Applied without success means a count was lost, and the other way round. */
  ghost predicate Hidden(s: State, i: nat) {
    i < |s.clients| && s.clients[i].pc == Done(Unknown) && i in s.log
  }

  lemma StepHides(s: State, a: Action, i: nat)
    requires LogSound(s) && i < |s.clients|
    ensures i < |Step(s, a).clients| && (Hidden(Step(s, a), i) <==> Hidden(s, i) || LosesCount(s, a, i))
  {
    StepLogsItsUpdate(s, a);
    var s' := Step(s, a);
    if a.client < |s.clients| {
      assert forall j :: 0 <= j < |s.clients| && j != a.client ==> s'.clients[j] == s.clients[j];
      assert !s.clients[a.client].pc.Done? ==> a.client !in s.log;
      if s'.log != s.log {
        assert forall j :: j in s'.log <==> j in s.log || j == a.client;
      }
    }
  }

  lemma {:induction false} HiddenIffLost(s0: State, run: seq<Action>, i: nat)
    requires Init(s0) && i < |s0.clients|
    ensures i < |Exec(s0, run).clients| && (Hidden(Exec(s0, run), i) <==> Lost(s0, run, i))
  {
    if run != [] {
      HiddenIffLost(s0, run[..|run| - 1], i);
      EveryRunAccounted(s0, run[..|run| - 1]);
      StepHides(Exec(s0, run[..|run| - 1]), run[|run| - 1], i);
    }
  }

  /** A call has succeeded if and only if it was applied, exactly unless the count of its update
      was lost after the update took effect. */
  lemma SucceedsIffApplied(s0: State, run: seq<Action>, i: nat)
    requires Init(s0) && i < |s0.clients|
    ensures
      var s := Exec(s0, run);
      i < |s.clients| && ((s.clients[i].pc == Done(Deposited) <==> i in s.log) <==> !Lost(s0, run, i))
  {
    EveryRunAccounted(s0, run);
    HiddenIffLost(s0, run, i);
  }

  /** For instance a deposit applied and reported as an error. */
  lemma LostCountHidesDeposit()
    ensures
      var s0 := State(map[1 := Wallet(10.0, 0)], [Client(1, 5.0, 0, Reading)], []);
      var s := Exec(s0, [Action(0, Fine), Action(0, CountLost)]);
      Init(s0) && s == State(map[1 := Wallet(15.0, 1)], [Client(1, 5.0, 0, Done(Unknown))], [0])
  {
    var s0 := State(map[1 := Wallet(10.0, 0)], [Client(1, 5.0, 0, Reading)], []);
    var run := [Action(0, Fine), Action(0, CountLost)];
    assert run[..1] == [Action(0, Fine)];
    assert [Action(0, Fine)][..0] == [];
    assert Exec(s0, []) == s0;
    assert Exec(s0, [Action(0, Fine)]) == Step(s0, Action(0, Fine));
    assert Step(s0, Action(0, Fine)).clients[0].pc == Writing(10.0, 0);
  }

  // ---------- When a deposit goes through ----------

  /** What a client's read and update do: an update whose version still matches is applied and, if its
      count is read, reported; one whose version has moved on is not, and the client backs off; a
      statement that fails changes nothing and ends the call. */
  lemma UpdateMeans(s: State, i: nat, luck: Luck)
    requires i < |s.clients| && s.clients[i].pc.Writing?
    ensures
      var c, s' := s.clients[i], Step(s, Action(i, luck));
      var fits := c.id in s.wallets && s.wallets[c.id].version == c.pc.version;
      && |s'.clients| == |s.clients|
      && s'.wallets == (if fits && luck != Error
                        then s.wallets[c.id := Wallet(c.pc.balance + c.amount, c.pc.version + 1)] else s.wallets)
      && s'.clients[i].pc == (if luck == Error then Done(Failed) else if luck == CountLost then Done(Unknown)
                              else if fits then Done(Deposited) else BackingOff)
  {
  }

  lemma ReadMeans(s: State, i: nat, luck: Luck)
    requires i < |s.clients| && s.clients[i].pc.Reading?
    ensures
      var c, s' := s.clients[i], Step(s, Action(i, luck));
      && |s'.clients| == |s.clients| && s'.wallets == s.wallets && s'.log == s.log
      && s'.clients[i].pc == if luck == Fine && c.id in s.wallets
                             then Writing(s.wallets[c.id].balance, s.wallets[c.id].version) else Done(Failed)
  {
  }

  /** A conflict is followed by another read, three times in all. */
  lemma BackOffMeans(s: State, i: nat, luck: Luck)
    requires i < |s.clients| && s.clients[i].pc.BackingOff?
    ensures
      var c, s' := s.clients[i], Step(s, Action(i, luck));
      && |s'.clients| == |s.clients| && s'.wallets == s.wallets && s'.log == s.log
      && s'.clients[i] == if luck != Fine then c.(pc := Done(Failed))
                          else if c.attempt >= 2 then c.(pc := Done(Conflict))
                          else c.(attempt := c.attempt + 1, pc := Reading)
  {
  }

  /** Two steps with nobody in between deposit the amount. */
  lemma UndisturbedDeposit(s: State, i: nat)
    requires i < |s.clients| && s.clients[i].pc.Reading? && s.clients[i].id in s.wallets
    ensures
      var c, s' := s.clients[i], Step(Step(s, Action(i, Fine)), Action(i, Fine));
      var w := s.wallets[c.id];
      && i < |s'.clients| && s'.clients[i].pc == Done(Deposited)
      && s'.wallets == s.wallets[c.id := Wallet(w.balance + c.amount, w.version + 1)]
  {
    ReadMeans(s, i, Fine);
    UpdateMeans(Step(s, Action(i, Fine)), i, Fine);
  }

  /** A client gives up with a conflict only after its third attempt. */
  lemma {:induction false} AttemptsBounded(s0: State, run: seq<Action>, i: nat)
    requires Init(s0) && i < |s0.clients|
    ensures
      var s := Exec(s0, run);
      && i < |s.clients| && s.clients[i].attempt < 3
      && (s.clients[i].pc == Done(Conflict) ==> s.clients[i].attempt == 2)
  {
    if run != [] {
      AttemptsBounded(s0, run[..|run| - 1], i);
      var s := Exec(s0, run[..|run| - 1]);
      assert |Step(s, run[|run| - 1]).clients| == |s.clients|;
    }
  }

  // ---------- The attempt loop, with the rivals that get in between read and update ----------

  function Sum(xs: seq<real>): real {
    if xs == [] then 0.0 else Sum(xs[..|xs| - 1]) + xs[|xs| - 1]
  }

  /** How one attempt goes: its read, its update, the wait before the next one, and the deposits
      of others that land between the read and the update. */
  datatype Try = Try(readOk: bool, update: Luck, waitOk: bool, rivals: seq<real>) {
    /** The update is issued against the version read. */
    predicate Applies() {
      readOk && update != Error && rivals == []
    }

    /** The attempt ends in a conflict the client sees, and it goes on. */
    predicate GoesOn() {
      readOk && update == Fine && rivals != [] && waitOk
    }
  }

  /** All rival deposits of attempts `0 .. k - 1`. */
  function RivalTotal(tries: nat -> Try, k: nat): real {
    if k == 0 then 0.0 else RivalTotal(tries, k - 1) + Sum(tries(k - 1).rivals)
  }

  /** All attempts before the `k`-th went on. */
  predicate ReachesTry(tries: nat -> Try, k: nat) {
    forall j: nat :: j < k ==> tries(j).GoesOn()
  }

  /** The wallet's row; `present` is whether there is one. */
  class WalletRow {
    var present: bool
    var balance: real
    var version: int

    /** Other clients' successful deposits. */
    method Rivals(amounts: seq<real>)
      modifies this
      ensures balance == old(balance) + Sum(amounts) && version == old(version) + |amounts| && present == old(present)
    {
      for i := 0 to |amounts|
        invariant balance == old(balance) + Sum(amounts[..i]) && version == old(version) + i && present == old(present)
      {
        assert amounts[..i + 1][..i] == amounts[..i];
        balance, version := balance + amounts[i], version + 1;
      }
      assert amounts[..|amounts|] == amounts;
    }

    method CompareAndSet(newBalance: real, expected: int) returns (rows: nat)
      modifies this
      ensures rows == if old(version) == expected then 1 else 0
      ensures (balance, version) ==
              if old(version) == expected then (newBalance, old(version) + 1) else (old(balance), old(version))
      ensures present == old(present)
    {
      if version == expected {
        balance, version := newBalance, version + 1;
        return 1;
      }
      return 0;
    }

    /** The attempt loop.  The amount is added, once, exactly when some attempt that is reached
        issues its update with no rival in between; the call reports it exactly when the count of
        that update was read; and it reports a conflict exactly when every attempt met a rival.
        `begun` counts the attempts that got past their read. */
    method Deposit(amount: real, tries: nat -> Try) returns (o: Outcome, applied: bool, begun: nat)
      modifies this
      ensures begun <= 3 && present == old(present)
      ensures applied <==> present && exists k: nat :: k < 3 && ReachesTry(tries, k) && tries(k).Applies()
      ensures o == Deposited <==>
              present && exists k: nat ::
                k < 3 && ReachesTry(tries, k) && tries(k).Applies() && tries(k).update == Fine
      ensures o == Conflict <==> present && ReachesTry(tries, 3)
      ensures balance == old(balance) + RivalTotal(tries, begun) + if applied then amount else 0.0
    {
      begun, applied := 0, false;
      for attempt := 0 to MAX_ATTEMPTS
        invariant begun == attempt && !applied && (attempt > 0 ==> present) && present == old(present)
        invariant balance == old(balance) + RivalTotal(tries, attempt)
        invariant ReachesTry(tries, attempt)
      {
        var t := tries(attempt);
        if !t.readOk || !present {
          return Failed, false, begun;
        }
        var seen, expected := balance, version;
        begun := attempt + 1;
        Rivals(t.rivals);
        if t.update == Error {
          return Failed, false, begun;
        }
        var rows := CompareAndSet(seen + amount, expected);
        applied := rows > 0;
        if t.update == CountLost {
          return Unknown, applied, begun;
        }
        if rows > 0 {
          return Deposited, true, begun;
        }
        if !t.waitOk {
          return Failed, false, begun;
        }
      }
      return Conflict, false, begun;
    }
  }
}
