/** Concurrent outbox workers over one table (labs/98-outbox-pattern/safe/concurrent_worker.go)
    and the deduplicating consumer behind them (consumer.go).

    A batch is a transaction: its rows are locked from the SKIP LOCKED query to the commit or
    rollback, and its updates are staged until the commit.  Publishing to the broker is not
    transactional.  Workers may stop, roll back or fail to commit anywhere. */
module OutboxWorkers {

  /** An outbox row; `nextAt` is `next_attempt_at`, `published` whether `published_at` is set. */
  datatype Row = Row(createdAt: int, published: bool, attempts: nat, nextAt: int)

  type Rows = map<string, Row>

  datatype Config = Config(base: nat, batchSize: nat)

  function Pow2(n: nat): nat {
    if n == 0 then 1 else 2 * Pow2(n - 1)
  }

  /** The delay after the `k`-th failed attempt. */
  function Backoff(c: Config, k: nat): nat
    requires k >= 1
  {
    c.base * Pow2(k - 1)
  }

  /** The update staged after one publish attempt at the batch's `now`. */
  function Tried(c: Config, r: Row, ok: bool, now: int): Row {
    if ok then r.(published := true, attempts := r.attempts + 1)
    else r.(attempts := r.attempts + 1, nextAt := now + Backoff(c, r.attempts + 1))
  }

  /** The first delay is `base`, and each is twice the one before. */
  lemma BackoffDoubles(c: Config, k: nat)
    requires k >= 1
    ensures Backoff(c, 1) == c.base && Backoff(c, k + 1) == 2 * Backoff(c, k)
  {
    assert Pow2(0) == 1 && Pow2(k) == 2 * Pow2(k - 1);
  }

  /** A row that fails for the first time is due `base` after its batch's clock; one that fails again
      is due twice as far from its batch's clock as the last time. */
  lemma FailureDelays(c: Config, r: Row, now: int, later: int)
    ensures
      var once := Tried(c, r, false, now);
      var twice := Tried(c, once, false, later);
      && (r.attempts == 0 ==> once.nextAt == now + c.base)
      && twice.nextAt - later == 2 * (once.nextAt - now)
      && once.attempts == r.attempts + 1 && once.createdAt == r.createdAt && once.published == r.published
  {
    BackoffDoubles(c, r.attempts + 1);
  }

  /** A success counts as an attempt, marks the row and leaves its dates alone. */
  lemma SuccessMarks(c: Config, r: Row, now: int)
    ensures Tried(c, r, true, now) == Row(r.createdAt, true, r.attempts + 1, r.nextAt)
  {
  }

  /** For instance a third failure, with a base of 1 and a batch clock of 10. */
  lemma ThirdFailure(createdAt: int, dueAt: int)
    ensures Tried(Config(1, 1), Row(createdAt, false, 2, dueAt), false, 10) == Row(createdAt, false, 3, 14)
  {
    assert Pow2(0) == 1 && Pow2(1) == 2 && Pow2(2) == 4;
  }

  /** One publish attempt: how it went and when the broker's answer was in. */
  datatype Try = Try(ok: bool, ended: int)

  /** `at` is the transaction's `CURRENT_TIMESTAMP`, `now` the worker's clock after the query.
      `doomed`: an update failed, so the transaction can only roll back. */
  datatype Worker =
    | Idle
    | Open(batch: seq<string>, pos: nat, at: int, now: int, staged: Rows, tries: map<string, Try>, doomed: bool)

  /** A committed failed attempt: the clock its batch read before publishing anything, and the
      time the failure was known. */
  datatype Failure = Failure(batchClock: int, ended: int)

  /** `failures` lists each event's committed failed attempts, `handled` the events whose consumer
      transaction committed. */
  datatype State = State(rows: Rows, workers: seq<Worker>, sent: seq<string>,
                         failures: map<string, seq<Failure>>, handled: seq<string>, clock: int)

  datatype Action =
    | Insert(id: string, createdAt: int, nextAt: int)
    | Poll(w: nat, pick: seq<string>, at: int, now: int)
    | Publish(w: nat, ok: bool, ended: int, updateOk: bool)
    | Commit(w: nat, ok: bool)
    | Rollback(w: nat)
    | Deliver(id: string, commitOk: bool)

  // ---------- Steps ----------

  predicate Locked(s: State, id: string) {
    exists w :: 0 <= w < |s.workers| && s.workers[w].Open? && id in s.workers[w].batch
  }

  predicate Eligible(s: State, id: string, at: int) {
    id in s.rows && !s.rows[id].published && s.rows[id].nextAt <= at && !Locked(s, id)
  }

  /** What the query may return: unlocked eligible rows, each once, oldest first, at most
      `batchSize`, and none passed over for a younger one or for want of room. */
  ghost predicate Selects(c: Config, s: State, pick: seq<string>, at: int) {
    && |pick| <= c.batchSize
    && (forall i :: 0 <= i < |pick| ==> Eligible(s, pick[i], at))
    && (forall i, j :: 0 <= i < j < |pick| ==>
          pick[i] != pick[j] && s.rows[pick[i]].createdAt <= s.rows[pick[j]].createdAt)
    && (forall id :: Eligible(s, id, at) && id !in pick ==>
          |pick| == c.batchSize && forall i :: 0 <= i < |pick| ==> s.rows[pick[i]].createdAt <= s.rows[id].createdAt)
  }

  function SetWorker(s: State, w: nat, k: Worker): State
    requires w < |s.workers|
  {
    s.(workers := s.workers[w := k])
  }

  ghost function DoPoll(c: Config, s: State, w: nat, pick: seq<string>, at: int, now: int): State
    requires w < |s.workers|
  {
    if s.workers[w].Idle? && pick != [] && at <= now && s.clock <= now && Selects(c, s, pick, at)
    then SetWorker(s, w, Open(pick, 0, at, now, map[], map[], false)).(clock := now)
    else s
  }

  /** The next event of the batch is published, with the answer in at time `ended`, and its row's
      update staged from the clock the batch read at its start. */
  function DoPublish(c: Config, s: State, w: nat, t: Try, updateOk: bool): State
    requires w < |s.workers|
  {
    var k := s.workers[w];
    if k.Idle? || k.pos >= |k.batch| || k.batch[k.pos] !in s.rows || t.ended < k.now || t.ended < s.clock then s
    else
      var id := k.batch[k.pos];
      var s := s.(clock := t.ended, sent := if t.ok then s.sent + [id] else s.sent);
      if k.doomed || !updateOk then SetWorker(s, w, k.(pos := k.pos + 1, doomed := true))
      else SetWorker(s, w, k.(pos := k.pos + 1, staged := k.staged[id := Tried(c, s.rows[id], t.ok, k.now)],
                              tries := k.tries[id := t]))
  }

  function FailuresOf(s: State, id: string): seq<Failure> {
    if id in s.failures then s.failures[id] else []
  }

  function DoCommit(s: State, w: nat, ok: bool): State
    requires w < |s.workers|
  {
    var k := s.workers[w];
    if k.Idle? || k.pos < |k.batch| then s
    else if !ok || k.doomed then SetWorker(s, w, Idle)
    else
      SetWorker(s, w, Idle).(
        rows := s.rows + k.staged,
        failures := s.failures + map id | id in k.tries && !k.tries[id].ok ::
                      FailuresOf(s, id) + [Failure(k.now, k.tries[id].ended)])
  }

  /** `ProcessEvent`: the first delivery whose transaction commits does the work, others skip. */
  function DoDeliver(s: State, id: string, commitOk: bool): State {
    if id in s.sent && id !in s.handled && commitOk then s.(handled := s.handled + [id]) else s
  }

  ghost function Step(c: Config, s: State, a: Action): State {
    match a
    case Insert(id, createdAt, nextAt) =>
      if id in s.rows then s else s.(rows := s.rows[id := Row(createdAt, false, 0, nextAt)])
    case Poll(w, pick, at, now) => if w < |s.workers| then DoPoll(c, s, w, pick, at, now) else s
    case Publish(w, ok, ended, updateOk) => if w < |s.workers| then DoPublish(c, s, w, Try(ok, ended), updateOk) else s
    case Commit(w, ok) => if w < |s.workers| then DoCommit(s, w, ok) else s
    case Rollback(w) => if w < |s.workers| then SetWorker(s, w, Idle) else s
    case Deliver(id, commitOk) => DoDeliver(s, id, commitOk)
  }

  ghost function Exec(c: Config, s: State, run: seq<Action>): State {
    if run == [] then s else Step(c, Exec(c, s, run[..|run| - 1]), run[|run| - 1])
  }

  ghost predicate Init(s: State) {
    && s.rows == map[] && s.sent == [] && s.failures == map[] && s.handled == []
    && forall w :: 0 <= w < |s.workers| ==> s.workers[w].Idle?
  }

  // ---------- Invariants ----------

  /** An open batch holds unpublished rows, each once, due when it was read; what it has staged
      so far is one try of each row it has passed. */
  ghost predicate WorkerSound(c: Config, s: State, k: Worker) {
    k.Open? ==>
      && k.pos <= |k.batch| && k.at <= k.now
      && (forall i, j :: 0 <= i < j < |k.batch| ==> k.batch[i] != k.batch[j])
      && (forall id :: id in k.batch ==> id in s.rows && !s.rows[id].published && s.rows[id].nextAt <= k.at)
      && k.staged.Keys == k.tries.Keys
      && (forall id :: id in k.tries ==>
            && id in k.batch && id in s.rows && k.staged[id] == Tried(c, s.rows[id], k.tries[id].ok, k.now)
            && k.tries[id].ended >= k.now && (k.tries[id].ok ==> id in s.sent))
  }

  ghost predicate WorkersSound(c: Config, s: State) {
    forall w :: 0 <= w < |s.workers| ==> WorkerSound(c, s, s.workers[w])
  }

  ghost predicate Disjoint(j: Worker, k: Worker) {
    j.Open? && k.Open? ==> forall id :: id in j.batch ==> id !in k.batch
  }

  /** No event is in two open batches. */
  ghost predicate BatchesDisjoint(s: State) {
    forall w, v :: 0 <= w < |s.workers| && 0 <= v < |s.workers| && w != v ==> Disjoint(s.workers[w], s.workers[v])
  }

  predicate Gap(c: Config, f: seq<Failure>, k: nat)
    requires 0 < k < |f|
  {
    f[k].batchClock >= f[k - 1].batchClock + Backoff(c, k)
  }

  /** A failure is known no earlier than its batch's clock, and the next batch that fails the event
      reads its clock at least `base * 2^(k - 1)` after that of the `k`-th failure. */
  ghost predicate Spaced(c: Config, f: seq<Failure>) {
    && (forall k :: 0 <= k < |f| ==> f[k].batchClock <= f[k].ended)
    && (forall k :: 0 < k < |f| ==> Gap(c, f, k))
  }

  /** A row's bookkeeping: published means sent.  Its attempts are its committed failures, and one
      more once it is published; until then it is due its backoff after the clock of the batch
      in which it last failed. */
  ghost predicate RowSound(c: Config, s: State, id: string)
    requires id in s.rows
  {
    var r, f := s.rows[id], FailuresOf(s, id);
    && (r.published ==> id in s.sent && r.attempts == |f| + 1)
    && (!r.published ==> r.attempts == |f| && (f != [] ==> r.nextAt == f[|f| - 1].batchClock + Backoff(c, |f|)))
    && Spaced(c, f)
  }

  ghost predicate RowsSound(c: Config, s: State) {
    && (forall id :: id in s.rows ==> RowSound(c, s, id))
    && (forall id :: id in s.failures ==> id in s.rows)
  }

  ghost predicate HandledSound(s: State) {
    && (forall i, j :: 0 <= i < j < |s.handled| ==> s.handled[i] != s.handled[j])
    && (forall id :: id in s.handled ==> id in s.sent)
  }

  ghost predicate Inv(c: Config, s: State) {
    WorkersSound(c, s) && BatchesDisjoint(s) && RowsSound(c, s) && HandledSound(s)
  }

  /** The other workers' view after worker `w` moves: their rows are as they were. */
  lemma OthersStaySound(c: Config, s: State, s': State, w: nat, v: nat)
    requires Inv(c, s) && w < |s.workers| && v < |s.workers| && w != v
    requires s.sent <= s'.sent
    requires forall id :: id in s.rows && (s.workers[w].Open? ==> id !in s.workers[w].batch) ==>
               id in s'.rows && s'.rows[id] == s.rows[id]
    ensures WorkerSound(c, s', s.workers[v])
  {
    var k := s.workers[v];
    assert WorkerSound(c, s, k);
    assert Disjoint(s.workers[v], s.workers[w]);
  }

  lemma MoveKeepsWorkers(c: Config, s: State, s': State, w: nat)
    requires Inv(c, s) && w < |s.workers| == |s'.workers| && s'.workers == s.workers[w := s'.workers[w]]
    requires s.sent <= s'.sent && WorkerSound(c, s', s'.workers[w])
    requires forall id :: id in s.rows && (s.workers[w].Open? ==> id !in s.workers[w].batch) ==>
               id in s'.rows && s'.rows[id] == s.rows[id]
    requires s'.workers[w].Open? ==> forall id :: id in s'.workers[w].batch ==>
               (s.workers[w].Open? && id in s.workers[w].batch) || !Locked(s, id)
    ensures WorkersSound(c, s') && BatchesDisjoint(s')
  {
    forall v | 0 <= v < |s'.workers| ensures WorkerSound(c, s', s'.workers[v]) {
      if v != w {
        OthersStaySound(c, s, s', w, v);
      }
    }
    forall v, u | 0 <= v < |s'.workers| && 0 <= u < |s'.workers| && v != u
      ensures Disjoint(s'.workers[v], s'.workers[u])
    {
      assert Disjoint(s.workers[v], s.workers[u]);
    }
  }

  /** Rows whose table entries and failures are untouched stay sound as more is sent. */
  lemma RowsFrame(c: Config, s: State, s': State)
    requires RowsSound(c, s) && s'.rows == s.rows && s'.failures == s.failures && s.sent <= s'.sent
    ensures RowsSound(c, s')
  {
    forall id | id in s'.rows ensures RowSound(c, s', id) {
      assert RowSound(c, s, id);
    }
  }

  lemma InsertKeepsInv(c: Config, s: State, id: string, r: Row)
    requires Inv(c, s) && id !in s.rows && r.attempts == 0 && !r.published
    ensures Inv(c, s.(rows := s.rows[id := r]))
  {
    var s' := s.(rows := s.rows[id := r]);
    forall w | 0 <= w < |s'.workers| ensures WorkerSound(c, s', s'.workers[w]) {
      assert WorkerSound(c, s, s.workers[w]);
    }
    forall j | j in s'.rows ensures RowSound(c, s', j) {
      if j != id {
        assert RowSound(c, s, j);
      }
    }
  }

  lemma PollKeepsInv(c: Config, s: State, w: nat, pick: seq<string>, at: int, now: int)
    requires Inv(c, s) && w < |s.workers|
    ensures Inv(c, DoPoll(c, s, w, pick, at, now))
  {
    var s' := DoPoll(c, s, w, pick, at, now);
    if s' != s {
      forall id | id in pick ensures Eligible(s, id, at) {
      }
      MoveKeepsWorkers(c, s, s', w);
      RowsFrame(c, s, s');
    }
  }

  lemma PublishKeepsOwn(c: Config, s: State, w: nat, t: Try, updateOk: bool)
    requires w < |s.workers| && WorkerSound(c, s, s.workers[w])
    ensures WorkerSound(c, DoPublish(c, s, w, t, updateOk), DoPublish(c, s, w, t, updateOk).workers[w])
    ensures s.sent <= DoPublish(c, s, w, t, updateOk).sent
  {
  }

  lemma PublishKeepsInv(c: Config, s: State, w: nat, t: Try, updateOk: bool)
    requires Inv(c, s) && w < |s.workers|
    ensures Inv(c, DoPublish(c, s, w, t, updateOk))
  {
    var s', k := DoPublish(c, s, w, t, updateOk), s.workers[w];
    if s' != s {
      assert WorkerSound(c, s, k);
      PublishKeepsOwn(c, s, w, t, updateOk);
      MoveKeepsWorkers(c, s, s', w);
      RowsFrame(c, s, s');
    }
  }

  /** One committed try of an unpublished, due row. */
  lemma TryKeepsRow(c: Config, s: State, s': State, id: string, t: Try, at: int, now: int)
    requires id in s.rows && id in s'.rows && RowSound(c, s, id) && !s.rows[id].published &&
             s.rows[id].nextAt <= at <= now
    requires s'.rows[id] == Tried(c, s.rows[id], t.ok, now) && now <= t.ended && (t.ok ==> id in s'.sent)
    requires FailuresOf(s', id) == if t.ok then FailuresOf(s, id) else FailuresOf(s, id) + [Failure(now, t.ended)]
    ensures RowSound(c, s', id)
  {
    var f, f' := FailuresOf(s, id), FailuresOf(s', id);
    forall k | 0 < k < |f'| ensures Gap(c, f', k) {
      if k < |f| {
        assert Gap(c, f, k);
      }
    }
  }

  lemma CommitKeepsRows(c: Config, s: State, w: nat)
    requires Inv(c, s) && w < |s.workers| && s.workers[w].Open?
    requires s.workers[w].pos >= |s.workers[w].batch| && !s.workers[w].doomed
    ensures RowsSound(c, DoCommit(s, w, true))
  {
    var s', k := DoCommit(s, w, true), s.workers[w];
    assert WorkerSound(c, s, k);
    forall id | id in s'.rows ensures RowSound(c, s', id) {
      assert RowSound(c, s, id);
      if id in k.tries {
        TryKeepsRow(c, s, s', id, k.tries[id], k.at, k.now);
      } else {
        assert s'.rows[id] == s.rows[id] && FailuresOf(s', id) == FailuresOf(s, id);
      }
    }
  }

  lemma CommitKeepsInv(c: Config, s: State, w: nat, ok: bool)
    requires Inv(c, s) && w < |s.workers|
    ensures Inv(c, DoCommit(s, w, ok))
  {
    var s', k := DoCommit(s, w, ok), s.workers[w];
    if s' != s {
      assert WorkerSound(c, s, k);
      MoveKeepsWorkers(c, s, s', w);
      if ok && !k.doomed {
        CommitKeepsRows(c, s, w);
      } else {
        RowsFrame(c, s, s');
      }
    }
  }

  lemma DeliverKeepsInv(c: Config, s: State, id: string, commitOk: bool)
    requires Inv(c, s)
    ensures Inv(c, DoDeliver(s, id, commitOk))
  {
    var s' := DoDeliver(s, id, commitOk);
    forall w | 0 <= w < |s'.workers| ensures WorkerSound(c, s', s'.workers[w]) {
      assert WorkerSound(c, s, s.workers[w]);
    }
    RowsFrame(c, s, s');
  }

  lemma StepKeepsInv(c: Config, s: State, a: Action)
    requires Inv(c, s)
    ensures Inv(c, Step(c, s, a))
  {
    match a {
      case Insert(id, createdAt, nextAt) =>
        if id !in s.rows {
          InsertKeepsInv(c, s, id, Row(createdAt, false, 0, nextAt));
        }
      case Poll(w, pick, at, now) =>
        if w < |s.workers| {
          PollKeepsInv(c, s, w, pick, at, now);
        }
      case Publish(w, ok, ended, updateOk) =>
        if w < |s.workers| {
          PublishKeepsInv(c, s, w, Try(ok, ended), updateOk);
        }
      case Commit(w, ok) =>
        if w < |s.workers| {
          CommitKeepsInv(c, s, w, ok);
        }
      case Rollback(w) =>
        if w < |s.workers| {
          var s' := SetWorker(s, w, Idle);
          MoveKeepsWorkers(c, s, s', w);
          RowsFrame(c, s, s');
        }
      case Deliver(id, commitOk) => DeliverKeepsInv(c, s, id, commitOk);
    }
  }

  /** The invariant of every run of any number of workers, failing or rolling back anywhere: no
      event is in two open batches, a published event was accepted by the broker, attempts count
      committed failures and the success, the batches of those failures are spaced by their
      backoff, and consumers act once per event. */
  lemma {:induction false} EveryRun(c: Config, s0: State, run: seq<Action>)
    requires Init(s0)
    ensures Inv(c, Exec(c, s0, run))
  {
    if run != [] {
      EveryRun(c, s0, run[..|run| - 1]);
      StepKeepsInv(c, Exec(c, s0, run[..|run| - 1]), run[|run| - 1]);
    }
  }

  // ---------- No resend after a committed publish ----------

  function Times(sent: seq<string>, id: string): nat {
    if sent == [] then 0 else Times(sent[..|sent| - 1], id) + if sent[|sent| - 1] == id then 1 else 0
  }

  ghost predicate IsPublished(s: State, id: string) {
    id in s.rows && s.rows[id].published
  }

  /** Only unpublished events are ever sent. */
  lemma SendsUnpublished(c: Config, s: State, a: Action)
    requires Inv(c, s)
    ensures
      var s' := Step(c, s, a);
      s'.sent == s.sent || exists x :: s'.sent == s.sent + [x] && !IsPublished(s, x)
  {
    if a.Publish? && a.w < |s.workers| {
      var k := s.workers[a.w];
      assert WorkerSound(c, s, k);
      if Step(c, s, a).sent != s.sent {
        assert Step(c, s, a).sent == s.sent + [k.batch[k.pos]] && !IsPublished(s, k.batch[k.pos]);
      }
    }
  }

  /** A published row is in no batch, so no commit touches it. */
  lemma PublishedStays(c: Config, s: State, a: Action, id: string)
    requires Inv(c, s) && IsPublished(s, id)
    ensures IsPublished(Step(c, s, a), id)
  {
    if a.Commit? && a.w < |s.workers| {
      assert WorkerSound(c, s, s.workers[a.w]);
    }
  }

  lemma OneMore(sent: seq<string>, x: string, id: string)
    ensures Times(sent + [x], id) == Times(sent, id) + if x == id then 1 else 0
  {
    assert (sent + [x])[..|sent|] == sent;
  }

  lemma StepDoesNotResend(c: Config, s: State, a: Action, id: string)
    requires Inv(c, s) && IsPublished(s, id)
    ensures IsPublished(Step(c, s, a), id) && Times(Step(c, s, a).sent, id) == Times(s.sent, id)
  {
    PublishedStays(c, s, a, id);
    SendsUnpublished(c, s, a);
    if Step(c, s, a).sent != s.sent {
      var x :| Step(c, s, a).sent == s.sent + [x] && !IsPublished(s, x);
      OneMore(s.sent, x, id);
    }
  }

  /** From any state that satisfies the invariant with an event published, no run sends it again. */
  lemma {:induction false} NeverResentFrom(c: Config, s: State, run: seq<Action>, id: string)
    requires Inv(c, s) && IsPublished(s, id)
    ensures
      var s' := Exec(c, s, run);
      Inv(c, s') && IsPublished(s', id) && Times(s'.sent, id) == Times(s.sent, id)
  {
    if run != [] {
      var init, a := run[..|run| - 1], run[|run| - 1];
      NeverResentFrom(c, s, init, id);
      StepKeepsInv(c, Exec(c, s, init), a);
      StepDoesNotResend(c, Exec(c, s, init), a, id);
    }
  }

  lemma {:induction false} ExecAppend(c: Config, s: State, a: seq<Action>, b: seq<Action>)
    ensures Exec(c, s, a + b) == Exec(c, Exec(c, s, a), b)
  {
    if b == [] {
      assert a + b == a;
    } else {
      var n := |b| - 1;
      ExecAppend(c, s, a, b[..n]);
      assert (a + b)[..|a + b| - 1] == a + b[..n];
    }
  }

  /** Once a batch that marks an event published has committed, no later step of any worker sends
      that event again. */
  lemma NeverResent(c: Config, s0: State, before: seq<Action>, after: seq<Action>, id: string)
    requires Init(s0) && IsPublished(Exec(c, s0, before), id)
    ensures IsPublished(Exec(c, s0, before + after), id)
    ensures Times(Exec(c, s0, before + after).sent, id) == Times(Exec(c, s0, before).sent, id)
  {
    EveryRun(c, s0, before);
    NeverResentFrom(c, Exec(c, s0, before), after, id);
    ExecAppend(c, s0, before, after);
  }

  // ---------- What steps do when they can ----------

  /** A new event is stored unpublished and never attempted, with its own dates; a known id is left alone. */
  lemma InsertStores(c: Config, s: State, id: string, createdAt: int, nextAt: int)
    ensures
      var s' := Step(c, s, Insert(id, createdAt, nextAt));
      if id in s.rows then s' == s else s' == s.(rows := s.rows[id := Row(createdAt, false, 0, nextAt)])
  {
  }

  /** An idle worker that polls locks what the query selects, as of the clock it then reads. */
  lemma PollOpens(c: Config, s: State, w: nat, pick: seq<string>, at: int, now: int)
    requires w < |s.workers| && s.workers[w].Idle? && pick != [] && at <= now && s.clock <= now
    requires Selects(c, s, pick, at)
    ensures
      var s' := Step(c, s, Poll(w, pick, at, now));
      && s'.workers == s.workers[w := Open(pick, 0, at, now, map[], map[], false)] && s'.clock == now
      && s'.rows == s.rows && s'.sent == s.sent && s'.failures == s.failures && s'.handled == s.handled
  {
  }

  /** A worker polls only between batches and commits only once it has tried its whole batch. */
  lemma WorkerWaits(c: Config, s: State, w: nat, pick: seq<string>, at: int, now: int, ok: bool)
    requires w < |s.workers|
    ensures
      var k := s.workers[w];
      && (k.Open? ==> Step(c, s, Poll(w, pick, at, now)) == s)
      && (k.Idle? || k.pos < |k.batch| ==> Step(c, s, Commit(w, ok)) == s)
      && Step(c, s, Rollback(w)) == s.(workers := s.workers[w := Idle])
  {
  }

  /** A delivered event is handled unless it was already or its transaction fails, and no other is. */
  lemma DeliverHandles(c: Config, s: State, id: string, commitOk: bool)
    requires Inv(c, s)
    ensures
      var s' := Step(c, s, Deliver(id, commitOk));
      && (id in s'.handled <==> id in s.handled || (id in s.sent && commitOk))
      && (forall other :: other != id ==> (other in s'.handled <==> other in s.handled))
      && s'.rows == s.rows && s'.workers == s.workers && s'.sent == s.sent
  {
  }

  // ---------- How long a retry waits ----------

  /** A batch opened after the `k`-th committed failure of one of its events was read at least
      `base * 2^(k - 1)` after the clock of the batch in which it failed; since the failure itself,
      that is short by the time from that clock to the failure. */
  lemma RetryWaits(c: Config, s0: State, run: seq<Action>, w: nat, id: string)
    requires Init(s0) && w < |Exec(c, s0, run).workers| && Exec(c, s0, run).workers[w].Open?
    requires id in Exec(c, s0, run).workers[w].batch && FailuresOf(Exec(c, s0, run), id) != []
    ensures
      var s := Exec(c, s0, run);
      var f := FailuresOf(s, id);
      var last := f[|f| - 1];
      && s.workers[w].at >= last.batchClock + Backoff(c, |f|)
      && s.workers[w].at - last.ended >= Backoff(c, |f|) - (last.ended - last.batchClock)
  {
    EveryRun(c, s0, run);
    var s := Exec(c, s0, run);
    assert WorkerSound(c, s, s.workers[w]) && RowSound(c, s, id);
  }

  /** Between two failures of an event, likewise. */
  lemma FailuresWait(c: Config, s0: State, run: seq<Action>, id: string, k: nat)
    requires Init(s0) && id in Exec(c, s0, run).rows && 0 < k < |FailuresOf(Exec(c, s0, run), id)|
    ensures
      var f := FailuresOf(Exec(c, s0, run), id);
      && f[k].batchClock >= f[k - 1].batchClock + Backoff(c, k)
      && f[k].ended - f[k - 1].ended >= Backoff(c, k) - (f[k - 1].ended - f[k - 1].batchClock)
  {
    EveryRun(c, s0, run);
    assert RowSound(c, Exec(c, s0, run), id);
    assert Gap(c, FailuresOf(Exec(c, s0, run), id), k);
  }

  /** Exactly when the full backoff after the failure itself is guaranteed, that is, when every time
      at which the query may return the row again lies a full backoff after its last failure:
      when that failure was known at the very clock its batch had read. */
  lemma FullBackoffIff(c: Config, s0: State, run: seq<Action>, id: string)
    requires Init(s0) && id in Exec(c, s0, run).rows && FailuresOf(Exec(c, s0, run), id) != []
    requires !Exec(c, s0, run).rows[id].published && !Locked(Exec(c, s0, run), id)
    ensures
      var s := Exec(c, s0, run);
      var f := FailuresOf(s, id);
      var last := f[|f| - 1];
      (forall at :: Eligible(s, id, at) ==> at - last.ended >= Backoff(c, |f|)) <==> last.ended == last.batchClock
  {
    EveryRun(c, s0, run);
    var s := Exec(c, s0, run);
    assert RowSound(c, s, id);
    assert Eligible(s, id, s.rows[id].nextAt);
  }

  lemma ExecNext(c: Config, s: State, run: seq<Action>, a: Action)
    ensures Exec(c, s, run + [a]) == Step(c, Exec(c, s, run), a)
  {
    assert (run + [a])[..|run|] == run;
  }

  /** The witness below: a base of 10, a publish that times out 50 after its batch's clock, and a
      batch that reads the row again 1 after that failure. */
  const SHORT := Config(10, 1)

  function Lone(k: Worker, row: Row, failures: map<string, seq<Failure>>, clock: int): State {
    State(map["e" := row], [k], [], failures, [], clock)
  }

  lemma OnlyChoice(row: Row, failures: map<string, seq<Failure>>, clock: int, at: int)
    requires !row.published && row.nextAt <= at && clock <= at
    ensures Step(SHORT, Lone(Idle, row, failures, clock), Poll(0, ["e"], at, at)) ==
            Lone(Open(["e"], 0, at, at, map[], map[], false), row, failures, at)
  {
    var s := Lone(Idle, row, failures, clock);
    assert !Locked(s, "e");
    assert Eligible(s, "e", at);
    assert Selects(SHORT, s, ["e"], at);
  }

  lemma FailedTry()
    ensures
      var row, failed := Row(0, false, 0, 0), Row(0, false, 1, 10);
      var open := Lone(Open(["e"], 0, 0, 0, map[], map[], false), row, map[], 0);
      var tried := Lone(Open(["e"], 1, 0, 0, map["e" := failed], map["e" := Try(false, 50)], false), row, map[], 50);
      && Step(SHORT, open, Publish(0, false, 50, true)) == tried
      && Step(SHORT, tried, Commit(0, true)) == Lone(Idle, failed, map["e" := [Failure(0, 50)]], 50)
  {
    var row, failed := Row(0, false, 0, 0), Row(0, false, 1, 10);
    assert Pow2(0) == 1;
    assert Tried(SHORT, row, false, 0) == failed;
    var none: map<string, Row> := map[];
    assert none["e" := failed] == map["e" := failed];
    assert map["e" := row] + map["e" := failed] == map["e" := failed];
    var tried := Lone(Open(["e"], 1, 0, 0, map["e" := failed], map["e" := Try(false, 50)], false), row, map[], 50);
    var after, tries := DoCommit(tried, 0, true), map["e" := Try(false, 50)];
    assert FailuresOf(tried, "e") + [Failure(0, 50)] == [Failure(0, 50)];
    assert after.failures == map["e" := [Failure(0, 50)]];
    assert after.rows == map["e" := failed] && after.workers == [Idle];
  }

  lemma ExecTo(c: Config, s: State, run: seq<Action>, a: Action, all: seq<Action>, s1: State, s2: State)
    requires Exec(c, s, run) == s1 && Step(c, s1, a) == s2 && all == run + [a]
    ensures Exec(c, s, all) == s2
  {
    ExecNext(c, s, run, a);
  }

  lemma Locks(s0: State, run: seq<Action>)
    requires s0 == State(map[], [Idle], [], map[], [], 0) && run == [Insert("e", 0, 0), Poll(0, ["e"], 0, 0)]
    ensures Exec(SHORT, s0, run) == Lone(Open(["e"], 0, 0, 0, map[], map[], false), Row(0, false, 0, 0), map[], 0)
  {
    var row := Row(0, false, 0, 0);
    OnlyChoice(row, map[], 0, 0);
    ExecTo(SHORT, s0, [], run[0], run[..1], s0, Lone(Idle, row, map[], 0));
    ExecTo(SHORT, s0, run[..1], run[1], run, Lone(Idle, row, map[], 0),
           Lone(Open(["e"], 0, 0, 0, map[], map[], false), row, map[], 0));
  }

  /** A run with a shorter wait. */
  lemma ShortRetry()
    ensures
      var s0 := State(map[], [Idle], [], map[], [], 0);
      var run := [Insert("e", 0, 0), Poll(0, ["e"], 0, 0), Publish(0, false, 50, true), Commit(0, true),
        Poll(0, ["e"], 51, 51)];
      && Init(s0) && Backoff(SHORT, 1) == 10
      && Exec(SHORT, s0, run) ==
         Lone(Open(["e"], 0, 51, 51, map[], map[], false), Row(0, false, 1, 10), map["e" := [Failure(0, 50)]], 51)
  {
    var s0 := State(map[], [Idle], [], map[], [], 0);
    var run := [Insert("e", 0, 0), Poll(0, ["e"], 0, 0), Publish(0, false, 50, true), Commit(0, true),
      Poll(0, ["e"], 51, 51)];
    var row, failed, failures := Row(0, false, 0, 0), Row(0, false, 1, 10), map["e" := [Failure(0, 50)]];
    var s2 := Lone(Open(["e"], 0, 0, 0, map[], map[], false), row, map[], 0);
    var s3 := Lone(Open(["e"], 1, 0, 0, map["e" := failed], map["e" := Try(false, 50)], false), row, map[], 50);
    var s4, s5 := Lone(Idle, failed, failures, 50),
      Lone(Open(["e"], 0, 51, 51, map[], map[], false), failed, failures, 51);
    Locks(s0, run[..2]);
    FailedTry();
    OnlyChoice(failed, failures, 50, 51);
    ExecTo(SHORT, s0, run[..2], run[2], run[..3], s2, s3);
    ExecTo(SHORT, s0, run[..3], run[3], run[..4], s3, s4);
    ExecTo(SHORT, s0, run[..4], run[4], run, s4, s5);
    assert Pow2(0) == 1;
  }

  // ---------- One batch as code ----------

  /** The ids of `pick` whose publish succeeded, in order. */
  function Accepted(pick: seq<string>, accepts: nat -> bool, n: nat): seq<string>
    requires n <= |pick|
  {
    if n == 0 then [] else Accepted(pick, accepts, n - 1) + if accepts(n - 1) then [pick[n - 1]] else []
  }

  /** The first `n` row updates of a batch all succeed. */
  predicate AllUpdate(updates: nat -> bool, n: nat) {
    forall i: nat :: i < n ==> updates(i)
  }

  /** The table after a committed batch has tried its first `n` events. */
  function AfterTries(c: Config, rows: Rows, pick: seq<string>, accepts: nat -> bool, now: int, n: nat): Rows
    requires n <= |pick| && forall id :: id in pick ==> id in rows
  {
    if n == 0 then rows
    else AfterTries(c, rows, pick, accepts, now, n - 1)[pick[n - 1] := Tried(c, rows[pick[n - 1]], accepts(n - 1), now)]
  }

  /** The rows the query looks at: unpublished, due, and locked by no other transaction. */
  function Candidates(rows: Rows, locked: set<string>, at: int): set<string> {
    set id | id in rows && !rows[id].published && rows[id].nextAt <= at && id !in locked
  }

  /** What the query returns: candidates, each once, oldest first, at most `batchSize`, and none
      passed over for a younger one or for want of room. */
  ghost predicate Picks(c: Config, rows: Rows, locked: set<string>, at: int, pick: seq<string>) {
    var all := Candidates(rows, locked, at);
    && |pick| <= c.batchSize && (forall i :: 0 <= i < |pick| ==> pick[i] in all)
    && (forall i, j :: 0 <= i < j < |pick| ==>
          pick[i] != pick[j] && rows[pick[i]].createdAt <= rows[pick[j]].createdAt)
    && (forall id :: id in all && id !in pick ==>
          |pick| == c.batchSize && forall i :: 0 <= i < |pick| ==> rows[pick[i]].createdAt <= rows[id].createdAt)
  }

  /** What that comes to: due, unpublished and unlocked rows, oldest first, as many as fit; whoever is
      left out is no older than anyone picked, and is left out only for want of room. */
  lemma PicksMeans(c: Config, rows: Rows, locked: set<string>, at: int, pick: seq<string>)
    requires Picks(c, rows, locked, at, pick)
    ensures |pick| <= c.batchSize
    ensures forall i :: 0 <= i < |pick| ==>
              && pick[i] in rows && pick[i] !in locked
              && !rows[pick[i]].published && rows[pick[i]].nextAt <= at
    ensures forall i, j :: 0 <= i < j < |pick| ==>
              pick[i] != pick[j] && rows[pick[i]].createdAt <= rows[pick[j]].createdAt
    ensures forall id :: && id in rows && id !in locked && !rows[id].published && rows[id].nextAt <= at
                         && id !in pick ==>
              && |pick| == c.batchSize
              && forall i :: 0 <= i < |pick| ==> rows[pick[i]].createdAt <= rows[id].createdAt
  {
  }

  /** That is what the machine's workers may select. */
  lemma PicksIsSelects(c: Config, s: State, locked: set<string>, at: int, pick: seq<string>)
    requires forall id :: id in s.rows ==> (id in locked <==> Locked(s, id))
    ensures Picks(c, s.rows, locked, at, pick) <==> Selects(c, s, pick, at)
  {
    var all := Candidates(s.rows, locked, at);
    assert forall id :: id in all <==> Eligible(s, id, at);
  }

  lemma {:induction false} Oldest(rows: Rows, ids: set<string>) returns (id: string)
    requires ids != {} && ids <= rows.Keys
    ensures id in ids && forall j :: j in ids ==> rows[id].createdAt <= rows[j].createdAt
    decreases |ids|
  {
    id :| id in ids;
    if ids != {id} {
      var other := Oldest(rows, ids - {id});
      if rows[other].createdAt < rows[id].createdAt {
        id := other;
      }
    }
  }

  class OutboxTable {
    const config: Config
    var rows: Rows
    var sent: seq<string>

    constructor (c: Config, initial: Rows)
      ensures config == c && rows == initial && sent == []
    {
      config, rows, sent := c, initial, [];
    }

    /** `SELECT ... ORDER BY created_at LIMIT $1 FOR UPDATE SKIP LOCKED`. */
    method Query(locked: set<string>, at: int) returns (pick: seq<string>)
      ensures Picks(config, rows, locked, at, pick)
    {
      ghost var all := Candidates(rows, locked, at);
      var left := Candidates(rows, locked, at);
      pick := [];
      while |pick| < config.batchSize && left != {}
        invariant |pick| <= config.batchSize && left <= all
        invariant forall id :: id in all ==> (id in left <==> id !in pick)
        invariant forall i :: 0 <= i < |pick| ==> pick[i] in all
        invariant forall i, j :: 0 <= i < j < |pick| ==>
                    pick[i] != pick[j] && rows[pick[i]].createdAt <= rows[pick[j]].createdAt
        invariant forall i, id :: 0 <= i < |pick| && id in left ==> rows[pick[i]].createdAt <= rows[id].createdAt
        decreases |left|
      {
        ghost var oldest := Oldest(rows, left);
        var id :| id in left && forall j :: j in left ==> rows[id].createdAt <= rows[j].createdAt;
        pick, left := pick + [id], left - {id};
      }
    }

    /** The loop over the picked events and the commit: `accepts(i)` says whether the broker takes
        event `i`, `updates(i)` whether the row update that follows succeeds, and `stopAt` is where
        the context is cancelled, if it is.  A failed update is only logged, so publishing goes on,
        but it has aborted the transaction and the commit fails. */
    method PublishBatch(pick: seq<string>, now: int, accepts: nat -> bool, updates: nat -> bool, stopAt: nat,
                        commitOk: bool)
        returns (ok: bool)
      requires forall id :: id in pick ==> id in rows
      modifies this
      ensures ok <==> |pick| <= stopAt && commitOk && AllUpdate(updates, |pick|)
      ensures sent == old(sent) + Accepted(pick, accepts, if |pick| <= stopAt then |pick| else stopAt)
      ensures rows == if ok then AfterTries(config, old(rows), pick, accepts, now, |pick|) else old(rows)
    {
      var working, aborted := rows, false;
      for n := 0 to |pick|
        invariant n <= stopAt && rows == old(rows)
        invariant sent == old(sent) + Accepted(pick, accepts, n)
        invariant aborted <==> !AllUpdate(updates, n)
        invariant !aborted ==> working == AfterTries(config, rows, pick, accepts, now, n)
      {
        if n == stopAt {
          return false;
        }
        var id := pick[n];
        var event := rows[id];
        if !accepts(n) {
          var newAttempts := event.attempts + 1;
          var nextAttempt := now + config.base * Pow2(newAttempts - 1);
          working := working[id := event.(attempts := newAttempts, nextAt := nextAttempt)];
        } else {
          sent := sent + [id];
          working := working[id := event.(published := true, attempts := event.attempts + 1)];
        }
        if !updates(n) {
          aborted := true;
        }
      }
      if aborted || !commitOk {
        return false;
      }
      rows := working;
      return true;
    }

    /** `processBatch`; `locked` are the rows other transactions hold. */
    method ProcessBatch(locked: set<string>, at: int, now: int, accepts: nat -> bool, updates: nat -> bool,
                        stopAt: nat, commitOk: bool)
        returns (ok: bool, pick: seq<string>)
      modifies this
      ensures Picks(config, old(rows), locked, at, pick)
      ensures ok <==> pick == [] || (|pick| <= stopAt && commitOk && AllUpdate(updates, |pick|))
      ensures sent == old(sent) + Accepted(pick, accepts, if |pick| <= stopAt then |pick| else stopAt)
      ensures rows == if ok then AfterTries(config, old(rows), pick, accepts, now, |pick|) else old(rows)
    {
      pick := Query(locked, at);
      ok := true;
      if pick != [] {
        ok := PublishBatch(pick, now, accepts, updates, stopAt, commitOk);
      }
    }
  }

  /** A batch touches no row but its own ... */
  lemma {:induction false} BatchTouchesOnlyItsRows(c: Config, rows: Rows, pick: seq<string>, accepts: nat -> bool,
                                                   now: int,
                                                   n: nat, id: string)
    requires n <= |pick| && (forall j :: j in pick ==> j in rows) && id in rows
    requires forall i :: 0 <= i < n ==> pick[i] != id
    ensures id in AfterTries(c, rows, pick, accepts, now, n)
    ensures AfterTries(c, rows, pick, accepts, now, n)[id] == rows[id]
  {
    if n > 0 {
      BatchTouchesOnlyItsRows(c, rows, pick, accepts, now, n - 1, id);
    }
  }

  /** ... and tries each of its events exactly once, from the row it read. */
  lemma {:induction false} BatchTriesEachOnce(c: Config, rows: Rows, pick: seq<string>, accepts: nat -> bool, now: int,
                                              n: nat, i: nat)
    requires i < n <= |pick| && forall j :: j in pick ==> j in rows
    requires forall j, k :: 0 <= j < k < |pick| ==> pick[j] != pick[k]
    ensures pick[i] in AfterTries(c, rows, pick, accepts, now, n)
    ensures AfterTries(c, rows, pick, accepts, now, n)[pick[i]] == Tried(c, rows[pick[i]], accepts(i), now)
  {
    if i < n - 1 {
      BatchTriesEachOnce(c, rows, pick, accepts, now, n - 1, i);
      assert pick[i] != pick[n - 1];
    }
  }

  // ---------- The code's batch is a run of the machine ----------

  /** The batch's publishes, with the broker's answers in at `ends(0)`, `ends(1)`, ... */
  function PublishAll(w: nat, accepts: nat -> bool, ends: nat -> int, updates: nat -> bool, n: nat): seq<Action> {
    if n == 0 then []
    else
      var last := Publish(w, accepts(n - 1), ends(n - 1), updates(n - 1));
      PublishAll(w, accepts, ends, updates, n - 1) + [last]
  }

  /** The worker has just locked its batch. */
  ghost predicate JustPolled(s: State, w: nat) {
    && w < |s.workers| && s.workers[w].Open?
    && (var k := s.workers[w];
        k.pos == 0 && k.staged == map[] && k.tries == map[] && !k.doomed && forall id :: id in k.batch ==> id in s.rows)
  }

  /** The answers come in one after the other, none before the batch's clock. */
  ghost predicate InOrder(s: State, w: nat, ends: nat -> int)
    requires JustPolled(s, w)
  {
    && (forall i: nat :: ends(i) >= s.clock && ends(i) >= s.workers[w].now)
    && (forall i: nat :: i > 0 ==> ends(i - 1) <= ends(i))
  }

  /** The worker has tried the first `n` events of the batch it had in `s`. */
  ghost predicate HasTried(c: Config, s: State, s': State, w: nat, accepts: nat -> bool, updates: nat -> bool, n: nat)
    requires JustPolled(s, w) && n <= |s.workers[w].batch|
  {
    var k := s.workers[w];
    && |s'.workers| == |s.workers| && s'.workers[w].Open?
    && s'.rows == s.rows && s'.sent == s.sent + Accepted(k.batch, accepts, n)
    && (var k' := s'.workers[w];
        && k'.batch == k.batch && k'.pos == n && k'.now == k.now && (k'.doomed <==> !AllUpdate(updates, n))
        && (!k'.doomed ==> s.rows + k'.staged == AfterTries(c, s.rows, k.batch, accepts, k.now, n)))
  }

  lemma TryNext(c: Config, s: State, s1: State, s2: State, w: nat, accepts: nat -> bool, ended: int,
                updates: nat -> bool, n: nat)
    requires JustPolled(s, w) && n < |s.workers[w].batch| && HasTried(c, s, s1, w, accepts, updates, n)
    requires ended >= s1.clock && ended >= s.workers[w].now
    requires s2 == DoPublish(c, s1, w, Try(accepts(n), ended), updates(n))
    ensures HasTried(c, s, s2, w, accepts, updates, n + 1) && s2.clock == ended
  {
    var k1, id := s1.workers[w], s.workers[w].batch[n];
    var r := Tried(c, s.rows[id], accepts(n), k1.now);
    assert id in s.workers[w].batch;
    assert AllUpdate(updates, n + 1) <==> AllUpdate(updates, n) && updates(n);
    if !k1.doomed && updates(n) {
      assert s2.workers[w].staged == k1.staged[id := r];
      assert s.rows + k1.staged[id := r] == (s.rows + k1.staged)[id := r];
    }
  }

  lemma PublishNext(c: Config, s: State, w: nat, accepts: nat -> bool, ends: nat -> int, updates: nat -> bool, n: nat,
                    s1: State)
    requires s1 == Exec(c, s, PublishAll(w, accepts, ends, updates, n)) && w < |s1.workers|
    ensures Exec(c, s, PublishAll(w, accepts, ends, updates, n + 1)) ==
            DoPublish(c, s1, w, Try(accepts(n), ends(n)), updates(n))
  {
    ExecNext(c, s, PublishAll(w, accepts, ends, updates, n), Publish(w, accepts(n), ends(n), updates(n)));
  }

  lemma NoneTried(c: Config, s: State, w: nat, accepts: nat -> bool, updates: nat -> bool)
    requires JustPolled(s, w)
    ensures HasTried(c, s, s, w, accepts, updates, 0)
  {
    assert s.rows + map[] == s.rows;
  }

  lemma {:induction false} TriesRun(c: Config, s: State, w: nat, accepts: nat -> bool, ends: nat -> int,
                                    updates: nat -> bool, n: nat, s': State)
    requires JustPolled(s, w) && n <= |s.workers[w].batch| && InOrder(s, w, ends)
    requires s' == Exec(c, s, PublishAll(w, accepts, ends, updates, n))
    ensures HasTried(c, s, s', w, accepts, updates, n) && s'.clock == if n == 0 then s.clock else ends(n - 1)
  {
    if n == 0 {
      NoneTried(c, s, w, accepts, updates);
    } else {
      var s1 := Exec(c, s, PublishAll(w, accepts, ends, updates, n - 1));
      TriesRun(c, s, w, accepts, ends, updates, n - 1, s1);
      PublishNext(c, s, w, accepts, ends, updates, n - 1, s1);
      TryNext(c, s, s1, s', w, accepts, ends(n - 1), updates, n - 1);
    }
  }

  function LastAction(s: State, w: nat, n: nat, commitOk: bool): Action
    requires w < |s.workers| && s.workers[w].Open?
  {
    if n < |s.workers[w].batch| then Rollback(w) else Commit(w, commitOk)
  }

  lemma LastStep(c: Config, s: State, s1: State, s2: State, w: nat, accepts: nat -> bool, updates: nat -> bool, n: nat,
                 commitOk: bool)
    requires JustPolled(s, w) && n <= |s.workers[w].batch| && HasTried(c, s, s1, w, accepts, updates, n)
    requires s2 == Step(c, s1, LastAction(s, w, n, commitOk))
    ensures s2.sent == s1.sent
    ensures s2.rows == if n == |s.workers[w].batch| && commitOk && AllUpdate(updates, n)
                       then s1.rows + s1.workers[w].staged else s1.rows
  {
  }

  /** The steps of one worker through its batch and commit end with the table and the broker log
      that `ProcessBatch` computes; so do those of a worker that stops early. */
  lemma BatchIsRun(c: Config, s: State, w: nat, accepts: nat -> bool, ends: nat -> int, updates: nat -> bool, n: nat,
                   commitOk: bool)
    requires JustPolled(s, w) && n <= |s.workers[w].batch| && InOrder(s, w, ends)
    ensures
      var k := s.workers[w];
      var s' := Exec(c, s, PublishAll(w, accepts, ends, updates, n) + [LastAction(s, w, n, commitOk)]);
      && s'.sent == s.sent + Accepted(k.batch, accepts, n)
      && s'.rows == if n == |k.batch| && commitOk && AllUpdate(updates, n)
                    then AfterTries(c, s.rows, k.batch, accepts, k.now, n) else s.rows
  {
    var run, a := PublishAll(w, accepts, ends, updates, n), LastAction(s, w, n, commitOk);
    TriesRun(c, s, w, accepts, ends, updates, n, Exec(c, s, run));
    ExecNext(c, s, run, a);
    LastStep(c, s, Exec(c, s, run), Exec(c, s, run + [a]), w, accepts, updates, n, commitOk);
  }

  // ---------- The consumer as code ----------

  class IdempotentConsumer {
    var processed: map<string, nat>
    var log: set<string>

    constructor ()
      ensures processed == map[] && log == {}
    {
      processed, log := map[], {};
    }

    /** Counts every delivery; the business logic runs and the log grows exactly when the event
        is new and its transaction goes through.  A failed attempt leaves the log as it was, so
        the next delivery tries again. */
    method ProcessEvent(id: string, dbOk: bool, commitOk: bool) returns (ok: bool, worked: bool)
      modifies this
      ensures processed == old(processed)[id := (if id in old(processed) then old(processed)[id] else 0) + 1]
      ensures worked <==> dbOk && commitOk && id !in old(log)
      ensures log == if worked then old(log) + {id} else old(log)
      ensures ok <==> dbOk && (id in old(log) || commitOk)
    {
      var count := if id in processed then processed[id] else 0;
      processed := processed[id := count + 1];
      if !dbOk {
        return false, false;
      }
      if id in log {
        return true, false;
      }
      if !commitOk {
        return false, false;
      }
      log := log + {id};
      return true, true;
    }
  }
}
