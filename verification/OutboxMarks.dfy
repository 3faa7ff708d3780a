/** When an event marked published was itself sent (labs/03-database-transaction/external.go): the
    dispatcher marks by id (external.go:578), which marks every stored event with that id. */
module OutboxMarks {
  import opened MockDb
  import opened OutboxPipeline

  /** A row marked published holds an event the broker accepted. */
  ghost predicate SentRow(r: Row, broker: seq<Event>) {
    Formed(r) && (Col(r, "status") == PUBLISHED ==> EventOf(r) in broker)
  }

  ghost predicate AllSent(s: State) {
    HasTables(s.tables) && forall i :: 0 <= i < |Of(s.tables).outbox| ==> SentRow(Of(s.tables).outbox[i], s.broker)
  }

  /** The action marks an event: its dispatcher has sent it and the update goes through. */
  ghost predicate MarksNow(s: State, a: Action) {
    && a.Mark? && a.ok && a.d < |s.dispatchers|
    && s.dispatchers[a.d].Busy? && s.dispatchers[a.d].sent && s.dispatchers[a.d].next < |s.dispatchers[a.d].batch|
  }

  ghost function Current(s: State, d: nat): Event
    requires d < |s.dispatchers| && s.dispatchers[d].Busy? && s.dispatchers[d].next < |s.dispatchers[d].batch|
  {
    s.dispatchers[d].batch[s.dispatchers[d].next]
  }

  ghost predicate ClearRow(r: Row, broker: seq<Event>, id: string) {
    Formed(r) && EventOf(r).id == id ==> EventOf(r) in broker
  }

  /** Every stored event with this id has been accepted by the broker. */
  ghost predicate ClearId(s: State, id: string) {
    HasTables(s.tables) && forall i :: 0 <= i < |Of(s.tables).outbox| ==> ClearRow(Of(s.tables).outbox[i], s.broker, id)
  }

  /** Marking one row by id, seen from the row. */
  lemma MarkOneRow(r: Row, r': Row, broker: seq<Event>, id: string, now: Value)
    requires SentRow(r, broker)
    requires r' == if EqualVal(Col(r, "id"), Text(id))
                   then Assign(r, [Pair("status", PUBLISHED), Pair("published_at", now)]) else r
    ensures SentRow(r', broker) <==> ClearRow(r, broker, id)
    ensures IsStored(r', EventOf(r)) && (Col(r', "status") == PENDING ==> r' == r)
  {
    MarkedRow(r, now);
    assert |"pending"| == 7 && |"published"| == 9;
  }

  lemma MarkResult(s: State, a: Action, s': State)
    requires Inv(s) && MarksNow(s, a) && s' == Step(s, a)
    ensures HasTables(s'.tables) && s'.broker == s.broker
    ensures Of(s'.tables).outbox == Marked(Of(s.tables).outbox, Current(s, a.d).id, a.now)
  {
    MarkTable(s.tables, Current(s, a.d).id, a.now);
  }

  /** Exactly when marking keeps the promise: every stored event with that id is with the broker. */
  lemma MarkSentIff(s: State, a: Action)
    requires Inv(s) && AllSent(s) && MarksNow(s, a)
    ensures AllSent(Step(s, a)) <==> ClearId(s, Current(s, a.d).id)
  {
    var s' := Step(s, a);
    var id, o := Current(s, a.d).id, Of(s.tables).outbox;
    MarkResult(s, a, s');
    var o' := Of(s'.tables).outbox;
    forall i | 0 <= i < |o| ensures SentRow(o'[i], s.broker) <==> ClearRow(o[i], s.broker, id) {
      assert SentRow(o[i], s.broker);
      MarkOneRow(o[i], o'[i], s.broker, id, a.now);
    }
    if AllSent(s') {
      forall i | 0 <= i < |o| ensures ClearRow(o[i], s.broker, id) {
        assert SentRow(o'[i], s'.broker);
      }
    }
    if ClearId(s, id) {
      forall i | 0 <= i < |o'| ensures SentRow(o'[i], s'.broker) {
        assert ClearRow(o[i], s.broker, id);
      }
    }
  }

  // ---------- Steps that mark nothing ----------

  /** The outbox afterwards: the same, or with one pending row more. */
  ghost predicate SameOrOneMore(o: seq<Row>, o': seq<Row>) {
    o' == o || (|o'| == |o| + 1 && o'[..|o|] == o && Formed(o'[|o|]) && Col(o'[|o|], "status") == PENDING)
  }

  lemma UnmarkedOutbox(s: State, a: Action, s': State)
    requires HasTables(s.tables) && !MarksNow(s, a) && s' == Step(s, a)
    ensures HasTables(s'.tables) && SameOrOneMore(Of(s.tables).outbox, Of(s'.tables).outbox) && s.broker <= s'.broker
    ensures !a.Pay? ==> Of(s'.tables).outbox == Of(s.tables).outbox
  {
    if a.Pay? {
      PayIsAtomic(s.tables, a.inv, a.nano, a.payload, a.now);
      OutboxRowForm(a.inv, a.nano, a.payload, a.now);
    } else if a.AddInvoice? {
      AddTable(s.tables, a.row);
    } else if a.Handle? && a.ok && a.delivery < |s.broker| {
      HandleIsAtomic(s.tables, a.consumer, s.broker[a.delivery], a.now);
    }
  }

  lemma UnmarkedKeepsSent(s: State, a: Action, s': State)
    requires AllSent(s) && !MarksNow(s, a) && s' == Step(s, a)
    ensures AllSent(s')
  {
    UnmarkedOutbox(s, a, s');
    var o, o' := Of(s.tables).outbox, Of(s'.tables).outbox;
    assert |"pending"| == 7 && |"published"| == 9;
    forall i | 0 <= i < |o'| ensures SentRow(o'[i], s'.broker) {
      if i < |o| {
        assert o'[..|o|][i] == o'[i];
        assert SentRow(o[i], s.broker);
      }
    }
  }

  // ---------- Whole runs ----------

  /** This action marks an id under which some stored event was never sent. */
  ghost predicate Hides(s: State, a: Action) {
    MarksNow(s, a) && !ClearId(s, Current(s, a.d).id)
  }

  ghost predicate NeverHides(s: State, run: seq<Action>) {
    run == [] || (NeverHides(s, run[..|run| - 1]) && !Hides(Exec(s, run[..|run| - 1]), run[|run| - 1]))
  }

  /** In every state on the way, events marked published were sent. */
  ghost predicate SentThroughout(s: State, run: seq<Action>) {
    AllSent(Exec(s, run)) && (run == [] || SentThroughout(s, run[..|run| - 1]))
  }

  /** A run keeps the promise throughout if and only if it never marks an id under which some
      stored event has not been sent. */
  lemma {:induction false} SentThroughoutIff(s: State, run: seq<Action>)
    requires Inv(s) && AllSent(s)
    ensures Inv(Exec(s, run)) && (SentThroughout(s, run) <==> NeverHides(s, run))
  {
    if run != [] {
      var front, a := run[..|run| - 1], run[|run| - 1];
      var s1, s2 := Exec(s, front), Exec(s, run);
      SentThroughoutIff(s, front);
      StepKeepsInv(s1, a);
      if AllSent(s1) {
        if MarksNow(s1, a) {
          MarkSentIff(s1, a);
        } else {
          UnmarkedKeepsSent(s1, a, s2);
        }
      }
    }
  }

  // ---------- What can still go wrong ----------

  /** Dispatcher `d` has this event still before it, or has sent it and not marked it yet. */
  ghost predicate InHand(s: State, d: nat, m: nat, e: Event) {
    && d < |s.dispatchers| && s.dispatchers[d].Busy?
    && s.dispatchers[d].next <= m < |s.dispatchers[d].batch| && s.dispatchers[d].batch[m] == e
  }

  ghost predicate Pending(s: State, e: Event)
    requires HasTables(s.tables)
  {
    exists i: nat :: PendingAt(Of(s.tables).outbox, i, e)
  }

  /** Some dispatcher may yet mark this event. */
  ghost predicate Markable(s: State, e: Event)
    requires HasTables(s.tables)
  {
    (s.dispatchers != [] && Pending(s, e)) || exists d: nat, m: nat :: InHand(s, d, m, e)
  }

  /** No event that may yet be marked shares its id with another that is pending and unsent. */
  ghost predicate Safe(s: State)
    requires HasTables(s.tables)
  {
    forall e, e' :: Markable(s, e) && Pending(s, e') && e' !in s.broker && e.id == e'.id ==> e == e'
  }

  ghost predicate NoPay(run: seq<Action>) {
    forall i :: 0 <= i < |run| ==> !run[i].Pay?
  }

  lemma SafeMarkIsClear(s: State, a: Action)
    requires Inv(s) && AllSent(s) && Safe(s) && MarksNow(s, a)
    ensures ClearId(s, Current(s, a.d).id)
  {
    var e, o := Current(s, a.d), Of(s.tables).outbox;
    assert DispatcherOk(s.dispatchers[a.d], o, s.broker);
    assert InHand(s, a.d, s.dispatchers[a.d].next, e);
    forall i: nat | i < |o| ensures ClearRow(o[i], s.broker, e.id) {
      assert SentRow(o[i], s.broker);
      if EventOf(o[i]).id == e.id && Col(o[i], "status") == PENDING {
        assert PendingAt(o, i, EventOf(o[i]));
      }
    }
  }

  /** Without payments nothing becomes pending that was not. */
  lemma PendingBefore(s: State, a: Action, s': State, e: Event)
    requires Inv(s) && AllSent(s) && !a.Pay? && s' == Step(s, a) && HasTables(s'.tables) && Pending(s', e)
    ensures Pending(s, e)
  {
    var o, o' := Of(s.tables).outbox, Of(s'.tables).outbox;
    var i: nat :| PendingAt(o', i, e);
    if MarksNow(s, a) {
      MarkResult(s, a, s');
      assert SentRow(o[i], s.broker);
      MarkOneRow(o[i], o'[i], s.broker, Current(s, a.d).id, a.now);
    } else {
      UnmarkedOutbox(s, a, s');
    }
    assert PendingAt(o, i, e);
  }

  lemma DispatchersStay(s: State, a: Action, s': State)
    requires s' == Step(s, a)
    ensures |s'.dispatchers| == |s.dispatchers|
  {
  }

  lemma InHandBefore(s: State, a: Action, s': State, d: nat, m: nat, e: Event)
    requires Inv(s) && s' == Step(s, a) && InHand(s', d, m, e)
    ensures Markable(s, e)
  {
    if a.Fetch? && a.d == d && s'.dispatchers[d] != s.dispatchers[d] {
      FormedRows(s);
      FetchedPending(s.tables, e);
    } else {
      assert InHand(s, d, m, e);
    }
  }

  lemma MarkableBefore(s: State, a: Action, s': State, e: Event)
    requires Inv(s) && AllSent(s) && !a.Pay? && s' == Step(s, a) && HasTables(s'.tables) && Markable(s', e)
    ensures Markable(s, e)
  {
    if s'.dispatchers != [] && Pending(s', e) {
      PendingBefore(s, a, s', e);
      DispatchersStay(s, a, s');
    } else {
      var d: nat, m: nat :| InHand(s', d, m, e);
      InHandBefore(s, a, s', d, m, e);
    }
  }

  lemma StepKeepsSafe(s: State, a: Action, s': State)
    requires Inv(s) && AllSent(s) && Safe(s) && !a.Pay? && s' == Step(s, a)
    ensures AllSent(s') && Safe(s')
  {
    if MarksNow(s, a) {
      SafeMarkIsClear(s, a);
      MarkSentIff(s, a);
      MarkResult(s, a, s');
    } else {
      UnmarkedKeepsSent(s, a, s');
      UnmarkedOutbox(s, a, s');
    }
    forall e, e' | Markable(s', e) && Pending(s', e') && e' !in s'.broker && e.id == e'.id ensures e == e' {
      MarkableBefore(s, a, s', e);
      PendingBefore(s, a, s', e');
    }
  }

  lemma {:induction false} SafeSurvives(s: State, run: seq<Action>)
    requires Inv(s) && AllSent(s) && Safe(s) && NoPay(run)
    ensures Inv(Exec(s, run)) && SentThroughout(s, run) && Safe(Exec(s, run))
  {
    if run != [] {
      var front, a := run[..|run| - 1], run[|run| - 1];
      SafeSurvives(s, front);
      StepKeepsInv(Exec(s, front), a);
      StepKeepsSafe(Exec(s, front), a, Exec(s, run));
    }
  }

  // ---------- And does ----------

  lemma {:induction false} ExecFirst(s: State, a: Action, run: seq<Action>, s1: State)
    requires s1 == Step(s, a)
    ensures Exec(s, [a] + run) == Exec(s1, run)
    decreases |run|
  {
    var all := [a] + run;
    if run == [] {
      assert all[..0] == [] && all[0] == a;
      assert Exec(s, all[..0]) == s;
    } else {
      var n := |run| - 1;
      ExecFirst(s, a, run[..n], s1);
      assert all[..|all| - 1] == [a] + run[..n] && all[|all| - 1] == run[n];
    }
  }

  /** The next step of a dispatcher that skips to its `m`-th event, sends that and marks it. */
  function Towards(k: Dispatcher, d: nat, m: nat): Action
    requires k.Busy?
  {
    if k.next < m then (if k.sent then Mark(d, false, Nil) else Send(d, false))
    else if k.sent then Mark(d, true, Nil)
    else Send(d, true)
  }

  /** An event in hand, and another pending and unsent under its id. */
  ghost predicate Trouble(s: State, d: nat, m: nat, e: Event, e': Event) {
    && HasTables(s.tables) && InHand(s, d, m, e) && Pending(s, e') && e' !in s.broker
    && e.id == e'.id && e != e'
  }

  lemma UnmarkedKeeps(s: State, a: Action, s': State)
    requires Inv(s) && AllSent(s) && !MarksNow(s, a) && s' == Step(s, a)
    ensures Inv(s') && AllSent(s')
  {
    StepKeepsInv(s, a);
    UnmarkedKeepsSent(s, a, s');
  }

  lemma TowardsResult(s: State, d: nat, m: nat, e: Event, a: Action, s': State)
    requires InHand(s, d, m, e) && a == Towards(s.dispatchers[d], d, m) && s' == Step(s, a)
    requires s.dispatchers[d].next < m || !s.dispatchers[d].sent
    ensures !MarksNow(s, a) && s'.tables == s.tables && InHand(s', d, m, e)
    ensures s'.broker == s.broker || s'.broker == s.broker + [e]
    ensures
      var k, k' := s.dispatchers[d], s'.dispatchers[d];
      if k.next < m then k'.next == k.next + 1 else k'.next == k.next && k'.sent
  {
  }

  lemma SkipStaysInTrouble(s: State, d: nat, m: nat, e: Event, e': Event, a: Action, s': State)
    requires Trouble(s, d, m, e, e') && a == Towards(s.dispatchers[d], d, m) && s' == Step(s, a)
    requires s.dispatchers[d].next < m || !s.dispatchers[d].sent
    ensures Trouble(s', d, m, e, e')
  {
    TowardsResult(s, d, m, e, a, s');
    var i: nat :| PendingAt(Of(s.tables).outbox, i, e');
    assert PendingAt(Of(s'.tables).outbox, i, e');
  }

  lemma MarkingHides(s: State, d: nat, m: nat, e: Event, e': Event, s': State)
    requires Inv(s) && AllSent(s) && Trouble(s, d, m, e, e') && s.dispatchers[d].next == m && s.dispatchers[d].sent
    requires s' == Step(s, Mark(d, true, Nil))
    ensures !AllSent(s')
  {
    var a, o := Mark(d, true, Nil), Of(s.tables).outbox;
    var i: nat :| PendingAt(o, i, e');
    MarkSentIff(s, a);
    assert !ClearRow(o[i], s.broker, e.id);
  }

  lemma {:induction false} TroubleFails(s: State, d: nat, m: nat, e: Event, e': Event) returns (run: seq<Action>)
    requires Inv(s) && AllSent(s) && Trouble(s, d, m, e, e')
    ensures NoPay(run) && !AllSent(Exec(s, run))
    decreases m - s.dispatchers[d].next, if s.dispatchers[d].sent then 0 else 1
  {
    var k := s.dispatchers[d];
    var a := Towards(k, d, m);
    var s' := Step(s, a);
    if k.next == m && k.sent {
      MarkingHides(s, d, m, e, e', s');
      ExecFirst(s, a, [], s');
      run := [a] + [];
    } else {
      TowardsResult(s, d, m, e, a, s');
      UnmarkedKeeps(s, a, s');
      SkipStaysInTrouble(s, d, m, e, e', a, s');
      var rest := TroubleFails(s', d, m, e, e');
      ExecFirst(s, a, rest, s');
      run := [a] + rest;
    }
  }

  /** The first dispatcher crashes and fetches again. */
  ghost function Refetched(s: State): State {
    Step(Step(s, Crash(0)), Fetch(0))
  }

  lemma RefetchResult(s: State)
    requires s.dispatchers != []
    ensures
      var s2 := Refetched(s);
      && s2.tables == s.tables && s2.broker == s.broker && |s2.dispatchers| == |s.dispatchers|
      && s2.dispatchers[0] == Busy(Fetched(s.tables), 0, false)
  {
  }

  lemma RefetchKeeps(s: State)
    requires Inv(s) && AllSent(s)
    ensures Inv(Refetched(s)) && AllSent(Refetched(s))
  {
    UnmarkedKeeps(s, Crash(0), Step(s, Crash(0)));
    UnmarkedKeeps(Step(s, Crash(0)), Fetch(0), Refetched(s));
  }

  lemma AfterRefetch(s: State, rest: seq<Action>)
    ensures Exec(s, [Crash(0)] + ([Fetch(0)] + rest)) == Exec(Refetched(s), rest)
  {
    var s1 := Step(s, Crash(0));
    ExecFirst(s1, Fetch(0), rest, Refetched(s));
    ExecFirst(s, Crash(0), [Fetch(0)] + rest, s1);
  }

  /** A pending event can be taken in hand by any dispatcher, after a crash if need be. */
  lemma TakeInHand(s: State, e: Event, e': Event) returns (m: nat)
    requires Inv(s) && s.dispatchers != []
    requires Pending(s, e) && Pending(s, e') && e' !in s.broker && e.id == e'.id && e != e'
    ensures Trouble(Refetched(s), 0, m, e, e')
  {
    FormedRows(s);
    FetchedPending(s.tables, e);
    m :| 0 <= m < |Fetched(s.tables)| && Fetched(s.tables)[m] == e;
    RefetchResult(s);
    var i: nat :| PendingAt(Of(s.tables).outbox, i, e');
    assert PendingAt(Of(Refetched(s).tables).outbox, i, e');
  }

  lemma PendingFails(s: State, e: Event, e': Event) returns (run: seq<Action>)
    requires Inv(s) && AllSent(s) && s.dispatchers != []
    requires Pending(s, e) && Pending(s, e') && e' !in s.broker && e.id == e'.id && e != e'
    ensures NoPay(run) && !AllSent(Exec(s, run))
  {
    RefetchKeeps(s);
    var m := TakeInHand(s, e, e');
    var rest := TroubleFails(Refetched(s), 0, m, e, e');
    AfterRefetch(s, rest);
    run := [Crash(0)] + ([Fetch(0)] + rest);
  }

  lemma UnsafeFails(s: State) returns (run: seq<Action>)
    requires Inv(s) && AllSent(s) && !Safe(s)
    ensures NoPay(run) && !AllSent(Exec(s, run))
  {
    var e, e' :| Markable(s, e) && Pending(s, e') && e' !in s.broker && e.id == e'.id && e != e';
    if d: nat, m: nat :| InHand(s, d, m, e) {
      run := TroubleFails(s, d, m, e, e');
    } else {
      run := PendingFails(s, e, e');
    }
  }

  /** The promise survives every continuation without further payments if and only if no event
      that may yet be marked shares its id with another that is pending and unsent. */
  lemma SurvivesIff(s: State)
    requires Inv(s) && AllSent(s)
    ensures (forall run :: NoPay(run) ==> SentThroughout(s, run)) <==> Safe(s)
  {
    if Safe(s) {
      forall run | NoPay(run) ensures SentThroughout(s, run) {
        SafeSurvives(s, run);
      }
    } else {
      var run := UnsafeFails(s);
      assert !SentThroughout(s, run);
    }
  }
}
