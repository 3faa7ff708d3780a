/** Any number of checkouts, interleaved between their calls on shared repositories
    (labs/09-code-review/checkout_improved.go, mock.go).

    A transaction runs under the manager's mutex, so it is one step.  The repositories may fail
    any claim, product load, order creation, release or completion. */
module CheckoutMachine {
  import opened Wrappers
  import opened Checkouts

  // ---------- Idempotency records ----------

  datatype Record = Processing(hash: string) | Completed(hash: string, response: Response)

  type Records = map<string, Record>

  datatype Claim = Won | Cached(response: Response) | Lost(error: Error)

  function ClaimKey(rs: Records, key: string, hash: string): (Records, Claim) {
    if key in rs then
      if rs[key].hash != hash then (rs, Lost(Conflict))
      else if rs[key].Completed? then (rs, Cached(rs[key].response))
      else (rs, Lost(Duplicate))
    else (rs[key := Processing(hash)], Won)
  }

  function MarkKey(rs: Records, key: string, r: Response): Records {
    if key in rs then rs[key := Completed(rs[key].hash, r)] else rs
  }

  /** The repository as code; each call consumes the failure injected for it, if any. */
  class IdempotencyRepository {
    var records: Records
    var claimErr: bool
    var markErr: bool
    var releaseErr: bool

    constructor ()
      ensures records == map[] && !claimErr && !markErr && !releaseErr
    {
      records, claimErr, markErr, releaseErr := map[], false, false, false;
    }

    method Claim(key: string, hash: string) returns (c: Claim)
      modifies this
      ensures !claimErr && markErr == old(markErr) && releaseErr == old(releaseErr)
      ensures (records, c) ==
              if old(claimErr) then (old(records), Lost(ClaimError)) else ClaimKey(old(records), key, hash)
    {
      if claimErr {
        claimErr := false;
        return Lost(ClaimError);
      }
      if key in records {
        var existing := records[key];
        if existing.hash != hash {
          return Lost(Conflict);
        }
        if existing.Completed? {
          return Cached(existing.response);
        }
        return Lost(Duplicate);
      }
      records := records[key := Processing(hash)];
      return Won;
    }

    method MarkCompleted(key: string, r: Response) returns (ok: bool)
      modifies this
      ensures !markErr && claimErr == old(claimErr) && releaseErr == old(releaseErr)
      ensures ok == !old(markErr)
      ensures records == if ok then MarkKey(old(records), key, r) else old(records)
    {
      if markErr {
        markErr := false;
        return false;
      }
      if key in records {
        records := records[key := Completed(records[key].hash, r)];
      }
      return true;
    }

    method Release(key: string) returns (ok: bool)
      modifies this
      ensures !releaseErr && claimErr == old(claimErr) && markErr == old(markErr)
      ensures ok == !old(releaseErr)
      ensures records == if ok then old(records) - {key} else old(records)
    {
      if releaseErr {
        releaseErr := false;
        return false;
      }
      records := records - {key};
      return true;
    }
  }

  // ---------- One checkout, step by step ----------

  datatype Pc =
    | Entered
    | Looked
    | Carted(cart: seq<Item>)
    | Claimed(cart: seq<Item>)
    | Loaded(cart: seq<Item>, prices: Prices)
    | Built(cart: seq<Item>, prices: Prices, order: Order)
    | Committed(response: Response)
    | Aborting(error: Error)
    | Finished(result: Result<Response>)

  /** A request: who asks, whose cart, under which idempotency key, with which request hash. */
  datatype Client = Client(user: string, cartOwner: string, idemKey: string, hash: string, pc: Pc) {
    function Key(): string {
      ScopedKey(user, idemKey)
    }

    /** Between winning the claim and giving it up or completing it. */
    predicate Holds() {
      pc.Claimed? || pc.Loaded? || pc.Built? || pc.Committed? || pc.Aborting?
    }
  }

  datatype State = State(books: Books, records: Records, counter: nat, clients: seq<Client>)

  /** What the environment decides for one step: the cart and the prices delivered, and which
      calls fail. */
  datatype Luck = Luck(cart: Option<seq<Item>>, prices: Prices, fail: bool, failCommit: bool)

  datatype Action = Action(client: nat, luck: Luck)

  function SetPc(s: State, i: nat, pc: Pc): State
    requires i < |s.clients|
  {
    s.(clients := s.clients[i := s.clients[i].(pc := pc)])
  }

  function Enter(s: State, i: nat, getFails: bool): State
    requires i < |s.clients|
  {
    var c := s.clients[i];
    if c.user != c.cartOwner then SetPc(s, i, Finished(Failure(Forbidden)))
    else if Blank(c.idemKey) then SetPc(s, i, Finished(Failure(InvalidKey)))
    else if !getFails && c.Key() in s.records && s.records[c.Key()].Completed?
    then SetPc(s, i, Finished(Success(s.records[c.Key()].response)))
    else SetPc(s, i, Looked)
  }

  function LoadCart(s: State, i: nat, cart: Option<seq<Item>>): State
    requires i < |s.clients|
  {
    SetPc(s, i,
      if cart.None? then Finished(Failure(CartError))
      else if cart.value == [] then Finished(Failure(EmptyCart))
      else if HasBadQuantity(cart.value) then Finished(Failure(InvalidQuantity))
      else Carted(cart.value))
  }

  function TryClaim(s: State, i: nat, cart: seq<Item>, fail: bool): State
    requires i < |s.clients|
  {
    var c := s.clients[i];
    if fail then SetPc(s, i, Finished(Failure(ClaimError)))
    else
      var (rs, claim) := ClaimKey(s.records, c.Key(), c.hash);
      SetPc(s, i, match claim
                  case Won => Claimed(cart)
                  case Cached(r) => Finished(Success(r))
                  case Lost(e) => Finished(Failure(e))).(records := rs)
  }

  function LoadProducts(s: State, i: nat, cart: seq<Item>, prices: Prices, fail: bool): State
    requires i < |s.clients|
  {
    SetPc(s, i,
      if fail then Aborting(LoadError)
      else if exists k :: 0 <= k < |cart| && cart[k].product !in s.books.stock then Aborting(ProductNotFound)
      else Loaded(cart, prices))
  }

  /** A product missing from the batch aborts; otherwise the order gets the next number. */
  function BuildOrder(s: State, i: nat, cart: seq<Item>, prices: Prices): State
    requires i < |s.clients|
  {
    if !AllPriced(cart, prices) then SetPc(s, i, Aborting(ProductNotFound))
    else
      var c, id := s.clients[i], s.counter + 1;
      var items := Priced(cart, prices);
      SetPc(s, i, Built(cart, prices, Order(id, c.user, c.Key(), items, TotalOf(items)))).(counter := id)
  }

  function RunTransaction(s: State, i: nat, cart: seq<Item>, o: Order, luck: Luck): State
    requires i < |s.clients|
  {
    var r := Transact(s.books, cart, o, luck.fail, luck.failCommit);
    if r.Failure? then SetPc(s, i, Aborting(r.error))
    else SetPc(s, i, Committed(Response(o.id, o.total))).(books := r.value)
  }

  function GiveUp(s: State, i: nat, e: Error, fail: bool): State
    requires i < |s.clients|
  {
    SetPc(s, i, Finished(Failure(e))).(records := if fail then s.records else s.records - {s.clients[i].Key()})
  }

  function Complete(s: State, i: nat, r: Response, fail: bool): State
    requires i < |s.clients|
  {
    if fail then SetPc(s, i, Finished(Failure(FinalizeError)))
    else SetPc(s, i, Finished(Success(r))).(records := MarkKey(s.records, s.clients[i].Key(), r))
  }

  function Step(s: State, a: Action): State {
    if a.client >= |s.clients| then s
    else
      var i, luck := a.client, a.luck;
      match s.clients[i].pc
      case Entered => Enter(s, i, luck.fail)
      case Looked => LoadCart(s, i, luck.cart)
      case Carted(cart) => TryClaim(s, i, cart, luck.fail)
      case Claimed(cart) => LoadProducts(s, i, cart, luck.prices, luck.fail)
      case Loaded(cart, prices) => BuildOrder(s, i, cart, prices)
      case Built(cart, _, o) => RunTransaction(s, i, cart, o, luck)
      case Aborting(e) => GiveUp(s, i, e, luck.fail)
      case Committed(r) => Complete(s, i, r, luck.fail)
      case Finished(_) => s
  }

  function Exec(s: State, run: seq<Action>): State {
    if run == [] then s else Step(Exec(s, run[..|run| - 1]), run[|run| - 1])
  }

  ghost predicate Init(s: State) {
    && s.books.orders == map[] && s.records == map[] && s.counter == 0
    && forall i :: 0 <= i < |s.clients| ==> s.clients[i].pc == Entered
  }

  // ---------- Invariants ----------

  /** A response names the committed order of its key, with that order's total. */
  ghost predicate Names(s: State, key: string, r: Response) {
    var os := s.books.orders;
    r.orderId in os && os[r.orderId].key == key && os[r.orderId].total == r.total
  }

  ghost predicate NoOrder(s: State, key: string) {
    forall id :: id in s.books.orders ==> s.books.orders[id].key != key
  }

  /** The order's key is one of its user's. */
  ghost predicate OwnKey(o: Order) {
    exists k :: o.key == ScopedKey(o.user, k)
  }

  /** Orders are numbered, exactly priced, recorded, under a key of their user, and one to a key. */
  ghost predicate OrdersSound(s: State) {
    var os := s.books.orders;
    && (forall id :: id in os ==>
          && 1 <= id <= s.counter && os[id].key in s.records && os[id].total == TotalOf(os[id].items)
          && OwnKey(os[id]))
    && (forall id, id' :: id in os && id' in os && os[id].key == os[id'].key ==> id == id')
  }

  ghost predicate RecordsSound(s: State) {
    forall key :: key in s.records && s.records[key].Completed? ==> Names(s, key, s.records[key].response)
  }

  ghost predicate ClientSound(s: State, c: Client) {
    && (c.Holds() ==> c.Key() in s.records && s.records[c.Key()] == Processing(c.hash))
    && (c.Holds() && !c.pc.Committed? ==> NoOrder(s, c.Key()))
    && match c.pc
       case Built(cart, prices, o) =>
         && 1 <= o.id <= s.counter && o.id !in s.books.orders && o.key == c.Key() && o.user == c.user
         && AllPriced(cart, prices) && o.items == Priced(cart, prices) && o.total == TotalOf(o.items)
       case Committed(r) => Names(s, c.Key(), r)
       case Finished(Success(r)) => Names(s, c.Key(), r)
       case _ => true
  }

  ghost predicate ClientsSound(s: State) {
    forall i :: 0 <= i < |s.clients| ==> ClientSound(s, s.clients[i])
  }

  /** No two checkouts hold the same key, nor build the same order number. */
  ghost predicate Apart(a: Client, b: Client) {
    && (a.Holds() && b.Holds() ==> a.Key() != b.Key())
    && (a.pc.Built? && b.pc.Built? ==> a.pc.order.id != b.pc.order.id)
  }

  ghost predicate ClientsApart(s: State) {
    forall i, j :: 0 <= i < |s.clients| && 0 <= j < |s.clients| && i != j ==> Apart(s.clients[i], s.clients[j])
  }

  ghost predicate Inv(s: State) {
    OrdersSound(s) && RecordsSound(s) && ClientsSound(s) && ClientsApart(s)
  }

  /** What the other clients need from a step of client `i`: its own key's record apart, records
      stay; orders only grow, by orders of its key; and order numbers only go up. */
  ghost predicate Frame(s: State, s': State, i: nat)
    requires i < |s.clients|
  {
    var key := s.clients[i].Key();
    && |s'.clients| == |s.clients| && s'.clients == s.clients[i := s'.clients[i]] && s'.clients[i].Key() == key
    && s.counter <= s'.counter
    && (forall k :: k != key ==> (k in s.records <==> k in s'.records))
    && (forall k :: k != key && k in s.records ==> s'.records[k] == s.records[k])
    && (forall id :: id in s.books.orders ==> id in s'.books.orders && s'.books.orders[id] == s.books.orders[id])
    && (forall id :: id in s'.books.orders && id !in s.books.orders ==>
          s.clients[i].pc.Built? && id == s.clients[i].pc.order.id && s'.books.orders[id].key == key)
  }

  lemma OthersStaySound(s: State, s': State, i: nat, j: nat)
    requires Inv(s) && i < |s.clients| && j < |s.clients| && i != j && Frame(s, s', i)
    requires s.clients[j].Key() == s.clients[i].Key() ==> !s.clients[j].Holds()
    ensures ClientSound(s', s'.clients[j])
  {
    var c := s.clients[j];
    assert ClientSound(s, c);
    assert Apart(s.clients[i], c);
  }

  /** The parts of the invariant that concern client `i` and its key decide the whole. */
  lemma FrameKeepsInv(s: State, s': State, i: nat)
    requires Inv(s) && i < |s.clients| && Frame(s, s', i)
    requires OrdersSound(s') && RecordsSound(s') && ClientSound(s', s'.clients[i])
    requires forall j :: 0 <= j < |s.clients| && j != i ==> Apart(s'.clients[i], s.clients[j])
    requires forall j :: 0 <= j < |s.clients| && j != i && s.clients[j].Key() == s.clients[i].Key() ==>
             !s.clients[j].Holds()
    ensures Inv(s')
  {
    forall j | 0 <= j < |s'.clients| ensures ClientSound(s', s'.clients[j]) {
      if j != i {
        OthersStaySound(s, s', i, j);
      }
    }
    forall j, k | 0 <= j < |s'.clients| && 0 <= k < |s'.clients| && j != k
      ensures Apart(s'.clients[j], s'.clients[k])
    {
      assert Apart(s.clients[j], s.clients[k]);
    }
  }

  lemma SameStoreSameSound(s: State, s': State, c: Client)
    requires ClientSound(s, c) && s'.books == s.books && s'.records == s.records && s'.counter == s.counter
    ensures ClientSound(s', c)
  {
  }

  /** A step that only moves client `i` along, without taking a claim. */
  lemma LocalKeepsInv(s: State, i: nat, pc: Pc)
    requires Inv(s) && i < |s.clients| && ClientSound(s, s.clients[i].(pc := pc)) && !pc.Built?
    requires s.clients[i].(pc := pc).Holds() ==> s.clients[i].Holds()
    ensures Inv(SetPc(s, i, pc))
  {
    var s' := SetPc(s, i, pc);
    forall j | 0 <= j < |s'.clients| ensures ClientSound(s', s'.clients[j]) {
      assert ClientSound(s, s.clients[j]);
      assert ClientSound(s, s'.clients[j]);
      SameStoreSameSound(s, s', s'.clients[j]);
    }
    forall j, k | 0 <= j < |s'.clients| && 0 <= k < |s'.clients| && j != k
      ensures Apart(s'.clients[j], s'.clients[k])
    {
      assert Apart(s.clients[j], s.clients[k]);
    }
  }

  lemma ClaimKeepsInv(s: State, i: nat, cart: seq<Item>)
    requires Inv(s) && i < |s.clients| && s.clients[i].pc.Carted? && s.clients[i].Key() !in s.records
    ensures Inv(SetPc(s, i, Claimed(cart)).(records := s.records[s.clients[i].Key() := Processing(s.clients[i].hash)]))
  {
    var c := s.clients[i];
    var s' := SetPc(s, i, Claimed(cart)).(records := s.records[c.Key() := Processing(c.hash)]);
    assert NoOrder(s, c.Key());
    forall j | 0 <= j < |s.clients| && j != i ensures Apart(s'.clients[i], s.clients[j]) {
      assert ClientSound(s, s.clients[j]);
      assert Apart(s.clients[i], s.clients[j]);
    }
    forall j | 0 <= j < |s.clients| && s.clients[j].Key() == c.Key() ensures !s.clients[j].Holds() {
      assert ClientSound(s, s.clients[j]);
    }
    FrameKeepsInv(s, s', i);
  }

  lemma EnterKeepsInv(s: State, i: nat, fail: bool)
    requires Inv(s) && i < |s.clients| && s.clients[i].pc.Entered?
    ensures Inv(Enter(s, i, fail))
  {
    LocalKeepsInv(s, i, Enter(s, i, fail).clients[i].pc);
  }

  lemma LoadCartKeepsInv(s: State, i: nat, cart: Option<seq<Item>>)
    requires Inv(s) && i < |s.clients| && s.clients[i].pc.Looked?
    ensures Inv(LoadCart(s, i, cart))
  {
    LocalKeepsInv(s, i, LoadCart(s, i, cart).clients[i].pc);
  }

  lemma TryClaimKeepsInv(s: State, i: nat, fail: bool)
    requires Inv(s) && i < |s.clients| && s.clients[i].pc.Carted?
    ensures Inv(TryClaim(s, i, s.clients[i].pc.cart, fail))
  {
    var c := s.clients[i];
    if !fail && c.Key() !in s.records {
      ClaimKeepsInv(s, i, c.pc.cart);
    } else {
      LocalKeepsInv(s, i, TryClaim(s, i, c.pc.cart, fail).clients[i].pc);
    }
  }

  lemma LoadProductsKeepsInv(s: State, i: nat, prices: Prices, fail: bool)
    requires Inv(s) && i < |s.clients| && s.clients[i].pc.Claimed?
    ensures Inv(LoadProducts(s, i, s.clients[i].pc.cart, prices, fail))
  {
    assert ClientSound(s, s.clients[i]);
    LocalKeepsInv(s, i, LoadProducts(s, i, s.clients[i].pc.cart, prices, fail).clients[i].pc);
  }

  lemma AloneWithKey(s: State, i: nat)
    requires Inv(s) && i < |s.clients| && s.clients[i].Holds()
    ensures forall j :: 0 <= j < |s.clients| && j != i && s.clients[j].Key() == s.clients[i].Key() ==>
            !s.clients[j].Holds()
  {
    forall j | 0 <= j < |s.clients| && j != i && s.clients[j].Key() == s.clients[i].Key()
      ensures !s.clients[j].Holds()
    {
      assert Apart(s.clients[i], s.clients[j]);
    }
  }

  lemma BuildKeepsInv(s: State, i: nat)
    requires Inv(s) && i < |s.clients| && s.clients[i].pc.Loaded?
    ensures Inv(BuildOrder(s, i, s.clients[i].pc.cart, s.clients[i].pc.prices))
  {
    var s' := BuildOrder(s, i, s.clients[i].pc.cart, s.clients[i].pc.prices);
    assert ClientSound(s, s.clients[i]);
    AloneWithKey(s, i);
    forall j | 0 <= j < |s.clients| && j != i ensures Apart(s'.clients[i], s.clients[j]) {
      assert ClientSound(s, s.clients[j]);
      assert Apart(s.clients[i], s.clients[j]);
    }
    FrameKeepsInv(s, s', i);
  }

  lemma TransactionKeepsInv(s: State, i: nat, luck: Luck)
    requires Inv(s) && i < |s.clients| && s.clients[i].pc.Built?
    ensures Inv(RunTransaction(s, i, s.clients[i].pc.cart, s.clients[i].pc.order, luck))
  {
    var c := s.clients[i];
    var cart, o := c.pc.cart, c.pc.order;
    var s' := RunTransaction(s, i, cart, o, luck);
    assert ClientSound(s, c);
    TransactExact(s.books, cart, o, luck.fail, luck.failCommit);
    if s'.clients[i].pc.Aborting? {
      LocalKeepsInv(s, i, s'.clients[i].pc);
    } else {
      AloneWithKey(s, i);
      forall j | 0 <= j < |s.clients| && j != i ensures Apart(s'.clients[i], s.clients[j]) {
        assert Apart(s.clients[i], s.clients[j]);
      }
      assert s'.books.orders == s.books.orders[o.id := o];
      forall key | key in s'.records && s'.records[key].Completed?
        ensures Names(s', key, s'.records[key].response)
      {
        assert Names(s, key, s.records[key].response);
      }
      FrameKeepsInv(s, s', i);
    }
  }

  lemma GiveUpKeepsInv(s: State, i: nat, fail: bool)
    requires Inv(s) && i < |s.clients| && s.clients[i].pc.Aborting?
    ensures Inv(GiveUp(s, i, s.clients[i].pc.error, fail))
  {
    var s' := GiveUp(s, i, s.clients[i].pc.error, fail);
    assert ClientSound(s, s.clients[i]);
    AloneWithKey(s, i);
    FrameKeepsInv(s, s', i);
  }

  lemma CompleteKeepsInv(s: State, i: nat, fail: bool)
    requires Inv(s) && i < |s.clients| && s.clients[i].pc.Committed?
    ensures Inv(Complete(s, i, s.clients[i].pc.response, fail))
  {
    var s' := Complete(s, i, s.clients[i].pc.response, fail);
    assert ClientSound(s, s.clients[i]);
    AloneWithKey(s, i);
    FrameKeepsInv(s, s', i);
  }

  lemma StepKeepsInv(s: State, a: Action)
    requires Inv(s)
    ensures Inv(Step(s, a))
  {
    if a.client < |s.clients| {
      var i := a.client;
      match s.clients[i].pc {
        case Entered => EnterKeepsInv(s, i, a.luck.fail);
        case Looked => LoadCartKeepsInv(s, i, a.luck.cart);
        case Carted(cart) => TryClaimKeepsInv(s, i, a.luck.fail);
        case Claimed(_) => LoadProductsKeepsInv(s, i, a.luck.prices, a.luck.fail);
        case Loaded(_, _) => BuildKeepsInv(s, i);
        case Built(_, _, _) => TransactionKeepsInv(s, i, a.luck);
        case Aborting(_) => GiveUpKeepsInv(s, i, a.luck.fail);
        case Committed(_) => CompleteKeepsInv(s, i, a.luck.fail);
        case Finished(_) =>
      }
    }
  }

  lemma {:induction false} EveryRun(s0: State, run: seq<Action>)
    requires Init(s0)
    ensures Inv(Exec(s0, run))
  {
    if run != [] {
      EveryRun(s0, run[..|run| - 1]);
      StepKeepsInv(Exec(s0, run[..|run| - 1]), run[|run| - 1]);
    }
  }

  // ---------- At most one order, and one answer, per key ----------

  /** In every run, however checkouts interleave and whichever calls fail, a scoped key has at most
      one committed order. */
  lemma OneOrderPerKey(s0: State, run: seq<Action>, id: nat, id': nat)
    requires Init(s0)
    requires id in Exec(s0, run).books.orders && id' in Exec(s0, run).books.orders
    requires Exec(s0, run).books.orders[id].key == Exec(s0, run).books.orders[id'].key
    ensures id == id'
  {
    EveryRun(s0, run);
  }

  /** Every successful response for a key is the same response; it names the key's one committed
      order and carries the exact total of that order's items. */
  lemma OneAnswerPerKey(s0: State, run: seq<Action>, i: nat, j: nat, r: Response, r': Response)
    requires Init(s0) && i < |Exec(s0, run).clients| && j < |Exec(s0, run).clients|
    requires Exec(s0, run).clients[i].Key() == Exec(s0, run).clients[j].Key()
    requires Exec(s0, run).clients[i].pc == Finished(Success(r))
    requires Exec(s0, run).clients[j].pc == Finished(Success(r'))
    ensures r == r'
    ensures
      var os := Exec(s0, run).books.orders;
      && r.orderId in os && os[r.orderId].key == Exec(s0, run).clients[i].Key()
      && r.total == TotalOf(os[r.orderId].items)
  {
    EveryRun(s0, run);
    var s := Exec(s0, run);
    assert ClientSound(s, s.clients[i]) && ClientSound(s, s.clients[j]);
  }

  /** A successful response names an order of the requesting user, unless that order's user and the
      requester are two whose keys can collide. */
  lemma AnswerNamesOwnOrder(s0: State, run: seq<Action>, i: nat, r: Response)
    requires Init(s0) && i < |Exec(s0, run).clients| && Exec(s0, run).clients[i].pc == Finished(Success(r))
    ensures r.orderId in Exec(s0, run).books.orders
    ensures
      var user, owner := Exec(s0, run).clients[i].user, Exec(s0, run).books.orders[r.orderId].user;
      user == owner || user + ":" <= owner || owner + ":" <= user
  {
    EveryRun(s0, run);
    var s := Exec(s0, run);
    var c := s.clients[i];
    assert ClientSound(s, c) && Names(s, c.Key(), r);
    var o := s.books.orders[r.orderId];
    var k :| o.key == ScopedKey(o.user, k);
    ScopedKeysEqual(c.user, c.idemKey, o.user, k);
  }

  // ---------- What a response charges ----------

  /** This cart was delivered to client `i` in the run. */
  ghost predicate CartFrom(run: seq<Action>, i: nat, cart: seq<Item>) {
    exists j :: 0 <= j < |run| && run[j].client == i && run[j].luck.cart == Some(cart)
  }

  ghost predicate PricesFrom(run: seq<Action>, i: nat, prices: Prices) {
    exists j :: 0 <= j < |run| && run[j].client == i && run[j].luck.prices == prices
  }

  /** The order bills the cart a client was delivered, at the prices that client loaded. */
  ghost predicate BilledBy(run: seq<Action>, i: nat, cart: seq<Item>, prices: Prices, o: Order) {
    CartFrom(run, i, cart) && PricesFrom(run, i, prices) && Bills(cart, prices, o.items, o.total)
  }

  /** The keys of the clients, which never change. */
  ghost function Keys(clients: seq<Client>): (r: seq<string>)
    ensures |r| == |clients| && forall i :: 0 <= i < |clients| ==> r[i] == clients[i].Key()
  {
    seq(|clients|, i requires 0 <= i < |clients| => clients[i].Key())
  }

  ghost predicate HasKey(keys: seq<string>, i: nat, key: string) {
    i < |keys| && keys[i] == key
  }

  /** The order bills the cart of a client with its key. */
  ghost predicate Billed(run: seq<Action>, keys: seq<string>, o: Order) {
    exists i: nat, cart, prices :: HasKey(keys, i, o.key) && BilledBy(run, i, cart, prices, o)
  }

  ghost predicate ClientBilled(run: seq<Action>, i: nat, pc: Pc) {
    match pc
    case Carted(cart) => CartFrom(run, i, cart)
    case Claimed(cart) => CartFrom(run, i, cart)
    case Loaded(cart, prices) => CartFrom(run, i, cart) && PricesFrom(run, i, prices)
    case Built(cart, prices, o) => BilledBy(run, i, cart, prices, o)
    case _ => true
  }

  ghost predicate AllBilled(run: seq<Action>, s: State) {
    && (forall i: nat :: i < |s.clients| ==> ClientBilled(run, i, s.clients[i].pc))
    && (forall id :: id in s.books.orders ==> Billed(run, Keys(s.clients), s.books.orders[id]))
  }

  lemma CartStays(run: seq<Action>, a: Action, i: nat, cart: seq<Item>)
    requires CartFrom(run, i, cart)
    ensures CartFrom(run + [a], i, cart)
  {
    var j :| 0 <= j < |run| && run[j].client == i && run[j].luck.cart == Some(cart);
    assert (run + [a])[j] == run[j];
  }

  lemma PricesStay(run: seq<Action>, a: Action, i: nat, prices: Prices)
    requires PricesFrom(run, i, prices)
    ensures PricesFrom(run + [a], i, prices)
  {
    var j :| 0 <= j < |run| && run[j].client == i && run[j].luck.prices == prices;
    assert (run + [a])[j] == run[j];
  }

  lemma ClientStaysBilled(run: seq<Action>, a: Action, i: nat, pc: Pc)
    requires ClientBilled(run, i, pc)
    ensures ClientBilled(run + [a], i, pc)
  {
    if pc.Carted? || pc.Claimed? || pc.Loaded? || pc.Built? {
      CartStays(run, a, i, pc.cart);
    }
    if pc.Loaded? || pc.Built? {
      PricesStay(run, a, i, pc.prices);
    }
  }

  lemma OrderStaysBilled(run: seq<Action>, a: Action, keys: seq<string>, o: Order)
    requires Billed(run, keys, o)
    ensures Billed(run + [a], keys, o)
  {
    var i: nat, cart, prices :| HasKey(keys, i, o.key) && BilledBy(run, i, cart, prices, o);
    CartStays(run, a, i, cart);
    PricesStay(run, a, i, prices);
    assert BilledBy(run + [a], i, cart, prices, o);
  }

  /** The client that moves: its cart and prices are those delivered to it. */
  lemma OwnStepBilled(run: seq<Action>, s: State, a: Action)
    requires a.client < |s.clients| && ClientBilled(run, a.client, s.clients[a.client].pc)
    ensures a.client < |Step(s, a).clients| && ClientBilled(run + [a], a.client, Step(s, a).clients[a.client].pc)
  {
    var i, pc := a.client, s.clients[a.client].pc;
    assert (run + [a])[|run|] == a;
    ClientStaysBilled(run, a, i, pc);
    if pc.Loaded? && AllPriced(pc.cart, pc.prices) {
      PricedBills(pc.cart, pc.prices);
    }
  }

  /** A step moves one client, and never changes a key. */
  lemma ClientsAfter(s: State, a: Action)
    ensures |Step(s, a).clients| == |s.clients| && Keys(Step(s, a).clients) == Keys(s.clients)
    ensures forall j :: 0 <= j < |s.clients| && j != a.client ==> Step(s, a).clients[j] == s.clients[j]
  {
  }

  /** The orders after a step: the same, or with the order its client had built. */
  lemma OrdersAfter(s: State, a: Action)
    ensures
      var os' := Step(s, a).books.orders;
      || os' == s.books.orders
      || (&& a.client < |s.clients| && s.clients[a.client].pc.Built?
          && os' == s.books.orders[s.clients[a.client].pc.order.id := s.clients[a.client].pc.order])
  {
    if a.client < |s.clients| && s.clients[a.client].pc.Built? {
      var pc := s.clients[a.client].pc;
      TransactExact(s.books, pc.cart, pc.order, a.luck.fail, a.luck.failCommit);
    }
  }

  lemma StepBilled(run: seq<Action>, s: State, a: Action)
    requires Inv(s) && AllBilled(run, s)
    ensures AllBilled(run + [a], Step(s, a))
  {
    var s', keys := Step(s, a), Keys(s.clients);
    ClientsAfter(s, a);
    OrdersAfter(s, a);
    forall i: nat | i < |s'.clients| ensures ClientBilled(run + [a], i, s'.clients[i].pc) {
      if i == a.client {
        OwnStepBilled(run, s, a);
      } else {
        ClientStaysBilled(run, a, i, s.clients[i].pc);
      }
    }
    forall id | id in s'.books.orders ensures Billed(run + [a], keys, s'.books.orders[id]) {
      if id in s.books.orders && s'.books.orders[id] == s.books.orders[id] {
        OrderStaysBilled(run, a, keys, s.books.orders[id]);
      } else {
        var pc := s.clients[a.client].pc;
        assert ClientSound(s, s.clients[a.client]);
        assert HasKey(keys, a.client, pc.order.key) && BilledBy(run, a.client, pc.cart, pc.prices, pc.order);
        OrderStaysBilled(run, a, keys, pc.order);
      }
    }
  }

  lemma {:induction false} EveryRunBilled(s0: State, run: seq<Action>)
    requires Init(s0)
    ensures AllBilled(run, Exec(s0, run))
  {
    if run != [] {
      EveryRunBilled(s0, run[..|run| - 1]);
      EveryRun(s0, run[..|run| - 1]);
      StepBilled(run[..|run| - 1], Exec(s0, run[..|run| - 1]), run[|run| - 1]);
      assert run == run[..|run| - 1] + [run[|run| - 1]];
    }
  }

  /** The total of every successful response is what the cart of a client with its key, as delivered
      to it in the run, costs at the prices that client loaded, and the order named holds that cart. */
  lemma ResponseIsBilled(s0: State, run: seq<Action>, i: nat, r: Response)
      returns (j: nat, cart: seq<Item>, prices: Prices)
    requires Init(s0) && i < |Exec(s0, run).clients| && Exec(s0, run).clients[i].pc == Finished(Success(r))
    ensures j < |Exec(s0, run).clients| && Exec(s0, run).clients[j].Key() == Exec(s0, run).clients[i].Key()
    ensures CartFrom(run, j, cart) && PricesFrom(run, j, prices) && r.orderId in Exec(s0, run).books.orders
    ensures Bills(cart, prices, Exec(s0, run).books.orders[r.orderId].items, r.total)
  {
    EveryRun(s0, run);
    EveryRunBilled(s0, run);
    var s := Exec(s0, run);
    assert ClientSound(s, s.clients[i]) && Names(s, s.clients[i].Key(), r);
    var o := s.books.orders[r.orderId];
    j, cart, prices :| HasKey(Keys(s.clients), j, o.key) && BilledBy(run, j, cart, prices, o);
  }

  // ---------- The request hash ----------

  /** A request whose key is taken by a request with another hash succeeds at its next step exactly
      when it is still at its first look-up and finds the other completed: only the claim compares
      hashes, and the look-up comes first. */
  lemma OtherHashSucceedsIff(s: State, a: Action)
    requires Inv(s) && a.client < |s.clients| && !s.clients[a.client].pc.Finished?
    requires s.clients[a.client].Key() in s.records
    requires s.records[s.clients[a.client].Key()].hash != s.clients[a.client].hash
    ensures
      var c, pc' := s.clients[a.client], Step(s, a).clients[a.client].pc;
      pc'.Finished? && pc'.result.Success? <==>
      && c.pc.Entered? && c.user == c.cartOwner && !Blank(c.idemKey)
      && !a.luck.fail && s.records[c.Key()].Completed?
  {
    assert ClientSound(s, s.clients[a.client]);
  }

  // ---------- Stock conservation ----------

  /** Units of `p` in the committed orders numbered up to `n`. */
  function Sold(os: map<nat, Order>, p: string, n: nat): int {
    if n == 0 then 0 else Sold(os, p, n - 1) + if n in os then Units(os[n].items, p) else 0
  }

  lemma {:induction false} SoldAdds(os: map<nat, Order>, o: Order, p: string, n: nat)
    requires o.id !in os && o.id >= 1
    ensures Sold(os[o.id := o], p, n) == Sold(os, p, n) + if o.id <= n then Units(o.items, p) else 0
  {
    if n > 0 {
      SoldAdds(os, o, p, n - 1);
    }
  }

  /** Stock on hand and stock sold add up to the initial stock, product by product. */
  ghost predicate Balanced(stock0: Stock, s: State) {
    && s.books.stock.Keys == stock0.Keys
    && (forall id :: id in s.books.orders ==> id <= s.counter)
    && forall p :: p in stock0 ==>
         && s.books.stock[p] + Sold(s.books.orders, p, s.counter) == stock0[p]
         && (stock0[p] >= 0 ==> s.books.stock[p] >= 0)
  }

  lemma StepKeepsBalance(stock0: Stock, s: State, a: Action)
    requires Inv(s) && Balanced(stock0, s)
    ensures Balanced(stock0, Step(s, a))
  {
    if a.client < |s.clients| {
      var c, s' := s.clients[a.client], Step(s, a);
      assert ClientSound(s, c);
      if c.pc.Built? && s'.books != s.books {
        var o := c.pc.order;
        TransactExact(s.books, c.pc.cart, o, a.luck.fail, a.luck.failCommit);
        forall p | p in stock0
          ensures s'.books.stock[p] + Sold(s'.books.orders, p, s'.counter) == stock0[p]
        {
          SoldAdds(s.books.orders, o, p, s.counter);
          PricedUnits(c.pc.cart, c.pc.prices, p);
        }
      } else if c.pc.Loaded? && AllPriced(c.pc.cart, c.pc.prices) {
        assert s'.counter == s.counter + 1 && s'.counter !in s.books.orders;
      }
    }
  }

  /** In every run, for each product, the stock plus the quantities in all committed orders is the
      initial stock, and stock never goes below zero, even when a cart repeats a product or the
      creation of the order fails inside the commit. */
  lemma {:induction false} StockIsConserved(s0: State, run: seq<Action>)
    requires Init(s0)
    ensures Balanced(s0.books.stock, Exec(s0, run))
  {
    if run == [] {
      assert forall p :: Sold(map[], p, 0) == 0;
    } else {
      StockIsConserved(s0, run[..|run| - 1]);
      EveryRun(s0, run[..|run| - 1]);
      StepKeepsBalance(s0.books.stock, Exec(s0, run[..|run| - 1]), run[|run| - 1]);
    }
  }
}
