/** One checkout from start to finish with nobody else moving (labs/09-code-review/checkout_improved.go):
    exactly which answer it gives and what it leaves behind, for every request, cart, price list,
    store and injected failure. */
module CheckoutSolo {
  import opened Wrappers
  import opened Checkouts
  import opened CheckoutMachine

  /** What the environment does during the checkout; `lastFails` is the release or the completion. */
  datatype Plan = Plan(getFails: bool, cart: Option<seq<Item>>, claimFails: bool, prices: Prices, loadFails: bool,
                       createFails: bool, commitFails: bool, lastFails: bool)

  /** What the plan has in store for the client's next step. */
  function LuckFor(plan: Plan, pc: Pc): Luck {
    match pc
    case Entered => Luck(None, map[], plan.getFails, false)
    case Looked => Luck(plan.cart, map[], false, false)
    case Carted(_) => Luck(None, map[], plan.claimFails, false)
    case Claimed(_) => Luck(None, plan.prices, plan.loadFails, false)
    case Built(_, _, _) => Luck(None, map[], plan.createFails, plan.commitFails)
    case _ => Luck(None, map[], plan.lastFails, false)
  }

  function Next(s: State, i: nat, plan: Plan): State
    requires i < |s.clients|
  {
    Step(s, Action(i, LuckFor(plan, s.clients[i].pc)))
  }

  /** The state after client `i` has taken `n` steps. */
  function Solo(s: State, i: nat, plan: Plan, n: nat): State
    decreases n
  {
    if n == 0 || i >= |s.clients| then s else Solo(Next(s, i, plan), i, plan, n - 1)
  }

  /** The answer given before the key is claimed; none if the claim is won. */
  ghost function Early(s: State, c: Client, plan: Plan): Option<Result<Response>> {
    var key := "checkout:" + (c.user + ":" + c.idemKey);
    var held := key in s.records;
    if c.user != c.cartOwner then Some(Failure(Forbidden))
    else if forall k :: 0 <= k < |c.idemKey| ==> c.idemKey[k] in " \t\n\r" then Some(Failure(InvalidKey))
    else if !plan.getFails && held && s.records[key].Completed? then Some(Success(s.records[key].response))
    else if plan.cart.None? then Some(Failure(CartError))
    else if plan.cart.value == [] then Some(Failure(EmptyCart))
    else if exists k :: 0 <= k < |plan.cart.value| && plan.cart.value[k].quantity <= 0
    then Some(Failure(InvalidQuantity))
    else if plan.claimFails then Some(Failure(ClaimError))
    else if held && s.records[key].hash != c.hash then Some(Failure(Conflict))
    else if held && s.records[key].Completed? then Some(Success(s.records[key].response))
    else if held then Some(Failure(Duplicate))
    else None
  }

  /** Some product is wanted more than it is in stock. */
  ghost predicate Short(stock: Stock, cart: seq<Item>) {
    exists k :: && 0 <= k < |cart| && cart[k].product in stock
                && Wanted(cart, cart[k].product) > stock[cart[k].product]
  }

  /** The answer given once the key is claimed. */
  ghost function Late(s: State, cart: seq<Item>, plan: Plan): Result<Response> {
    if plan.loadFails then Failure(LoadError)
    else if exists k :: 0 <= k < |cart| && (cart[k].product !in s.books.stock || cart[k].product !in plan.prices)
    then Failure(ProductNotFound)
    else if Short(s.books.stock, cart) then Failure(InsufficientStock)
    else if plan.createFails || plan.commitFails then Failure(CreateError)
    else if plan.lastFails then Failure(FinalizeError)
    else Success(Response(s.counter + 1, CostOf(cart, plan.prices)))
  }

  /** The store is as before and the request the same. */
  ghost predicate Quiet(s: State, s': State, i: nat) {
    && i < |s.clients| && i < |s'.clients| && s'.books == s.books && s'.records == s.records && s'.counter == s.counter
    && s'.clients[i].(pc := s.clients[i].pc) == s.clients[i]
  }

  lemma {:induction false} FinishedStays(s: State, i: nat, plan: Plan, n: nat)
    requires i < |s.clients| && s.clients[i].pc.Finished?
    ensures Solo(s, i, plan, n) == s
  {
    if n > 0 {
      FinishedStays(s, i, plan, n - 1);
    }
  }

  lemma EnterStep(s: State, i: nat, plan: Plan, s1: State)
    requires i < |s.clients| && s.clients[i].pc.Entered? && s1 == Next(s, i, plan)
    ensures Quiet(s, s1, i)
    ensures
      var c, early := s.clients[i], Early(s, s.clients[i], plan);
      if || c.user != c.cartOwner || Blank(c.idemKey)
         || (!plan.getFails && c.Key() in s.records && s.records[c.Key()].Completed?)
      then early.Some? && s1.clients[i].pc == Finished(early.value)
      else s1.clients[i].pc == Looked
  {
    assert Blank(s.clients[i].idemKey) <==>
           forall k :: 0 <= k < |s.clients[i].idemKey| ==> s.clients[i].idemKey[k] in " \t\n\r";
  }

  lemma CartStep(s: State, i: nat, plan: Plan, s1: State)
    requires i < |s.clients| && s.clients[i].pc.Looked? && s1 == Next(s, i, plan)
    ensures Quiet(s, s1, i)
    ensures
      s1.clients[i].pc ==
      if plan.cart.None? then Finished(Failure(CartError))
      else if plan.cart.value == [] then Finished(Failure(EmptyCart))
      else if exists k :: 0 <= k < |plan.cart.value| && plan.cart.value[k].quantity <= 0
      then Finished(Failure(InvalidQuantity))
      else Carted(plan.cart.value)
  {
  }

  lemma ClaimStep(s: State, i: nat, plan: Plan, s1: State)
    requires i < |s.clients| && s.clients[i].pc.Carted? && s1 == Next(s, i, plan)
    ensures
      var c := s.clients[i];
      var key, cart := c.Key(), c.pc.cart;
      if !plan.claimFails && key !in s.records
      then && i < |s1.clients| && s1 == SetPc(s, i, Claimed(cart)).(records := s.records[key := Processing(c.hash)])
      else && Quiet(s, s1, i)
           && s1.clients[i].pc ==
              Finished(if plan.claimFails then Failure(ClaimError)
                       else if s.records[key].hash != c.hash then Failure(Conflict)
                       else if s.records[key].Completed? then Success(s.records[key].response)
                       else Failure(Duplicate))
  {
  }

  lemma LoadStep(s: State, i: nat, plan: Plan, s1: State)
    requires i < |s.clients| && s.clients[i].pc.Claimed? && s1 == Next(s, i, plan)
    ensures Quiet(s, s1, i)
    ensures
      var cart := s.clients[i].pc.cart;
      s1.clients[i].pc ==
      if plan.loadFails then Aborting(LoadError)
      else if exists k :: 0 <= k < |cart| && cart[k].product !in s.books.stock then Aborting(ProductNotFound)
      else Loaded(cart, plan.prices)
  {
  }

  lemma BuildStep(s: State, i: nat, plan: Plan, s1: State)
    requires i < |s.clients| && s.clients[i].pc.Loaded? && s1 == Next(s, i, plan)
    ensures
      var c := s.clients[i];
      var cart, prices := c.pc.cart, c.pc.prices;
      if exists k :: 0 <= k < |cart| && cart[k].product !in prices
      then Quiet(s, s1, i) && s1.clients[i].pc == Aborting(ProductNotFound)
      else
        && Quiet(s.(counter := s.counter + 1), s1, i) && s1.clients[i].pc.Built? && s1.clients[i].pc.cart == cart
        && (var o := s1.clients[i].pc.order;
            && o.id == s.counter + 1 && o.user == c.user && o.key == c.Key() && Bills(cart, prices, o.items, o.total))
  {
    var pc := s.clients[i].pc;
    if AllPriced(pc.cart, pc.prices) {
      PricedBills(pc.cart, pc.prices);
    }
  }

  lemma TransactStep(s: State, i: nat, plan: Plan, s1: State)
    requires i < |s.clients| && s.clients[i].pc.Built? && s1 == Next(s, i, plan)
    requires forall k :: 0 <= k < |s.clients[i].pc.cart| ==>
               s.clients[i].pc.cart[k].quantity > 0 && s.clients[i].pc.cart[k].product in s.books.stock
    ensures
      var c := s.clients[i];
      var cart, o := c.pc.cart, c.pc.order;
      if Short(s.books.stock, cart) then Quiet(s, s1, i) && s1.clients[i].pc == Aborting(InsufficientStock)
      else if plan.createFails || plan.commitFails then Quiet(s, s1, i) && s1.clients[i].pc == Aborting(CreateError)
      else
        && Quiet(s.(books := s1.books), s1, i) && s1.clients[i].pc == Committed(Response(o.id, o.total))
        && s1.books.orders == s.books.orders[o.id := o] && s1.books.stock.Keys == s.books.stock.Keys
        && forall p :: p in s.books.stock ==> s1.books.stock[p] == s.books.stock[p] - Wanted(cart, p)
  {
    var cart, o, stock := s.clients[i].pc.cart, s.clients[i].pc.order, s.books.stock;
    TransactExact(s.books, cart, o, plan.createFails, plan.commitFails);
    assert Serves(stock, cart) <==> !Short(stock, cart);
    if !Serves(stock, cart) {
      var n := StagingError(stock, cart);
      assert cart[n].quantity > 0 && cart[n].product in stock;
    }
  }

  lemma LastStep(s: State, i: nat, plan: Plan, s1: State)
    requires i < |s.clients| && (s.clients[i].pc.Aborting? || s.clients[i].pc.Committed?) && s1 == Next(s, i, plan)
    requires s.clients[i].Key() in s.records && s.records[s.clients[i].Key()] == Processing(s.clients[i].hash)
    ensures
      var c := s.clients[i];
      var key := c.Key();
      && i < |s1.clients| && s1.books == s.books
      && s1.clients[i].pc == Finished(if c.pc.Aborting? then Failure(c.pc.error)
                                      else if plan.lastFails then Failure(FinalizeError) else Success(c.pc.response))
      && s1.records == if plan.lastFails then s.records
                       else if c.pc.Aborting? then s.records - {key}
                       else s.records[key := Completed(c.hash, c.pc.response)]
  {
  }

  /** Entering, the cart and the claim. */
  lemma EarlyPhase(s: State, i: nat, plan: Plan)
    requires i < |s.clients| && s.clients[i].pc.Entered?
    ensures
      var c, early, s3 := s.clients[i], Early(s, s.clients[i], plan), Solo(s, i, plan, 3);
      if early.Some? then Quiet(s, s3, i) && s3.clients[i].pc == Finished(early.value)
      else && plan.cart.Some? && i < |s3.clients| && s3.clients[i] == c.(pc := Claimed(plan.cart.value))
           && (forall k :: 0 <= k < |plan.cart.value| ==> plan.cart.value[k].quantity > 0)
           && s3.books == s.books && s3.counter == s.counter && c.Key() !in s.records
           && s3.records == s.records[c.Key() := Processing(c.hash)]
  {
    var s1 := Next(s, i, plan);
    EnterStep(s, i, plan, s1);
    if s1.clients[i].pc.Finished? {
      FinishedStays(s1, i, plan, 2);
    } else {
      var s2 := Next(s1, i, plan);
      CartStep(s1, i, plan, s2);
      if s2.clients[i].pc.Finished? {
        FinishedStays(s2, i, plan, 1);
      } else {
        ClaimStep(s2, i, plan, Next(s2, i, plan));
      }
    }
  }

  /** What a checkout that won its claim leaves: after a success, or when only the completion failed,
      the order and the deduction; otherwise the books as they were and, unless the release
      failed, the key free to claim again. */
  ghost predicate Leaves(s: State, s': State, c: Client, cart: seq<Item>, plan: Plan, r: Result<Response>) {
    var key, id := c.Key(), s.counter + 1;
    if r.Success? || r == Failure(FinalizeError) then
      && s'.records == s.records[key := if r.Success? then Completed(c.hash, r.value) else Processing(c.hash)]
      && s'.books.orders.Keys == s.books.orders.Keys + {id}
      && (forall k :: k in s.books.orders && k != id ==> s'.books.orders[k] == s.books.orders[k])
      && (var o := s'.books.orders[id];
          o.id == id && o.user == c.user && o.key == key && Bills(cart, plan.prices, o.items, o.total))
      && s'.books.stock.Keys == s.books.stock.Keys
      && forall p :: p in s.books.stock ==> s'.books.stock[p] == s.books.stock[p] - Wanted(cart, p)
    else
      && s'.books == s.books
      && s'.records == if plan.lastFails then s.records[key := Processing(c.hash)] else s.records
  }

  /** A claimed checkout that aborts, from there. */
  lemma AbortPhase(s: State, t: State, i: nat, plan: Plan, n: nat, e: Error)
    requires n > 0 && i < |t.clients| && t.clients[i].pc == Aborting(e) && e != FinalizeError
    requires t.clients[i].Key() !in s.records && t.books == s.books
    requires t.records == s.records[t.clients[i].Key() := Processing(t.clients[i].hash)]
    ensures
      var s' := Solo(t, i, plan, n);
      && i < |s'.clients| && s'.clients[i].pc == Finished(Failure(e)) && s'.books == s.books
      && s'.records == if plan.lastFails then t.records else s.records
  {
    var t1 := Next(t, i, plan);
    LastStep(t, i, plan, t1);
    FinishedStays(t1, i, plan, n - 1);
    assert t.records - {t.clients[i].Key()} == s.records;
  }

  /** From the order on: the transaction and the completion. */
  lemma BuiltPhase(s: State, t: State, i: nat, plan: Plan, c: Client, cart: seq<Item>)
    requires i < |t.clients| && t.clients[i].(pc := c.pc) == c && t.clients[i].pc.Built? && t.clients[i].pc.cart == cart
    requires c.Key() !in s.records && t.books == s.books && t.records == s.records[c.Key() := Processing(c.hash)]
    requires forall k :: 0 <= k < |cart| ==> cart[k].quantity > 0 && cart[k].product in s.books.stock
    requires AllPriced(cart, plan.prices) && !plan.loadFails
    requires
      var o := t.clients[i].pc.order;
      o.id == s.counter + 1 && o.user == c.user && o.key == c.Key() && Bills(cart, plan.prices, o.items, o.total)
    ensures
      var s' := Solo(t, i, plan, 2);
      && i < |s'.clients| && s'.clients[i].pc == Finished(Late(s, cart, plan))
      && Leaves(s, s', c, cart, plan, Late(s, cart, plan))
  {
    var t1 := Next(t, i, plan);
    TransactStep(t, i, plan, t1);
    if t1.clients[i].pc.Aborting? {
      AbortPhase(s, t1, i, plan, 1, t1.clients[i].pc.error);
    } else {
      LastStep(t1, i, plan, Next(t1, i, plan));
    }
  }

  /** From the claim on. */
  lemma LatePhase(s: State, t: State, i: nat, plan: Plan, c: Client, cart: seq<Item>)
    requires i < |t.clients| && t.clients[i] == c.(pc := Claimed(cart)) && c.Key() !in s.records
    requires t.books == s.books && t.counter == s.counter && t.records == s.records[c.Key() := Processing(c.hash)]
    requires forall k :: 0 <= k < |cart| ==> cart[k].quantity > 0
    ensures
      var s' := Solo(t, i, plan, 4);
      && i < |s'.clients| && s'.clients[i].pc == Finished(Late(s, cart, plan))
      && Leaves(s, s', c, cart, plan, Late(s, cart, plan))
  {
    var t1 := Next(t, i, plan);
    LoadStep(t, i, plan, t1);
    if t1.clients[i].pc.Aborting? {
      AbortPhase(s, t1, i, plan, 3, t1.clients[i].pc.error);
    } else {
      var t2 := Next(t1, i, plan);
      BuildStep(t1, i, plan, t2);
      if t2.clients[i].pc.Aborting? {
        AbortPhase(s, t2, i, plan, 2, t2.clients[i].pc.error);
      } else {
        BuiltPhase(s, t2, i, plan, c, cart);
      }
    }
  }

  lemma {:induction false} SoloSplit(s: State, i: nat, plan: Plan, m: nat, n: nat)
    ensures Solo(s, i, plan, m + n) == Solo(Solo(s, i, plan, m), i, plan, n)
    decreases m
  {
    if m > 0 && i < |s.clients| {
      SoloSplit(Next(s, i, plan), i, plan, m - 1, n);
    } else if i >= |s.clients| {
      assert Solo(s, i, plan, m) == s;
    }
  }

  /** Exactly what a checkout answers and leaves, for every request, store and injected failure. */
  lemma SoloCheckout(s: State, i: nat, plan: Plan)
    requires i < |s.clients| && s.clients[i].pc.Entered?
    ensures
      var c, early, s' := s.clients[i], Early(s, s.clients[i], plan), Solo(s, i, plan, 7);
      i < |s'.clients| &&
      if early.Some? then
        && s'.clients[i].pc == Finished(early.value)
        && s'.books == s.books && s'.records == s.records && s'.counter == s.counter
      else
        && plan.cart.Some? && s'.clients[i].pc == Finished(Late(s, plan.cart.value, plan))
        && Leaves(s, s', c, plan.cart.value, plan, Late(s, plan.cart.value, plan))
  {
    var s3 := Solo(s, i, plan, 3);
    EarlyPhase(s, i, plan);
    SoloSplit(s, i, plan, 3, 4);
    if Early(s, s.clients[i], plan).Some? {
      FinishedStays(s3, i, plan, 4);
    } else {
      LatePhase(s, s3, i, plan, s.clients[i], plan.cart.value);
    }
  }
}
