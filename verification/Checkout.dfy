/** The pieces one checkout is made of (labs/09-code-review/checkout_improved.go, mock.go): the
    idempotency record, the staged stock transaction and the priced order. */
module Checkouts {

  datatype Item = Item(product: string, quantity: int)

  datatype OrderItem = OrderItem(product: string, quantity: int, unitPrice: int, subtotal: int)

  /** Orders carry the number behind their printed id `order-<n>`. */
  datatype Order = Order(id: nat, user: string, key: string, items: seq<OrderItem>, total: int)

  datatype Response = Response(orderId: nat, total: int)

  datatype Error =
    | Forbidden | InvalidKey | CartError | EmptyCart | InvalidQuantity | Conflict | Duplicate | ClaimError
    | ProductNotFound | LoadError | InsufficientStock | CreateError | FinalizeError

  datatype Result<T> = Success(value: T) | Failure(error: Error)

  type Stock = map<string, int>

  /** What the product repository returned: the unit price of each product it found. */
  type Prices = map<string, int>

  // ---------- Cart, price, order ----------

  predicate HasBadQuantity(cart: seq<Item>) {
    exists i :: 0 <= i < |cart| && cart[i].quantity <= 0
  }

  /** The units of product `p` a cart asks for, all its lines together. */
  function Wanted(cart: seq<Item>, p: string): int {
    if cart == [] then 0
    else Wanted(cart[..|cart| - 1], p) + if cart[|cart| - 1].product == p then cart[|cart| - 1].quantity else 0
  }

  predicate AllPriced(cart: seq<Item>, prices: Prices) {
    forall i :: 0 <= i < |cart| ==> cart[i].product in prices
  }

  function Priced(cart: seq<Item>, prices: Prices): seq<OrderItem>
    requires AllPriced(cart, prices)
  {
    seq(|cart|, i requires 0 <= i < |cart| =>
      var price := prices[cart[i].product];
      OrderItem(cart[i].product, cart[i].quantity, price, cart[i].quantity * price))
  }

  /** The exact total of a list of order items. */
  function TotalOf(items: seq<OrderItem>): int {
    if items == [] then 0
    else
      var i := items[|items| - 1];
      TotalOf(items[..|items| - 1]) + i.quantity * i.unitPrice
  }

  /** The units of product `p` in a list of order items. */
  function Units(items: seq<OrderItem>, p: string): int {
    if items == [] then 0
    else
      var i := items[|items| - 1];
      Units(items[..|items| - 1], p) + if i.product == p then i.quantity else 0
  }

  lemma {:induction false} PricedUnits(cart: seq<Item>, prices: Prices, p: string)
    requires AllPriced(cart, prices)
    ensures Units(Priced(cart, prices), p) == Wanted(cart, p)
  {
    if cart != [] {
      var n := |cart| - 1;
      PricedUnits(cart[..n], prices, p);
      assert Priced(cart, prices)[..n] == Priced(cart[..n], prices);
    }
  }

  /** The cart names `p` before it names `q` at all. */
  ghost predicate Precedes(cart: seq<Item>, p: string, q: string) {
    exists j :: 0 <= j < |cart| && cart[j].product == p && forall i :: 0 <= i <= j ==> cart[i].product != q
  }

  /** The cart loop: each product once in first-seen order, or the first bad quantity. */
  method DistinctProducts(cart: seq<Item>) returns (r: Result<seq<string>>)
    ensures r.Failure? <==> exists i :: 0 <= i < |cart| && cart[i].quantity <= 0
    ensures r.Failure? ==> r.error == InvalidQuantity
    ensures r.Success? ==>
              && (forall p :: p in r.value <==> exists i :: 0 <= i < |cart| && cart[i].product == p)
              && (forall i, j :: 0 <= i < j < |r.value| ==>
                    r.value[i] != r.value[j] && Precedes(cart, r.value[i], r.value[j]))
  {
    var seen: set<string>, ids: seq<string> := {}, [];
    for n := 0 to |cart|
      invariant forall i :: 0 <= i < n ==> cart[i].quantity > 0
      invariant forall p :: p in seen <==> p in ids
      invariant forall p :: p in ids <==> exists i :: 0 <= i < n && cart[i].product == p
      invariant forall i, j :: 0 <= i < j < |ids| ==> ids[i] != ids[j] && Precedes(cart, ids[i], ids[j])
    {
      if cart[n].quantity <= 0 {
        return Failure(InvalidQuantity);
      }
      if cart[n].product !in seen {
        assert forall p :: p in ids ==> Precedes(cart, p, cart[n].product);
        seen := seen + {cart[n].product};
        ids := ids + [cart[n].product];
      }
    }
    return Success(ids);
  }

  /** What a cart costs: quantity times listed price, summed over its lines. */
  function CostOf(cart: seq<Item>, prices: Prices): int
    requires AllPriced(cart, prices)
  {
    if cart == [] then 0
    else
      var last := cart[|cart| - 1];
      CostOf(cart[..|cart| - 1], prices) + last.quantity * prices[last.product]
  }

  /** Every line of the cart is there with its own product's price, and the total is the cost. */
  ghost predicate Bills(cart: seq<Item>, prices: Prices, items: seq<OrderItem>, total: int) {
    && AllPriced(cart, prices) && |items| == |cart| && total == CostOf(cart, prices)
    && forall i :: 0 <= i < |cart| ==>
         && items[i].product == cart[i].product && items[i].quantity == cart[i].quantity
         && items[i].unitPrice == prices[cart[i].product]
         && items[i].subtotal == cart[i].quantity * prices[cart[i].product]
  }

  lemma {:induction false} PricedBills(cart: seq<Item>, prices: Prices)
    requires AllPriced(cart, prices)
    ensures Bills(cart, prices, Priced(cart, prices), TotalOf(Priced(cart, prices)))
  {
    if cart != [] {
      var n := |cart| - 1;
      PricedBills(cart[..n], prices);
      assert Priced(cart, prices)[..n] == Priced(cart[..n], prices);
    }
  }

  /** The pricing loop over the products the repository returned. */
  method PriceCart(cart: seq<Item>, prices: Prices) returns (r: Result<(seq<OrderItem>, int)>)
    ensures r.Failure? <==> exists i :: 0 <= i < |cart| && cart[i].product !in prices
    ensures r.Failure? ==> r.error == ProductNotFound
    ensures r.Success? ==> AllPriced(cart, prices) && r.value == (Priced(cart, prices), TotalOf(Priced(cart, prices)))
    ensures r.Success? ==> Bills(cart, prices, r.value.0, r.value.1)
  {
    var total, items: seq<OrderItem> := 0, [];
    for n := 0 to |cart|
      invariant AllPriced(cart[..n], prices)
      invariant items == Priced(cart[..n], prices) && total == TotalOf(items)
    {
      if cart[n].product !in prices {
        return Failure(ProductNotFound);
      }
      var price := prices[cart[n].product];
      var subtotal := cart[n].quantity * price;
      total := total + subtotal;
      var item := OrderItem(cart[n].product, cart[n].quantity, price, subtotal);
      assert (items + [item])[..n] == items;
      items := items + [item];
      assert items == Priced(cart[..n + 1], prices);
    }
    assert cart[..|cart|] == cart;
    PricedBills(cart, prices);
    return Success((items, total));
  }

  // ---------- Staged reservations ----------

  function Staged(m: map<string, int>, p: string): int {
    if p in m then m[p] else 0
  }

  /** `ReserveStock` inside the transaction: nothing is deducted yet. */
  function Reserve(stock: Stock, m: map<string, int>, i: Item): Result<map<string, int>> {
    if i.quantity <= 0 then Failure(InvalidQuantity)
    else if i.product !in stock then Failure(ProductNotFound)
    else if stock[i.product] - Staged(m, i.product) < i.quantity then Failure(InsufficientStock)
    else Success(m[i.product := Staged(m, i.product) + i.quantity])
  }

  function StageAll(stock: Stock, cart: seq<Item>): Result<map<string, int>> {
    if cart == [] then Success(map[])
    else
      var r := StageAll(stock, cart[..|cart| - 1]);
      if r.Failure? then r else Reserve(stock, r.value, cart[|cart| - 1])
  }

  /** A cart the stock can serve, repeated products counted together. */
  ghost predicate Serves(stock: Stock, cart: seq<Item>) {
    forall i :: 0 <= i < |cart| ==>
      cart[i].quantity > 0 && cart[i].product in stock && Wanted(cart, cart[i].product) <= stock[cart[i].product]
  }

  lemma {:induction false} WantedMonotone(cart: seq<Item>, p: string, n: nat)
    requires n <= |cart| && forall i :: 0 <= i < |cart| ==> cart[i].quantity > 0
    ensures 0 <= Wanted(cart[..n], p) <= Wanted(cart, p)
    ensures Wanted(cart, p) > 0 <==> exists i :: 0 <= i < |cart| && cart[i].product == p
  {
    if cart == [] {
      assert cart[..n] == [];
    } else {
      var m := |cart| - 1;
      if n == |cart| {
        WantedMonotone(cart[..m], p, m);
        assert cart[..n] == cart;
        assert cart[..m][..m] == cart[..m];
      } else {
        WantedMonotone(cart[..m], p, n);
        assert cart[..m][..n] == cart[..n];
      }
      assert forall i :: 0 <= i < m ==> cart[..m][i] == cart[i];
      assert cart[m].product == p ==> exists i :: 0 <= i < |cart| && cart[i].product == p;
    }
  }

  /** Staging succeeds exactly for the carts the stock can serve, and then holds, product by
      product, what the whole cart wants, within stock. */
  lemma {:induction false} StagingExact(stock: Stock, cart: seq<Item>)
    ensures StageAll(stock, cart).Success? <==> Serves(stock, cart)
    ensures StageAll(stock, cart).Success? ==>
              var m := StageAll(stock, cart).value;
              && (forall p :: Staged(m, p) == Wanted(cart, p))
              && (forall p :: p in m ==> p in stock && 0 < m[p] <= stock[p])
  {
    if cart != [] {
      var n := |cart| - 1;
      var init, last := cart[..n], cart[n];
      StagingExact(stock, init);
      if Serves(stock, cart) {
        forall i | 0 <= i < |init| ensures init[i].quantity > 0 && init[i].product in stock
                                           && Wanted(init, init[i].product) <= stock[init[i].product] {
          assert init[i] == cart[i];
          WantedMonotone(cart, cart[i].product, n);
        }
        assert Serves(stock, init);
      } else if StageAll(stock, cart).Success? {
        forall i | 0 <= i < |cart| ensures cart[i].quantity > 0 && cart[i].product in stock
                                           && Wanted(cart, cart[i].product) <= stock[cart[i].product] {
          if i < n {
            assert init[i] == cart[i];
          }
        }
      }
    }
  }

  /** Otherwise staging reports what is wrong with the first line it cannot reserve. */
  lemma {:induction false} StagingError(stock: Stock, cart: seq<Item>) returns (n: nat)
    requires !Serves(stock, cart)
    ensures n < |cart| && Serves(stock, cart[..n]) && !Serves(stock, cart[..n + 1])
    ensures StageAll(stock, cart) ==
            Failure(if cart[n].quantity <= 0 then InvalidQuantity
                    else if cart[n].product !in stock then ProductNotFound
                    else InsufficientStock)
  {
    var m := |cart| - 1;
    StagingExact(stock, cart);
    if cart != [] && StageAll(stock, cart[..m]).Failure? {
      StagingExact(stock, cart[..m]);
      n := StagingError(stock, cart[..m]);
      assert cart[..m][..n] == cart[..n] && cart[..m][..n + 1] == cart[..n + 1];
    } else {
      n := m;
      StagingExact(stock, cart[..m]);
      assert cart[..m + 1] == cart;
    }
  }

  function Deduct(stock: Stock, m: map<string, int>): Stock {
    map p | p in stock :: stock[p] - Staged(m, p)
  }

  predicate Covers(stock: Stock, m: map<string, int>) {
    forall p :: p in m ==> p in stock && stock[p] >= m[p]
  }

  datatype Books = Books(stock: Stock, orders: map<nat, Order>)

  /** A whole transaction: stage every line, stage the order, re-check, deduct, create.
      `failStage` and `failCommit` are the injected order failures at its two places. */
  function Transact(b: Books, cart: seq<Item>, o: Order, failStage: bool, failCommit: bool): Result<Books> {
    var r := StageAll(b.stock, cart);
    if r.Failure? then Failure(r.error)
    else if failStage then Failure(CreateError)
    else if !Covers(b.stock, r.value) then Failure(InsufficientStock)
    else if failCommit then Failure(CreateError)
    else Success(Books(Deduct(b.stock, r.value), b.orders[o.id := o]))
  }

  /** A transaction succeeds exactly when the stock serves the cart and no failure is injected:
      the re-check at commit never fails, since no other transaction runs meanwhile.  It then
      deducts exactly what the cart wants and leaves no product below zero. */
  lemma TransactExact(b: Books, cart: seq<Item>, o: Order, failStage: bool, failCommit: bool)
    ensures
      var r := Transact(b, cart, o, failStage, failCommit);
      && (r.Success? <==> Serves(b.stock, cart) && !failStage && !failCommit)
      && (r.Success? ==>
            && r.value.orders == b.orders[o.id := o] && r.value.stock.Keys == b.stock.Keys
            && forall p :: p in b.stock ==>
                 && r.value.stock[p] == b.stock[p] - Wanted(cart, p)
                 && (b.stock[p] >= 0 ==> r.value.stock[p] >= 0))
      && (r.Failure? ==> if Serves(b.stock, cart) then r.error == CreateError
                         else StageAll(b.stock, cart) == Failure(r.error))
  {
    StagingExact(b.stock, cart);
  }

  /** Once a line cannot be reserved the rest of the cart is not looked at. */
  lemma {:induction false} StagingStops(stock: Stock, cart: seq<Item>, n: nat)
    requires n <= |cart| && StageAll(stock, cart[..n]).Failure?
    ensures StageAll(stock, cart) == StageAll(stock, cart[..n])
  {
    if n == |cart| {
      assert cart[..n] == cart;
    } else {
      var m := |cart| - 1;
      assert cart[..m][..n] == cart[..n];
      StagingStops(stock, cart[..m], n);
    }
  }

  /** The transaction manager and its repositories, as the code changes them. */
  class TransactionManager {
    var stock: Stock
    var orders: map<nat, Order>

    ghost function View(): Books
      reads this
    {
      Books(stock, orders)
    }

    constructor (initial: Stock)
      ensures View() == Books(initial, map[])
    {
      stock, orders := initial, map[];
    }

    method ReserveAll(cart: seq<Item>) returns (r: Result<map<string, int>>)
      ensures r == StageAll(stock, cart)
    {
      var m: map<string, int> := map[];
      for n := 0 to |cart|
        invariant StageAll(stock, cart[..n]) == Success(m)
      {
        assert cart[..n + 1][..n] == cart[..n];
        var one := Reserve(stock, m, cart[n]);
        if one.Failure? {
          StagingStops(stock, cart, n + 1);
          return one;
        }
        m := one.value;
      }
      assert cart[..|cart|] == cart;
      return Success(m);
    }

    /** The commit's re-check of every staged product. */
    method Recheck(m: map<string, int>) returns (ok: bool)
      ensures ok == Covers(stock, m)
    {
      var left := m.Keys;
      while left != {}
        invariant left <= m.Keys
        invariant forall p :: p in m.Keys - left ==> p in stock && stock[p] >= m[p]
        decreases |left|
      {
        var p :| p in left;
        if p !in stock || stock[p] < m[p] {
          return false;
        }
        left := left - {p};
      }
      return true;
    }

    /** Adds `sign * m` to the stock, product by product in any order: the deduction loop with
        -1, the undo loop with 1. */
    method Adjust(m: map<string, int>, sign: int)
      requires m.Keys <= stock.Keys
      modifies this`stock
      ensures stock == map p | p in old(stock) :: old(stock)[p] + sign * Staged(m, p)
    {
      var left := m.Keys;
      while left != {}
        invariant left <= m.Keys && stock.Keys == old(stock).Keys
        invariant forall p :: p in left ==> stock[p] == old(stock)[p]
        invariant forall p :: p in stock && p !in left ==> stock[p] == old(stock)[p] + sign * Staged(m, p)
        decreases |left|
      {
        var p :| p in left;
        stock := stock[p := stock[p] + sign * m[p]];
        left := left - {p};
      }
    }

    method Commit(m: map<string, int>, o: Order, fail: bool) returns (e: Result<()>)
      modifies this
      ensures !Covers(old(stock), m) ==> e == Failure(InsufficientStock) && View() == old(View())
      ensures Covers(old(stock), m) && fail ==> e == Failure(CreateError) && View() == old(View())
      ensures Covers(old(stock), m) && !fail ==>
                e == Success(()) && View() == Books(Deduct(old(stock), m), old(orders)[o.id := o])
    {
      var covered := Recheck(m);
      if !covered {
        return Failure(InsufficientStock);
      }
      Adjust(m, -1);
      assert stock == Deduct(old(stock), m);
      if fail {
        Adjust(m, 1);
        assert stock == old(stock);
        return Failure(CreateError);
      }
      orders := orders[o.id := o];
      return Success(());
    }

    method WithinTransaction(cart: seq<Item>, o: Order, failStage: bool, failCommit: bool) returns (e: Result<()>)
      modifies this
      ensures
        var r := Transact(old(View()), cart, o, failStage, failCommit);
        && View() == (if r.Success? then r.value else old(View()))
        && e == (if r.Success? then Success(()) else Failure(r.error))
    {
      var staged := ReserveAll(cart);
      if staged.Failure? {
        return Failure(staged.error);
      }
      if failStage {
        return Failure(CreateError);
      }
      e := Commit(staged.value, o, failCommit);
    }
  }

  // ---------- Scoped keys ----------

  /** `checkout:<user>:<key>`. */
  function ScopedKey(user: string, key: string): string {
    "checkout:" + (user + ":" + key)
  }

  /** Users whose ids have no colon never share a scoped key. */
  lemma ScopedKeyInjective(u: string, k: string, u': string, k': string)
    requires ':' !in u && ':' !in u' && ScopedKey(u, k) == ScopedKey(u', k')
    ensures u == u' && k == k'
  {
    var s, s' := u + ":" + k, u' + ":" + k';
    assert ScopedKey(u, k)[9..] == s && ScopedKey(u', k')[9..] == s';
    assert s[|u|] == ':' && s[|u'|] == ':';
    assert |u| == |u'|;
    assert s[..|u|] == u && s[..|u'|] == u';
    assert s[|u| + 1..] == k && s[|u'| + 1..] == k';
  }

  predicate Blank(s: string) {
    forall i :: 0 <= i < |s| ==> s[i] in {' ', '\t', '\n', '\r'}
  }

  lemma SplitLonger(u: string, k: string, v: string, k': string)
    requires u + ":" + k == v + ":" + k' && |u| < |v|
    ensures u + ":" <= v && k == v[|u| + 1..] + ":" + k'
  {
    var s := u + ":" + k;
    assert s[..|u| + 1] == u + ":" && s[..|v|] == v;
    assert v[..|u| + 1] == u + ":";
    assert k == s[|u| + 1..] == v[|u| + 1..] + ":" + k';
  }

  /** Exactly when two requests share a scoped key: they are the same, or one user id is the
      other followed by a colon and the shorter user's key supplies the rest. */
  lemma ScopedKeysEqual(u: string, k: string, v: string, k': string)
    ensures ScopedKey(u, k) == ScopedKey(v, k') <==>
            || (u == v && k == k')
            || (u + ":" <= v && k == v[|u| + 1..] + ":" + k')
            || (v + ":" <= u && k' == u[|v| + 1..] + ":" + k)
  {
    var s, t := u + ":" + k, v + ":" + k';
    assert ScopedKey(u, k)[9..] == s && ScopedKey(v, k')[9..] == t;
    if s == t {
      if |u| < |v| {
        SplitLonger(u, k, v, k');
      } else if |v| < |u| {
        SplitLonger(v, k', u, k);
      } else {
        assert s[..|u|] == u && t[..|v|] == v && s[|u| + 1..] == k && t[|v| + 1..] == k';
      }
    }
    if u + ":" <= v && k == v[|u| + 1..] + ":" + k' {
      assert v == u + ":" + v[|u| + 1..];
    }
    if v + ":" <= u && k' == u[|v| + 1..] + ":" + k {
      assert u == v + ":" + u[|v| + 1..];
    }
  }

  /** Two different users can share a scoped key, with keys the service accepts, exactly when one
      id is the other followed by a colon. */
  lemma UsersCollideIff(u: string, v: string)
    requires u != v
    ensures (exists k, k' :: !Blank(k) && !Blank(k') && ScopedKey(u, k) == ScopedKey(v, k'))
            <==> u + ":" <= v || v + ":" <= u
  {
    if u + ":" <= v {
      var k := v[|u| + 1..] + ":" + "k";
      ScopedKeysEqual(u, k, v, "k");
      assert k[|k| - 1] == 'k' && "k"[0] == 'k';
      assert !Blank(k) && !Blank("k");
    }
    if v + ":" <= u {
      var k' := u[|v| + 1..] + ":" + "k";
      ScopedKeysEqual(u, "k", v, k');
      assert k'[|k'| - 1] == 'k' && "k"[0] == 'k';
      assert !Blank(k') && !Blank("k");
    }
    if k, k' :| ScopedKey(u, k) == ScopedKey(v, k') {
      ScopedKeysEqual(u, k, v, k');
    }
  }

  /** For instance user `a` with key `b:c` and user `a:b` with key `c`. */
  lemma UsersCollide()
    ensures ScopedKey("a", "b:c") == ScopedKey("a:b", "c")
  {
    assert "a" + ":" + "b:c" == "a:b" + ":" + "c";
  }
}
