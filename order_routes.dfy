/** The order routes: checkout from the cart, the newest-first listings, the
    status update and deletion.

    A checkout changes products in the session while it checks the selected
    lines one by one; any failure raises before the first commit, so nothing
    it did is kept. PlanCheckout works on a local copy of the product table
    for that reason, and CreateOrder writes the store only when the plan
    succeeds. */
module OrderRoutes {
  import opened Errors
  import opened Catalog
  import opened CartModels
  import opened OrderModels
  import opened Database

  predicate Distinct(ids: seq<int>)
  {
    forall i, j :: 0 <= i < j < |ids| ==> ids[i] != ids[j]
  }

  function IdSet(ids: seq<int>): set<int>
  {
    set id | id in ids
  }

  // ---------------------------------------------------------------------------
  // Checking the selected lines

  /** A selected product can be checked out: it has a cart line, it exists, and
      its stock covers the line's quantity. */
  predicate Passes(products: Products, items: seq<CartItem>, productId: int)
  {
    && InCart(items, productId)
    && productId in products
    && products[productId].stock >= QuantityOf(items, productId)
  }

  predicate AllPass(products: Products, items: seq<CartItem>, productIds: seq<int>)
  {
    forall i :: 0 <= i < |productIds| ==> Passes(products, items, productIds[i])
  }

  /** The checks made on one selected product, in the order the route makes
      them. */
  function CheckLine(products: Products, items: seq<CartItem>, productId: int): (r: Option<Error>)
    ensures r.None? <==> Passes(products, items, productId)
  {
    if !InCart(items, productId) then Some(NotInCart(productId))
    else if productId !in products then Some(ProductNotFound(productId))
    else if products[productId].stock < QuantityOf(items, productId) then Some(InsufficientStock(productId))
    else None
  }

  /** The error of the first selected product that fails its checks. */
  function FirstError(products: Products, items: seq<CartItem>, productIds: seq<int>): (r: Option<Error>)
    ensures r.None? <==> AllPass(products, items, productIds)
    ensures r.Some? ==> exists i :: 0 <= i < |productIds| && CheckLine(products, items, productIds[i]) == r
                                   && forall j :: 0 <= j < i ==> Passes(products, items, productIds[j])
  {
    if productIds == [] then None
    else
      var n := |productIds| - 1;
      var init := productIds[..n];
      assert forall j :: 0 <= j < n ==> init[j] == productIds[j];
      var e := FirstError(products, items, init);
      if e.Some? then e else CheckLine(products, items, productIds[n])
  }

  /** Once the selected products before position i pass and the one at i
      fails, the checkout reports the failure at i. */
  lemma {:induction false} FirstErrorAt(products: Products, items: seq<CartItem>, productIds: seq<int>, i: nat)
    requires i < |productIds|
    requires AllPass(products, items, productIds[..i])
    requires CheckLine(products, items, productIds[i]).Some?
    ensures FirstError(products, items, productIds) == CheckLine(products, items, productIds[i])
  {
    var n := |productIds| - 1;
    if n == i {
      assert productIds[..n] == productIds[..i];
    } else {
      var init := productIds[..n];
      assert init[..i] == productIds[..i];
      assert init[i] == productIds[i];
      FirstErrorAt(products, items, init, i);
    }
  }

  // ---------------------------------------------------------------------------
  // What a successful checkout computes

  /** A product after `quantity` of it is taken: stock drops by the quantity,
      and the product becomes unavailable when none is left. */
  function Take(product: Product, quantity: int): Product
  {
    var left := product.stock - quantity;
    product.(stock := left, isAvailable := if left <= 0 then false else product.isAvailable)
  }

  /** The product table after taking each selected product's cart quantity,
      one selected product after the other. */
  function ApplyCheckout(products: Products, items: seq<CartItem>, productIds: seq<int>): (r: Products)
    ensures r.Keys == products.Keys
  {
    if productIds == [] then products
    else
      var n := |productIds| - 1;
      var before := ApplyCheckout(products, items, productIds[..n]);
      var pid := productIds[n];
      if pid in before && InCart(items, pid) then before[pid := Take(before[pid], QuantityOf(items, pid))]
      else before
  }

  /** The order's items: per selected product, its cart quantity and its price
      at that moment, in selection order. */
  function OrderLines(products: Products, items: seq<CartItem>, productIds: seq<int>): seq<OrderItem>
    requires AllPass(products, items, productIds)
  {
    if productIds == [] then []
    else
      var n := |productIds| - 1;
      var pid := productIds[n];
      OrderLines(products, items, productIds[..n]) + [OrderItem(pid, QuantityOf(items, pid), products[pid].price)]
  }

  /** The sum of price times cart quantity over the selected products. */
  function SelectedTotal(products: Products, items: seq<CartItem>, productIds: seq<int>): int
    requires AllPass(products, items, productIds)
  {
    if productIds == [] then 0
    else
      var n := |productIds| - 1;
      var pid := productIds[n];
      SelectedTotal(products, items, productIds[..n]) + products[pid].price * QuantityOf(items, pid)
  }

  /** What a checkout that passes its checks commits: the new product table,
      the order's items and its total. */
  datatype Plan = Plan(products: Products, lines: seq<OrderItem>, total: int)

  /** The outcome of a checkout of the selected products from the given cart
      lines (no lines when the user has no cart). */
  function ExpectedCheckout(products: Products, items: seq<CartItem>, productIds: seq<int>): (r: Result<Plan>)
    ensures r.Ok? <==> items != [] && productIds != [] && AllPass(products, items, productIds)
    ensures r.Ok? ==> r.value.products.Keys == products.Keys
    ensures items == [] ==> r == Err(CartEmptyOrMissing)
    ensures items != [] && !AllPass(products, items, productIds) ==> r == Err(FirstError(products, items, productIds).value)
    ensures items != [] && productIds == [] ==> r == Err(NoItemsSelected)
  {
    if items == [] then Err(CartEmptyOrMissing)
    else
      match FirstError(products, items, productIds)
      case Some(e) => Err(e)
      case None =>
        if productIds == [] then Err(NoItemsSelected)
        else Ok(Plan(ApplyCheckout(products, items, productIds),
                     OrderLines(products, items, productIds),
                     SelectedTotal(products, items, productIds)))
  }

  // ---------------------------------------------------------------------------
  // Properties of a successful checkout

  /** A product that is not selected keeps its state through the checkout. */
  lemma {:induction false} ApplyCheckoutUntouched(products: Products, items: seq<CartItem>, productIds: seq<int>, productId: int)
    requires productId in products && productId !in productIds
    ensures ApplyCheckout(products, items, productIds)[productId] == products[productId]
  {
    if productIds != [] {
      var n := |productIds| - 1;
      var init := productIds[..n];
      assert forall j :: 0 <= j < n ==> init[j] == productIds[j];
      assert productId !in init;
      ApplyCheckoutUntouched(products, items, init, productId);
    }
  }

  /** Checkout touches only the selected products, and each of them exactly
      once: its new state is its old state minus its cart quantity. */
  lemma {:induction false} ApplyCheckoutEffect(products: Products, items: seq<CartItem>, productIds: seq<int>)
    requires Distinct(productIds)
    requires AllPass(products, items, productIds)
    ensures forall pid :: pid in products && pid !in productIds ==>
      ApplyCheckout(products, items, productIds)[pid] == products[pid]
    ensures forall i :: 0 <= i < |productIds| ==>
      ApplyCheckout(products, items, productIds)[productIds[i]] == Take(products[productIds[i]], QuantityOf(items, productIds[i]))
  {
    forall pid | pid in products && pid !in productIds
      ensures ApplyCheckout(products, items, productIds)[pid] == products[pid]
    {
      ApplyCheckoutUntouched(products, items, productIds, pid);
    }
    if productIds != [] {
      var n := |productIds| - 1;
      var init := productIds[..n];
      var last := productIds[n];
      assert forall j :: 0 <= j < n ==> init[j] == productIds[j];
      assert Distinct(init) && AllPass(products, items, init);
      ApplyCheckoutEffect(products, items, init);
      assert forall j :: 0 <= j < n ==> init[j] != last;
      assert last !in init;
      ApplyCheckoutUntouched(products, items, init, last);
    }
  }

  /** On a successful checkout each selected product's stock drops by exactly
      its cart quantity and stays non-negative; its name and price stay; it is
      unavailable when its stock reaches zero or below, and checkout never makes
      a product available. Products not selected are untouched. */
  lemma CheckoutStock(products: Products, items: seq<CartItem>, productIds: seq<int>)
    requires Distinct(productIds)
    requires StockNonNegative(products)
    requires ExpectedCheckout(products, items, productIds).Ok?
    ensures var after := ExpectedCheckout(products, items, productIds).value.products;
      && after.Keys == products.Keys
      && StockNonNegative(after)
      && (forall pid :: pid in products && pid !in productIds ==> after[pid] == products[pid])
      && (forall i :: 0 <= i < |productIds| ==>
            var pid := productIds[i];
            && after[pid].stock == products[pid].stock - QuantityOf(items, pid)
            && after[pid].name == products[pid].name
            && after[pid].price == products[pid].price
            && (after[pid].stock <= 0 ==> !after[pid].isAvailable)
            && (after[pid].isAvailable ==> products[pid].isAvailable))
  {
    ApplyCheckoutEffect(products, items, productIds);
    var after := ApplyCheckout(products, items, productIds);
    forall pid | pid in after ensures after[pid].stock >= 0 {
      if pid in productIds {
        var i :| 0 <= i < |productIds| && productIds[i] == pid;
        assert Passes(products, items, productIds[i]);
      }
    }
  }

  /** In particular a successful checkout leaves no stock negative. */
  lemma CheckoutKeepsStock(products: Products, items: seq<CartItem>, productIds: seq<int>)
    requires Distinct(productIds)
    requires StockNonNegative(products)
    requires ExpectedCheckout(products, items, productIds).Ok?
    ensures StockNonNegative(ExpectedCheckout(products, items, productIds).value.products)
  {
    CheckoutStock(products, items, productIds);
  }

  /** The order has one item per selected product, in selection order, with
      its cart quantity and its price at checkout. */
  lemma {:induction false} OrderLinesAt(products: Products, items: seq<CartItem>, productIds: seq<int>)
    requires AllPass(products, items, productIds)
    ensures |OrderLines(products, items, productIds)| == |productIds|
    ensures forall i :: 0 <= i < |productIds| ==>
      OrderLines(products, items, productIds)[i]
        == OrderItem(productIds[i], QuantityOf(items, productIds[i]), products[productIds[i]].price)
  {
    if productIds != [] {
      var n := |productIds| - 1;
      var init := productIds[..n];
      assert forall j :: 0 <= j < n ==> init[j] == productIds[j];
      OrderLinesAt(products, items, init);
    }
  }

  /** From valid cart lines and distinct selected products, the order's items
      are valid: quantities at least 1 and one item per product. */
  lemma OrderLinesValid(products: Products, items: seq<CartItem>, productIds: seq<int>)
    requires ValidLines(items)
    requires Distinct(productIds)
    requires AllPass(products, items, productIds)
    ensures ValidOrderItems(OrderLines(products, items, productIds))
  {
    OrderLinesAt(products, items, productIds);
    var lines := OrderLines(products, items, productIds);
    forall i | 0 <= i < |lines| ensures ValidOrderItem(lines[i]) {
      var idx := IndexOf(items, productIds[i]).value;
      assert ValidItem(items[idx]);
    }
  }

  /** The order's total, the sum of its items' subtotals, is the sum of price
      times cart quantity over the selected products. */
  lemma {:induction false} SelectedTotalIsItemsTotal(products: Products, items: seq<CartItem>, productIds: seq<int>)
    requires AllPass(products, items, productIds)
    ensures ItemsTotal(OrderLines(products, items, productIds)) == SelectedTotal(products, items, productIds)
  {
    if productIds != [] {
      var n := |productIds| - 1;
      var init := productIds[..n];
      assert forall j :: 0 <= j < n ==> init[j] == productIds[j];
      assert AllPass(products, items, init);
      SelectedTotalIsItemsTotal(products, items, init);
      var pid := productIds[n];
      var prev := OrderLines(products, items, init);
      var item := OrderItem(pid, QuantityOf(items, pid), products[pid].price);
      var lines := prev + [item];
      assert lines == OrderLines(products, items, productIds);
      assert lines[..|lines| - 1] == prev;
      assert ItemsTotal(lines) == ItemsTotal(prev) + Subtotal(item);
    }
  }

  /** When every product's price fits the price column, so does every price
      copied onto the order. */
  lemma CheckoutPricesFit(products: Products, items: seq<CartItem>, productIds: seq<int>)
    requires AllPass(products, items, productIds)
    requires forall pid :: pid in products ==> FitsPriceColumn(products[pid].price)
    ensures forall i :: 0 <= i < |OrderLines(products, items, productIds)| ==>
      FitsPriceColumn(OrderLines(products, items, productIds)[i].priceAtPurchase)
  {
    OrderLinesAt(products, items, productIds);
  }

  // ---------------------------------------------------------------------------
  // create_order

  /** One more selected product that passes its checks extends the prefix
      results by that product alone; until its turn its product is as at the
      start of the checkout. */
  lemma CheckoutStep(products: Products, items: seq<CartItem>, productIds: seq<int>, i: nat)
    requires i < |productIds|
    requires Distinct(productIds)
    requires AllPass(products, items, productIds[..i])
    ensures var pid := productIds[i];
      var before := ApplyCheckout(products, items, productIds[..i]);
      && (pid in before <==> pid in products)
      && (pid in before ==> before[pid] == products[pid])
    ensures Passes(products, items, productIds[i]) ==>
      var pid := productIds[i];
      var quantity := QuantityOf(items, pid);
      && AllPass(products, items, productIds[..i + 1])
      && ApplyCheckout(products, items, productIds[..i + 1])
           == ApplyCheckout(products, items, productIds[..i])[pid := Take(products[pid], quantity)]
      && OrderLines(products, items, productIds[..i + 1])
           == OrderLines(products, items, productIds[..i]) + [OrderItem(pid, quantity, products[pid].price)]
      && SelectedTotal(products, items, productIds[..i + 1])
           == SelectedTotal(products, items, productIds[..i]) + products[pid].price * quantity
  {
    var pid := productIds[i];
    var init := productIds[..i];
    assert productIds[..i + 1][..i] == init;
    assert forall j :: 0 <= j < i ==> init[j] == productIds[j];
    assert forall j :: 0 <= j < i ==> init[j] != pid;
    assert pid !in init;
    if pid in products {
      ApplyCheckoutUntouched(products, items, init, pid);
    }
    if Passes(products, items, pid) {
      var next := productIds[..i + 1];
      forall j | 0 <= j < i + 1 ensures Passes(products, items, next[j]) {
        if j < i {
          assert next[j] == init[j];
        }
      }
    }
  }

  /** The checking loop of the checkout on a local copy of the product table. */
  method PlanCheckout(products: Products, items: seq<CartItem>, productIds: seq<int>) returns (r: Result<Plan>)
    requires Distinct(productIds)
    ensures r == ExpectedCheckout(products, items, productIds)
  {
    if items == [] {
      return Err(CartEmptyOrMissing);
    }
    var current := products;
    var lines: seq<OrderItem> := [];
    var total := 0;
    var i := 0;
    while i < |productIds|
      invariant 0 <= i <= |productIds|
      invariant AllPass(products, items, productIds[..i])
      invariant current == ApplyCheckout(products, items, productIds[..i])
      invariant lines == OrderLines(products, items, productIds[..i])
      invariant total == SelectedTotal(products, items, productIds[..i])
      invariant |lines| == i
    {
      var pid := productIds[i];
      CheckoutStep(products, items, productIds, i);
      var found := FindItem(items, pid);
      if found.None? {
        FirstErrorAt(products, items, productIds, i);
        return Err(NotInCart(pid));
      }
      var quantity := items[found.value].quantity;
      if pid !in current {
        FirstErrorAt(products, items, productIds, i);
        return Err(ProductNotFound(pid));
      }
      var product := current[pid];
      if product.stock < quantity {
        FirstErrorAt(products, items, productIds, i);
        return Err(InsufficientStock(pid));
      }
      var updated := product.(stock := product.stock - quantity);
      if updated.stock <= 0 {
        updated := updated.(isAvailable := false);
      }
      current := current[pid := updated];
      total := total + product.price * quantity;
      lines := lines + [OrderItem(pid, quantity, product.price)];
      i := i + 1;
    }
    assert productIds[..|productIds|] == productIds;
    if lines == [] {
      return Err(NoItemsSelected);
    }
    r := Ok(Plan(current, lines, total));
  }

  /** What create_order answers on success. */
  datatype Receipt = Receipt(orderId: int, total: int)

  /** The order a successful checkout records. */
  function PlacedOrder(id: int, userId: int, now: int, plan: Plan): Order
  {
    Order(id, userId, now, NewStatus, plan.total, plan.lines)
  }

  lemma IdSetSnoc(ids: seq<int>, i: nat)
    requires i < |ids|
    ensures IdSet(ids[..i + 1]) == IdSet(ids[..i]) + {ids[i]}
  {
    assert ids[..i + 1] == ids[..i] + [ids[i]];
  }

  /** After the lines of the first i selected products are gone, the next
      selected product still has its line, and deleting it leaves the lines of
      the first i + 1 gone. */
  lemma DeleteStep(items: seq<CartItem>, productIds: seq<int>, i: nat, remaining: seq<CartItem>)
    requires ValidLines(items)
    requires Distinct(productIds)
    requires i < |productIds| && InCart(items, productIds[i])
    requires remaining == Without(items, IdSet(productIds[..i]))
    ensures UniqueProducts(remaining) && InCart(remaining, productIds[i])
    ensures Without(remaining, {productIds[i]}) == Without(items, IdSet(productIds[..i + 1]))
  {
    var pid := productIds[i];
    var init := productIds[..i];
    var done := IdSet(init);
    assert pid !in done by {
      assert forall j :: 0 <= j < i ==> init[j] != pid;
    }
    var k :| 0 <= k < |items| && items[k].productId == pid;
    WithoutMembers(items, done);
    assert items[k] in remaining;
    var m :| 0 <= m < |remaining| && remaining[m] == items[k];
    WithoutValid(items, done);
    WithoutTwice(items, done, {pid});
    IdSetSnoc(productIds, i);
  }

  /** Deleting the line a product has in a cart, found by scanning the lines. */
  method DeleteLine(items: seq<CartItem>, productId: int) returns (rest: seq<CartItem>)
    requires UniqueProducts(items) && InCart(items, productId)
    ensures rest == Without(items, {productId})
  {
    var found := FindItem(items, productId);
    var k := found.value;
    WithoutAt(items, productId, k);
    rest := items[..k] + items[k + 1..];
  }

  /** Deleting the consumed cart lines, one selected product at a time; each
      selected product still has its line when its turn comes. */
  method DeleteLines(items: seq<CartItem>, productIds: seq<int>) returns (remaining: seq<CartItem>)
    requires ValidLines(items)
    requires Distinct(productIds)
    requires forall i :: 0 <= i < |productIds| ==> InCart(items, productIds[i])
    ensures remaining == Without(items, IdSet(productIds))
  {
    remaining := items;
    var i := 0;
    assert IdSet(productIds[..0]) == {};
    WithoutAbsent(items, {});
    while i < |productIds|
      invariant 0 <= i <= |productIds|
      invariant remaining == Without(items, IdSet(productIds[..i]))
    {
      DeleteStep(items, productIds, i, remaining);
      remaining := DeleteLine(remaining, productIds[i]);
      i := i + 1;
    }
    assert productIds[..|productIds|] == productIds;
  }

  /** Removing the lines of the first i selected products, each of which has
      a line, removes exactly i lines. */
  lemma {:induction false} WithoutSelectedCount(items: seq<CartItem>, productIds: seq<int>, i: nat)
    requires ValidLines(items)
    requires Distinct(productIds)
    requires forall j :: 0 <= j < |productIds| ==> InCart(items, productIds[j])
    requires i <= |productIds|
    ensures |Without(items, IdSet(productIds[..i]))| == |items| - i
  {
    if i == 0 {
      assert IdSet(productIds[..0]) == {};
      WithoutAbsent(items, {});
    } else {
      WithoutSelectedCount(items, productIds, i - 1);
      var remaining := Without(items, IdSet(productIds[..i - 1]));
      var pid := productIds[i - 1];
      assert InCart(items, pid);
      DeleteStep(items, productIds, i - 1, remaining);
      WithoutOne(remaining, pid);
    }
  }

  /** A successful checkout removes exactly the selected cart lines, one per
      selected product, and keeps every other line. */
  lemma CheckoutRemovesSelected(products: Products, items: seq<CartItem>, productIds: seq<int>)
    requires ValidLines(items)
    requires Distinct(productIds)
    requires ExpectedCheckout(products, items, productIds).Ok?
    ensures forall it :: it in Without(items, IdSet(productIds)) <==> it in items && it.productId !in productIds
    ensures |Without(items, IdSet(productIds))| == |items| - |productIds|
  {
    WithoutMembers(items, IdSet(productIds));
    assert forall j :: 0 <= j < |productIds| ==> Passes(products, items, productIds[j]);
    WithoutSelectedCount(items, productIds, |productIds|);
    assert productIds[..|productIds|] == productIds;
  }

  /** Replacing a cart's lines by the lines left after a checkout keeps the
      carts valid. */
  lemma CheckoutCartsValid(carts: map<int, Cart>, nextCartId: int, userId: int, ids: set<int>)
    requires CartsValid(carts, nextCartId)
    requires userId in carts
    ensures CartsValid(carts[userId := carts[userId].(items := Without(carts[userId].items, ids))], nextCartId)
  {
    WithoutValid(carts[userId].items, ids);
    SetLinesValid(carts, nextCartId, userId, Without(carts[userId].items, ids));
  }

  /** Recording the order of a successful checkout under the next free id
      keeps the orders valid. */
  lemma CheckoutOrdersValid(products: Products, items: seq<CartItem>, productIds: seq<int>,
                            orders: map<int, Order>, nextOrderId: int, userId: int, now: int)
    requires OrdersValid(orders, nextOrderId)
    requires ValidLines(items)
    requires Distinct(productIds)
    requires ExpectedCheckout(products, items, productIds).Ok?
    ensures OrdersValid(orders[nextOrderId := PlacedOrder(nextOrderId, userId, now, ExpectedCheckout(products, items, productIds).value)],
                        nextOrderId + 1)
  {
    var plan := ExpectedCheckout(products, items, productIds).value;
    OrderLinesValid(products, items, productIds);
    SelectedTotalIsItemsTotal(products, items, productIds);
    var order := PlacedOrder(nextOrderId, userId, now, plan);
    assert ValidOrder(order);
    var after := orders[nextOrderId := order];
    forall o | o in after ensures after[o].id == o && 1 <= o < nextOrderId + 1 && ValidOrder(after[o]) {
      if o != nextOrderId {
        assert o in orders;
      }
    }
  }

  method CreateOrder(store: Store, request: CheckoutRequest, now: int) returns (r: Result<Receipt>)
    requires store.Valid()
    requires Distinct(request.productIds)
    modifies store`products, store`carts, store`orders, store`nextOrderId
    ensures store.Valid()
    ensures
      var items := CartLines(old(store.carts), request.userId);
      var expected := ExpectedCheckout(old(store.products), items, request.productIds);
      && (expected.Err? ==>
            && r == Err(expected.error)
            && store.products == old(store.products) && store.carts == old(store.carts)
            && store.orders == old(store.orders) && store.nextOrderId == old(store.nextOrderId))
      && (expected.Ok? ==>
            var id := old(store.nextOrderId);
            var plan := expected.value;
            && request.userId in old(store.carts)
            && r == Ok(Receipt(id, plan.total))
            && store.products == plan.products
            && store.orders == old(store.orders)[id := PlacedOrder(id, request.userId, now, plan)]
            && store.nextOrderId == id + 1
            && store.carts == old(store.carts)[request.userId :=
                 old(store.carts)[request.userId].(items := Without(items, IdSet(request.productIds)))])
  {
    var userId := request.userId;
    var productIds := request.productIds;
    var items := CartLines(store.carts, userId);
    var planned := PlanCheckout(store.products, items, productIds);
    if planned.Err? {
      return Err(planned.error);
    }
    var plan := planned.value;
    CheckoutKeepsStock(store.products, items, productIds);
    CheckoutCartsValid(store.carts, store.nextCartId, userId, IdSet(productIds));
    CheckoutOrdersValid(store.products, items, productIds, store.orders, store.nextOrderId, userId, now);

    // The new stock and the order with its items and total, written in one
    // step (the route commits the items separately, after the order).
    var id := store.nextOrderId;
    store.products := plan.products;
    store.orders := store.orders[id := PlacedOrder(id, userId, now, plan)];
    store.nextOrderId := id + 1;

    var cart := store.carts[userId];
    assert forall i :: 0 <= i < |productIds| ==> Passes(old(store.products), items, productIds[i]);
    var remaining := DeleteLines(cart.items, productIds);
    store.carts := store.carts[userId := cart.(items := remaining)];
    r := Ok(Receipt(id, plan.total));
  }

  /** The two checkout examples: a whole-cart checkout when there is stock for
      everything, and the same checkout when the second product is sold out. */
  lemma CheckoutExamples()
    ensures
      var items := [CartItem(1, 2), CartItem(2, 1)];
      var products := map[1 := Product("A", 1000, 5, true), 2 := Product("B", 500, 1, true)];
      var r := ExpectedCheckout(products, items, [1, 2]);
      && r.Ok?
      && r.value.total == 2500
      && r.value.products[1].stock == 3
      && r.value.products[2].stock == 0 && !r.value.products[2].isAvailable
      && Without(items, IdSet([1, 2])) == []
    ensures
      var items := [CartItem(1, 2), CartItem(2, 1)];
      var products := map[1 := Product("A", 1000, 5, true), 2 := Product("B", 500, 0, false)];
      ExpectedCheckout(products, items, [1, 2]) == Err(InsufficientStock(2))
  {
    var items := [CartItem(1, 2), CartItem(2, 1)];
    assert IndexOf(items, 1) == Some(0);
    assert IndexOf(items, 2) == Some(1);
    assert [1, 2][..1] == [1];
    assert [1][..0] == [];
    var products := map[1 := Product("A", 1000, 5, true), 2 := Product("B", 500, 1, true)];
    assert AllPass(products, items, [1, 2]);
    var soldOut := map[1 := Product("A", 1000, 5, true), 2 := Product("B", 500, 0, false)];
    assert AllPass(soldOut, items, [1]);
    FirstErrorAt(soldOut, items, [1, 2], 1);
  }

  // ---------------------------------------------------------------------------
  // get_user_orders and get_all_orders

  predicate NewestFirst(orders: seq<Order>)
  {
    forall i, j :: 0 <= i < j < |orders| ==> orders[i].createdAt >= orders[j].createdAt
  }

  /** Insert an order into a list, after every leading order at least as new. */
  function InsertByDate(orders: seq<Order>, order: Order): (r: seq<Order>)
    ensures multiset(r) == multiset(orders) + multiset{order}
    ensures r != [] && (r[0] == order || (orders != [] && r[0] == orders[0]))
  {
    if orders == [] then [order]
    else if order.createdAt > orders[0].createdAt then [order] + orders
    else
      assert orders == [orders[0]] + orders[1..];
      [orders[0]] + InsertByDate(orders[1..], order)
  }

  /** Inserting into a newest-first list keeps it newest first. */
  lemma {:induction false} InsertByDateSorted(orders: seq<Order>, order: Order)
    requires NewestFirst(orders)
    ensures NewestFirst(InsertByDate(orders, order))
  {
    if orders != [] && order.createdAt <= orders[0].createdAt {
      var tail := orders[1..];
      var rest := InsertByDate(tail, order);
      InsertByDateSorted(tail, order);
      assert rest[0].createdAt <= orders[0].createdAt by {
        if rest[0] != order {
          assert rest[0] == tail[0] == orders[1];
        }
      }
      var r := InsertByDate(orders, order);
      assert r == [orders[0]] + rest;
      forall i, j | 0 <= i < j < |r| ensures r[i].createdAt >= r[j].createdAt {
        if i == 0 {
          assert r[j] == rest[j - 1];
        } else {
          assert r[i] == rest[i - 1] && r[j] == rest[j - 1];
        }
      }
    }
  }

  /** The given orders, each once, newest first (the query's ORDER BY
      created_at DESC; orders with the same timestamp come in any order). */
  method ListNewestFirst(candidates: set<Order>) returns (rs: seq<Order>)
    ensures NewestFirst(rs)
    ensures multiset(rs) == multiset(candidates)
  {
    rs := [];
    var todo := candidates;
    while todo != {}
      invariant todo <= candidates
      invariant NewestFirst(rs)
      invariant multiset(rs) + multiset(todo) == multiset(candidates)
      decreases |todo|
    {
      var o :| o in todo;
      assert multiset(todo - {o}) + multiset{o} == multiset(todo) by {
        assert todo == (todo - {o}) + {o};
      }
      InsertByDateSorted(rs, o);
      rs := InsertByDate(rs, o);
      todo := todo - {o};
    }
  }

  /** A listing that holds each order of a set once holds no order twice. */
  lemma {:induction false} ListingDistinct(rs: seq<Order>, orders: set<Order>)
    requires multiset(rs) == multiset(orders)
    ensures forall i, j :: 0 <= i < j < |rs| ==> rs[i] != rs[j]
  {
    if rs != [] {
      var n := |rs| - 1;
      var init := rs[..n];
      var last := rs[n];
      assert rs == init + [last];
      assert last in multiset(rs);
      assert last in orders;
      forall x ensures multiset(init)[x] == multiset(orders - {last})[x] {
        assert multiset(rs)[x] == multiset(init)[x] + multiset([last])[x];
      }
      assert multiset(init) == multiset(orders - {last});
      ListingDistinct(init, orders - {last});
      assert last !in multiset(init);
      forall i, j | 0 <= i < j < |rs| ensures rs[i] != rs[j] {
        assert rs[i] == init[i];
        if j < n {
          assert rs[j] == init[j];
        }
      }
    }
  }

  /** Every stored order. */
  function AllOrders(orders: map<int, Order>): set<Order>
  {
    set id | id in orders :: orders[id]
  }

  /** The stored orders of one user (the `where user_id == …` filter). */
  function UserOrders(orders: map<int, Order>, userId: int): set<Order>
  {
    set id | id in orders && orders[id].userId == userId :: orders[id]
  }

  /** With every order stored under its own id, a listing of stored orders
      that holds each once shows every order under its id and no id twice. */
  lemma ListingById(orders: map<int, Order>, rs: seq<Order>, listed: set<Order>)
    requires forall id :: id in orders ==> orders[id].id == id
    requires listed <= AllOrders(orders)
    requires multiset(rs) == multiset(listed)
    ensures forall i :: 0 <= i < |rs| ==> rs[i].id in orders && orders[rs[i].id] == rs[i]
    ensures forall i, j :: 0 <= i < j < |rs| ==> rs[i].id != rs[j].id
  {
    forall i | 0 <= i < |rs| ensures rs[i].id in orders && orders[rs[i].id] == rs[i] {
      assert rs[i] in multiset(rs);
      assert rs[i] in AllOrders(orders);
      var id :| id in orders && orders[id] == rs[i];
    }
    ListingDistinct(rs, listed);
  }

  /** A user's orders are stored orders; each is that user's. */
  lemma UserOrdersStored(orders: map<int, Order>, userId: int)
    ensures UserOrders(orders, userId) <= AllOrders(orders)
    ensures forall o :: o in UserOrders(orders, userId) ==> o.userId == userId
  {
    forall o | o in UserOrders(orders, userId) ensures o in AllOrders(orders) && o.userId == userId {
      var id :| id in orders && orders[id].userId == userId && orders[id] == o;
    }
  }

  method GetUserOrders(store: Store, userId: int) returns (rs: seq<Order>)
    requires store.Valid()
    ensures NewestFirst(rs)
    ensures multiset(rs) == multiset(UserOrders(store.orders, userId))
    ensures forall i :: 0 <= i < |rs| ==> rs[i].userId == userId
    ensures forall i :: 0 <= i < |rs| ==> rs[i].id in store.orders && store.orders[rs[i].id] == rs[i]
    ensures forall i, j :: 0 <= i < j < |rs| ==> rs[i].id != rs[j].id
  {
    var listed := UserOrders(store.orders, userId);
    rs := ListNewestFirst(listed);
    UserOrdersStored(store.orders, userId);
    forall i | 0 <= i < |rs| ensures rs[i].userId == userId {
      assert rs[i] in multiset(rs);
    }
    ListingById(store.orders, rs, listed);
  }

  method GetAllOrders(store: Store) returns (rs: seq<Order>)
    requires store.Valid()
    ensures NewestFirst(rs)
    ensures multiset(rs) == multiset(AllOrders(store.orders))
    ensures forall i :: 0 <= i < |rs| ==> rs[i].id in store.orders && store.orders[rs[i].id] == rs[i]
    ensures forall i, j :: 0 <= i < j < |rs| ==> rs[i].id != rs[j].id
  {
    rs := ListNewestFirst(AllOrders(store.orders));
    ListingById(store.orders, rs, AllOrders(store.orders));
  }

  // ---------------------------------------------------------------------------
  // update_order_status

  /** The orders after setting one order's status: the order must exist and the
      status must be allowed; whatever the current status, only the status
      changes. */
  function SetStatus(orders: map<int, Order>, orderId: int, status: string): (r: Result<map<int, Order>>)
    ensures r.Ok? <==> orderId in orders && status in AllowedStatuses
    ensures orderId !in orders ==> r == Err(OrderNotFound(orderId))
    ensures orderId in orders && status !in AllowedStatuses ==> r == Err(InvalidStatus(status))
    ensures r.Ok? ==> r.value.Keys == orders.Keys
    ensures r.Ok? ==>
      var before := orders[orderId];
      var after := r.value[orderId];
      && after.status == status
      && after.id == before.id && after.userId == before.userId && after.createdAt == before.createdAt
      && after.totalAmount == before.totalAmount && after.items == before.items
    ensures r.Ok? ==> forall k :: k in orders && k != orderId ==> r.value[k] == orders[k]
  {
    if orderId !in orders then Err(OrderNotFound(orderId))
    else if status !in AllowedStatuses then Err(InvalidStatus(status))
    else Ok(orders[orderId := orders[orderId].(status := status)])
  }

  /** A status update keeps every order valid. */
  lemma SetStatusValid(orders: map<int, Order>, nextOrderId: int, orderId: int, status: string)
    requires OrdersValid(orders, nextOrderId)
    requires SetStatus(orders, orderId, status).Ok?
    ensures OrdersValid(SetStatus(orders, orderId, status).value, nextOrderId)
  {
    var after := SetStatus(orders, orderId, status).value;
    forall o | o in after ensures after[o].id == o && 1 <= o < nextOrderId && ValidOrder(after[o]) {
      assert o in orders;
    }
  }

  method UpdateOrderStatus(store: Store, orderId: int, status: string) returns (r: Result<Order>)
    requires store.Valid()
    modifies store`orders
    ensures store.Valid()
    ensures
      var expected := SetStatus(old(store.orders), orderId, status);
      && (expected.Err? ==> r == Err(expected.error) && store.orders == old(store.orders))
      && (expected.Ok? ==> store.orders == expected.value && r == Ok(store.orders[orderId]))
  {
    if orderId !in store.orders {
      return Err(OrderNotFound(orderId));
    }
    if status !in AllowedStatuses {
      return Err(InvalidStatus(status));
    }
    SetStatusValid(store.orders, store.nextOrderId, orderId, status);
    var order := store.orders[orderId].(status := status);
    store.orders := store.orders[orderId := order];
    r := Ok(order);
  }

  // ---------------------------------------------------------------------------
  // delete_order

  /** The orders after deleting one: it must exist; it goes with all its items,
      whatever its status, and every other order stays. */
  function RemoveOrder(orders: map<int, Order>, orderId: int): (r: Result<map<int, Order>>)
    ensures r.Ok? <==> orderId in orders
    ensures r.Err? ==> r.error == OrderNotFound(orderId)
    ensures r.Ok? ==> r.value.Keys == orders.Keys - {orderId}
    ensures r.Ok? ==> forall k :: k in r.value ==> r.value[k] == orders[k]
  {
    if orderId !in orders then Err(OrderNotFound(orderId)) else Ok(orders - {orderId})
  }

  method DeleteOrder(store: Store, orderId: int) returns (r: Result<()>)
    requires store.Valid()
    modifies store`orders
    ensures store.Valid()
    ensures
      var expected := RemoveOrder(old(store.orders), orderId);
      && (expected.Err? ==> r == Err(expected.error) && store.orders == old(store.orders))
      && (expected.Ok? ==> r == Ok(()) && store.orders == expected.value)
  {
    if orderId !in store.orders {
      return Err(OrderNotFound(orderId));
    }
    // The order's items are part of the order, so they go with it.
    store.orders := store.orders - {orderId};
    r := Ok(());
  }
}
