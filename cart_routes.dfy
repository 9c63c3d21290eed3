/** The cart routes: get-or-create, the cart view, add, update and clear. */
module CartRoutes {
  import opened Errors
  import opened Catalog
  import opened CartModels
  import opened Database

  // ---------------------------------------------------------------------------
  // get_or_create_cart

  /** The carts after looking up a user's cart and creating an empty one,
      with the next free id, when there is none. */
  function EnsureCart(carts: map<int, Cart>, userId: int, freshId: int): (r: map<int, Cart>)
    ensures userId in r && r[userId].userId == (if userId in carts then carts[userId].userId else userId)
    ensures userId in carts ==> r == carts
    ensures userId !in carts ==> r.Keys == carts.Keys + {userId} && r[userId].id == freshId && r[userId].items == []
    ensures forall u :: u in carts ==> u in r && r[u] == carts[u]
  {
    if userId in carts then carts else carts[userId := Cart(freshId, userId, [])]
  }

  /** Looking the cart up a second time finds the one the first call made. */
  lemma EnsureCartIdempotent(carts: map<int, Cart>, userId: int, freshId: int, laterId: int)
    ensures EnsureCart(EnsureCart(carts, userId, freshId), userId, laterId) == EnsureCart(carts, userId, freshId)
  {
  }

  /** Creating a cart with the next free id keeps the cart invariant. */
  lemma {:induction false} EnsureCartValid(carts: map<int, Cart>, userId: int, nextCartId: int)
    requires CartsValid(carts, nextCartId)
    ensures CartsValid(EnsureCart(carts, userId, nextCartId), if userId in carts then nextCartId else nextCartId + 1)
  {
    if userId !in carts {
      var r := EnsureCart(carts, userId, nextCartId);
      assert forall u :: u in carts ==> carts[u].id < nextCartId;
      forall u, v | u in r && v in r && u != v
        ensures r[u].id != r[v].id
      {
        if u != userId && v != userId {
          assert r[u] == carts[u] && r[v] == carts[v];
        }
      }
    }
  }

  method GetOrCreateCart(store: Store, userId: int) returns (cart: Cart)
    requires store.Valid()
    modifies store`carts, store`nextCartId
    ensures store.Valid()
    ensures store.carts == EnsureCart(old(store.carts), userId, old(store.nextCartId))
    ensures store.nextCartId == if userId in old(store.carts) then old(store.nextCartId) else old(store.nextCartId) + 1
    ensures cart == store.carts[userId]
  {
    EnsureCartValid(store.carts, userId, store.nextCartId);
    if userId !in store.carts {
      store.carts := store.carts[userId := Cart(store.nextCartId, userId, [])];
      store.nextCartId := store.nextCartId + 1;
    }
    cart := store.carts[userId];
  }

  // ---------------------------------------------------------------------------
  // get_my_cart

  /** What one line adds to the cart's total: price times quantity, or nothing
      when its product no longer exists. */
  function LineAmount(products: Products, item: CartItem): int
  {
    if item.productId in products then products[item.productId].price * item.quantity else 0
  }

  /** What one line adds to the cart's item count. */
  function LineCount(products: Products, item: CartItem): int
  {
    if item.productId in products then item.quantity else 0
  }

  /** The sum of price times quantity over the lines whose product exists. */
  function LinesTotal(products: Products, items: seq<CartItem>): int
  {
    if items == [] then 0
    else LinesTotal(products, items[..|items| - 1]) + LineAmount(products, items[|items| - 1])
  }

  /** The sum of the quantities of the lines whose product exists. */
  function LinesCount(products: Products, items: seq<CartItem>): int
  {
    if items == [] then 0
    else LinesCount(products, items[..|items| - 1]) + LineCount(products, items[|items| - 1])
  }

  function ReadLine(product: Product, item: CartItem): CartItemRead
  {
    CartItemRead(item.productId, item.quantity, product.name, product.price, product.price * item.quantity)
  }

  /** The shown lines: one per cart line whose product exists, in cart order. */
  function ReadLines(products: Products, items: seq<CartItem>): seq<CartItemRead>
  {
    if items == [] then []
    else
      var last := items[|items| - 1];
      ReadLines(products, items[..|items| - 1])
        + (if last.productId in products then [ReadLine(products[last.productId], last)] else [])
  }

  function SumTotals(shown: seq<CartItemRead>): int
  {
    if shown == [] then 0 else SumTotals(shown[..|shown| - 1]) + shown[|shown| - 1].total
  }

  function SumQuantities(shown: seq<CartItemRead>): int
  {
    if shown == [] then 0 else SumQuantities(shown[..|shown| - 1]) + shown[|shown| - 1].quantity
  }

  /** The accumulator loop of the cart view: a line whose product is missing
      is skipped; every other line is shown and counted. */
  method ReadCart(products: Products, cart: Cart) returns (view: CartRead)
    ensures view.id == cart.id && view.userId == cart.userId
    ensures view.items == ReadLines(products, cart.items)
    ensures view.totalAmount == LinesTotal(products, cart.items)
    ensures view.itemsCount == LinesCount(products, cart.items)
  {
    var shown: seq<CartItemRead> := [];
    var total := 0;
    var count := 0;
    var i := 0;
    while i < |cart.items|
      invariant 0 <= i <= |cart.items|
      invariant shown == ReadLines(products, cart.items[..i])
      invariant total == LinesTotal(products, cart.items[..i])
      invariant count == LinesCount(products, cart.items[..i])
    {
      var item := cart.items[i];
      assert cart.items[..i + 1][..i] == cart.items[..i];
      if item.productId !in products {
        i := i + 1;
        continue;
      }
      var product := products[item.productId];
      var itemTotal := product.price * item.quantity;
      shown := shown + [CartItemRead(item.productId, item.quantity, product.name, product.price, itemTotal)];
      total := total + itemTotal;
      count := count + item.quantity;
      i := i + 1;
    }
    assert cart.items[..|cart.items|] == cart.items;
    view := CartRead(cart.id, cart.userId, shown, total, count);
  }

  method GetMyCart(store: Store, userId: int) returns (view: CartRead)
    requires store.Valid()
    modifies store`carts, store`nextCartId
    ensures store.Valid()
    ensures store.carts == EnsureCart(old(store.carts), userId, old(store.nextCartId))
    ensures store.nextCartId == if userId in old(store.carts) then old(store.nextCartId) else old(store.nextCartId) + 1
    ensures view.id == store.carts[userId].id && view.userId == userId
    ensures view.items == ReadLines(store.products, store.carts[userId].items)
    ensures view.totalAmount == LinesTotal(store.products, store.carts[userId].items)
    ensures view.itemsCount == LinesCount(store.products, store.carts[userId].items)
  {
    var cart := GetOrCreateCart(store, userId);
    view := ReadCart(store.products, cart);
  }

  /** The view agrees with itself: its total is the sum of its lines' totals
      and its count the sum of their quantities. */
  lemma {:induction false} ReadLinesSums(products: Products, items: seq<CartItem>)
    ensures SumTotals(ReadLines(products, items)) == LinesTotal(products, items)
    ensures SumQuantities(ReadLines(products, items)) == LinesCount(products, items)
  {
    if items != [] {
      var init := items[..|items| - 1];
      var last := items[|items| - 1];
      ReadLinesSums(products, init);
      var shown := ReadLines(products, init);
      assert LinesTotal(products, items) == LinesTotal(products, init) + LineAmount(products, last);
      assert LinesCount(products, items) == LinesCount(products, init) + LineCount(products, last);
      if last.productId in products {
        var line := ReadLine(products[last.productId], last);
        var all := shown + [line];
        assert ReadLines(products, items) == all;
        assert all[..|all| - 1] == shown && all[|all| - 1] == line;
        assert SumTotals(all) == SumTotals(shown) + line.total;
        assert SumQuantities(all) == SumQuantities(shown) + line.quantity;
      } else {
        assert ReadLines(products, items) == shown;
      }
    }
  }

  /** Every shown line comes from a cart line whose product exists, carries
      that product's name and current price, and totals quantity times price;
      conversely every cart line whose product exists is shown, and when every
      product exists every line is shown. */
  lemma {:induction false} ReadLinesShape(products: Products, items: seq<CartItem>)
    ensures |ReadLines(products, items)| <= |items|
    ensures forall k :: 0 <= k < |ReadLines(products, items)| ==>
      var line := ReadLines(products, items)[k];
      && line.productId in products
      && line.name == products[line.productId].name
      && line.price == products[line.productId].price
      && line.total == line.quantity * line.price
      && CartItem(line.productId, line.quantity) in items
    ensures forall i :: 0 <= i < |items| && items[i].productId in products ==>
      ReadLine(products[items[i].productId], items[i]) in ReadLines(products, items)
    ensures (forall i :: 0 <= i < |items| ==> items[i].productId in products) ==>
      |ReadLines(products, items)| == |items|
  {
    if items != [] {
      var init := items[..|items| - 1];
      ReadLinesShape(products, init);
      assert forall it :: it in init ==> it in items;
      var shown := ReadLines(products, init);
      assert forall x :: x in shown ==> x in ReadLines(products, items);
      forall i | 0 <= i < |items| && items[i].productId in products
        ensures ReadLine(products[items[i].productId], items[i]) in ReadLines(products, items)
      {
        if i < |items| - 1 {
          assert items[i] == init[i];
        }
      }
    }
  }

  /** With one line per product, no product is shown twice. */
  lemma {:induction false} ReadLinesUnique(products: Products, items: seq<CartItem>)
    requires UniqueProducts(items)
    ensures forall a, b :: 0 <= a < b < |ReadLines(products, items)| ==>
      ReadLines(products, items)[a].productId != ReadLines(products, items)[b].productId
  {
    if items != [] {
      var init := items[..|items| - 1];
      var last := items[|items| - 1];
      assert UniqueProducts(init);
      ReadLinesUnique(products, init);
      ReadLinesShape(products, init);
      var shown := ReadLines(products, init);
      forall k | 0 <= k < |shown| ensures shown[k].productId != last.productId {
        var it := CartItem(shown[k].productId, shown[k].quantity);
        assert it in init;
        var j :| 0 <= j < |init| && init[j] == it;
        assert items[j] == it;
      }
      if last.productId in products {
        var all := shown + [ReadLine(products[last.productId], last)];
        forall a, b | 0 <= a < b < |all| ensures all[a].productId != all[b].productId {
          if b == |all| - 1 {
            assert all[a] == shown[a];
          } else {
            assert all[a] == shown[a] && all[b] == shown[b];
          }
        }
      }
    }
  }

  /** With valid lines, the item count is at least the number of shown lines. */
  lemma {:induction false} ItemsCountBound(products: Products, items: seq<CartItem>)
    requires ValidLines(items)
    ensures LinesCount(products, items) >= |ReadLines(products, items)| >= 0
  {
    if items != [] {
      var init := items[..|items| - 1];
      assert ValidLines(init);
      ItemsCountBound(products, init);
    }
  }

  /** An empty cart is shown with no lines, total 0 and count 0. */
  lemma EmptyCartView(products: Products, cart: Cart)
    requires cart.items == []
    ensures ReadLines(products, cart.items) == []
    ensures LinesTotal(products, cart.items) == 0 && LinesCount(products, cart.items) == 0
  {
  }

  // ---------------------------------------------------------------------------
  // add_to_cart

  /** Merge-or-insert: add to the product's line, unless that takes it past the
      stock, or insert a new line at the end. */
  function MergeLine(items: seq<CartItem>, productId: int, quantity: int, stock: int): (r: Result<seq<CartItem>>)
    ensures r.Ok? <==> (InCart(items, productId) ==> QuantityOf(items, productId) + quantity <= stock)
    ensures r.Err? ==> r.error == InsufficientStock(productId)
    ensures r.Ok? && !InCart(items, productId) ==> r.value == items + [CartItem(productId, quantity)]
    ensures r.Ok? && InCart(items, productId) ==> |r.value| == |items|
  {
    match IndexOf(items, productId)
    case Some(i) =>
      var merged := items[i].quantity + quantity;
      if merged > stock then Err(InsufficientStock(productId))
      else Ok(items[i := CartItem(productId, merged)])
    case None => Ok(items + [CartItem(productId, quantity)])
  }

  /** add_to_cart on the user's lines as the route is written: the product must
      exist, be available and have at least `quantity` in stock; the quantity
      itself is not checked. */
  function AddToCartAsWritten(products: Products, items: seq<CartItem>, productId: int, quantity: int): (r: Result<seq<CartItem>>)
    ensures r.Ok? <==>
      && productId in products && products[productId].isAvailable && products[productId].stock >= quantity
      && (InCart(items, productId) ==> QuantityOf(items, productId) + quantity <= products[productId].stock)
    ensures productId !in products ==> r == Err(ProductNotFound(productId))
    ensures r.Err? && productId in products ==> r.error == InsufficientStock(productId)
    ensures r.Ok? && !InCart(items, productId) ==> r.value == items + [CartItem(productId, quantity)]
  {
    if productId !in products then Err(ProductNotFound(productId))
    else if !products[productId].isAvailable || products[productId].stock < quantity then Err(InsufficientStock(productId))
    else MergeLine(items, productId, quantity, products[productId].stock)
  }

  /** add_to_cart with the line quantity bound of the cart model enforced:
      a quantity below 1 is refused before anything else. */
  function AddToCartLines(products: Products, items: seq<CartItem>, productId: int, quantity: int): (r: Result<seq<CartItem>>)
    ensures r.Ok? <==>
      && quantity >= 1
      && productId in products && products[productId].isAvailable && products[productId].stock >= quantity
      && (InCart(items, productId) ==> QuantityOf(items, productId) + quantity <= products[productId].stock)
    ensures r.Err? && quantity < 1 ==> r.error == InvalidQuantity(quantity)
    ensures r.Err? && quantity >= 1 && productId !in products ==> r.error == ProductNotFound(productId)
    ensures r.Err? && quantity >= 1 && productId in products ==> r.error == InsufficientStock(productId)
    ensures r.Ok? ==>
      var before := if InCart(items, productId) then QuantityOf(items, productId) else 0;
      && CartItem(productId, before + quantity) in r.value
      && before + quantity <= products[productId].stock
      && (forall it: CartItem :: it.productId != productId ==> (it in r.value <==> it in items))
    ensures r.Ok? && !InCart(items, productId) ==> r.value == items + [CartItem(productId, quantity)]
    ensures r.Ok? && InCart(items, productId) ==> |r.value| == |items|
    ensures r.Ok? && ValidLines(items) ==> ValidLines(r.value)
  {
    if quantity < 1 then Err(InvalidQuantity(quantity))
    else
      var r := AddToCartAsWritten(products, items, productId, quantity);
      match IndexOf(items, productId)
      case Some(i) =>
        ReplaceLine(items, i, CartItem(productId, items[i].quantity + quantity));
        r
      case None =>
        assert CartItem(productId, quantity) == (items + [CartItem(productId, quantity)])[|items|];
        r
  }

  /** As written, adding quantity 0 of an available product inserts a line of
      quantity 0, which the cart line model forbids. */
  lemma AddToCartAsWrittenAcceptsZero()
    ensures
      var products := map[7 := Product("pen", 150, 3, true)];
      && AddToCartAsWritten(products, [], 7, 0) == Ok([CartItem(7, 0)])
      && !ValidLines([CartItem(7, 0)])
  {
    var products := map[7 := Product("pen", 150, 3, true)];
    assert IndexOf([], 7) == None;
    assert [] + [CartItem(7, 0)] == [CartItem(7, 0)];
    assert MergeLine([], 7, 0, 3) == Ok([CartItem(7, 0)]);
    assert !ValidItem([CartItem(7, 0)][0]);
  }

  /** As written, a negative quantity shrinks an existing line below 1. */
  lemma AddToCartAsWrittenShrinksLine()
    ensures
      var products := map[7 := Product("pen", 150, 3, true)];
      && AddToCartAsWritten(products, [CartItem(7, 2)], 7, -5) == Ok([CartItem(7, -3)])
      && !ValidLines([CartItem(7, -3)])
  {
    assert IndexOf([CartItem(7, 2)], 7) == Some(0);
    assert [CartItem(7, 2)][0 := CartItem(7, -3)] == [CartItem(7, -3)];
    assert MergeLine([CartItem(7, 2)], 7, -5, 3) == Ok([CartItem(7, -3)]);
    assert !ValidItem([CartItem(7, -3)][0]);
  }

  /** For every quantity of at least 1 the corrected route and the route as
      written agree. */
  lemma AddToCartAgreesOnPositive(products: Products, items: seq<CartItem>, productId: int, quantity: int)
    requires quantity >= 1
    ensures AddToCartLines(products, items, productId, quantity) == AddToCartAsWritten(products, items, productId, quantity)
  {
  }

  /** The scan for the product's line, then the merge or the insert. */
  method MergeInto(items: seq<CartItem>, productId: int, quantity: int, stock: int) returns (r: Result<seq<CartItem>>)
    ensures r == MergeLine(items, productId, quantity, stock)
  {
    var found := FindItem(items, productId);
    match found {
      case Some(i) =>
        var merged := items[i].quantity + quantity;
        if merged > stock {
          return Err(InsufficientStock(productId));
        }
        r := Ok(items[i := CartItem(productId, merged)]);
      case None =>
        r := Ok(items + [CartItem(productId, quantity)]);
    }
  }

  method AddToCart(store: Store, productId: int, quantity: int, userId: int) returns (r: Result<()>)
    requires store.Valid()
    modifies store`carts, store`nextCartId
    ensures store.Valid()
    ensures
      var expected := AddToCartLines(old(store.products), CartLines(old(store.carts), userId), productId, quantity);
      && (expected.Err? ==>
            r == Err(expected.error) && store.carts == old(store.carts) && store.nextCartId == old(store.nextCartId))
      && (expected.Ok? ==>
            var created := EnsureCart(old(store.carts), userId, old(store.nextCartId));
            && r == Ok(())
            && store.carts == created[userId := created[userId].(items := expected.value)]
            && store.nextCartId == if userId in old(store.carts) then old(store.nextCartId) else old(store.nextCartId) + 1)
  {
    if quantity < 1 {
      return Err(InvalidQuantity(quantity));
    }
    if productId !in store.products {
      return Err(ProductNotFound(productId));
    }
    var product := store.products[productId];
    if !product.isAvailable || product.stock < quantity {
      return Err(InsufficientStock(productId));
    }
    var cart := GetOrCreateCart(store, userId);
    ghost var expected := AddToCartLines(store.products, cart.items, productId, quantity);
    var merged := MergeInto(cart.items, productId, quantity, product.stock);
    if merged.Err? {
      return Err(merged.error);
    }
    var items := merged.value;
    SetLinesValid(store.carts, store.nextCartId, userId, items);
    store.carts := store.carts[userId := cart.(items := items)];
    r := Ok(());
  }

  // ---------------------------------------------------------------------------
  // update_cart_item

  /** update_cart_item on the user's lines: the product must have a line; a
      positive quantity needs the product to exist with at least that much
      stock and becomes the line's quantity; any other quantity deletes the line. */
  function UpdateCartLines(products: Products, items: seq<CartItem>, productId: int, quantity: int): (r: Result<seq<CartItem>>)
    ensures r.Ok? <==>
      InCart(items, productId) && (quantity > 0 ==> productId in products && products[productId].stock >= quantity)
    ensures r.Err? && !InCart(items, productId) ==> r.error == NotInCart(productId)
    ensures r.Err? && InCart(items, productId) ==> r.error == InsufficientStock(productId)
    ensures r.Ok? ==> forall it: CartItem :: it.productId != productId ==> (it in r.value <==> it in items)
    ensures r.Ok? && quantity > 0 ==> CartItem(productId, quantity) in r.value && |r.value| == |items|
    ensures r.Ok? && quantity <= 0 ==> !InCart(r.value, productId)
    ensures r.Ok? && quantity <= 0 && UniqueProducts(items) ==> |r.value| == |items| - 1
    ensures r.Ok? && ValidLines(items) ==> ValidLines(r.value)
  {
    match IndexOf(items, productId)
    case None => Err(NotInCart(productId))
    case Some(i) =>
      if quantity > 0 && (productId !in products || products[productId].stock < quantity) then
        Err(InsufficientStock(productId))
      else if quantity <= 0 then
        var kept := Without(items, {productId});
        WithoutMembers(items, {productId});
        assert ValidLines(items) ==> ValidLines(kept) by {
          if ValidLines(items) {
            WithoutValid(items, {productId});
          }
        }
        assert forall j :: 0 <= j < |kept| ==> kept[j].productId != productId by {
          forall j | 0 <= j < |kept| ensures kept[j].productId != productId {
            assert kept[j] in kept;
          }
        }
        assert UniqueProducts(items) ==> |kept| == |items| - 1 by {
          if UniqueProducts(items) {
            WithoutAt(items, productId, i);
          }
        }
        Ok(kept)
      else
        ReplaceLine(items, i, CartItem(productId, quantity));
        Ok(items[i := CartItem(productId, quantity)])
  }

  method UpdateCartItem(store: Store, productId: int, quantity: int, userId: int) returns (r: Result<()>)
    requires store.Valid()
    modifies store`carts, store`nextCartId
    ensures store.Valid()
    ensures store.nextCartId == if userId in old(store.carts) then old(store.nextCartId) else old(store.nextCartId) + 1
    ensures
      var created := EnsureCart(old(store.carts), userId, old(store.nextCartId));
      var expected := UpdateCartLines(old(store.products), created[userId].items, productId, quantity);
      && (expected.Err? ==> r == Err(expected.error) && store.carts == created)
      && (expected.Ok? ==> r == Ok(()) && store.carts == created[userId := created[userId].(items := expected.value)])
  {
    var cart := GetOrCreateCart(store, userId);
    ghost var expected := UpdateCartLines(store.products, cart.items, productId, quantity);
    var found := FindItem(cart.items, productId);
    if found.None? {
      return Err(NotInCart(productId));
    }
    var i := found.value;
    if quantity > 0 && (productId !in store.products || store.products[productId].stock < quantity) {
      return Err(InsufficientStock(productId));
    }
    var items: seq<CartItem>;
    if quantity <= 0 {
      WithoutAt(cart.items, productId, i);
      items := cart.items[..i] + cart.items[i + 1..];
    } else {
      items := cart.items[i := CartItem(productId, quantity)];
    }
    assert expected == Ok(items);
    SetLinesValid(store.carts, store.nextCartId, userId, items);
    store.carts := store.carts[userId := cart.(items := items)];
    r := Ok(());
  }

  // ---------------------------------------------------------------------------
  // clear_cart

  /** The carts after clearing a user's cart: its lines are gone; a user
      without a cart still has none. */
  function ClearedCarts(carts: map<int, Cart>, userId: int): map<int, Cart>
  {
    if userId in carts then carts[userId := carts[userId].(items := [])] else carts
  }

  /** Clearing creates no cart, empties the user's cart and leaves every other
      cart as it was. */
  lemma ClearCartFrame(carts: map<int, Cart>, userId: int)
    ensures ClearedCarts(carts, userId).Keys == carts.Keys
    ensures userId in carts ==> ClearedCarts(carts, userId)[userId].items == []
    ensures userId in carts ==> ClearedCarts(carts, userId)[userId].id == carts[userId].id
    ensures forall u :: u in carts && u != userId ==> ClearedCarts(carts, userId)[u] == carts[u]
  {
  }

  /** Clearing twice is clearing once. */
  lemma ClearCartIdempotent(carts: map<int, Cart>, userId: int)
    ensures ClearedCarts(ClearedCarts(carts, userId), userId) == ClearedCarts(carts, userId)
  {
  }

  method ClearCart(store: Store, userId: int)
    requires store.Valid()
    modifies store`carts
    ensures store.Valid()
    ensures store.carts == ClearedCarts(old(store.carts), userId)
  {
    if userId in store.carts {
      var cart := store.carts[userId];
      var remaining := cart.items;
      var i := 0;
      while i < |cart.items|
        invariant 0 <= i <= |cart.items|
        invariant remaining == cart.items[i..]
        invariant store.carts == old(store.carts)
      {
        // session.delete(item): the line at the front of the remaining lines goes.
        remaining := remaining[1..];
        i := i + 1;
      }
      assert remaining == [];
      store.carts := store.carts[userId := cart.(items := remaining)];
    }
  }
}
