/** The cart tables and the cart read views.

    A cart belongs to one user and owns its lines. The line table's key is the
    pair (cart id, product id); here the lines are a sequence inside their cart,
    so that key becomes "no two lines of a cart name the same product". */
module CartModels {
  import opened Errors

  /** One line of a cart: a product and how many of it. */
  datatype CartItem = CartItem(productId: int, quantity: int)

  /** The quantity a line gets when none is given. */
  const DefaultQuantity: int := 1

  /** A user's cart. The carts table is keyed by user id, so a user has at
      most one cart. */
  datatype Cart = Cart(id: int, userId: int, items: seq<CartItem>)

  /** A cart line as shown to the client, with the product's name and
      current price. */
  datatype CartItemRead = CartItemRead(productId: int, quantity: int, name: string, price: int, total: int)

  /** A cart as shown to the client. */
  datatype CartRead = CartRead(id: int, userId: int, items: seq<CartItemRead>, totalAmount: int, itemsCount: int)

  predicate ValidItem(item: CartItem)
  {
    item.quantity >= 1
  }

  /** The composite key: no two lines of one cart name the same product. */
  predicate UniqueProducts(items: seq<CartItem>)
  {
    forall i, j :: 0 <= i < j < |items| ==> items[i].productId != items[j].productId
  }

  predicate ValidLines(items: seq<CartItem>)
  {
    (forall i :: 0 <= i < |items| ==> ValidItem(items[i])) && UniqueProducts(items)
  }

  predicate InCart(items: seq<CartItem>, productId: int)
  {
    exists i :: 0 <= i < |items| && items[i].productId == productId
  }

  /** The position of the first line naming the product, if any. */
  function IndexOf(items: seq<CartItem>, productId: int): (r: Option<nat>)
    ensures r.Some? ==> r.value < |items| && items[r.value].productId == productId
    ensures r.Some? ==> forall j :: 0 <= j < r.value ==> items[j].productId != productId
    ensures r.None? <==> !InCart(items, productId)
  {
    if items == [] then None
    else if items[0].productId == productId then Some(0)
    else
      match IndexOf(items[1..], productId)
      case None =>
        assert forall j :: 1 <= j < |items| ==> items[j] == items[1..][j - 1];
        None
      case Some(k) => Some(k + 1)
  }

  /** The quantity on the product's line. */
  function QuantityOf(items: seq<CartItem>, productId: int): int
    requires InCart(items, productId)
  {
    items[IndexOf(items, productId).value].quantity
  }

  /** The scan of a cart's lines for the one naming a product, stopping at the
      first match (the search loops of the cart and order routes). */
  method FindItem(items: seq<CartItem>, productId: int) returns (r: Option<nat>)
    ensures r == IndexOf(items, productId)
  {
    var i := 0;
    while i < |items|
      invariant 0 <= i <= |items|
      invariant forall j :: 0 <= j < i ==> items[j].productId != productId
    {
      if items[i].productId == productId {
        return Some(i);
      }
      i := i + 1;
    }
    return None;
  }

  /** The lines whose product is not in `ids`, in their original order. */
  function Without(items: seq<CartItem>, ids: set<int>): (r: seq<CartItem>)
    ensures |r| <= |items|
  {
    if items == [] then []
    else if items[0].productId in ids then Without(items[1..], ids)
    else [items[0]] + Without(items[1..], ids)
  }

  /** The lines kept are exactly the lines of products outside `ids`. */
  lemma {:induction false} WithoutMembers(items: seq<CartItem>, ids: set<int>)
    ensures forall it :: it in Without(items, ids) <==> it in items && it.productId !in ids
  {
    if items != [] {
      WithoutMembers(items[1..], ids);
      assert items == [items[0]] + items[1..];
    }
  }

  /** Removing lines keeps a cart's lines valid. */
  lemma {:induction false} WithoutValid(items: seq<CartItem>, ids: set<int>)
    requires ValidLines(items)
    ensures ValidLines(Without(items, ids))
  {
    if items != [] {
      var rest := Without(items[1..], ids);
      WithoutValid(items[1..], ids);
      WithoutMembers(items[1..], ids);
      if items[0].productId !in ids {
        forall it | it in rest ensures it.productId != items[0].productId {
          var j :| 0 <= j < |items[1..]| && items[1..][j] == it;
          assert items[j + 1] == it;
        }
        var r := [items[0]] + rest;
        forall i, j | 0 <= i < j < |r| ensures r[i].productId != r[j].productId {
          if i == 0 {
            assert r[j] == rest[j - 1] && r[j] in rest;
          } else {
            assert r[i] == rest[i - 1] && r[j] == rest[j - 1];
          }
        }
        forall i | 0 <= i < |r| ensures ValidItem(r[i]) {
          if i > 0 {
            assert r[i] == rest[i - 1];
          }
        }
      }
    }
  }

  /** Removing lines whose products the cart does not hold changes nothing. */
  lemma {:induction false} WithoutAbsent(items: seq<CartItem>, ids: set<int>)
    requires forall i :: 0 <= i < |items| ==> items[i].productId !in ids
    ensures Without(items, ids) == items
  {
    if items != [] {
      WithoutAbsent(items[1..], ids);
    }
  }

  /** Removing two sets of products one after the other removes their union. */
  lemma {:induction false} WithoutTwice(items: seq<CartItem>, a: set<int>, b: set<int>)
    ensures Without(Without(items, a), b) == Without(items, a + b)
  {
    if items != [] {
      WithoutTwice(items[1..], a, b);
      if items[0].productId !in a {
        assert Without(items, a)[1..] == Without(items[1..], a);
      }
    }
  }

  /** In a cart with unique products, removing a product's line is cutting
      out the one position that names it. */
  lemma {:induction false} WithoutAt(items: seq<CartItem>, productId: int, i: nat)
    requires UniqueProducts(items)
    requires i < |items| && items[i].productId == productId
    ensures Without(items, {productId}) == items[..i] + items[i + 1..]
  {
    if i == 0 {
      WithoutAbsent(items[1..], {productId});
      assert items[..0] + items[1..] == items[1..];
    } else {
      WithoutAt(items[1..], productId, i - 1);
      assert items[1..][..i - 1] == items[1..i];
      assert items[1..][i..] == items[i + 1..];
      assert items[..i] + items[i + 1..] == [items[0]] + (items[1..i] + items[i + 1..]);
    }
  }

  /** In a cart with unique products, removing a product that has a line
      drops exactly one line. */
  lemma WithoutOne(items: seq<CartItem>, productId: int)
    requires UniqueProducts(items) && InCart(items, productId)
    ensures |Without(items, {productId})| == |items| - 1
  {
    var k :| 0 <= k < |items| && items[k].productId == productId;
    WithoutAt(items, productId, k);
    assert |items[..k] + items[k + 1..]| == |items| - 1;
  }

  /** Overwriting a line with one for the same product keeps every line of
      every other product, and keeps the products unique. */
  lemma ReplaceLine(items: seq<CartItem>, i: nat, line: CartItem)
    requires i < |items| && line.productId == items[i].productId
    ensures line in items[i := line]
    ensures forall it: CartItem :: it.productId != line.productId ==> (it in items[i := line] <==> it in items)
    ensures UniqueProducts(items) ==> UniqueProducts(items[i := line])
  {
    var s := items[i := line];
    assert s[i] == line;
    forall it: CartItem | it.productId != line.productId
      ensures it in s <==> it in items
    {
      if it in s {
        var j :| 0 <= j < |s| && s[j] == it;
        assert items[j] == it;
      }
      if it in items {
        var j :| 0 <= j < |items| && items[j] == it;
        assert s[j] == it;
      }
    }
  }
}
