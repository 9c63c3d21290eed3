/** The store the routes work on: the product, cart and order tables, and the
    next free cart and order ids (the tables' auto-increment keys). A method
    that changes the store stands for a request whose changes are committed. */
module Database {
  import opened Catalog
  import opened CartModels
  import opened OrderModels

  /** Each user's cart is stored under that user's id, so there is at most one
      cart per user; cart ids are distinct and below the next free id; every
      cart's lines are valid. */
  predicate CartsValid(carts: map<int, Cart>, nextCartId: int)
  {
    && 1 <= nextCartId
    && (forall u :: u in carts ==> carts[u].userId == u && 1 <= carts[u].id < nextCartId)
    && (forall u :: u in carts ==> ValidLines(carts[u].items))
    && (forall u, v :: u in carts && v in carts && u != v ==> carts[u].id != carts[v].id)
  }

  /** Giving one user's cart new valid lines keeps the carts valid. */
  lemma SetLinesValid(carts: map<int, Cart>, nextCartId: int, userId: int, items: seq<CartItem>)
    requires CartsValid(carts, nextCartId) && userId in carts && ValidLines(items)
    ensures CartsValid(carts[userId := carts[userId].(items := items)], nextCartId)
  {
  }

  /** Each order is stored under its own id, below the next free id, and is valid. */
  predicate OrdersValid(orders: map<int, Order>, nextOrderId: int)
  {
    && 1 <= nextOrderId
    && forall o :: o in orders ==> orders[o].id == o && 1 <= o < nextOrderId && ValidOrder(orders[o])
  }

  /** The lines of a user's cart; a user without a cart has none. */
  function CartLines(carts: map<int, Cart>, userId: int): seq<CartItem>
  {
    if userId in carts then carts[userId].items else []
  }

  class Store {
    var products: Products
    var carts: map<int, Cart>
    var orders: map<int, Order>
    var nextCartId: int
    var nextOrderId: int

    ghost predicate Valid()
      reads this
    {
      && StockNonNegative(products)
      && CartsValid(carts, nextCartId)
      && OrdersValid(orders, nextOrderId)
    }

    /** A store holding the given products and no carts or orders. */
    constructor (products: Products)
      requires StockNonNegative(products)
      ensures Valid()
      ensures this.products == products && carts == map[] && orders == map[]
      ensures nextCartId == 1 && nextOrderId == 1
    {
      this.products := products;
      carts := map[];
      orders := map[];
      nextCartId := 1;
      nextOrderId := 1;
    }
  }
}
