/** The order tables and the checkout request.

    An order owns its items. The item table's key is the pair (order id,
    product id); here the items are a sequence inside their order, so that key
    becomes "no two items of an order name the same product". Money is in
    integer cents: the decimal columns have two fraction digits. */
module OrderModels {

  /** One line of an order, with the unit price copied at checkout. */
  datatype OrderItem = OrderItem(productId: int, quantity: int, priceAtPurchase: int)

  /** An order. `createdAt` is an abstract timestamp supplied by the caller. */
  datatype Order = Order(id: int, userId: int, createdAt: int, status: string, totalAmount: int, items: seq<OrderItem>)

  /** The body of a checkout request: whose cart, and which of its products. */
  datatype CheckoutRequest = CheckoutRequest(userId: int, productIds: seq<int>)

  /** The status a new order gets. */
  const NewStatus: string := "new"

  /** The statuses the status update accepts; any of them may follow any other. */
  const AllowedStatuses: set<string> := {"new", "packing", "shipped", "delivered", "cancelled"}

  function Pow10(n: nat): (r: nat)
    ensures r >= 1
  {
    if n == 0 then 1 else 10 * Pow10(n - 1)
  }

  /** A decimal with two fraction digits and at most `digits` digits in all,
      written in cents, has at most `digits` decimal digits. */
  predicate FitsDigits(cents: int, digits: nat)
  {
    var bound: int := Pow10(digits);
    -bound < cents < bound
  }

  /** price_at_purchase is a decimal(10, 2). */
  predicate FitsPriceColumn(cents: int)
  {
    FitsDigits(cents, 10)
  }

  /** total_amount is a decimal(12, 2). */
  predicate FitsTotalColumn(cents: int)
  {
    FitsDigits(cents, 12)
  }

  predicate ValidOrderItem(item: OrderItem)
  {
    item.quantity >= 1
  }

  /** The composite key: no two items of one order name the same product. */
  predicate UniqueOrderProducts(items: seq<OrderItem>)
  {
    forall i, j :: 0 <= i < j < |items| ==> items[i].productId != items[j].productId
  }

  predicate ValidOrderItems(items: seq<OrderItem>)
  {
    (forall i :: 0 <= i < |items| ==> ValidOrderItem(items[i])) && UniqueOrderProducts(items)
  }

  function Subtotal(item: OrderItem): int
  {
    item.priceAtPurchase * item.quantity
  }

  /** The sum of the items' subtotals, accumulated from the first item on. */
  function ItemsTotal(items: seq<OrderItem>): int
  {
    if items == [] then 0 else ItemsTotal(items[..|items| - 1]) + Subtotal(items[|items| - 1])
  }

  /** An order as stored: an allowed status, valid items, and a total that is
      the sum of its items' subtotals. */
  predicate ValidOrder(order: Order)
  {
    && order.status in AllowedStatuses
    && ValidOrderItems(order.items)
    && order.totalAmount == ItemsTotal(order.items)
  }

  /** An order built from the column defaults alone. */
  function DefaultOrder(id: int, userId: int, createdAt: int): Order
  {
    Order(id, userId, createdAt, NewStatus, 0, [])
  }

  /** An order with the default status and total and no items is valid, and
      its total fits its column. */
  lemma DefaultOrderValid(id: int, userId: int, createdAt: int)
    ensures DefaultOrder(id, userId, createdAt).status == NewStatus
    ensures DefaultOrder(id, userId, createdAt).totalAmount == 0
    ensures ValidOrder(DefaultOrder(id, userId, createdAt))
    ensures FitsTotalColumn(DefaultOrder(id, userId, createdAt).totalAmount)
  {
  }
}
