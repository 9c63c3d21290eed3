/** Products as the cart and order routes use them: a name, a unit price in
    integer cents, a stock count and an availability flag. */
module Catalog {

  datatype Product = Product(name: string, price: int, stock: int, isAvailable: bool)

  /** The product table, keyed by product id. */
  type Products = map<int, Product>

  /** Stock is never negative. */
  predicate StockNonNegative(products: Products)
  {
    forall pid :: pid in products ==> products[pid].stock >= 0
  }
}
