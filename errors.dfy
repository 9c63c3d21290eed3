/** Outcomes of the cart and order routes. Every HTTPException the routes raise
    becomes one constructor of Error; the HTTP status code and the detail text
    are not modelled. InvalidQuantity alone is raised by no route: it is the
    refusal the corrected add_to_cart adds. */
module Errors {

  datatype Option<+T> = None | Some(value: T)

  datatype Error =
    | CartEmptyOrMissing              // checkout: the user has no cart, or it has no lines
    | NotInCart(productId: int)       // the product has no line in the user's cart
    | ProductNotFound(productId: int) // no product with this id
    | InsufficientStock(productId: int) // unavailable, stock below the quantity asked for, or (on update) missing
    | NoItemsSelected                 // checkout with an empty product_ids list
    | OrderNotFound(orderId: int)
    | InvalidStatus(status: string)   // a status outside the allowed set
    | InvalidQuantity(quantity: int)  // a cart quantity below 1 (see README, Findings)

  datatype Result<+T> = Ok(value: T) | Err(error: Error)
}
