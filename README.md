# Cart and checkout of InternetStoreFastApi, in Dafny

This project models the cart and order workflow of a small FastAPI/SQLModel online store and proves properties of that model. A user has one cart. The cart holds lines: a product and a quantity. The user can view the cart, add to it, change a line, or clear it. A checkout turns some cart lines into an order. Checkout decrements stock, marks sold-out products unavailable, copies the prices, sums the total and deletes the consumed lines. Orders can be listed newest first, given a new status, or deleted.

Layout, one module per file:

- `errors.dfy` (`Errors`): `Option`, `Result`, and one `Error` constructor per `HTTPException` the routes raise. The one exception is `InvalidQuantity`, which no route raises; it belongs to the corrected `add_to_cart` (see Findings).
- `catalog.dfy` (`Catalog`): a product as the routes use it. That is a name, a price in integer cents, a stock count and an availability flag.
- `cart_models.dfy` (`CartModels`): the cart tables and read views of `models/cart.py`.
- `order_models.dfy` (`OrderModels`): the order tables of `models/orders.py`.
- `database.dfy` (`Database`): the class `Store`. It holds the product, cart and order tables and the next free ids. Its `Valid()` predicate collects the table constraints.
- `cart_routes.dfy` (`CartRoutes`): `routes/cart.py`.
- `order_routes.dfy` (`OrderRoutes`): `routes/orders.py`.

How the pieces fit:

- Each route is a module-level method that takes a `store: Store` argument, as the route functions take a session. Its contract ties the new state to a pure specification function of the old state. The properties of the route are then lemmas about that function.
- Money is integer cents.
- A cart's lines are a sequence with at most one line per product. This is the composite key `(cart_id, product_id)`. An order's items are a sequence inside the order.
- A route that raises leaves the store as it was, except for a cart that `get_or_create_cart` has already committed.

The code has no status transition graph: any allowed status may follow any other (routes/orders.py:102-106). It does not restock on cancellation, it deletes an order whatever its status (routes/orders.py:113-124), and it only ever switches availability off (routes/orders.py:41-42). The model does the same. A new order gets the status `new`.

## Model

| member | source | states |
|---|---|---|
| CartModels.IndexOf | routes/cart.py:75-79 | the scan finds the first line naming the product; it finds none exactly when no line names it |
| CartModels.FindItem | routes/cart.py:103-107 | the scanning loop returns the position `IndexOf` specifies |
| CartModels.Without | routes/orders.py:71-73 | deleting the lines of a set of products never adds lines |
| CartModels.WithoutMembers | routes/orders.py:71-73 | after the deletion, a line is kept exactly when it was there and its product is not in the set |
| CartModels.WithoutValid | models/cart.py:8-10 | deleting lines keeps every quantity at least 1 and at most one line per product |
| CartModels.WithoutAbsent | routes/orders.py:71-73 | deleting products the cart does not hold changes nothing |
| CartModels.WithoutTwice | routes/orders.py:71-73 | deleting one set of products and then another is deleting their union |
| CartModels.WithoutAt | routes/cart.py:116-117 | with one line per product, deleting a product's lines cuts out exactly the position the scan found |
| CartModels.WithoutOne | routes/orders.py:71-73 | with one line per product, deleting a product that has a line removes exactly one line |
| CartModels.ReplaceLine | routes/cart.py:118-120 | overwriting a line with one for the same product keeps every other product's lines and keeps products unique |
| OrderModels.DefaultOrderValid | models/orders.py:19-20 | an order with the column defaults has status "new" and total 0, is valid, and its total fits decimal(12,2) |
| Database.SetLinesValid | models/cart.py:18-24 | giving one cart new valid lines keeps one cart per user, distinct cart ids and valid lines everywhere |
| Database.Store.constructor | main.py:14-16 | a fresh store holds the given products and no carts or orders, and satisfies the store invariant |
| CartRoutes.EnsureCart | routes/cart.py:14-21 | the user ends up with a cart; an existing cart is returned untouched; otherwise exactly one empty cart is added with the next id |
| CartRoutes.EnsureCartIdempotent | routes/cart.py:14-21 | a second get-or-create finds the cart the first one made and changes nothing |
| CartRoutes.EnsureCartValid | models/cart.py:20 | creating a cart with the next free id keeps one cart per user and distinct cart ids |
| CartRoutes.GetOrCreateCart | routes/cart.py:14-21 | the new cart table and next id are those of `EnsureCart`; the result is the user's cart; the invariant holds |
| CartRoutes.ReadCart | routes/cart.py:31-57 | the accumulator loop yields the shown lines, the total over existing products and the item count of the fold functions |
| CartRoutes.GetMyCart | routes/cart.py:24-57 | the view is `ReadCart` of the user's cart after get-or-create |
| CartRoutes.ReadLinesSums | routes/cart.py:40-49 | the view's total is the sum of its lines' totals and its count the sum of their quantities |
| CartRoutes.ReadLinesShape | routes/cart.py:35-47 | every shown line comes from a cart line whose product exists and carries its name and current price, with total quantity × price; conversely every cart line whose product exists is shown; with all products present every line is shown |
| CartRoutes.ReadLinesUnique | routes/cart.py:35-47 | with one line per product, no product appears twice among the shown lines |
| CartRoutes.ItemsCountBound | routes/cart.py:49 | with valid lines the item count is at least the number of shown lines |
| CartRoutes.EmptyCartView | models/cart.py:36-41 | an empty cart shows no lines, total 0 and count 0 |
| CartRoutes.ReadLines | routes/cart.py:35-47 | no contract of its own: the shown lines of the loop, one per line whose product exists, in cart order; stated by `ReadLinesShape`, `ReadLinesUnique` and `ReadCart` |
| CartRoutes.LinesTotal | routes/cart.py:40-48 | no contract of its own: the sum of price times quantity over the lines whose product exists; stated by `ReadLinesSums` and `ReadCart` |
| CartRoutes.LinesCount | routes/cart.py:49 | no contract of its own: the sum of the quantities of the lines whose product exists; stated by `ReadLinesSums`, `ItemsCountBound` and `ReadCart` |
| CartRoutes.AddToCartLines | routes/cart.py:67-88 | succeeds exactly when quantity ≥ 1, the product exists and is available with enough stock, and a merged line stays within stock; names each error; the product's line holds old + new quantity ≤ stock; other lines are unchanged; an insert appends one line; a merge keeps the length; valid lines stay valid |
| CartRoutes.MergeLine | routes/cart.py:75-88 | the merge-or-insert succeeds exactly when the product has no line or its merged quantity is within stock; failure is `InsufficientStock`; an insert appends one line with the quantity asked for; a merge keeps the number of lines |
| CartRoutes.AddToCartAsWritten | routes/cart.py:67-88 | add_to_cart as written, over all inputs: it succeeds exactly when the product exists, is available, has stock at least `quantity`, and any existing line plus `quantity` is within stock, whatever the sign of `quantity`; a missing product is `ProductNotFound`, any other failure `InsufficientStock`; success without a line appends one with the quantity asked for |
| CartRoutes.AddToCartAsWrittenAcceptsZero | routes/cart.py:86-88 | as written, adding quantity 0 of an available product inserts a line of quantity 0 |
| CartRoutes.AddToCartAsWrittenShrinksLine | routes/cart.py:81-85 | as written, a negative quantity takes an existing line below 1 |
| CartRoutes.AddToCartAgreesOnPositive | routes/cart.py:67-88 | for every quantity ≥ 1 the corrected and the as-written route give the same outcome |
| CartRoutes.MergeInto | routes/cart.py:75-88 | the scan-then-merge-or-insert loop computes `MergeLine` |
| CartRoutes.AddToCart | routes/cart.py:60-91 | the route fails with the store unchanged, or changes exactly the user's lines to `AddToCartLines` after get-or-create; the invariant holds |
| CartRoutes.UpdateCartLines | routes/cart.py:103-120 | succeeds exactly when the product has a line and, for a positive quantity, exists with enough stock; quantity ≤ 0 removes the product's line, otherwise the line holds exactly that quantity; other lines stay; valid lines stay valid |
| CartRoutes.UpdateCartItem | routes/cart.py:94-123 | the cart exists afterwards even when the update fails; on success the user's lines are `UpdateCartLines`; the invariant holds |
| CartRoutes.ClearCartFrame | routes/cart.py:131-136 | clearing creates no cart, empties the user's cart, keeps its id and leaves every other cart as it was |
| CartRoutes.ClearCartIdempotent | routes/cart.py:131-136 | clearing twice is clearing once |
| CartRoutes.ClearedCarts | routes/cart.py:131-136 | no contract of its own: the carts after the user's lines are deleted; stated by `ClearCartFrame`, `ClearCartIdempotent` and `ClearCart` |
| CartRoutes.ClearCart | routes/cart.py:126-136 | the line-deleting loop leaves the carts of `ClearedCarts`; the invariant holds |
| OrderRoutes.CheckLine | routes/orders.py:26-38 | a selected product yields no error exactly when it has a cart line, exists and has stock for the line's quantity |
| OrderRoutes.FirstError | routes/orders.py:25-38 | there is no error exactly when every selected product passes; an error is that of a selected product all of whose predecessors pass |
| OrderRoutes.FirstErrorAt | routes/orders.py:25-38 | when the products before position i pass and the one at i fails, the checkout reports the failure at i |
| OrderRoutes.ApplyCheckout | routes/orders.py:40-43 | taking stock never adds or removes a product |
| OrderRoutes.Take | routes/orders.py:40-42 | no contract of its own: stock drops by the quantity and availability is switched off at 0 or below; stated by `CheckoutStock` and `CheckoutExamples` |
| OrderRoutes.OrderLines | routes/orders.py:48-52 | no contract of its own: one item per selected product with its cart quantity and current price; stated by `OrderLinesAt` and `OrderLinesValid` |
| OrderRoutes.SelectedTotal | routes/orders.py:45-46 | no contract of its own: the running total of price times cart quantity; stated by `SelectedTotalIsItemsTotal` |
| OrderRoutes.ExpectedCheckout | routes/orders.py:19-55 | succeeds exactly for a non-empty cart, a non-empty selection and all selected products passing; empty cart, first failing product and empty selection each give their error |
| OrderRoutes.ApplyCheckoutUntouched | routes/orders.py:33-43 | a product that is not selected keeps its state |
| OrderRoutes.ApplyCheckoutEffect | routes/orders.py:37-43 | each selected product is taken exactly once, by its cart quantity; no other product changes |
| OrderRoutes.CheckoutStock | routes/orders.py:37-43 | on success each selected product's stock drops by exactly its cart quantity and stays ≥ 0; name and price stay; stock ≤ 0 means unavailable; nothing is made available; other products are untouched |
| OrderRoutes.CheckoutKeepsStock | routes/orders.py:37-40 | a successful checkout leaves no stock negative (the one consequence of `CheckoutStock` the store invariant needs) |
| OrderRoutes.OrderLinesAt | routes/orders.py:48-52 | the order has one item per selected product, in order, with its cart quantity and its current price |
| OrderRoutes.OrderLinesValid | models/orders.py:7-9 | the order's items have quantity ≥ 1 and at most one item per product |
| OrderRoutes.SelectedTotalIsItemsTotal | routes/orders.py:45-46 | the order's total, price × quantity summed over the selection, is the sum of its items' subtotals |
| OrderRoutes.CheckoutPricesFit | models/orders.py:10 | when every product price fits decimal(10,2), so does every price copied onto the order |
| OrderRoutes.CheckoutStep | routes/orders.py:25-52 | one more passing product extends the stock, the items and the total by that product alone, and is still in its starting state when its turn comes |
| OrderRoutes.PlanCheckout | routes/orders.py:19-55 | the checking loop over a working copy of the products computes `ExpectedCheckout` |
| OrderRoutes.DeleteStep | routes/orders.py:71-73 | each selected product still has its line when the deletion loop reaches it |
| OrderRoutes.DeleteLine | routes/orders.py:72-73 | finding a product's line and deleting it removes that product's lines |
| OrderRoutes.DeleteLines | routes/orders.py:71-73 | the deletion loop removes the lines of exactly the selected products |
| OrderRoutes.WithoutSelectedCount | routes/orders.py:71-73 | deleting the lines of i selected products that are in the cart removes exactly i lines |
| OrderRoutes.CheckoutRemovesSelected | routes/orders.py:71-73 | a successful checkout removes exactly the selected lines, one per selected product, and keeps every unselected line |
| OrderRoutes.CheckoutCartsValid | routes/orders.py:71-75 | replacing a cart's lines by what the deletion leaves keeps the carts valid |
| OrderRoutes.CheckoutOrdersValid | routes/orders.py:57-69 | the new order under the next free id has status "new", valid items and a total equal to the sum of its items, so the orders stay valid |
| OrderRoutes.CreateOrder | routes/orders.py:13-77 | a failed checkout returns its error with the store unchanged; a successful one commits the planned stock, records order `nextOrderId` with status "new", the planned items and total, deletes exactly the selected lines, and returns the id and total; the invariant holds |
| OrderRoutes.CheckoutExamples | routes/orders.py:25-52 | two products A (2 × 1000, stock 5) and B (1 × 500, stock 1): the total is 2500, A's stock is 3, B's is 0 and B is unavailable, and the cart is empty; with B sold out the checkout fails on B |
| OrderRoutes.InsertByDate | routes/orders.py:82 | insertion adds exactly the one order |
| OrderRoutes.InsertByDateSorted | routes/orders.py:82 | insertion keeps a list newest first |
| OrderRoutes.ListNewestFirst | routes/orders.py:82 | the listing holds each candidate order once and is sorted newest first |
| OrderRoutes.GetUserOrders | routes/orders.py:80-83 | with the store's invariant, lists exactly the user's orders, newest first; every listed order belongs to the user and is the order stored under its id, and no id is listed twice |
| OrderRoutes.GetAllOrders | routes/orders.py:86-89 | with the store's invariant, lists exactly all stored orders, newest first; every listed order is the order stored under its id, and no id is listed twice |
| OrderRoutes.ListingDistinct | routes/orders.py:80-89 | a listing that holds each order of a set once holds no order at two positions |
| OrderRoutes.ListingById | routes/orders.py:80-89 | with every order stored under its own id, a listing of stored orders shows each under its id and no id twice |
| OrderRoutes.UserOrdersStored | routes/orders.py:82 | the user's orders are stored orders, and each belongs to that user |
| OrderRoutes.SetStatus | routes/orders.py:98-106 | fails for an unknown order, rejects a status outside the allowed set, and otherwise changes only that order's status, whatever its current status |
| OrderRoutes.SetStatusValid | routes/orders.py:102-106 | a status update keeps every order valid |
| OrderRoutes.UpdateOrderStatus | routes/orders.py:92-110 | the orders become `SetStatus`'s, or stay unchanged with its error; products and carts are outside its frame; returns the updated order |
| OrderRoutes.RemoveOrder | routes/orders.py:115-122 | fails for an unknown order; otherwise drops that order with its items, whatever its status, and keeps every other order |
| OrderRoutes.DeleteOrder | routes/orders.py:113-124 | the orders become `RemoveOrder`'s, or stay unchanged with its error; products and carts are outside its frame |

## Left out

- HTTP and the framework. Routing, status codes, detail texts, sessions, `commit`/`refresh` and ORM relationships are not modelled. Every raised exception becomes an `Error` constructor.
- `main.py` mounts only the users and products routers. The model treats the cart and order routes as callable anyway.
- `routes/users.py`, `routes/products.py` and `models/users.py` are not part of this model; they are plain record CRUD.
- `models/products.py` is not part of this model. Its fields do not match what the routes use. `Catalog.Product` gives a product the fields the routes read instead.
- The clock. `created_at` comes from `datetime.utcnow` in `models/orders.py:18`. Here it is the `now` parameter of `CreateOrder`.
- Concurrency and row locking. Each method is one request running alone.
- OrderRoutes.CreateOrder: requires distinct `product_ids`. With a repeated id the route would take stock twice and collect two `selected_items` for one product. So the first commit (routes/orders.py:59) would already store the doubled decrement and the order. Then, in the second commit, the two `OrderItem` rows would share one `(order_id, product_id)` key (models/orders.py:7-8), and that failing commit would also roll back the cart line deletions. With duplicates the route is therefore not all-or-nothing. This is read from the code; it was not executed.
- OrderRoutes.CreateOrder: the order's items are written together with the order. The route writes them in a second commit, and nothing can observe the state between the two commits here.
- OrderRoutes.DeleteOrder: an order's items are part of the order value, so the route's item-deleting loop becomes removing the order.
- OrderRoutes.ListNewestFirst: orders with the same `created_at` may come in any order, as with the database's sort. The listing is built by insertion, not by a database query.
- Database.Store: the decimal column widths `FitsPriceColumn` and `FitsTotalColumn` are predicates only. The routes never check them, so the store invariant does not include them.
- CartModels.DefaultQuantity: the route's default `quantity = 1` is the caller's choice of argument. The model states the constant but no route has an optional parameter.
- Line order. `cart.items` is a relationship with no `order_by` (models/cart.py:24). The line order, and so the order of the view's `items`, is whatever the database returns. The model keeps lines in a sequence, appends a new line at the end, and shows lines in that order. Which line holds which product, and every total and count, do not depend on that order.
- The default `user_id = 1` of the cart routes (routes/cart.py:26, 64, 98, 128) is the caller's choice of argument. Every modelled route takes the user id explicitly.
- `CartItemUpdate` and `OrderStatusUpdate` bodies are plain `int` and `string` parameters of `UpdateCartItem` and `UpdateOrderStatus`.

## Findings

| source | as written | input that shows it | evidently intended | confidence | as-written member | corrected member |
|---|---|---|---|---|---|---|
| routes/cart.py:67-71 | `add_to_cart` never checks that `quantity` is at least 1. A table model does not validate `ge=1`, so the new line is stored. | Product 7 available with stock 3, an empty cart, quantity 0: a line of quantity 0 is inserted | refuse a quantity below 1, as the line model's bound `quantity ≥ 1` says | medium, not executed | CartRoutes.AddToCartAsWrittenAcceptsZero | CartRoutes.AddToCartLines |
| routes/cart.py:81-85 | a negative quantity is added to an existing line without any check | a line of quantity 2 for product 7 (stock 3), quantity -5: the line becomes -3 | refuse a quantity below 1 | medium, not executed | CartRoutes.AddToCartAsWrittenShrinksLine | CartRoutes.AddToCart |
