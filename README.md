# Tyredash backend: carts, orders, payments, wishlists, reviews and deals in Dafny

This project models the business logic of the Tyredash e-commerce backend, an
Express/Mongoose service that sells tires, wheels and simple products. It covers:

- **Carts.** There are two services over the same `Cart` collection. The current
  one keys lines by (product id, product type), prices new lines from the catalog
  and checks stock. The older one keys lines by product id alone and takes whole
  lines from the request body. The collection's pre-save hook recomputes
  `totalPrice` as the sum of price × quantity, and the schema's validators reject
  bad lines.
- **Orders.** A new order is priced from its lines and starts as pending. The
  buyer's cart is emptied first. `updateOrderStatus` refuses to change a delivered
  order (payments still can; see below).
  The pre-save hook recomputes `itemsPrice` and `totalPrice`.
- **Payments.** A payment is recorded against an order the caller owns. A
  completed payment moves its order to processing and stamps `paidAt`.
- **Wishlists.** One list per user, never holding the same product twice.
- **Reviews.** `createReview` refuses a second review of the same (user, product,
  product type). Only the author may edit or delete a review. Reviews are listed per product, newest first.
- **Deals.** A brand's running deals are picked out, and discounted prices are
  worked out for that brand's items. The last deal in the list decides the price.
- **Request-body schemas** of the cart, order, review and year routes.
- **Product ratings.** `calculateAverageRating` on a product document.
- **Upload helpers.** The public URL of a stored file and the upload filters.

Each Mongoose collection the services write is a class whose field (`map` or
`seq`) the service methods reassign. Its `Valid()` predicate is what the schema
and the hooks guarantee of stored documents. A `save()` or `create()` runs the
validators, then the pre-save hook. A document the validators reject comes back
as `Err(SchemaViolation)`, and nothing is stored. The totals the hooks compute
are only `required`, and their defaults of 0 meet that, so the outcome would be
the same in either order. `findOneAndUpdate` and
`findByIdAndUpdate` write directly, running neither hooks nor validators. Every
`ApiError` a service throws is an `Err` case of `Common.Error`. Pure helpers and schemas are functions, predicates and lemmas.

Money, ratings, discount percentages and year numbers are exact `real`s.
Quantities and stock are `int`s. Ids the database assigns to orders, payments
and reviews are `nat`s handed out in increasing order. User and catalog ids are
strings. The current time, the gateway's answer and generated transaction ids
are parameters.

### Where the code and its description differ

The model follows the code in each of these cases.

- **Schema paths.** The cart schema stores only product, productType, quantity
  and price per line; the line's name and thumbnail, and the cart's `totalItems`,
  are not stored. The cart, order, wishlist and review schemas restrict
  `productType` to "tire" or "wheel". A simple product can therefore be looked up
  by the cart service but never saved into a cart (`CartService.AddLineValidity`).
- **Simple-product stock.** Simple products keep their stock under `stock`, not
  `stockQuantity`, so the cart service's stock check never fires for them.
- **No checkout flow.**
  - Nothing decrements stock.
  - Orders are created on request, not from a completed payment, and not
    idempotently per payment.
  - `updatePaymentStatus` writes any status over any other.
  - A completed `updatePaymentStatus` and a successful `processPayment` move the
    order to processing with a fresh `paidAt` whatever its status, a delivered
    or cancelled order included (`OrderModel.OrderCollection.SetPaid`); only
    `updateOrderStatus` treats delivered as final.
- **Deal discounts are never stored.** The tire, wheel and product schemas
  declare no `discountPrice` path. Under Mongoose's strict mode the deal
  service's saves therefore write nothing. The model returns the discounted
  documents and leaves the catalog as it was. For the same reason no catalog
  document ever has a `discountPrice`, so the cart's `discountPrice || price`
  always yields `price` in the running system. The model's catalog entries carry
  an optional discount price, so `UnitPrice` also covers a non-zero one that
  the running system never meets.
- **Deal fields.** The deal schema's fields do not match those the deal service
  reads. Deals are modelled with the fields the service reads.

## Model

| member | source | states |
|---|---|---|
| Catalog.ParseProductType | backend/src/app/modules/cart/cart.service.ts:21-33 | the `switch` accepts exactly "tire", "wheel" and "product", each naming its kind; any other string is an invalid type |
| Catalog.ParseTypeName | backend/src/app/modules/cart/cart.service.ts:21-33 | every kind's name parses back to that kind |
| Catalog.FindById | backend/src/app/modules/cart/cart.service.ts:22-30 | `findById` returns a stored document with that id, and none exactly when no document has it |
| CartModel.TotalAppend | backend/src/app/modules/cart/cart.model.ts:48-54 | the hook's sum over two runs of lines is the sum of their sums |
| CartModel.TotalPush | backend/src/app/modules/cart/cart.model.ts:48-54 | appending a line adds exactly its price × quantity to the total |
| CartModel.TotalUpdate | backend/src/app/modules/cart/cart.model.ts:48-54 | rewriting one line changes the total by the difference of the two lines' amounts |
| CartModel.TotalPermutation | backend/src/app/modules/cart/cart.model.ts:48-54 | the total does not depend on the order of the lines |
| CartModel.CartCollection.constructor | backend/src/app/modules/cart/cart.model.ts:4-46 | an empty collection satisfies the schema invariant |
| CartModel.CartCollection.Save | backend/src/app/modules/cart/cart.model.ts:12-33 | the hook sets `totalPrice` to the sum; lines breaking the type enum or `min: 1` are rejected and nothing is stored; otherwise the user's cart is replaced and every other cart kept |
| CartModel.CartCollection.FindOneAndClear | backend/src/app/modules/cart/cart.service.ts:268-280 | empties an existing cart to no lines and total 0 without the hook; None and no change for a user without a cart |
| CartService.GetProductDetails | backend/src/app/modules/cart/cart.service.ts:14-53 | invalid type, missing product and short stock each give their own error, with the available count; otherwise the catalog's name, `discountPrice \|\| price`, first image or "" and stock, which covers the quantity |
| CartService.FindLine | backend/src/app/modules/cart/cart.service.ts:105-108 | `findIndex`: the first line with that (product, type) key, or -1 exactly when no line has it |
| CartService.AddPrecheck | backend/src/app/modules/cart/cart.service.ts:78-91 | the guards before any cart is touched: an id that is not an ObjectId, then a quantity below 1, then the catalog lookup with its stock check (its properties are those of `GetProductDetails`) |
| CartService.AddLine | backend/src/app/modules/cart/cart.service.ts:104-124 | the merge-or-push of an add: the first line with the same (product, type) key gains the quantity, or a new line is appended at the catalog price (its effect is stated by the lemmas below) |
| CartService.AddLineEffect | backend/src/app/modules/cart/cart.service.ts:105-124 | with unique keys, an add raises only the quantity of the line with that key, or appends exactly one line at the catalog price |
| CartService.AddLineKeepsKeysUnique | backend/src/app/modules/cart/cart.service.ts:105-124 | an add keeps at most one line per (product, type) |
| CartService.AddLineTotalMerge | backend/src/app/modules/cart/cart.service.ts:110-114 | merging into a line adds `quantity` units at that line's stored price to the total |
| CartService.AddLineTotalAppend | backend/src/app/modules/cart/cart.service.ts:115-123 | appending a line adds `quantity` units at the catalog price to the total |
| CartService.AddLineValidity | backend/src/app/modules/cart/cart.service.ts:105-127 | with quantity at least 1, the lines after an add pass the schema exactly when the type is "tire" or "wheel" |
| CartService.RemoveLines | backend/src/app/modules/cart/cart.service.ts:140-148 | the filter keeps exactly the lines with another key; the count is unchanged exactly when no line had the key, and then so are the lines |
| CartService.RemoveLinesSingle | backend/src/app/modules/cart/cart.service.ts:140-143 | a lone line is dropped exactly when its key matches |
| CartService.RemoveLinesAppend | backend/src/app/modules/cart/cart.service.ts:140-143 | the filter of a concatenation is the concatenation of the filters, so with `RemoveLinesSingle` the kept lines keep their order and their multiplicity |
| CartService.RemoveLinesKeepsKeysUnique | backend/src/app/modules/cart/cart.service.ts:140-144 | removing lines keeps keys unique |
| CartService.Availability | backend/src/app/modules/cart/cart.service.ts:205-251 | a line is available exactly when its product exists with a stock field covering the quantity; a missing or understocked product (the lookup throws) reports stock 0, no details and unavailable; otherwise the product's details and stock field are reported |
| CartService.PopulateLines | backend/src/app/modules/cart/cart.service.ts:206-253 | one view per stored line, in order, each the line's availability |
| CartService.CreateCart | backend/src/app/modules/cart/cart.service.ts:55-69 | returns the existing cart untouched, or stores and returns an empty one |
| CartService.AddItemToCart | backend/src/app/modules/cart/cart.service.ts:71-128 | the id, quantity and catalog guards fail before any cart is touched; otherwise the cart (created if missing) gets the merged or appended line and the hook's total, or the save is rejected with only the empty cart created; keys stay unique |
| CartService.RemoveItemFromCart | backend/src/app/modules/cart/cart.service.ts:130-152 | cart not found; "item not found" when nothing was removed; otherwise the filtered lines, in their order (`RemoveLinesAppend`), with their new total |
| CartService.UpdateItemQuantity | backend/src/app/modules/cart/cart.service.ts:154-192 | quantity below 1, missing cart, missing line and catalog errors in that order; otherwise only that line's quantity is set and the total recomputed |
| CartService.GetCartByUserId | backend/src/app/modules/cart/cart.service.ts:194-266 | a missing cart is created empty; otherwise every line's availability with the stored total, and nothing changes |
| CartService.ClearCart | backend/src/app/modules/cart/cart.service.ts:268-280 | an existing cart becomes empty with total 0; otherwise "Cart not found" |
| LegacyCartService.FindProduct | backend/src/app/modules/cart/car.service.ts:99-101 | `findIndex` on the product id alone: the first such line, or -1 exactly when there is none |
| LegacyCartService.MergeItem | backend/src/app/modules/cart/car.service.ts:95-104 | the merge-or-push of the older add, keyed by product id alone (its effect is stated by `MergeItemEffect`) |
| LegacyCartService.MergeItemEffect | backend/src/app/modules/cart/car.service.ts:99-107 | an add raises the first same-product line's quantity whatever its type, keeping its type and price, or appends the item |
| LegacyCartService.MergeItemKeepsProductsUnique | backend/src/app/modules/cart/car.service.ts:99-107 | an add keeps at most one line per product |
| LegacyCartService.DropProduct | backend/src/app/modules/cart/car.service.ts:145-147 | the filter keeps exactly the lines of other products (order and repeats: the two lemmas below) |
| LegacyCartService.DropProductSingle | backend/src/app/modules/cart/car.service.ts:145-147 | a lone line is dropped exactly when it is of that product |
| LegacyCartService.DropProductAppend | backend/src/app/modules/cart/car.service.ts:145-147 | the filter distributes over concatenation, so kept lines keep their order and count |
| LegacyCartService.DropProductIdempotent | backend/src/app/modules/cart/car.service.ts:145-147 | removing a product twice equals removing it once |
| LegacyCartService.DropAbsentProduct | backend/src/app/modules/cart/car.service.ts:145-147 | removing an absent product changes nothing |
| LegacyCartService.CreateCart | backend/src/app/modules/cart/car.service.ts:12-22 | a second cart for the same user is refused; otherwise the body is stored through the hook and validators |
| LegacyCartService.GetCartByUserId | backend/src/app/modules/cart/car.service.ts:80-88 | the user's stored cart, or "Cart not found"; nothing is created |
| LegacyCartService.AddItemToCart | backend/src/app/modules/cart/car.service.ts:90-111 | a missing cart is refused; otherwise the merged lines and their total, or a rejected save |
| LegacyCartService.SetQuantityValidity | backend/src/app/modules/cart/car.service.ts:125-132 | in a stored cart, setting one line's quantity keeps every line valid exactly when the quantity is at least 1 |
| LegacyCartService.UpdateCartItemQuantity | backend/src/app/modules/cart/car.service.ts:113-134 | missing cart and missing product are refused; a quantity below 1 is rejected by the schema at save; otherwise only that line's quantity changes |
| LegacyCartService.RemoveItemFromCart | backend/src/app/modules/cart/car.service.ts:136-150 | every line of the product is dropped, succeeding even when there was none |
| LegacyCartService.ClearCart | backend/src/app/modules/cart/car.service.ts:152-162 | an existing cart is emptied; otherwise "Cart not found" |
| CartValidation.CartItemValid | backend/src/app/modules/cart/car.validation.ts:3-21 | `cartItemSchema`: product present, type "tire" or "wheel", quantity at least 1, price above 0 |
| CartValidation.CreateCartValid | backend/src/app/modules/cart/car.validation.ts:23-32 | `createCartZodSchema`: a user and a non-empty list of lines each passing `cartItemSchema` |
| CartValidation.AddItemValid | backend/src/app/modules/cart/car.validation.ts:34-36 | `addItemToCartZodSchema`: the body is one line passing `cartItemSchema` |
| CartValidation.UpdateQuantityValid | backend/src/app/modules/cart/car.validation.ts:38-46 | `updateCartItemZodSchema`: a quantity of at least 1 |
| CartValidation.ToLine | backend/src/app/modules/cart/car.validation.ts:3-21 | a line passing `cartItemSchema` is a schema-valid stored line with positive price |
| CartValidation.PositiveTotal | backend/src/app/modules/cart/car.validation.ts:16-30 | a non-empty list of lines of positive price and quantity totals more than 0 |
| CartValidation.CreateBodyStores | backend/src/app/modules/cart/car.validation.ts:23-32 | a body passing `createCartZodSchema` is accepted by the collection, with a positive total |
| CartValidation.AddBodyStores | backend/src/app/modules/cart/car.validation.ts:34-36 | adding a body passing `addItemToCartZodSchema` to a stored cart never fails at save |
| CartValidation.UpdateBodyStores | backend/src/app/modules/cart/car.validation.ts:38-46 | a quantity passing `updateCartItemZodSchema` never makes `updateCartItemQuantity` fail at save, and a present quantity it refuses is one the save refuses too |
| OrderModel.PreSave | backend/src/app/modules/order/order.model.ts:49-56 | `itemsPrice` is the sum of the lines, `totalPrice` adds tax and shipping, nothing else changes |
| OrderModel.PreSaveIdempotent | backend/src/app/modules/order/order.model.ts:49-56 | a saved order is priced, and saving again changes nothing |
| OrderModel.PreSaveOrderIndependent | backend/src/app/modules/order/order.model.ts:50-54 | reordering the lines leaves the total price unchanged |
| OrderModel.OrderCollection.Insert | backend/src/app/modules/order/order.model.ts:4-56 | a valid order is priced and stored under a fresh id; an invalid one is rejected and nothing is stored |
| OrderModel.OrderCollection.Update | backend/src/app/modules/order/order.service.ts:131-134 | saving a stored order reprices it, or rejects it leaving the collection unchanged |
| OrderModel.OrderCollection.SetPaymentResult | backend/src/app/modules/order/order.service.ts:142-148 | writes the payment result and `paidAt` of an existing order only |
| OrderModel.OrderCollection.SetPaid | backend/src/app/modules/payment/payment.service.ts:126-129 | writes the status and `paidAt` of an existing order only |
| OrderModel.OrderCollection.Delete | backend/src/app/modules/order/order.service.ts:156-162 | removes exactly that order and returns it, or None |
| OrderService.ItemsPrice | backend/src/app/modules/order/order.service.ts:17-21 | the sum of price × quantity, or 0 without items |
| OrderService.Draft | backend/src/app/modules/order/order.service.ts:12-30 | the caller becomes the user, the status is pending, the address is the payload's with the schema defaults, and the prices are the items' sum plus tax and shipping |
| OrderService.AddressAccepted | backend/src/app/modules/order/order.model.ts:14-21 | a payload address passes the schema exactly when the five required strings are present and non-empty and the country is absent (defaulted to "USA") or non-empty |
| OrderService.MissingAddressRefused | backend/src/app/modules/order/order.model.ts:14-21 | a payload without an address never yields a valid order |
| OrderService.DraftAlreadyPriced | backend/src/app/modules/order/order.service.ts:17-30 | the service prices the order as the hook does, so saving leaves the prices unchanged |
| OrderService.CreateOrder | backend/src/app/modules/order/order.service.ts:12-41 | the cart is emptied whatever happens next; a valid draft is stored under a fresh id, an invalid one is rejected |
| OrderService.UpdateOrderStatus | backend/src/app/modules/order/order.service.ts:116-136 | not found; delivered is final; otherwise the new status, stamping `deliveredAt` only on a move to delivered |
| OrderService.DeliveredIsFinal | backend/src/app/modules/order/order.service.ts:116-136 | after a move to delivered, any further update fails and leaves the order as it is |
| OrderService.UpdatePaymentResult | backend/src/app/modules/order/order.service.ts:138-154 | records the result and `paidAt`, or "Order not found" |
| OrderService.DeleteOrder | backend/src/app/modules/order/order.service.ts:156-162 | removes exactly that order, or "Order not found" |
| OrderValidation.OrderItemValid | backend/src/app/modules/order/order.validation.ts:3-20 | `orderItemSchema`: the same rules as a cart line |
| OrderValidation.AddressBodyValid | backend/src/app/modules/order/order.validation.ts:22-39 | `shippingAddressSchema`: street, city, state, postal code and phone present; country optional |
| OrderValidation.CreateOrderValid | backend/src/app/modules/order/order.validation.ts:48-68 | `createOrderZodSchema`: non-empty valid lines, a valid address, method "paypal" or "credit_card", tax and shipping at least 0 |
| OrderValidation.ParseAddress | backend/src/app/modules/order/order.validation.ts:22-39 | the required fields are copied and the country defaults to "USA" |
| OrderValidation.CreateBodyStores | backend/src/app/modules/order/order.validation.ts:48-68 | were a validated body made into an order by `createOrder` (the route itself creates orders from a payment id), the order would be priced above 0 with total at least the items' price, and stored exactly when no address string is empty |
| OrderValidation.ParseOrderStatus | backend/src/app/modules/order/order.validation.ts:70-79 | exactly the five status names parse, each to its status |
| OrderValidation.UpdateStatusValid | backend/src/app/modules/order/order.validation.ts:70-79 | `updateOrderStatusZodSchema`: a status naming one of the five |
| OrderValidation.StatusRoundTrip | backend/src/app/modules/order/order.validation.ts:70-79 | every status's name parses back to it and passes the schema |
| PaymentService.PaymentCollection.Create | backend/src/app/modules/payment/payment.model.ts:9-28 | a payment with an allowed method and an amount is stored under a fresh id; others are rejected |
| PaymentService.PaymentCollection.Replace | backend/src/app/modules/payment/payment.service.ts:111-119 | overwrites an existing payment only |
| PaymentService.PaymentCollection.Delete | backend/src/app/modules/payment/payment.service.ts:180-186 | removes exactly that payment, or None |
| PaymentService.NewPayment | backend/src/app/modules/payment/payment.service.ts:26-31 | the caller is the user and the status is pending |
| PaymentService.CreatePayment | backend/src/app/modules/payment/payment.service.ts:12-33 | an order the caller does not own is "Order not found"; otherwise stored or rejected by the schema |
| PaymentService.WithStatus | backend/src/app/modules/payment/payment.service.ts:111-118 | the status is set, the transaction id only when non-empty, nothing else changes |
| PaymentService.UpdatePaymentStatus | backend/src/app/modules/payment/payment.service.ts:106-133 | "Payment not found"; otherwise the payment is updated, and a completed one moves its existing order to processing with `paidAt` |
| PaymentService.ProcessedPayment | backend/src/app/modules/payment/payment.service.ts:156-168 | amount is the order's total, completed exactly on success, failed exactly otherwise |
| PaymentService.ProcessPayment | backend/src/app/modules/payment/payment.service.ts:135-178 | order not owned is "Order not found"; an invalid method is rejected; otherwise the payment is stored and only a successful one marks the order processing and paid |
| PaymentService.DeletePayment | backend/src/app/modules/payment/payment.service.ts:180-186 | removes exactly that payment, or "Payment not found" |
| WishlistService.Contains | backend/src/app/modules/wishlist/wishlist.service.ts:40-43 | true exactly when some item has that product |
| WishlistService.Without | backend/src/app/modules/wishlist/wishlist.service.ts:66-68 | keeps exactly the items of other products (order and repeats: the two lemmas below) |
| WishlistService.WithoutSingle | backend/src/app/modules/wishlist/wishlist.service.ts:66-68 | a lone item is removed exactly when it names that product |
| WishlistService.WithoutAppend | backend/src/app/modules/wishlist/wishlist.service.ts:66-68 | the filter distributes over concatenation, so kept items keep their order and count |
| WishlistService.WithoutKeepsDistinct | backend/src/app/modules/wishlist/wishlist.service.ts:66-68 | removing keeps products distinct |
| WishlistService.WithoutIdempotent | backend/src/app/modules/wishlist/wishlist.service.ts:66-68 | removing twice equals removing once |
| WishlistService.AppendKeepsDistinct | backend/src/app/modules/wishlist/wishlist.service.ts:40-52 | appending an unlisted product keeps products distinct |
| WishlistService.WishlistCollection.Save | backend/src/app/modules/wishlist/wishlist.model.ts:4-20 | stored only when every item's type is "tire" or "wheel" |
| WishlistService.CreateWishlist | backend/src/app/modules/wishlist/wishlist.service.ts:6-16 | a second list is refused; otherwise an empty one is stored |
| WishlistService.GetWishlistByUserId | backend/src/app/modules/wishlist/wishlist.service.ts:18-28 | the stored list, whose products are distinct, or "Wishlist not found" |
| WishlistService.AddItemToWishlist | backend/src/app/modules/wishlist/wishlist.service.ts:30-55 | not found; already listed; otherwise appended at the end, or rejected for a bad type |
| WishlistService.RemoveItemFromWishlist | backend/src/app/modules/wishlist/wishlist.service.ts:57-71 | the product is no longer listed, succeeding whether or not it was |
| WishlistService.ClearWishlist | backend/src/app/modules/wishlist/wishlist.service.ts:73-83 | an existing list becomes empty; otherwise "Wishlist not found" |
| ReviewService.IndexOf | backend/src/app/modules/review/review.service.ts:97-100 | the position of the review with that id, or -1 exactly when there is none |
| ReviewService.NewestFirst | backend/src/app/modules/review/review.service.ts:137-145 | exactly the reviews of that product and type |
| ReviewService.NewestFirstDecreasing | backend/src/app/modules/review/review.service.ts:141-143 | in a table kept in creation order, the listing is strictly newest first |
| ReviewService.DeleteAtPreserves | backend/src/app/modules/review/review.service.ts:133 | deleting one review keeps creation order and unique subjects, and removes exactly that id |
| ReviewService.Patched | backend/src/app/modules/review/review.service.ts:110-112 | only the rating and comment supplied change |
| ReviewService.ReviewTable.constructor | backend/src/app/modules/review/review.model.ts:4-20 | an empty table satisfies the invariant |
| ReviewService.CreateReview | backend/src/app/modules/review/review.service.ts:11-27 | a second review of the same subject is refused; otherwise appended if the schema accepts it; ratings stay in range |
| ReviewService.UpdateReview | backend/src/app/modules/review/review.service.ts:92-114 | not found; forbidden for anyone but the author; otherwise only that review is patched, ratings in range kept by a validated patch |
| ReviewService.DeleteReview | backend/src/app/modules/review/review.service.ts:116-135 | not found; forbidden for anyone but the author; otherwise exactly that review is removed |
| ReviewService.GetReviewsByProduct | backend/src/app/modules/review/review.service.ts:137-145 | exactly the product's reviews of that type, newest first |
| ReviewValidation.CreateReviewValid | backend/src/app/modules/review/review.validation.ts:4-21 | `createReviewZodSchema`: user, product, an allowed type and a rating from 1 to 5 present; comment optional |
| ReviewValidation.UpdateReviewValid | backend/src/app/modules/review/review.validation.ts:23-32 | `updateReviewZodSchema`: both fields optional; a present rating is from 1 to 5 |
| ReviewValidation.CommentIrrelevant | backend/src/app/modules/review/review.validation.ts:19-30 | the optional comment never decides validity |
| ReviewValidation.CreateImpliesUpdate | backend/src/app/modules/review/review.validation.ts:3-32 | a valid create body's rating and comment form a valid update body |
| ReviewValidation.CreateBodyStores | backend/src/app/modules/review/review.validation.ts:3-21 | a validated body is a storable review exactly when its type is "tire" or "wheel" |
| ReviewValidation.PatchKeepsRating | backend/src/app/modules/review/review.validation.ts:23-32 | a validated patch keeps a rating between 1 and 5 |
| DealService.DealsForBrand | backend/src/app/modules/deals/deal.service.ts:15-23 | exactly the brand's deals with `validFrom <= now <= validTo` |
| DealService.ForKind | backend/src/app/modules/deals/deal.service.ts:30-32 | exactly the deals naming that kind (order and repeats: the two lemmas below) |
| DealService.ForKindSingle | backend/src/app/modules/deals/deal.service.ts:30-32 | a lone deal is kept exactly when it names the kind |
| DealService.ForKindAppend | backend/src/app/modules/deals/deal.service.ts:30-32 | the filter distributes over concatenation, so kept deals keep their stored order, which `InTurnIsLast` makes decisive |
| DealService.Discounted | backend/src/app/modules/deals/deal.service.ts:41-42 | 0% leaves the price, 100% gives 0, a percentage from 0 to 100 keeps the result between 0 and the price, and any positive one lowers a positive price |
| DealService.WithDeal | backend/src/app/modules/deals/deal.service.ts:41-42 | only `discountPrice` changes, computed from the item's own price |
| DealService.AfterDeals | backend/src/app/modules/deals/deal.service.ts:39-45 | no deals leave the item as it was; otherwise the discount of the last deal, from the original price |
| DealService.InTurnIsLast | backend/src/app/modules/deals/deal.service.ts:111-115 | applying the deals one after another equals applying only the last, so discounts never compound |
| DealService.ApplyDealsToOne | backend/src/app/modules/deals/deal.service.ts:111-115 | the loop over one item's deals leaves the last deal's discount |
| DealService.ApplyDealsToAll | backend/src/app/modules/deals/deal.service.ts:39-45 | the nested loops give every item the last deal's discount, and the same items in order |
| DealService.OfBrand | backend/src/app/modules/deals/deal.service.ts:34-36 | exactly the items of that brand |
| DealService.GetDiscountedByBrand | backend/src/app/modules/deals/deal.service.ts:26-100 | each of the brand's items of that kind priced by the last running brand deal naming the kind |
| DealService.ApplyDiscountTo | backend/src/app/modules/deals/deal.service.ts:103-160 | a missing item gives that kind's not-found error, a simple product without brand is refused, otherwise the last running brand deal's discount |
| YearValidation.InRange | backend/src/app/modules/year/year.validation.ts:11-15 | the range both schemas put on a numeric year: 1900 up to the current year + 1, both inclusive |
| YearValidation.CreateYearValid | backend/src/app/modules/year/year.validation.ts:3-21 | `createYearZodSchema`: a numeric year in range and a display name |
| YearValidation.UpdateYearValid | backend/src/app/modules/year/year.validation.ts:23-37 | `updateYearZodSchema`: both optional; a present numeric year is in range |
| YearValidation.CreateImpliesUpdate | backend/src/app/modules/year/year.validation.ts:3-37 | every valid create body is a valid update body |
| YearValidation.RangeBounds | backend/src/app/modules/year/year.validation.ts:11-15 | both bounds are inclusive, the upper one is next year, 1899 and the year after next are refused |
| YearValidation.LaterYearsAcceptMore | backend/src/app/modules/year/year.validation.ts:12-15 | a year accepted now stays accepted in later years |
| ProductModel.SumAppend | backend/src/app/modules/product/product.model.ts:80-83 | the sum of two runs of ratings is the sum of their sums |
| ProductModel.SumPermutation | backend/src/app/modules/product/product.model.ts:80-83 | the sum does not depend on the order of the ratings |
| ProductModel.SumBounds | backend/src/app/modules/product/product.model.ts:80-83 | values between lo and hi sum to between lo and hi times their count |
| ProductModel.AverageBounds | backend/src/app/modules/product/product.model.ts:84 | the average of values between lo and hi lies between them |
| ProductModel.ProductDoc.constructor | backend/src/app/modules/product/product.model.ts:64-67 | `averageRating` defaults to 0 |
| ProductModel.ProductDoc.CalculateAverageRating | backend/src/app/modules/product/product.model.ts:78-86 | with ratings, their sum over their count; with none, the previous average; ratings untouched |
| ProductModel.AverageOrderIndependent | backend/src/app/modules/product/product.model.ts:78-86 | the average does not depend on the order of the ratings |
| FileHandlers.FileUrl | backend/src/helpers/fileHandlers.ts:67-69 | "/storage/" followed by the file name |
| FileHandlers.LastSegment | backend/src/app/modules/fleet/fleetSupport/support.service.ts:110 | `split("/").pop()`: a suffix with no '/', preceded by a '/' unless it is the whole string |
| FileHandlers.LastSegmentOfPlain | backend/src/app/modules/fleet/fleetSupport/support.service.ts:110 | a string without '/' is its own last segment |
| FileHandlers.FileUrlRoundTrip | backend/src/helpers/fileHandlers.ts:67-69 | for a name without '/', the callers' extraction recovers the name from its URL |
| FileHandlers.FileUrlLosesDirectories | backend/src/helpers/fileHandlers.ts:67-69 | a name with '/' does not come back whole: "a/b" comes back as "b" |
| FileHandlers.ImageFilter | backend/src/helpers/fileHandlers.ts:19-33 | accepts exactly image/png, image/jpg and image/jpeg, and rejects everything else with its message |
| FileHandlers.FileFilter | backend/src/helpers/fileHandlers.ts:35-41 | accepts every file |
| FileHandlers.ImageFilterStricter | backend/src/helpers/fileHandlers.ts:19-41 | whatever the image filter accepts the file filter accepts, but not the other way round |

## Left out

- Floating point. JavaScript numbers are IEEE doubles; the model computes prices, discounts and averages exactly.
- Non-integral quantities. The request schemas accept any number as a quantity, but the model's quantities and stock are whole numbers.
- ObjectId handling. Casting between id strings and ObjectIds, and `populate`, are not modelled; ids are compared as strings. The uniqueness results (`CartService.AddLineKeepsKeysUnique`, `LegacyCartService.MergeItemKeepsProductsUnique`, `WishlistService.WishlistCollection`'s distinct products) therefore hold for ids written in lower case only: an upper-case 24-digit hex id passes `isValid`, is stored lower-cased by `new Types.ObjectId`, and then compares unequal to the request's id under `toString() === productId`, so adding it again appends a duplicate line or item.
- Listings and pagination. The `getAll*`, `getById` and listing operations that only pass filters to the database are not modelled.
- Concurrency. Each service call runs alone. `Promise.all` in `getCartByUserId` is a sequential map.
- Unawaited saves. The deal service's `save()` calls are not awaited; since they store nothing, the model loses nothing by leaving them out.
- Clock, randomness and the gateway. `new Date()`, the simulated gateway's random answer and the generated transaction id are inputs.
- Files and uploads. multer disk storage, uuid naming, size limits, `deleteFile` and `handleUploadError` are file-system and HTTP plumbing and are not modelled.
- Review product types. The list of types the review create schema allows comes from a constants file, which is not part of this model, so it is a parameter.
- Payment payloads. A payment's order is a required id. Fields other than order, method, amount and transaction id are not modelled.
- Deal model mismatch. The deal schema stores fields other than those the service queries. With Mongoose's `strictQuery` off (the default from Mongoose 7 on, assumed here since the package manifest is not part of this model), real deal documents would never match the service's query; with `strictQuery` on, the unknown filter paths would be dropped and every deal would match. The model lets the deals carry the queried fields.
- Deal service, `createDeal`: a plain insert, not modelled.
- CartService.UpdateItemQuantity: the service repeats its stock comparison after `getProductDetails`, which already made the same comparison; the repeat cannot fail, so the model runs the comparison once.
- CartService.GetProductDetails: a product whose stock field is missing passes the stock check because `undefined < n` is false in JavaScript; the model records the missing field as None and passes the check, but does not model other non-numeric stock values.
- CartService.GetCartByUserId: the view's line name and thumbnail are not modelled, because the cart schema does not store them.
- OrderService.CreateOrder: the order's `paymentResult` and timestamps are not modelled; an address sub-field given with a non-string value (which Mongoose would cast or reject) is not modelled.
- PaymentService.UpdatePaymentStatus: the transaction id is written when the argument is a non-empty string; other truthy values are not modelled.
- ReviewService.UpdateReview: `findOneAndUpdate` skips validators and writes the request body as it is, so a patch with an out-of-range rating or a bad type would be stored. The model's patch carries only rating and comment, and its ratings-in-range guarantee holds only for validated patches. A body that also carries `user`, `product` or `productType` would rewrite the review's subject, so the one-review-per-subject invariant the table keeps holds only while request bodies are reduced to the schema's fields before they reach the service (the request-validation middleware is not part of this model).
- YearValidation: both schemas also require the body's `year` object itself, which the model's body stands for; the numeric year is a real, compared with the current year + 1 computed at the time the module is loaded; the model takes that year as a parameter.
- CartService.AddItemToCart: the `quantity = 1` default of `addItemToCart` is not modelled; the model's callers always pass a quantity. The cart controller calls the service with the request body in place of the product id and with no quantity (backend/src/app/modules/cart/cart.controller.ts:50-53); controller wiring is not part of this model.
- HTTP status codes. The status each `ApiError` is thrown with (400, 403 or 404) is not modelled; errors are told apart by kind only.
