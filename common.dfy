/** Shared vocabulary of the backend model: optional values, results carrying the
    service errors, and identifiers. */
module Common {

  datatype Option<+T> = None | Some(value: T)

  /** A service call either returns its value or throws one of the errors below. */
  datatype Result<+T> = Ok(value: T) | Err(error: Error)

  /** Users and catalog items are addressed by the id strings the requests carry. */
  type UserId = string
  type ProductId = string

  /** Ids the database assigns to orders, payments and reviews. */
  type Id = nat

  /** A point in time, supplied by the caller wherever the source reads `new Date()`. */
  type Time = int

  /** Every error the modelled services raise. All but `SchemaViolation` are
      `ApiError`s; `SchemaViolation` is the storage layer rejecting a document
      whose fields break the schema (a `min`, an `enum` or a `required`). */
  datatype Error =
    | InvalidProductId            // "Invalid product ID"
    | QuantityBelowOne            // "Quantity must be at least 1"
    | InvalidProductType          // "Invalid product type"
    | ProductNotFound             // "Product not found"
    | InsufficientStock(available: int)  // "Only <available> items available in stock"
    | CartNotFound                // "Cart not found"
    | ItemNotInCart               // "Item not found in cart"
    | CartAlreadyExists           // "Cart already exists for this user"
    | OrderNotFound               // "Order not found"
    | OrderAlreadyDelivered       // "Order already delivered"
    | PaymentNotFound             // "Payment not found"
    | WishlistNotFound            // "Wishlist not found"
    | WishlistAlreadyExists       // "Wishlist already exists for this user"
    | ItemAlreadyInWishlist       // "Item already exists in wishlist"
    | ReviewNotFound              // "Review not found"
    | AlreadyReviewed             // "You have already reviewed this product"
    | NotReviewOwner              // "You can only update / delete your own reviews"
    | TireNotFound                // "Tire not found"
    | WheelNotFound               // "Wheel not found"
    | BrandUndefined              // "Product brand is undefined"
    | SchemaViolation

  /** Taking the last element off one of two sequences holding the same elements,
      and an equal element off the other, leaves two sequences holding the same elements. */
  lemma MultisetRemoveMatching<T>(a: seq<T>, b: seq<T>, k: nat)
    requires |a| > 0 && k < |b| && b[k] == a[|a| - 1]
    requires multiset(a) == multiset(b)
    ensures multiset(a[..|a| - 1]) == multiset(b[..k] + b[k + 1..])
  {
    var n := |a| - 1;
    var x := a[n];
    assert a == a[..n] + [x];
    assert b == b[..k] + [x] + b[k + 1..];
    var rest := b[..k] + b[k + 1..];
    assert multiset(a[..n]) + multiset{x} == multiset(rest) + multiset{x};
    forall y ensures multiset(a[..n])[y] == multiset(rest)[y] {
      assert (multiset(a[..n]) + multiset{x})[y] == (multiset(rest) + multiset{x})[y];
    }
  }
}
