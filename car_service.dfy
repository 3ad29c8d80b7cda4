/** The older cart service kept beside the current one. It works on the same
    collection but keys lines by product id alone, takes whole lines from the
    request body, and never consults the catalog. */
module LegacyCartService {
  import opened Common
  import opened CartModel

  /** `items.findIndex(item => item.product.toString() === productId)`: the first
      line for that product whatever its type, or -1. */
  function FindProduct(items: seq<CartLine>, productId: ProductId): (i: int)
    ensures -1 <= i < |items|
    ensures i == -1 <==> forall j :: 0 <= j < |items| ==> items[j].product != productId
    ensures 0 <= i ==>
      && items[i].product == productId
      && forall j :: 0 <= j < i ==> items[j].product != productId
  {
    if items == [] then -1
    else if items[0].product == productId then 0
    else
      var k := FindProduct(items[1..], productId);
      if k == -1 then -1 else k + 1
  }

  /** The lines after an add: the first line for the item's product gains the
      item's quantity (its type and price stay), otherwise the item is appended as given. */
  function MergeItem(items: seq<CartLine>, item: CartLine): seq<CartLine> {
    var i := FindProduct(items, item.product);
    if i >= 0 then items[i := items[i].(quantity := items[i].quantity + item.quantity)]
    else items + [item]
  }

  /** At most one line per product. */
  predicate ProductsUnique(items: seq<CartLine>) {
    forall i, j :: 0 <= i < j < |items| ==> items[i].product != items[j].product
  }

  /** An add merges on the product id alone: a line of the same product but another
      type absorbs the quantity, and exactly one line changes or exactly one is appended. */
  lemma MergeItemEffect(items: seq<CartLine>, item: CartLine)
    ensures var r := MergeItem(items, item);
      var i := FindProduct(items, item.product);
      i >= 0 ==>
        && |r| == |items|
        && r[i] == items[i].(quantity := items[i].quantity + item.quantity)
        && r[i].productType == items[i].productType
        && forall j :: 0 <= j < |items| && j != i ==> r[j] == items[j]
    ensures (forall j :: 0 <= j < |items| ==> items[j].product != item.product) ==>
      MergeItem(items, item) == items + [item]
  {
  }

  lemma MergeItemKeepsProductsUnique(items: seq<CartLine>, item: CartLine)
    requires ProductsUnique(items)
    ensures ProductsUnique(MergeItem(items, item))
  {
    var i := FindProduct(items, item.product);
    var r := MergeItem(items, item);
    if i < 0 {
      forall a, b | 0 <= a < b < |r| ensures r[a].product != r[b].product {
        if b == |items| {
          assert r[a] == items[a];
        }
      }
    }
  }

  /** `items.filter(item => item.product.toString() !== productId)`. */
  function DropProduct(items: seq<CartLine>, productId: ProductId): (r: seq<CartLine>)
    ensures forall l :: l in r <==> l in items && l.product != productId
    ensures |r| <= |items|
  {
    if items == [] then []
    else
      var rest := DropProduct(items[1..], productId);
      if items[0].product == productId then rest else [items[0]] + rest
  }

  /** A lone line is dropped exactly when it is of that product. */
  lemma DropProductSingle(x: CartLine, productId: ProductId)
    ensures DropProduct([x], productId) == if x.product == productId then [] else [x]
  {
    assert [x][1..] == [];
  }

  /** Dropping from two runs of lines is dropping from each, so with `DropProductSingle` the
      kept lines stay in their order, each as often as it was there. */
  lemma {:induction false} DropProductAppend(a: seq<CartLine>, b: seq<CartLine>, productId: ProductId)
    ensures DropProduct(a + b, productId) == DropProduct(a, productId) + DropProduct(b, productId)
    decreases |a|
  {
    if a == [] {
      assert a + b == b;
    } else {
      assert (a + b)[0] == a[0];
      assert (a + b)[1..] == a[1..] + b;
      DropProductAppend(a[1..], b, productId);
    }
  }

  /** Removing a product twice is the same as removing it once. */
  lemma {:induction false} DropProductIdempotent(items: seq<CartLine>, productId: ProductId)
    ensures DropProduct(DropProduct(items, productId), productId) == DropProduct(items, productId)
  {
    if items != [] {
      DropProductIdempotent(items[1..], productId);
      var rest := DropProduct(items[1..], productId);
      if items[0].product != productId {
        assert ([items[0]] + rest)[1..] == rest;
      }
    }
  }

  /** Removing an absent product leaves the lines exactly as they were. */
  lemma {:induction false} DropAbsentProduct(items: seq<CartLine>, productId: ProductId)
    requires forall l :: l in items ==> l.product != productId
    ensures DropProduct(items, productId) == items
  {
    if items != [] {
      assert forall l :: l in items[1..] ==> l in items;
      DropAbsentProduct(items[1..], productId);
      assert items == [items[0]] + items[1..];
    }
  }

  /** `createCart`: refuses a second cart for the same user, else stores the body
      through the hook and the validators. */
  method CreateCart(carts: CartCollection, cartData: Cart) returns (r: Result<Cart>)
    requires carts.Valid()
    modifies carts
    ensures carts.Valid()
    ensures cartData.user in old(carts.carts) ==> r == Err(CartAlreadyExists) && carts.carts == old(carts.carts)
    ensures cartData.user !in old(carts.carts) && LinesValid(cartData.items) ==>
      && r == Ok(Cart(cartData.user, cartData.items, Total(cartData.items)))
      && carts.carts == old(carts.carts)[cartData.user := r.value]
    ensures cartData.user !in old(carts.carts) && !LinesValid(cartData.items) ==>
      r == Err(SchemaViolation) && carts.carts == old(carts.carts)
  {
    if cartData.user in carts.carts {
      return Err(CartAlreadyExists);
    }
    r := carts.Save(cartData);
  }

  /** `getCartByUserId`: the stored cart, or "Cart not found"; nothing is created. */
  method GetCartByUserId(carts: CartCollection, userId: UserId) returns (r: Result<Cart>)
    requires carts.Valid()
    ensures userId in carts.carts ==> r == Ok(carts.carts[userId]) && r.value.user == userId
    ensures userId !in carts.carts ==> r == Err(CartNotFound)
  {
    if userId !in carts.carts {
      return Err(CartNotFound);
    }
    r := Ok(carts.carts[userId]);
  }

  method AddItemToCart(carts: CartCollection, userId: UserId, item: CartLine) returns (r: Result<Cart>)
    requires carts.Valid()
    modifies carts
    ensures carts.Valid()
    ensures userId !in old(carts.carts) ==> r == Err(CartNotFound) && carts.carts == old(carts.carts)
    ensures userId in old(carts.carts) ==>
      var after := MergeItem(old(carts.carts)[userId].items, item);
      if LinesValid(after) then
        r == Ok(Cart(userId, after, Total(after))) && carts.carts == old(carts.carts)[userId := r.value]
      else
        r == Err(SchemaViolation) && carts.carts == old(carts.carts)
  {
    if userId !in carts.carts {
      return Err(CartNotFound);
    }
    var cart := carts.carts[userId];
    r := carts.Save(cart.(items := MergeItem(cart.items, item)));
  }

  /** Setting one stored line's quantity keeps every line valid exactly when the
      new quantity is at least 1. */
  lemma SetQuantityValidity(items: seq<CartLine>, i: nat, quantity: int)
    requires LinesValid(items) && i < |items|
    ensures LinesValid(items[i := items[i].(quantity := quantity)]) <==> quantity >= 1
  {
    var r := items[i := items[i].(quantity := quantity)];
    assert items[i] in items;
    assert r[i] in r;
    if quantity >= 1 {
      forall l | l in r ensures LineValid(l) {
        var k :| 0 <= k < |r| && r[k] == l;
        if k != i { assert r[k] in items; }
      }
    }
  }

  /** `updateCartItemQuantity`: sets the first line of that product to the given
      quantity. The service itself has no lower bound; the schema's `min: 1` rejects
      the save of a quantity below 1. */
  method UpdateCartItemQuantity(carts: CartCollection, userId: UserId, productId: ProductId, quantity: int)
    returns (r: Result<Cart>)
    requires carts.Valid()
    modifies carts
    ensures carts.Valid()
    ensures userId !in old(carts.carts) ==> r == Err(CartNotFound) && carts.carts == old(carts.carts)
    ensures userId in old(carts.carts) ==>
      var before := old(carts.carts)[userId].items;
      var i := FindProduct(before, productId);
      if i == -1 then
        r == Err(ItemNotInCart) && carts.carts == old(carts.carts)
      else if quantity < 1 then
        r == Err(SchemaViolation) && carts.carts == old(carts.carts)
      else
        var after := before[i := before[i].(quantity := quantity)];
        r == Ok(Cart(userId, after, Total(after))) && carts.carts == old(carts.carts)[userId := r.value]
  {
    if userId !in carts.carts {
      return Err(CartNotFound);
    }
    var cart := carts.carts[userId];
    var itemIndex := FindProduct(cart.items, productId);
    if itemIndex == -1 {
      return Err(ItemNotInCart);
    }
    var items := cart.items[itemIndex := cart.items[itemIndex].(quantity := quantity)];
    SetQuantityValidity(cart.items, itemIndex, quantity);
    r := carts.Save(cart.(items := items));
  }

  /** `removeItemFromCart`: drops every line of that product, and succeeds even
      when there was none. */
  method RemoveItemFromCart(carts: CartCollection, userId: UserId, productId: ProductId)
    returns (r: Result<Cart>)
    requires carts.Valid()
    modifies carts
    ensures carts.Valid()
    ensures userId !in old(carts.carts) ==> r == Err(CartNotFound) && carts.carts == old(carts.carts)
    ensures userId in old(carts.carts) ==>
      var after := DropProduct(old(carts.carts)[userId].items, productId);
      && r == Ok(Cart(userId, after, Total(after)))
      && carts.carts == old(carts.carts)[userId := r.value]
      && forall l :: l in r.value.items ==> l.product != productId
  {
    if userId !in carts.carts {
      return Err(CartNotFound);
    }
    var cart := carts.carts[userId];
    r := carts.Save(cart.(items := DropProduct(cart.items, productId)));
  }

  /** `clearCart`: empties the cart without running the hook; "Cart not found" otherwise. */
  method ClearCart(carts: CartCollection, userId: UserId) returns (r: Result<Cart>)
    requires carts.Valid()
    modifies carts
    ensures carts.Valid()
    ensures userId in old(carts.carts) ==>
      && r == Ok(EmptyCart(userId))
      && carts.carts == old(carts.carts)[userId := EmptyCart(userId)]
    ensures userId !in old(carts.carts) ==> r == Err(CartNotFound) && carts.carts == old(carts.carts)
  {
    var cleared := carts.FindOneAndClear(userId);
    if cleared.None? {
      return Err(CartNotFound);
    }
    r := Ok(cleared.value);
  }
}
