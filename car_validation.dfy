/** The request-body schemas of the older cart routes, as predicates over bodies
    whose fields may be missing. */
module CartValidation {
  import opened Common
  import opened CartModel
  import LegacyCartService

  /** A line as a request carries it; a missing field is None. */
  datatype ItemBody = ItemBody(
    product: Option<string>,
    productType: Option<string>,
    quantity: Option<int>,
    price: Option<real>)

  datatype CreateCartBody = CreateCartBody(user: Option<UserId>, items: Option<seq<ItemBody>>)

  datatype UpdateQuantityBody = UpdateQuantityBody(quantity: Option<int>)

  /** `cartItemSchema`: every field present, type "tire" or "wheel", quantity at
      least 1, price strictly positive. */
  predicate CartItemValid(b: ItemBody) {
    && b.product.Some?
    && b.productType.Some? && (b.productType.value == "tire" || b.productType.value == "wheel")
    && b.quantity.Some? && b.quantity.value >= 1
    && b.price.Some? && b.price.value > 0.0
  }

  /** `createCartZodSchema`: a user and a non-empty list of valid lines. */
  predicate CreateCartValid(b: CreateCartBody) {
    && b.user.Some?
    && b.items.Some? && |b.items.value| > 0
    && forall i :: 0 <= i < |b.items.value| ==> CartItemValid(b.items.value[i])
  }

  /** `addItemToCartZodSchema`: the body is one line. */
  predicate AddItemValid(b: ItemBody) {
    CartItemValid(b)
  }

  /** `updateCartItemZodSchema`: a quantity of at least 1. */
  predicate UpdateQuantityValid(b: UpdateQuantityBody) {
    b.quantity.Some? && b.quantity.value >= 1
  }

  /** The stored line a validated body becomes. */
  function ToLine(b: ItemBody): (l: CartLine)
    requires CartItemValid(b)
    ensures LineValid(l) && l.price > 0.0
    ensures l.product == b.product.value && l.productType == b.productType.value
    ensures l.quantity == b.quantity.value && l.price == b.price.value
  {
    CartLine(b.product.value, b.productType.value, b.quantity.value, b.price.value)
  }

  function ToLines(items: seq<ItemBody>): (r: seq<CartLine>)
    requires forall i :: 0 <= i < |items| ==> CartItemValid(items[i])
    ensures |r| == |items|
    ensures forall i :: 0 <= i < |items| ==> r[i] == ToLine(items[i])
  {
    seq(|items|, i requires 0 <= i < |items| => ToLine(items[i]))
  }

  /** A line of positive price and quantity adds a positive amount. */
  lemma PositiveAmount(l: CartLine)
    requires l.price > 0.0 && l.quantity >= 1
    ensures LineAmount(l) > 0.0
  {
    assert (l.quantity as real) >= 1.0;
  }

  /** Lines that all have positive price and quantity, at least one of them, total more than 0. */
  lemma {:induction false} PositiveTotal(items: seq<CartLine>)
    requires |items| > 0
    requires forall i :: 0 <= i < |items| ==> items[i].price > 0.0 && items[i].quantity >= 1
    ensures Total(items) > 0.0
  {
    var n := |items| - 1;
    PositiveAmount(items[n]);
    if n > 0 {
      PositiveTotal(items[..n]);
    } else {
      assert items[..n] == [];
    }
  }

  /** A body that passes `createCartZodSchema` is a cart the collection accepts,
      and its stored total is positive. */
  lemma CreateBodyStores(b: CreateCartBody)
    requires CreateCartValid(b)
    ensures LinesValid(ToLines(b.items.value))
    ensures Total(ToLines(b.items.value)) > 0.0
  {
    var lines := ToLines(b.items.value);
    forall l | l in lines ensures LineValid(l) {
      var k :| 0 <= k < |lines| && lines[k] == l;
    }
    PositiveTotal(lines);
  }

  /** A quantity that passes `updateCartItemZodSchema` is one the collection accepts
      in place of a stored line's quantity, so `updateCartItemQuantity` cannot fail
      at save; a quantity the schema refuses, the save refuses too. */
  lemma UpdateBodyStores(items: seq<CartLine>, i: nat, b: UpdateQuantityBody)
    requires LinesValid(items) && i < |items|
    ensures UpdateQuantityValid(b) ==> LinesValid(items[i := items[i].(quantity := b.quantity.value)])
    ensures b.quantity.Some? && !UpdateQuantityValid(b) ==>
      !LinesValid(items[i := items[i].(quantity := b.quantity.value)])
  {
    if b.quantity.Some? {
      LegacyCartService.SetQuantityValidity(items, i, b.quantity.value);
    }
  }

  /** Adding a line that passes `addItemToCartZodSchema` to a stored cart always
      yields lines the collection accepts, so the add cannot fail at save. */
  lemma AddBodyStores(items: seq<CartLine>, b: ItemBody)
    requires LinesValid(items)
    requires AddItemValid(b)
    ensures LinesValid(LegacyCartService.MergeItem(items, ToLine(b)))
  {
    var item := ToLine(b);
    var i := LegacyCartService.FindProduct(items, item.product);
    var r := LegacyCartService.MergeItem(items, item);
    if i >= 0 {
      assert items[i] in items;
      forall l | l in r ensures LineValid(l) {
        var k :| 0 <= k < |r| && r[k] == l;
        if k != i { assert r[k] == items[k] && items[k] in items; }
      }
    } else {
      assert r == items + [item];
      forall l | l in r ensures LineValid(l) {
        if l != item { assert l in items; }
      }
    }
  }
}
