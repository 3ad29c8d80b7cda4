/** The cart service: adds, removes and re-quantifies lines keyed by
    (product id, product type), prices new lines from the catalog and marks
    each line's availability when a cart is read. */
module CartService {
  import opened Common
  import opened Catalog
  import opened CartModel

  predicate IsHexDigit(c: char) {
    '0' <= c <= '9' || 'a' <= c <= 'f' || 'A' <= c <= 'F'
  }

  /** `Types.ObjectId.isValid` on a string: 12 characters, or 24 hexadecimal digits. */
  predicate IsValidObjectId(s: string) {
    |s| == 12 || (|s| == 24 && forall i :: 0 <= i < |s| ==> IsHexDigit(s[i]))
  }

  /** What `getProductDetails` hands back about a catalog item. */
  datatype ProductDetails = ProductDetails(name: string, price: real, thumbnail: string, stock: Option<int>)

  /** `discountPrice || price`: the discount price unless it is 0 (falsy). */
  function UnitPrice(p: CatalogProduct): real {
    if p.discountPrice != 0.0 then p.discountPrice else p.price
  }

  function Thumbnail(p: CatalogProduct): string {
    if |p.images| > 0 then p.images[0] else ""
  }

  /** The catalog item a (product id, product type string) pair names, if any. */
  function Lookup(catalog: Catalog, productId: ProductId, productType: string): Option<CatalogProduct> {
    match ParseProductType(productType)
    case None => None
    case Some(t) => FindById(Collection(catalog, t), productId)
  }

  /** `stockQuantity < quantity`; a missing stock field compares false. */
  predicate Understocked(p: CatalogProduct, quantity: int) {
    p.stockQuantity.Some? && p.stockQuantity.value < quantity
  }

  /** The catalog lookup with its stock check against the requested quantity only. */
  function GetProductDetails(catalog: Catalog, productId: ProductId, productType: string, quantity: int)
    : (r: Result<ProductDetails>)
    ensures r == Err(InvalidProductType) <==> ParseProductType(productType).None?
    ensures r == Err(ProductNotFound) <==>
      ParseProductType(productType).Some? && Lookup(catalog, productId, productType).None?
    ensures r.Err? && r.error.InsufficientStock? ==>
      && Lookup(catalog, productId, productType).Some?
      && Lookup(catalog, productId, productType).value.stockQuantity == Some(r.error.available)
      && r.error.available < quantity
    ensures r.Err? ==> r.error in {InvalidProductType, ProductNotFound} || r.error.InsufficientStock?
    ensures r.Ok? <==>
      Lookup(catalog, productId, productType).Some? && !Understocked(Lookup(catalog, productId, productType).value, quantity)
    ensures r.Ok? ==>
      var p := Lookup(catalog, productId, productType).value;
      && r.value.name == p.name
      && r.value.price == UnitPrice(p)
      && r.value.thumbnail == Thumbnail(p)
      && r.value.stock == p.stockQuantity
      && (r.value.stock.Some? ==> quantity <= r.value.stock.value)
  {
    match ParseProductType(productType)
    case None => Err(InvalidProductType)
    case Some(t) =>
      match FindById(Collection(catalog, t), productId)
      case None => Err(ProductNotFound)
      case Some(p) =>
        if Understocked(p, quantity) then Err(InsufficientStock(p.stockQuantity.value))
        else Ok(ProductDetails(p.name, UnitPrice(p), Thumbnail(p), p.stockQuantity))
  }

  predicate Matches(l: CartLine, productId: ProductId, productType: string) {
    l.product == productId && l.productType == productType
  }

  /** At most one line per (product, productType). */
  predicate KeysUnique(items: seq<CartLine>) {
    forall i, j :: 0 <= i < j < |items| ==>
      !(items[i].product == items[j].product && items[i].productType == items[j].productType)
  }

  /** `items.findIndex(...)`: the first line with that key, or -1. */
  function FindLine(items: seq<CartLine>, productId: ProductId, productType: string): (i: int)
    ensures -1 <= i < |items|
    ensures i == -1 <==> forall j :: 0 <= j < |items| ==> !Matches(items[j], productId, productType)
    ensures 0 <= i ==>
      && Matches(items[i], productId, productType)
      && forall j :: 0 <= j < i ==> !Matches(items[j], productId, productType)
  {
    if items == [] then -1
    else if Matches(items[0], productId, productType) then 0
    else
      var k := FindLine(items[1..], productId, productType);
      if k == -1 then -1 else k + 1
  }

  /** The lines after an add: merge into the line with the same key, else append one line. */
  function AddLine(items: seq<CartLine>, productId: ProductId, productType: string, quantity: int, price: real)
    : seq<CartLine>
  {
    var i := FindLine(items, productId, productType);
    if i >= 0 then items[i := items[i].(quantity := items[i].quantity + quantity)]
    else items + [CartLine(productId, productType, quantity, price)]
  }

  /** In a cart with unique keys, an add raises the quantity of exactly the line with
      that key, or, when there is none, appends exactly one line priced at `price`. */
  lemma AddLineEffect(items: seq<CartLine>, productId: ProductId, productType: string, quantity: int, price: real)
    requires KeysUnique(items)
    ensures var r := AddLine(items, productId, productType, quantity, price);
      (exists k :: 0 <= k < |items| && Matches(items[k], productId, productType)) ==>
        && |r| == |items|
        && forall j :: 0 <= j < |items| ==>
             r[j] == if Matches(items[j], productId, productType)
                     then items[j].(quantity := items[j].quantity + quantity)
                     else items[j]
    ensures var r := AddLine(items, productId, productType, quantity, price);
      (forall k :: 0 <= k < |items| ==> !Matches(items[k], productId, productType)) ==>
        r == items + [CartLine(productId, productType, quantity, price)]
  {
    var i := FindLine(items, productId, productType);
    if i >= 0 {
      forall j | 0 <= j < |items| && j != i
        ensures !Matches(items[j], productId, productType)
      {
        if i < j {
          assert !(items[i].product == items[j].product && items[i].productType == items[j].productType);
        }
      }
    }
  }

  lemma AddLineKeepsKeysUnique(items: seq<CartLine>, productId: ProductId, productType: string, quantity: int, price: real)
    requires KeysUnique(items)
    ensures KeysUnique(AddLine(items, productId, productType, quantity, price))
  {
    var i := FindLine(items, productId, productType);
    var r := AddLine(items, productId, productType, quantity, price);
    if i < 0 {
      forall a, b | 0 <= a < b < |r|
        ensures !(r[a].product == r[b].product && r[a].productType == r[b].productType)
      {
        if b == |items| {
          assert !Matches(items[a], productId, productType);
        }
      }
    }
  }

  /** Raising one line's quantity adds that many units at the line's price to the total. */
  lemma TotalOfMerge(items: seq<CartLine>, i: nat, quantity: int)
    requires i < |items|
    ensures Total(items[i := items[i].(quantity := items[i].quantity + quantity)])
      == Total(items) + items[i].price * (quantity as real)
  {
    var l := items[i];
    TotalUpdate(items, i, l.(quantity := l.quantity + quantity));
    AmountDistributes(l.price, l.quantity, quantity);
  }

  lemma AmountDistributes(price: real, a: int, b: int)
    ensures price * ((a + b) as real) == price * (a as real) + price * (b as real)
  {
    assert (a + b) as real == a as real + b as real;
  }

  /** Merging into an existing line adds `quantity` units at that line's stored price. */
  lemma AddLineTotalMerge(items: seq<CartLine>, productId: ProductId, productType: string, quantity: int,
                          price: real, i: nat)
    requires i == FindLine(items, productId, productType)
    ensures Total(AddLine(items, productId, productType, quantity, price))
      == Total(items) + items[i].price * (quantity as real)
  {
    assert AddLine(items, productId, productType, quantity, price)
      == items[i := items[i].(quantity := items[i].quantity + quantity)];
    TotalOfMerge(items, i, quantity);
  }

  /** Appending a new line adds `quantity` units at the catalog price it was given. */
  lemma AddLineTotalAppend(items: seq<CartLine>, productId: ProductId, productType: string, quantity: int,
                           price: real)
    requires FindLine(items, productId, productType) == -1
    ensures Total(AddLine(items, productId, productType, quantity, price))
      == Total(items) + price * (quantity as real)
  {
    var l := CartLine(productId, productType, quantity, price);
    assert AddLine(items, productId, productType, quantity, price) == items + [l];
    assert LineAmount(l) == price * (quantity as real);
    TotalPush(items, l);
  }

  /** With a quantity of at least 1 (checked before any add), the stored lines stay
      valid exactly when the type is "tire" or "wheel": a line of any other type can
      only be new, and it breaks the schema's enum. */
  lemma AddLineValidity(items: seq<CartLine>, productId: ProductId, productType: string, quantity: int, price: real)
    requires LinesValid(items)
    requires quantity >= 1
    ensures LinesValid(AddLine(items, productId, productType, quantity, price))
        <==> productType == "tire" || productType == "wheel"
  {
    var i := FindLine(items, productId, productType);
    var r := AddLine(items, productId, productType, quantity, price);
    if i >= 0 {
      assert LineValid(items[i]);
      assert r[i].quantity == items[i].quantity + quantity;
      forall l | l in r ensures LineValid(l) {
        var k :| 0 <= k < |r| && r[k] == l;
        if k != i { assert r[k] == items[k]; }
      }
    } else {
      assert r == items + [CartLine(productId, productType, quantity, price)];
      assert r[|items|] in r;
      if productType == "tire" || productType == "wheel" {
        forall l | l in r ensures LineValid(l) {
          if l != r[|items|] { assert l in items; }
        }
      }
    }
  }

  /** `items.filter(...)`: the lines whose key differs, in their order. */
  function RemoveLines(items: seq<CartLine>, productId: ProductId, productType: string): (r: seq<CartLine>)
    ensures forall l :: l in r <==> l in items && !Matches(l, productId, productType)
    ensures |r| <= |items|
    ensures |r| == |items| <==> forall j :: 0 <= j < |items| ==> !Matches(items[j], productId, productType)
    ensures |r| == |items| ==> r == items
  {
    if items == [] then []
    else
      var rest := RemoveLines(items[1..], productId, productType);
      if Matches(items[0], productId, productType) then rest else [items[0]] + rest
  }

  /** A lone line is removed exactly when it matches. */
  lemma RemoveLinesSingle(l: CartLine, productId: ProductId, productType: string)
    ensures RemoveLines([l], productId, productType) == if Matches(l, productId, productType) then [] else [l]
  {
    assert [l][1..] == [];
  }

  /** Removing from two runs of lines one after the other is removing from each, so
      with `RemoveLinesSingle` the kept lines stay in their order, each as often as
      it was there. */
  lemma {:induction false} RemoveLinesAppend(a: seq<CartLine>, b: seq<CartLine>, productId: ProductId, productType: string)
    ensures RemoveLines(a + b, productId, productType)
      == RemoveLines(a, productId, productType) + RemoveLines(b, productId, productType)
    decreases |a|
  {
    if a == [] {
      assert a + b == b;
    } else {
      assert (a + b)[0] == a[0];
      assert (a + b)[1..] == a[1..] + b;
      RemoveLinesAppend(a[1..], b, productId, productType);
    }
  }

  lemma {:induction false} RemoveLinesKeepsKeysUnique(items: seq<CartLine>, productId: ProductId, productType: string)
    requires KeysUnique(items)
    ensures KeysUnique(RemoveLines(items, productId, productType))
  {
    if items != [] {
      TailKeysUnique(items);
      RemoveLinesKeepsKeysUnique(items[1..], productId, productType);
      if !Matches(items[0], productId, productType) {
        PrependKeysUnique(items[0], RemoveLines(items[1..], productId, productType));
      }
    }
  }

  /** Without its first line a cart still has unique keys, none of them the first line's. */
  lemma TailKeysUnique(items: seq<CartLine>)
    requires items != [] && KeysUnique(items)
    ensures KeysUnique(items[1..])
    ensures forall l :: l in items[1..] ==> !Matches(l, items[0].product, items[0].productType)
  {
    var tail := items[1..];
    forall a, b | 0 <= a < b < |tail|
      ensures !(tail[a].product == tail[b].product && tail[a].productType == tail[b].productType)
    {
      assert tail[a] == items[a + 1] && tail[b] == items[b + 1];
    }
    forall l | l in tail ensures !Matches(l, items[0].product, items[0].productType) {
      var k :| 0 <= k < |tail| && tail[k] == l;
      assert items[k + 1] == l;
    }
  }

  /** A line whose key no other line has can go in front. */
  lemma PrependKeysUnique(x: CartLine, rest: seq<CartLine>)
    requires KeysUnique(rest)
    requires forall l :: l in rest ==> !Matches(l, x.product, x.productType)
    ensures KeysUnique([x] + rest)
  {
    var r := [x] + rest;
    forall a, b | 0 <= a < b < |r|
      ensures !(r[a].product == r[b].product && r[a].productType == r[b].productType)
    {
      assert r[b] == rest[b - 1];
      if a == 0 {
        assert rest[b - 1] in rest;
      } else {
        assert r[a] == rest[a - 1];
      }
    }
  }

  /** A cart line as `getCartByUserId` reports it. */
  datatype CartLineView = CartLineView(
    line: CartLine,
    productDetails: Option<CatalogProduct>,
    availableStock: Option<int>,
    isAvailable: bool)

  datatype CartView = CartView(user: UserId, items: seq<CartLineView>, totalPrice: real)

  /** One line's availability: a lookup that throws marks the line unavailable with stock 0. */
  function Availability(catalog: Catalog, l: CartLine): (v: CartLineView)
    ensures v.line == l
    ensures v.isAvailable <==>
      var p := Lookup(catalog, l.product, l.productType);
      p.Some? && p.value.stockQuantity.Some? && l.quantity <= p.value.stockQuantity.value
    ensures v.isAvailable ==>
      v.availableStock == Lookup(catalog, l.product, l.productType).value.stockQuantity
    ensures Lookup(catalog, l.product, l.productType).None? ==>
      v.availableStock == Some(0) && !v.isAvailable && v.productDetails.None?
    ensures v.productDetails.Some? ==> v.productDetails == Lookup(catalog, l.product, l.productType)
    ensures var p := Lookup(catalog, l.product, l.productType);
      p.Some? && Understocked(p.value, l.quantity) ==>
        v.availableStock == Some(0) && v.productDetails.None? && !v.isAvailable
    ensures var p := Lookup(catalog, l.product, l.productType);
      p.Some? && !Understocked(p.value, l.quantity) ==>
        v.productDetails == p && v.availableStock == p.value.stockQuantity
  {
    match GetProductDetails(catalog, l.product, l.productType, l.quantity)
    case Err(_) => CartLineView(l, None, Some(0), false)
    case Ok(d) =>
      CartLineView(l, Lookup(catalog, l.product, l.productType), d.stock,
                   d.stock.Some? && d.stock.value >= l.quantity)
  }

  /** The populated lines: one view per stored line, in the same order. */
  function PopulateLines(catalog: Catalog, items: seq<CartLine>): (r: seq<CartLineView>)
    ensures |r| == |items|
    ensures forall i :: 0 <= i < |items| ==> r[i].line == items[i] && r[i] == Availability(catalog, items[i])
  {
    seq(|items|, i requires 0 <= i < |items| => Availability(catalog, items[i]))
  }

  function CartOf(carts: map<UserId, Cart>, u: UserId): Cart {
    if u in carts then carts[u] else EmptyCart(u)
  }

  /** `createCart`: the user's cart, created empty when there is none. */
  method CreateCart(carts: CartCollection, userId: UserId) returns (c: Cart)
    requires carts.Valid()
    modifies carts
    ensures carts.Valid()
    ensures userId in old(carts.carts) ==> c == old(carts.carts)[userId] && carts.carts == old(carts.carts)
    ensures userId !in old(carts.carts) ==>
      c == EmptyCart(userId) && carts.carts == old(carts.carts)[userId := EmptyCart(userId)]
  {
    if userId in carts.carts {
      c := carts.carts[userId];
    } else {
      var created := carts.Save(EmptyCart(userId));
      c := created.value;
    }
  }

  /** The guards `addItemToCart` runs before it touches any cart. */
  function AddPrecheck(catalog: Catalog, productId: ProductId, productType: string, quantity: int)
    : Result<ProductDetails>
  {
    if !IsValidObjectId(productId) then Err(InvalidProductId)
    else if quantity < 1 then Err(QuantityBelowOne)
    else GetProductDetails(catalog, productId, productType, quantity)
  }

  method AddItemToCart(carts: CartCollection, catalog: Catalog, userId: UserId,
                       productId: ProductId, productType: string, quantity: int)
    returns (r: Result<Cart>)
    requires carts.Valid()
    modifies carts
    ensures carts.Valid()
    ensures AddPrecheck(catalog, productId, productType, quantity).Err? ==>
      r == Err(AddPrecheck(catalog, productId, productType, quantity).error) && carts.carts == old(carts.carts)
    ensures AddPrecheck(catalog, productId, productType, quantity).Ok? ==>
      var after := AddLine(CartOf(old(carts.carts), userId).items, productId, productType, quantity,
                           AddPrecheck(catalog, productId, productType, quantity).value.price);
      if LinesValid(after) then
        r == Ok(Cart(userId, after, Total(after))) && carts.carts == old(carts.carts)[userId := r.value]
      else
        r == Err(SchemaViolation) && carts.carts == old(carts.carts)[userId := CartOf(old(carts.carts), userId)]
    ensures r.Ok? && userId in old(carts.carts) && KeysUnique(old(carts.carts)[userId].items) ==>
      KeysUnique(r.value.items)
  {
    if !IsValidObjectId(productId) {
      return Err(InvalidProductId);
    }
    if quantity < 1 {
      return Err(QuantityBelowOne);
    }
    var details := GetProductDetails(catalog, productId, productType, quantity);
    if details.Err? {
      return Err(details.error);
    }
    assert AddPrecheck(catalog, productId, productType, quantity) == details;
    var cart := CreateCart(carts, userId);
    assert cart == CartOf(old(carts.carts), userId) && cart.user == userId;
    assert carts.carts == old(carts.carts)[userId := cart];
    var items := AddLine(cart.items, productId, productType, quantity, details.value.price);
    r := carts.Save(cart.(items := items));
    if r.Ok? && userId in old(carts.carts) && KeysUnique(old(carts.carts)[userId].items) {
      AddLineKeepsKeysUnique(cart.items, productId, productType, quantity, details.value.price);
    }
  }

  method RemoveItemFromCart(carts: CartCollection, userId: UserId, productId: ProductId, productType: string)
    returns (r: Result<Cart>)
    requires carts.Valid()
    modifies carts
    ensures carts.Valid()
    ensures userId !in old(carts.carts) ==> r == Err(CartNotFound) && carts.carts == old(carts.carts)
    ensures userId in old(carts.carts) ==>
      var before := old(carts.carts)[userId].items;
      var after := RemoveLines(before, productId, productType);
      if |after| == |before| then
        r == Err(ItemNotInCart) && carts.carts == old(carts.carts)
      else
        r == Ok(Cart(userId, after, Total(after))) && carts.carts == old(carts.carts)[userId := r.value]
  {
    if userId !in carts.carts {
      return Err(CartNotFound);
    }
    var cart := carts.carts[userId];
    var initialItemCount := |cart.items|;
    var items := RemoveLines(cart.items, productId, productType);
    if |items| == initialItemCount {
      return Err(ItemNotInCart);
    }
    r := carts.Save(cart.(items := items));
  }

  method UpdateItemQuantity(carts: CartCollection, catalog: Catalog, userId: UserId,
                            productId: ProductId, productType: string, quantity: int)
    returns (r: Result<Cart>)
    requires carts.Valid()
    modifies carts
    ensures carts.Valid()
    ensures quantity < 1 ==> r == Err(QuantityBelowOne) && carts.carts == old(carts.carts)
    ensures quantity >= 1 && userId !in old(carts.carts) ==> r == Err(CartNotFound) && carts.carts == old(carts.carts)
    ensures quantity >= 1 && userId in old(carts.carts) ==>
      var before := old(carts.carts)[userId].items;
      var i := FindLine(before, productId, productType);
      var details := GetProductDetails(catalog, productId, productType, quantity);
      if i == -1 then
        r == Err(ItemNotInCart) && carts.carts == old(carts.carts)
      else if details.Err? then
        r == Err(details.error) && carts.carts == old(carts.carts)
      else
        var after := before[i := before[i].(quantity := quantity)];
        r == Ok(Cart(userId, after, Total(after))) && carts.carts == old(carts.carts)[userId := r.value]
  {
    if quantity < 1 {
      return Err(QuantityBelowOne);
    }
    if userId !in carts.carts {
      return Err(CartNotFound);
    }
    var cart := carts.carts[userId];
    var itemIndex := FindLine(cart.items, productId, productType);
    if itemIndex == -1 {
      return Err(ItemNotInCart);
    }
    // The source repeats the stock comparison after this call; it cannot fail
    // once the lookup below has succeeded, so it is not written twice here.
    var details := GetProductDetails(catalog, productId, productType, quantity);
    if details.Err? {
      return Err(details.error);
    }
    var items := cart.items[itemIndex := cart.items[itemIndex].(quantity := quantity)];
    assert LinesValid(items) by {
      forall l | l in items ensures LineValid(l) {
        var k :| 0 <= k < |items| && items[k] == l;
        if k != itemIndex { assert items[k] in cart.items; } else { assert cart.items[k] in cart.items; }
      }
    }
    r := carts.Save(cart.(items := items));
  }

  /** `getCartByUserId`: a missing cart is created empty; otherwise every line is
      reported with its availability, the stored total unchanged. */
  method GetCartByUserId(carts: CartCollection, catalog: Catalog, userId: UserId) returns (v: CartView)
    requires carts.Valid()
    modifies carts
    ensures carts.Valid()
    ensures userId !in old(carts.carts) ==>
      v == CartView(userId, [], 0.0) && carts.carts == old(carts.carts)[userId := EmptyCart(userId)]
    ensures userId in old(carts.carts) ==>
      && carts.carts == old(carts.carts)
      && v.user == userId
      && v.items == PopulateLines(catalog, old(carts.carts)[userId].items)
      && v.totalPrice == old(carts.carts)[userId].totalPrice
  {
    if userId !in carts.carts {
      var created := carts.Save(EmptyCart(userId));
      return CartView(userId, [], 0.0);
    }
    var cart := carts.carts[userId];
    v := CartView(cart.user, PopulateLines(catalog, cart.items), cart.totalPrice);
  }

  /** `clearCart`: empties the user's cart; fails only when there is none. */
  method ClearCart(carts: CartCollection, userId: UserId) returns (r: Result<Cart>)
    requires carts.Valid()
    modifies carts
    ensures carts.Valid()
    ensures userId in old(carts.carts) ==>
      r == Ok(EmptyCart(userId)) && carts.carts == old(carts.carts)[userId := EmptyCart(userId)]
    ensures userId !in old(carts.carts) ==> r == Err(CartNotFound) && carts.carts == old(carts.carts)
  {
    var cleared := carts.FindOneAndClear(userId);
    if cleared.None? {
      return Err(CartNotFound);
    }
    r := Ok(cleared.value);
  }
}
