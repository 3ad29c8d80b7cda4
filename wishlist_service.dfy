/** The wishlist service: one list of products per user, never holding the same
    product twice. */
module WishlistService {
  import opened Common

  datatype WishlistItem = WishlistItem(product: ProductId, productType: string)

  /** The schema's constraint on one item: the type is "tire" or "wheel". */
  predicate ItemValid(i: WishlistItem) {
    i.productType == "tire" || i.productType == "wheel"
  }

  predicate ProductsDistinct(items: seq<WishlistItem>) {
    forall i, j :: 0 <= i < j < |items| ==> items[i].product != items[j].product
  }

  /** What a stored wishlist satisfies: valid items, no product listed twice. */
  predicate StoredItems(items: seq<WishlistItem>) {
    (forall i :: i in items ==> ItemValid(i)) && ProductsDistinct(items)
  }

  /** `items.some(i => i.product.toString() === productId)`. */
  function Contains(items: seq<WishlistItem>, productId: ProductId): (b: bool)
    ensures b <==> exists i :: i in items && i.product == productId
  {
    if items == [] then false
    else items[0].product == productId || Contains(items[1..], productId)
  }

  /** `items.filter(i => i.product.toString() !== productId)`. */
  function Without(items: seq<WishlistItem>, productId: ProductId): (r: seq<WishlistItem>)
    ensures forall i :: i in r <==> i in items && i.product != productId
  {
    if items == [] then []
    else
      var rest := Without(items[1..], productId);
      if items[0].product == productId then rest else [items[0]] + rest
  }

  /** Removing a product keeps the other items in their order, so distinct products stay distinct. */
  lemma {:induction false} WithoutKeepsDistinct(items: seq<WishlistItem>, productId: ProductId)
    requires ProductsDistinct(items)
    ensures ProductsDistinct(Without(items, productId))
  {
    if items != [] {
      TailDistinct(items);
      WithoutKeepsDistinct(items[1..], productId);
      if items[0].product != productId {
        PrependDistinct(items[0], Without(items[1..], productId));
      }
    }
  }

  /** Without its first item a wishlist still names each product once, never the first item's. */
  lemma TailDistinct(items: seq<WishlistItem>)
    requires items != [] && ProductsDistinct(items)
    ensures ProductsDistinct(items[1..])
    ensures forall x :: x in items[1..] ==> x.product != items[0].product
  {
    var tail := items[1..];
    forall a, b | 0 <= a < b < |tail| ensures tail[a].product != tail[b].product {
      assert tail[a] == items[a + 1] && tail[b] == items[b + 1];
    }
    forall x | x in tail ensures x.product != items[0].product {
      var k :| 0 <= k < |tail| && tail[k] == x;
      assert items[k + 1] == x;
    }
  }

  /** An item whose product no other item names can go in front. */
  lemma PrependDistinct(x: WishlistItem, rest: seq<WishlistItem>)
    requires ProductsDistinct(rest)
    requires forall y :: y in rest ==> y.product != x.product
    ensures ProductsDistinct([x] + rest)
  {
    var r := [x] + rest;
    forall a, b | 0 <= a < b < |r| ensures r[a].product != r[b].product {
      assert r[b] == rest[b - 1];
      if a == 0 {
        assert rest[b - 1] in rest;
      } else {
        assert r[a] == rest[a - 1];
      }
    }
  }

  /** A lone item is removed exactly when it names that product. */
  lemma WithoutSingle(x: WishlistItem, productId: ProductId)
    ensures Without([x], productId) == if x.product == productId then [] else [x]
  {
    assert [x][1..] == [];
  }

  /** Removing from two runs of items is removing from each, so with `WithoutSingle` the
      kept items stay in their order, each as often as it was there. */
  lemma {:induction false} WithoutAppend(a: seq<WishlistItem>, b: seq<WishlistItem>, productId: ProductId)
    ensures Without(a + b, productId) == Without(a, productId) + Without(b, productId)
    decreases |a|
  {
    if a == [] {
      assert a + b == b;
    } else {
      assert (a + b)[0] == a[0];
      assert (a + b)[1..] == a[1..] + b;
      WithoutAppend(a[1..], b, productId);
    }
  }

  /** Removing a product twice is the same as removing it once. */
  lemma {:induction false} WithoutIdempotent(items: seq<WishlistItem>, productId: ProductId)
    ensures Without(Without(items, productId), productId) == Without(items, productId)
  {
    if items != [] {
      WithoutIdempotent(items[1..], productId);
      if items[0].product != productId {
        assert ([items[0]] + Without(items[1..], productId))[1..] == Without(items[1..], productId);
      }
    }
  }

  /** Appending a product not yet listed keeps the products distinct. */
  lemma AppendKeepsDistinct(items: seq<WishlistItem>, item: WishlistItem)
    requires ProductsDistinct(items)
    requires !Contains(items, item.product)
    ensures ProductsDistinct(items + [item])
  {
    var r := items + [item];
    forall a, b | 0 <= a < b < |r| ensures r[a].product != r[b].product {
      if b == |items| {
        assert r[a] in items;
      }
    }
  }

  /** The Mongoose `Wishlist` model; keying by user is the unique index on `user`. */
  class WishlistCollection {
    var lists: map<UserId, seq<WishlistItem>>

    ghost predicate Valid()
      reads this
    {
      forall u :: u in lists ==> StoredItems(lists[u])
    }

    constructor ()
      ensures Valid() && lists == map[]
    {
      lists := map[];
    }

    /** `wishlist.save()` / `Wishlist.create(...)`: kept only if every item's type is valid.
        Distinctness is the callers' to keep. */
    method Save(u: UserId, items: seq<WishlistItem>) returns (r: Result<seq<WishlistItem>>)
      requires Valid()
      requires ProductsDistinct(items)
      modifies this
      ensures Valid()
      ensures (forall i :: i in items ==> ItemValid(i)) ==> r == Ok(items) && lists == old(lists)[u := items]
      ensures !(forall i :: i in items ==> ItemValid(i)) ==> r == Err(SchemaViolation) && lists == old(lists)
    {
      if forall i :: i in items ==> ItemValid(i) {
        lists := lists[u := items];
        r := Ok(items);
      } else {
        r := Err(SchemaViolation);
      }
    }
  }

  method CreateWishlist(w: WishlistCollection, userId: UserId) returns (r: Result<seq<WishlistItem>>)
    requires w.Valid()
    modifies w
    ensures w.Valid()
    ensures userId in old(w.lists) ==> r == Err(WishlistAlreadyExists) && w.lists == old(w.lists)
    ensures userId !in old(w.lists) ==> r == Ok([]) && w.lists == old(w.lists)[userId := []]
  {
    if userId in w.lists {
      return Err(WishlistAlreadyExists);
    }
    r := w.Save(userId, []);
  }

  method GetWishlistByUserId(w: WishlistCollection, userId: UserId) returns (r: Result<seq<WishlistItem>>)
    requires w.Valid()
    ensures userId in w.lists ==> r == Ok(w.lists[userId]) && ProductsDistinct(r.value)
    ensures userId !in w.lists ==> r == Err(WishlistNotFound)
  {
    if userId !in w.lists {
      return Err(WishlistNotFound);
    }
    r := Ok(w.lists[userId]);
  }

  /** `addItemToWishlist`: a product already listed (whatever its type) is refused;
      otherwise the item goes at the end, and the save refuses a type other than
      "tire" or "wheel". */
  method AddItemToWishlist(w: WishlistCollection, userId: UserId, item: WishlistItem)
    returns (r: Result<seq<WishlistItem>>)
    requires w.Valid()
    modifies w
    ensures w.Valid()
    ensures userId !in old(w.lists) ==> r == Err(WishlistNotFound) && w.lists == old(w.lists)
    ensures userId in old(w.lists) && Contains(old(w.lists)[userId], item.product) ==>
      r == Err(ItemAlreadyInWishlist) && w.lists == old(w.lists)
    ensures userId in old(w.lists) && !Contains(old(w.lists)[userId], item.product) ==>
      if ItemValid(item) then
        r == Ok(old(w.lists)[userId] + [item]) && w.lists == old(w.lists)[userId := r.value]
      else
        r == Err(SchemaViolation) && w.lists == old(w.lists)
  {
    if userId !in w.lists {
      return Err(WishlistNotFound);
    }
    var items := w.lists[userId];
    if Contains(items, item.product) {
      return Err(ItemAlreadyInWishlist);
    }
    AppendKeepsDistinct(items, item);
    r := w.Save(userId, items + [item]);
  }

  /** `removeItemFromWishlist`: drops the product if listed, and succeeds either way. */
  method RemoveItemFromWishlist(w: WishlistCollection, userId: UserId, productId: ProductId)
    returns (r: Result<seq<WishlistItem>>)
    requires w.Valid()
    modifies w
    ensures w.Valid()
    ensures userId !in old(w.lists) ==> r == Err(WishlistNotFound) && w.lists == old(w.lists)
    ensures userId in old(w.lists) ==>
      && r == Ok(Without(old(w.lists)[userId], productId))
      && w.lists == old(w.lists)[userId := r.value]
      && !Contains(r.value, productId)
  {
    if userId !in w.lists {
      return Err(WishlistNotFound);
    }
    var items := w.lists[userId];
    WithoutKeepsDistinct(items, productId);
    r := w.Save(userId, Without(items, productId));
  }

  /** `clearWishlist`: `findOneAndUpdate` to an empty list. */
  method ClearWishlist(w: WishlistCollection, userId: UserId) returns (r: Result<seq<WishlistItem>>)
    requires w.Valid()
    modifies w
    ensures w.Valid()
    ensures userId !in old(w.lists) ==> r == Err(WishlistNotFound) && w.lists == old(w.lists)
    ensures userId in old(w.lists) ==> r == Ok([]) && w.lists == old(w.lists)[userId := []]
  {
    if userId !in w.lists {
      return Err(WishlistNotFound);
    }
    w.lists := w.lists[userId := []];
    r := Ok([]);
  }
}
