/** The cart collection: one cart per user, each a list of lines whose total
    the pre-save hook recomputes, and whose lines the schema validates. */
module CartModel {
  import opened Common

  /** A stored line. The schema keeps product, productType, quantity and price;
      any other field a service attaches to a line is not stored. */
  datatype CartLine = CartLine(product: ProductId, productType: string, quantity: int, price: real)

  datatype Cart = Cart(user: UserId, items: seq<CartLine>, totalPrice: real)

  function EmptyCart(u: UserId): Cart {
    Cart(u, [], 0.0)
  }

  /** The schema's constraints on one line: `productType` in the enum and `quantity` at least 1. */
  predicate LineValid(l: CartLine) {
    && (l.productType == "tire" || l.productType == "wheel")
    && l.quantity >= 1
  }

  predicate LinesValid(items: seq<CartLine>) {
    forall l :: l in items ==> LineValid(l)
  }

  function LineAmount(l: CartLine): real {
    l.price * (l.quantity as real)
  }

  /** The pre-save hook's `reduce`: a left fold adding price × quantity per line, from 0. */
  function Total(items: seq<CartLine>): real {
    if items == [] then 0.0 else Total(items[..|items| - 1]) + LineAmount(items[|items| - 1])
  }

  lemma {:induction false} TotalAppend(a: seq<CartLine>, b: seq<CartLine>)
    ensures Total(a + b) == Total(a) + Total(b)
    decreases |b|
  {
    if b == [] {
      assert a + b == a;
    } else {
      var n := |b| - 1;
      assert (a + b)[..|a + b| - 1] == a + b[..n];
      assert (a + b)[|a + b| - 1] == b[n];
      TotalAppend(a, b[..n]);
    }
  }

  lemma TotalSingle(l: CartLine)
    ensures Total([l]) == LineAmount(l)
  {
    assert [l][..0] == [];
  }

  /** Appending a line adds exactly its price × quantity. */
  lemma TotalPush(items: seq<CartLine>, l: CartLine)
    ensures Total(items + [l]) == Total(items) + LineAmount(l)
  {
    TotalAppend(items, [l]);
    TotalSingle(l);
  }

  /** Rewriting one line changes the total by the difference of the two lines' amounts. */
  lemma TotalUpdate(items: seq<CartLine>, i: nat, l: CartLine)
    requires i < |items|
    ensures Total(items[i := l]) == Total(items) - LineAmount(items[i]) + LineAmount(l)
  {
    var pre, post := items[..i], items[i + 1..];
    assert items == pre + [items[i]] + post;
    assert items[i := l] == pre + [l] + post;
    TotalAppend(pre + [items[i]], post);
    TotalAppend(pre + [l], post);
    TotalPush(pre, items[i]);
    TotalPush(pre, l);
  }

  /** The total does not depend on the order of the lines. */
  lemma {:induction false} TotalPermutation(a: seq<CartLine>, b: seq<CartLine>)
    requires multiset(a) == multiset(b)
    ensures Total(a) == Total(b)
    decreases |a|
  {
    if a == [] {
      assert |b| == |multiset(b)| == 0;
    } else {
      var n := |a| - 1;
      var x := a[n];
      assert a == a[..n] + [x];
      assert x in multiset(b);
      var k :| 0 <= k < |b| && b[k] == x;
      var rest := b[..k] + b[k + 1..];
      assert b == b[..k] + [x] + b[k + 1..];
      MultisetRemoveMatching(a, b, k);
      TotalPermutation(a[..n], rest);
      TotalPush(a[..n], x);
      TotalAppend(b[..k] + [x], b[k + 1..]);
      TotalPush(b[..k], x);
      TotalAppend(b[..k], b[k + 1..]);
    }
  }

  /** What the collection holds for a user: the cart is that user's, every line
      passes the schema, and the stored total is the hook's fold. */
  predicate StoredCart(u: UserId, c: Cart) {
    && c.user == u
    && LinesValid(c.items)
    && c.totalPrice == Total(c.items)
  }

  /** The Mongoose `Cart` model. Keying the map by user is the schema's
      `unique: true` index on `user`: there is at most one cart per user. */
  class CartCollection {
    var carts: map<UserId, Cart>

    ghost predicate Valid()
      reads this
    {
      forall u :: u in carts ==> StoredCart(u, carts[u])
    }

    constructor ()
      ensures Valid() && carts == map[]
    {
      carts := map[];
    }

    /** `cart.save()` / `Cart.create(...)`: the validators accept the document or
        reject it, then the hook sets `totalPrice` to the fold over the lines. The
        validators never look at the total beyond `required`, which its default 0
        meets, so the order of the two does not change the outcome. */
    method Save(c: Cart) returns (r: Result<Cart>)
      requires Valid()
      modifies this
      ensures Valid()
      ensures LinesValid(c.items) ==>
        && r == Ok(Cart(c.user, c.items, Total(c.items)))
        && carts == old(carts)[c.user := r.value]
      ensures !LinesValid(c.items) ==> r == Err(SchemaViolation) && carts == old(carts)
    {
      if LinesValid(c.items) {
        var saved := Cart(c.user, c.items, Total(c.items));
        carts := carts[c.user := saved];
        r := Ok(saved);
      } else {
        r := Err(SchemaViolation);
      }
    }

    /** `Cart.findOneAndUpdate({user}, {items: [], totalPrice: 0}, {new: true})`:
        the emptied cart, or None when the user has no cart. */
    method FindOneAndClear(u: UserId) returns (r: Option<Cart>)
      requires Valid()
      modifies this
      ensures Valid()
      ensures u in old(carts) ==> r == Some(EmptyCart(u)) && carts == old(carts)[u := EmptyCart(u)]
      ensures u !in old(carts) ==> r == None && carts == old(carts)
    {
      if u in carts {
        carts := carts[u := EmptyCart(u)];
        r := Some(EmptyCart(u));
      } else {
        r := None;
      }
    }
  }
}
