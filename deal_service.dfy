/** The deal service: picks a brand's deals that are running at a given time and
    works out discounted prices for that brand's catalog items, the last deal
    in the list deciding the price. */
module DealService {
  import opened Common
  import opened Catalog

  /** A deal, with the fields the service reads. */
  datatype Deal = Deal(
    brand: string,
    validFrom: Time,
    validTo: Time,
    discountPercentage: real,
    applicableProducts: seq<string>)

  predicate Running(d: Deal, now: Time) {
    d.validFrom <= now <= d.validTo
  }

  /** `Deal.find({brand, validFrom <= now, validTo >= now})`, in stored order. */
  function DealsForBrand(deals: seq<Deal>, brand: string, now: Time): (r: seq<Deal>)
    ensures forall d :: d in r <==> d in deals && d.brand == brand && Running(d, now)
    ensures |r| <= |deals|
  {
    if deals == [] then []
    else
      var rest := DealsForBrand(deals[1..], brand, now);
      if deals[0].brand == brand && Running(deals[0], now) then [deals[0]] + rest else rest
  }

  /** `deals.filter(d => d.applicableProducts.includes(kind))`. */
  function ForKind(deals: seq<Deal>, kind: string): (r: seq<Deal>)
    ensures forall d :: d in r <==> d in deals && kind in d.applicableProducts
    ensures |r| <= |deals|
  {
    if deals == [] then []
    else
      var rest := ForKind(deals[1..], kind);
      if kind in deals[0].applicableProducts then [deals[0]] + rest else rest
  }

  /** A lone deal is kept exactly when it names the kind. */
  lemma ForKindSingle(x: Deal, kind: string)
    ensures ForKind([x], kind) == if !(kind in x.applicableProducts) then [] else [x]
  {
    assert [x][1..] == [];
  }

  /** Filtering two runs of deals is filtering each, so with `ForKindSingle` the kept
      deals stay in their stored order, which decides the price through `InTurnIsLast`. */
  lemma {:induction false} ForKindAppend(a: seq<Deal>, b: seq<Deal>, kind: string)
    ensures ForKind(a + b, kind) == ForKind(a, kind) + ForKind(b, kind)
    decreases |a|
  {
    if a == [] {
      assert a + b == b;
    } else {
      assert (a + b)[0] == a[0];
      assert (a + b)[1..] == a[1..] + b;
      ForKindAppend(a[1..], b, kind);
    }
  }

  /** `price - price * pct / 100`. */
  function Discounted(price: real, pct: real): (d: real)
    ensures pct == 0.0 ==> d == price
    ensures pct == 100.0 ==> d == 0.0
    ensures 0.0 <= price && 0.0 <= pct <= 100.0 ==> 0.0 <= d <= price
    ensures 0.0 < price && 0.0 < pct ==> d < price
  {
    price - price * pct / 100.0
  }

  /** One deal applied to an item: its discount price, worked out from its own price. */
  function WithDeal(p: CatalogProduct, d: Deal): (q: CatalogProduct)
    ensures q.discountPrice == Discounted(p.price, d.discountPercentage)
    ensures q.(discountPrice := p.discountPrice) == p
  {
    p.(discountPrice := Discounted(p.price, d.discountPercentage))
  }

  /** The item once every deal has been applied: only the last one counts, and
      no deal leaves it as it was. */
  function AfterDeals(p: CatalogProduct, deals: seq<Deal>): (q: CatalogProduct)
    ensures deals == [] ==> q == p
    ensures deals != [] ==> q.discountPrice == Discounted(p.price, deals[|deals| - 1].discountPercentage)
    ensures q.(discountPrice := p.discountPrice) == p
  {
    if deals == [] then p else WithDeal(p, deals[|deals| - 1])
  }

  /** Applying the deals one after the other, each overwriting the discount price. */
  function ApplyInTurn(p: CatalogProduct, deals: seq<Deal>): CatalogProduct
    decreases |deals|
  {
    if deals == [] then p else ApplyInTurn(WithDeal(p, deals[0]), deals[1..])
  }

  /** Discounts are not compounded: applying the deals in turn is applying the last one. */
  lemma {:induction false} InTurnIsLast(p: CatalogProduct, deals: seq<Deal>)
    ensures ApplyInTurn(p, deals) == AfterDeals(p, deals)
    decreases |deals|
  {
    if deals != [] {
      InTurnIsLast(WithDeal(p, deals[0]), deals[1..]);
      if |deals| > 1 {
        assert deals[1..][|deals[1..]| - 1] == deals[|deals| - 1];
      }
    }
  }

  /** The `forEach` over the deals for one item. */
  method ApplyDealsToOne(p: CatalogProduct, deals: seq<Deal>) returns (q: CatalogProduct)
    ensures q == AfterDeals(p, deals)
    ensures q == ApplyInTurn(p, deals)
  {
    q := p;
    var i := 0;
    while i < |deals|
      invariant 0 <= i <= |deals|
      invariant q == AfterDeals(p, deals[..i])
    {
      q := WithDeal(q, deals[i]);
      assert deals[..i + 1][i] == deals[i];
      i := i + 1;
    }
    assert deals[..|deals|] == deals;
    InTurnIsLast(p, deals);
  }

  /** The nested `forEach`: for each deal in turn, every item's discount price is overwritten. */
  method ApplyDealsToAll(items: seq<CatalogProduct>, deals: seq<Deal>) returns (r: seq<CatalogProduct>)
    ensures |r| == |items|
    ensures forall j :: 0 <= j < |items| ==> r[j] == AfterDeals(items[j], deals)
  {
    r := items;
    var k := 0;
    while k < |deals|
      invariant 0 <= k <= |deals|
      invariant |r| == |items|
      invariant forall j :: 0 <= j < |items| ==> r[j] == AfterDeals(items[j], deals[..k])
    {
      var m := 0;
      while m < |r|
        invariant 0 <= m <= |r| == |items|
        invariant forall j :: 0 <= j < m ==> r[j] == AfterDeals(items[j], deals[..k + 1])
        invariant forall j :: m <= j < |items| ==> r[j] == AfterDeals(items[j], deals[..k])
      {
        assert deals[..k + 1][k] == deals[k];
        r := r[m := WithDeal(r[m], deals[k])];
        m := m + 1;
      }
      k := k + 1;
    }
    assert deals[..|deals|] == deals;
  }

  /** `Model.find({brand})`: the collection's items of that brand, in stored order. */
  function OfBrand(items: seq<CatalogProduct>, brand: string): (r: seq<CatalogProduct>)
    ensures forall p :: p in r <==> p in items && p.brand == Some(brand)
  {
    if items == [] then []
    else
      var rest := OfBrand(items[1..], brand);
      if items[0].brand == Some(brand) then [items[0]] + rest else rest
  }

  /** `getDiscountedTiresByBrand`, `getDiscountedWheelsByBrand` and
      `getDiscountedProductsByBrand`: the brand's items of that kind, each priced by
      the last running deal of that brand that names the kind. */
  method GetDiscountedByBrand(catalog: Catalog, deals: seq<Deal>, kind: ProductType, brand: string, now: Time)
    returns (r: seq<CatalogProduct>)
    ensures var items := OfBrand(Collection(catalog, kind), brand);
      var kindDeals := ForKind(DealsForBrand(deals, brand, now), TypeName(kind));
      && |r| == |items|
      && forall j :: 0 <= j < |items| ==> r[j] == AfterDeals(items[j], kindDeals)
  {
    var brandDeals := DealsForBrand(deals, brand, now);
    var kindDeals := ForKind(brandDeals, TypeName(kind));
    var items := OfBrand(Collection(catalog, kind), brand);
    r := ApplyDealsToAll(items, kindDeals);
  }

  /** The error `applyDiscountTo*` raises for a missing item. */
  function NotFoundError(kind: ProductType): Error {
    match kind
    case Tire => TireNotFound
    case Wheel => WheelNotFound
    case Product => ProductNotFound
  }

  /** `applyDiscountToTire`, `applyDiscountToWheel` and `applyDiscountToProduct`:
      every running deal of the item's brand is applied, whatever kinds it names.
      A simple product without a brand is refused; tire and wheel schemas require one. */
  method ApplyDiscountTo(catalog: Catalog, deals: seq<Deal>, kind: ProductType, id: ProductId, now: Time)
    returns (r: Result<CatalogProduct>)
    requires BrandsPresent(catalog)
    ensures FindById(Collection(catalog, kind), id).None? ==> r == Err(NotFoundError(kind))
    ensures FindById(Collection(catalog, kind), id).Some? ==>
      var p := FindById(Collection(catalog, kind), id).value;
      if p.brand.None? then r == Err(BrandUndefined) && kind == Product
      else r == Ok(AfterDeals(p, DealsForBrand(deals, p.brand.value, now)))
  {
    var found := FindById(Collection(catalog, kind), id);
    if found.None? {
      return Err(NotFoundError(kind));
    }
    var p := found.value;
    if p.brand.None? {
      return Err(BrandUndefined);
    }
    var q := ApplyDealsToOne(p, DealsForBrand(deals, p.brand.value, now));
    r := Ok(q);
  }
}
