/** The three catalog collections (tires, wheels, simple products) as the cart and
    deal services read them. Only the fields those services touch are kept. */
module Catalog {
  import opened Common

  /** The catalog kind a request names by the strings "tire", "wheel" or "product". */
  datatype ProductType = Tire | Wheel | Product

  function TypeName(t: ProductType): string {
    match t
    case Tire => "tire"
    case Wheel => "wheel"
    case Product => "product"
  }

  /** The `switch (productType)` that picks a collection: any other string is not a kind. */
  function ParseProductType(s: string): (r: Option<ProductType>)
    ensures r.Some? ==> TypeName(r.value) == s
    ensures r.None? <==> forall t: ProductType :: TypeName(t) != s
  {
    if s == "tire" then Some(Tire)
    else if s == "wheel" then Some(Wheel)
    else if s == "product" then Some(Product)
    else None
  }

  lemma ParseTypeName(t: ProductType)
    ensures ParseProductType(TypeName(t)) == Some(t)
  {
  }

  /** A catalog document. `discountPrice` 0 stands for "no discount price": the
      source tests it for truthiness. `stockQuantity` is None for a document that
      has no such path (simple products keep their stock under another name). */
  datatype CatalogProduct = CatalogProduct(
    id: ProductId,
    brand: Option<string>,
    name: string,
    price: real,
    discountPrice: real,
    images: seq<string>,
    stockQuantity: Option<int>)

  datatype Catalog = Catalog(
    tires: seq<CatalogProduct>,
    wheels: seq<CatalogProduct>,
    products: seq<CatalogProduct>)

  function Collection(c: Catalog, t: ProductType): seq<CatalogProduct> {
    match t
    case Tire => c.tires
    case Wheel => c.wheels
    case Product => c.products
  }

  /** `Model.findById`: the document with that id, if any. */
  function FindById(items: seq<CatalogProduct>, id: ProductId): (r: Option<CatalogProduct>)
    ensures r.Some? ==> r.value in items && r.value.id == id
    ensures r.None? <==> forall p :: p in items ==> p.id != id
  {
    if items == [] then None
    else if items[0].id == id then Some(items[0])
    else FindById(items[1..], id)
  }

  /** Tire and wheel documents must carry a brand (the schemas declare it required). */
  predicate BrandsPresent(c: Catalog) {
    && (forall p :: p in c.tires ==> p.brand.Some?)
    && (forall p :: p in c.wheels ==> p.brand.Some?)
  }
}
