/** The product catalog that the storefront and the broker pages load from
    `products.json`. Only the fields the modelled code reads are kept. */
module Catalog {
  import opened Common

  datatype Product = Product(id: string, name: string, image: string, price: real)

  function IdIs(id: string): Product -> bool {
    (p: Product) => p.id == id
  }

  /** `products.find(p => p.id === id)` */
  function Lookup(products: seq<Product>, id: string): (r: Option<Product>)
    ensures r.Some? ==> r.value in products && r.value.id == id
    ensures r.Some? ==> exists k :: 0 <= k < |products| && products[k] == r.value
                                  && forall j :: 0 <= j < k ==> products[j].id != id
    ensures r.None? <==> forall i :: 0 <= i < |products| ==> products[i].id != id
  {
    var r := Find(products, IdIs(id));
    assert r.None? <==> forall i :: 0 <= i < |products| ==> !IdIs(id)(products[i]);
    assert r.Some? ==> exists k :: 0 <= k < |products| && products[k] == r.value
                                   && forall j :: 0 <= j < k ==> !IdIs(id)(products[j]);
    r
  }

  /** When two products share an id, the lookup finds the earlier one. */
  lemma LookupFirst(products: seq<Product>, id: string, k: nat)
    requires k < |products| && products[k].id == id
    requires forall j :: 0 <= j < k ==> products[j].id != id
    ensures Lookup(products, id) == Some(products[k])
  {
    var r := Lookup(products, id);
    assert r.Some?;
    var m :| 0 <= m < |products| && products[m] == r.value
             && forall j :: 0 <= j < m ==> products[j].id != id;
    assert m == k;
  }

  /** `product ? product.price : 0` for the product looked up by `id`. */
  function PriceOf(products: seq<Product>, id: string): (price: real)
    ensures Lookup(products, id).Some? ==> price == Lookup(products, id).value.price
    ensures Lookup(products, id).None? ==> price == 0.0
  {
    match Lookup(products, id)
    case Some(p) => p.price
    case None => 0.0
  }
}
