/** The catalog the page caches: the product records returned by
    GET /api/products, and the lookup `products.find(p => p.id === id)`. */
module Catalog {
  import opened Wrappers

  /** A product as the browser holds it. The server entity carries id, name,
      description and a positive price; category, discount (a percentage) and
      rating are read by the page but may be absent (`undefined`). Prices are
      integral minor currency units and ratings are already rounded. */
  datatype Product = Product(
    id: nat,
    name: string,
    description: string,
    price: int,
    category: Option<string>,
    discount: Option<int>,
    rating: Option<int>)

  /** `products.find(p => p.id === id)`: the first product with that id. */
  function FindProduct(products: seq<Product>, id: nat): (r: Option<Product>)
    ensures r.Some? ==> r.value in products && r.value.id == id
    ensures r.None? <==> forall k :: 0 <= k < |products| ==> products[k].id != id
    ensures forall k :: 0 <= k < |products| && products[k].id == id
                        && (forall j :: 0 <= j < k ==> products[j].id != id)
                        ==> r == Some(products[k])
  {
    if products == [] then None
    else if products[0].id == id then Some(products[0])
    else
      var r := FindProduct(products[1..], id);
      assert forall k :: 1 <= k < |products| ==> products[k] == products[1..][k - 1];
      r
  }
}
