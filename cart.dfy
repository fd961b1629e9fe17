/** The shopping cart of the page: `addToCart`, `removeFromCart` and the
    count and total that `updateCartUI` shows. */
module Cart {
  import opened Wrappers
  import opened Sequences
  import opened Catalog

  /** `{...product, quantity}`: a snapshot of the product when it was first
      added, and how many of it the cart holds. */
  datatype CartItem = CartItem(product: Product, quantity: int)

  /** `cart.find(p => p.id === id)`, as the index of the first entry with that id. */
  function FindEntry(cart: seq<CartItem>, id: nat): (r: Option<nat>)
    ensures r.Some? ==> r.value < |cart| && cart[r.value].product.id == id
                        && forall j :: 0 <= j < r.value ==> cart[j].product.id != id
    ensures r.None? <==> forall j :: 0 <= j < |cart| ==> cart[j].product.id != id
  {
    if cart == [] then None
    else if cart[0].product.id == id then Some(0)
    else
      match FindEntry(cart[1..], id)
      case None => None
      case Some(k) => Some(k + 1)
  }

  /** No two entries of the cart share a product id. */
  predicate DistinctIds(cart: seq<CartItem>) {
    forall i, j :: 0 <= i < j < |cart| ==> cart[i].product.id != cart[j].product.id
  }

  /** The invariant the cart operations keep: ids are distinct and every
      entry holds at least one unit. */
  predicate WellFormed(cart: seq<CartItem>) {
    DistinctIds(cart) && forall i :: 0 <= i < |cart| ==> cart[i].quantity >= 1
  }

  /** The cart after `addToCart(id)`: unchanged when no product has that id;
      otherwise the first entry with that id gains one unit, or, when there is
      none, a snapshot of the product with quantity 1 is appended. */
  function CartAfterAdd(products: seq<Product>, cart: seq<CartItem>, id: nat): (r: seq<CartItem>)
    ensures |r| == |cart| || |r| == |cart| + 1
    ensures forall j :: 0 <= j < |cart| ==> r[j].product == cart[j].product
    ensures forall j :: 0 <= j < |cart| && cart[j].product.id != id ==> r[j] == cart[j]
    ensures |r| == |cart| + 1 ==> FindProduct(products, id).Some? && r[|cart|] == CartItem(FindProduct(products, id).value, 1)
    ensures (forall k :: 0 <= k < |products| ==> products[k].id != id) ==> r == cart
  {
    match FindProduct(products, id)
    case None => cart
    case Some(p) =>
      match FindEntry(cart, id)
      case Some(i) => cart[i := cart[i].(quantity := cart[i].quantity + 1)]
      case None => cart + [CartItem(p, 1)]
  }

  /** The cart after `removeFromCart(id)`: `cart.filter(i => i.id !== id)`. */
  function RemoveEntries(cart: seq<CartItem>, id: nat): (r: seq<CartItem>)
    ensures forall e :: e in r <==> e in cart && e.product.id != id
    ensures forall j :: 0 <= j < |r| ==> r[j].product.id != id
  {
    Filter(cart, (e: CartItem) => e.product.id != id)
  }

  /** The count shown on the cart badge: the sum of the quantities. */
  function QuantitySum(cart: seq<CartItem>): int {
    if cart == [] then 0 else QuantitySum(cart[..|cart| - 1]) + cart[|cart| - 1].quantity
  }

  /** The total shown in the cart panel: the sum of price times quantity. */
  function TotalPrice(cart: seq<CartItem>): int {
    if cart == [] then 0
    else TotalPrice(cart[..|cart| - 1]) + cart[|cart| - 1].product.price * cart[|cart| - 1].quantity
  }

  /** How many units of product `id` the cart holds, over all its entries. */
  function QuantityOf(cart: seq<CartItem>, id: nat): int {
    if cart == [] then 0
    else
      QuantityOf(cart[..|cart| - 1], id)
      + (if cart[|cart| - 1].product.id == id then cart[|cart| - 1].quantity else 0)
  }

  // ----- addToCart -----

  /** Adding an id that no product carries leaves the cart as it was. */
  lemma AddUnknownIdKeepsCart(products: seq<Product>, cart: seq<CartItem>, id: nat)
    requires forall k :: 0 <= k < |products| ==> products[k].id != id
    ensures CartAfterAdd(products, cart, id) == cart
  {
  }

  /** Adding an id already in the cart raises that entry's quantity by one and
      changes nothing else, not even the length. */
  lemma AddExistingIncrements(products: seq<Product>, cart: seq<CartItem>, id: nat, k: nat, i: nat)
    requires k < |products| && products[k].id == id
    requires i < |cart| && cart[i].product.id == id
    requires forall j :: 0 <= j < i ==> cart[j].product.id != id
    ensures |CartAfterAdd(products, cart, id)| == |cart|
    ensures CartAfterAdd(products, cart, id)[i].product == cart[i].product
    ensures CartAfterAdd(products, cart, id)[i].quantity == cart[i].quantity + 1
    ensures forall j :: 0 <= j < |cart| && j != i ==> CartAfterAdd(products, cart, id)[j] == cart[j]
  {
    assert FindProduct(products, id).Some?;
    assert FindEntry(cart, id) == Some(i);
  }

  /** Adding a product not yet in the cart appends exactly one entry, a copy
      of the (first) product with that id, with quantity 1. */
  lemma AddNewAppends(products: seq<Product>, cart: seq<CartItem>, id: nat, k: nat)
    requires k < |products| && products[k].id == id
    requires forall j :: 0 <= j < k ==> products[j].id != id
    requires forall j :: 0 <= j < |cart| ==> cart[j].product.id != id
    ensures CartAfterAdd(products, cart, id) == cart + [CartItem(products[k], 1)]
  {
  }

  /** `addToCart` keeps ids distinct and quantities positive. */
  lemma AddPreservesWellFormed(products: seq<Product>, cart: seq<CartItem>, id: nat)
    requires WellFormed(cart)
    ensures WellFormed(CartAfterAdd(products, cart, id))
  {
    var r := CartAfterAdd(products, cart, id);
    if FindProduct(products, id).Some? && FindEntry(cart, id).None? {
      assert r == cart + [CartItem(FindProduct(products, id).value, 1)];
      assert forall j :: 0 <= j < |cart| ==> r[j] == cart[j];
    }
  }

  /** Adding the same product twice to a cart without it yields one entry
      with quantity 2, not two entries. */
  lemma AddTwiceGivesQuantityTwo(products: seq<Product>, cart: seq<CartItem>, id: nat, k: nat)
    requires k < |products| && products[k].id == id
    requires forall j :: 0 <= j < k ==> products[j].id != id
    requires forall j :: 0 <= j < |cart| ==> cart[j].product.id != id
    ensures CartAfterAdd(products, CartAfterAdd(products, cart, id), id)
            == cart + [CartItem(products[k], 2)]
  {
    var once := CartAfterAdd(products, cart, id);
    AddNewAppends(products, cart, id, k);
    assert once[|cart|].product.id == id;
    assert forall j :: 0 <= j < |cart| ==> once[j] == cart[j];
    assert FindEntry(once, id) == Some(|cart|);
    assert once[|cart| := once[|cart|].(quantity := 2)] == cart + [CartItem(products[k], 2)];
  }

  // ----- removeFromCart -----

  /** Removal keeps the other entries in their original order. */
  lemma RemoveKeepsOrder(cart: seq<CartItem>, id: nat)
    ensures SubsequenceOf(RemoveEntries(cart, id), cart)
  {
    FilterIsSubsequence(cart, (e: CartItem) => e.product.id != id);
  }

  /** Removing an id that no entry carries leaves the cart as it was. */
  lemma RemoveAbsentIsNoOp(cart: seq<CartItem>, id: nat)
    requires forall j :: 0 <= j < |cart| ==> cart[j].product.id != id
    ensures RemoveEntries(cart, id) == cart
  {
    FilterKeepsAll(cart, (e: CartItem) => e.product.id != id);
  }

  /** Removing twice is removing once. */
  lemma RemoveIdempotent(cart: seq<CartItem>, id: nat)
    ensures RemoveEntries(RemoveEntries(cart, id), id) == RemoveEntries(cart, id)
  {
    FilterIdempotent(cart, (e: CartItem) => e.product.id != id);
  }

  /** `removeFromCart` keeps ids distinct and quantities positive. */
  lemma {:induction false} RemovePreservesWellFormed(cart: seq<CartItem>, id: nat)
    requires WellFormed(cart)
    ensures WellFormed(RemoveEntries(cart, id))
  {
    if cart != [] {
      var init := cart[..|cart| - 1];
      RemovePreservesWellFormed(init, id);
      var last := cart[|cart| - 1];
      var r := RemoveEntries(cart, id);
      if last.product.id != id {
        var ri := RemoveEntries(init, id);
        assert r == ri + [last];
        forall i | 0 <= i < |ri| ensures ri[i].product.id != last.product.id {
          assert ri[i] in init;
        }
      }
    }
  }

  /** Removing a product and adding it back gives a fresh entry with quantity 1:
      no earlier quantity carries over. */
  lemma RemoveThenAddIsFresh(products: seq<Product>, cart: seq<CartItem>, id: nat, k: nat)
    requires k < |products| && products[k].id == id
    requires forall j :: 0 <= j < k ==> products[j].id != id
    ensures CartAfterAdd(products, RemoveEntries(cart, id), id)
            == RemoveEntries(cart, id) + [CartItem(products[k], 1)]
  {
    AddNewAppends(products, RemoveEntries(cart, id), id, k);
  }

  // ----- count and total -----

  /** Replacing one entry changes the count by the difference of quantities. */
  lemma {:induction false} QuantitySumUpdate(cart: seq<CartItem>, i: nat, x: CartItem)
    requires i < |cart|
    ensures QuantitySum(cart[i := x]) == QuantitySum(cart) - cart[i].quantity + x.quantity
  {
    var n := |cart|;
    if i < n - 1 {
      assert cart[i := x][..n - 1] == cart[..n - 1][i := x];
      QuantitySumUpdate(cart[..n - 1], i, x);
    } else {
      assert cart[i := x][..n - 1] == cart[..n - 1];
    }
  }

  /** Replacing one entry changes the total by the difference of line totals. */
  lemma {:induction false} TotalPriceUpdate(cart: seq<CartItem>, i: nat, x: CartItem)
    requires i < |cart|
    ensures TotalPrice(cart[i := x])
            == TotalPrice(cart) - cart[i].product.price * cart[i].quantity + x.product.price * x.quantity
  {
    var n := |cart|;
    if i < n - 1 {
      assert cart[i := x][..n - 1] == cart[..n - 1][i := x];
      TotalPriceUpdate(cart[..n - 1], i, x);
    } else {
      assert cart[i := x][..n - 1] == cart[..n - 1];
    }
  }

  /** The price one more unit of `id` adds to the total: the snapshot price
      of the entry already in the cart, or else the catalog product's price. */
  function UnitPrice(products: seq<Product>, cart: seq<CartItem>, id: nat): int
    requires FindProduct(products, id).Some?
  {
    match FindEntry(cart, id)
    case Some(i) => cart[i].product.price
    case None => FindProduct(products, id).value.price
  }

  /** Adding a known product raises the count by exactly one. */
  lemma AddRaisesCount(products: seq<Product>, cart: seq<CartItem>, id: nat, k: nat)
    requires k < |products| && products[k].id == id
    ensures QuantitySum(CartAfterAdd(products, cart, id)) == QuantitySum(cart) + 1
  {
    assert FindProduct(products, id).Some?;
    var r := CartAfterAdd(products, cart, id);
    if FindEntry(cart, id).Some? {
      var i := FindEntry(cart, id).value;
      QuantitySumUpdate(cart, i, cart[i].(quantity := cart[i].quantity + 1));
    } else {
      assert r[..|r| - 1] == cart;
    }
  }

  /** Adding a known product raises the total by one unit price: later
      catalog edits do not reach an entry already in the cart. */
  lemma AddRaisesTotal(products: seq<Product>, cart: seq<CartItem>, id: nat, k: nat)
    requires k < |products| && products[k].id == id
    ensures FindProduct(products, id).Some?
    ensures TotalPrice(CartAfterAdd(products, cart, id)) == TotalPrice(cart) + UnitPrice(products, cart, id)
  {
    var p := FindProduct(products, id).value;
    match FindEntry(cart, id)
    case Some(i) =>
      var x := cart[i].(quantity := cart[i].quantity + 1);
      assert CartAfterAdd(products, cart, id) == cart[i := x];
      TotalPriceUpdate(cart, i, x);
      assert x.product.price * x.quantity == cart[i].product.price * cart[i].quantity + cart[i].product.price;
    case None =>
      var r := cart + [CartItem(p, 1)];
      assert CartAfterAdd(products, cart, id) == r;
      assert r[..|r| - 1] == cart;
      assert TotalPrice(r) == TotalPrice(cart) + p.price * 1;
  }

  /** Removing an id lowers the count by exactly the units held under that id. */
  lemma {:induction false} RemoveLowersCount(cart: seq<CartItem>, id: nat)
    ensures QuantitySum(RemoveEntries(cart, id)) + QuantityOf(cart, id) == QuantitySum(cart)
  {
    if cart != [] {
      var init := cart[..|cart| - 1];
      RemoveLowersCount(init, id);
      var r := RemoveEntries(cart, id);
      if cart[|cart| - 1].product.id != id {
        assert r[..|r| - 1] == RemoveEntries(init, id);
      }
    }
  }

  /** In a well-formed cart the count is at least the number of entries and,
      with non-negative prices, the total is non-negative; both are 0 for an
      empty cart. */
  lemma {:induction false} CountAndTotalBounds(cart: seq<CartItem>)
    requires WellFormed(cart)
    requires forall j :: 0 <= j < |cart| ==> cart[j].product.price >= 0
    ensures QuantitySum(cart) >= |cart| && TotalPrice(cart) >= 0
    ensures cart == [] ==> QuantitySum(cart) == 0 && TotalPrice(cart) == 0
  {
    if cart != [] {
      var init := cart[..|cart| - 1];
      assert WellFormed(init);
      CountAndTotalBounds(init);
      var last := cart[|cart| - 1];
      assert last.product.price * last.quantity >= 0;
    }
  }

  /** The page's `products` and `cart` globals, owned by one object. */
  class CartManager {
    var products: seq<Product>
    var cart: seq<CartItem>

    ghost predicate Valid()
      reads this
    {
      WellFormed(cart)
    }

    /** The state when the page loads: nothing fetched, an empty cart. */
    constructor ()
      ensures Valid() && products == [] && cart == []
    {
      products := [];
      cart := [];
    }

    /** The success branch of `fetchProducts`: the catalog is replaced
        wholesale; cart entries keep their snapshots, even stale ones. */
    method LoadProducts(fetched: seq<Product>)
      requires Valid()
      modifies this
      ensures Valid()
      ensures products == fetched && cart == old(cart)
    {
      products := fetched;
    }

    /** `addToCart(id)`. */
    method AddToCart(id: nat)
      requires Valid()
      modifies this
      ensures Valid()
      ensures products == old(products)
      ensures cart == CartAfterAdd(old(products), old(cart), id)
    {
      AddPreservesWellFormed(products, cart, id);
      var product := FindProduct(products, id);
      if product.None? {
        return;
      }
      var existing := FindEntry(cart, id);
      if existing.Some? {
        var i := existing.value;
        cart := cart[i := cart[i].(quantity := cart[i].quantity + 1)];
      } else {
        cart := cart + [CartItem(product.value, 1)];
      }
    }

    /** `removeFromCart(id)`. */
    method RemoveFromCart(id: nat)
      requires Valid()
      modifies this
      ensures Valid()
      ensures products == old(products)
      ensures cart == RemoveEntries(old(cart), id)
    {
      RemovePreservesWellFormed(cart, id);
      cart := RemoveEntries(cart, id);
    }

    /** The two figures `updateCartUI` writes: the count (a reduce over the
        quantities) and the total (accumulated in a loop over the entries). */
    method Summary() returns (count: int, total: int)
      ensures count == QuantitySum(cart)
      ensures total == TotalPrice(cart)
    {
      total := 0;
      var i := 0;
      while i < |cart|
        invariant 0 <= i <= |cart|
        invariant total == TotalPrice(cart[..i])
      {
        assert cart[..i + 1][..i] == cart[..i];
        total := total + cart[i].product.price * cart[i].quantity;
        i := i + 1;
      }
      assert cart[..|cart|] == cart;
      count := QuantitySum(cart);
    }
  }
}
