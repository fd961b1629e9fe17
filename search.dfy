/** Client-side search and filtering over the cached catalog:
    `searchProduct`, `filterProducts` and `resetFilter`. None of them changes
    the catalog; each only chooses which products are rendered. */
module Search {
  import opened Wrappers
  import opened Sequences
  import opened Catalog

  predicate IsUpper(c: char) {
    'A' <= c <= 'Z'
  }

  /** `toLowerCase` on one character, restricted to ASCII letters. */
  function LowerChar(c: char): char {
    if IsUpper(c) then (c as int + 32) as char else c
  }

  /** `toLowerCase`, restricted to ASCII: every upper-case letter is replaced
      by its lower-case form, everything else is kept. */
  function Lower(s: string): (r: string)
    ensures |r| == |s|
    ensures forall i :: 0 <= i < |r| ==> !IsUpper(r[i])
    ensures forall i :: 0 <= i < |s| && !IsUpper(s[i]) ==> r[i] == s[i]
    ensures forall i :: 0 <= i < |s| && IsUpper(s[i]) ==> r[i] as int == s[i] as int + ('a' as int - 'A' as int)
  {
    seq(|s|, i requires 0 <= i < |s| => LowerChar(s[i]))
  }

  /** Lower-casing twice is lower-casing once. */
  lemma LowerIdempotent(s: string)
    ensures Lower(Lower(s)) == Lower(s)
  {
  }

  /** `hay.includes(needle)`: `needle` occurs in `hay` at some position. */
  function Contains(hay: string, needle: string): (r: bool)
    ensures r <==> exists i :: 0 <= i <= |hay| && needle <= hay[i..]
  {
    assert hay[0..] == hay;
    assert forall i :: 1 <= i <= |hay| ==> hay[1..][i - 1..] == hay[i..];
    needle <= hay || (hay != [] && Contains(hay[1..], needle))
  }

  /** The name test shared by search and filter: case-insensitive substring. */
  predicate NameMatches(name: string, query: string) {
    Contains(Lower(name), Lower(query))
  }

  /** `searchProduct`: the products whose name contains the query, ignoring case. */
  function Search(products: seq<Product>, query: string): (r: seq<Product>)
    ensures forall p :: p in r <==> p in products && NameMatches(p.name, query)
  {
    Filter(products, (p: Product) => NameMatches(p.name, query))
  }

  /** Search results keep catalog order, and an empty query shows everything. */
  lemma SearchKeepsOrder(products: seq<Product>, query: string)
    ensures SubsequenceOf(Search(products, query), products)
    ensures query == "" ==> Search(products, query) == products
  {
    FilterIsSubsequence(products, (p: Product) => NameMatches(p.name, query));
    if query == "" {
      forall p | p in products ensures NameMatches(p.name, query) {
        assert "" <= Lower(p.name)[0..];
      }
      FilterKeepsAll(products, (p: Product) => NameMatches(p.name, query));
    }
  }

  /** The case of the query does not matter. */
  lemma SearchIgnoresCase(products: seq<Product>, query: string)
    ensures Search(products, query) == Search(products, Lower(query))
  {
    LowerIdempotent(query);
    FilterCongruent(products, (p: Product) => NameMatches(p.name, query),
                              (p: Product) => NameMatches(p.name, Lower(query)));
  }

  /** The four filter inputs, price inputs already parsed: `None` stands for
      a blank or unparsable field (`parseFloat` gives NaN). */
  datatype Criteria = Criteria(name: string, min: Option<int>, max: Option<int>, category: string)

  /** `parseFloat(min) || 0`: the lower price bound. */
  function LowerBound(min: Option<int>): (r: int)
    ensures min.None? ==> r == 0
    ensures min.Some? ==> r == min.value
  {
    match min
    case None => 0
    case Some(v) => v  // `v || 0` is 0 for v == 0 as well
  }

  /** `parseFloat(max) || Infinity`: the upper price bound, `None` for none.
      Since 0 is falsy, a maximum of 0 means no upper bound at all. */
  function UpperBound(max: Option<int>): (r: Option<int>)
    ensures r.None? <==> max.None? || max.value == 0
    ensures r.Some? ==> r.value == max.value
  {
    match max
    case None => None
    case Some(v) => if v == 0 then None else Some(v)
  }

  /** The predicate `filterProducts` applies to each product. */
  predicate Admits(p: Product, c: Criteria) {
    && NameMatches(p.name, c.name)
    && p.price >= LowerBound(c.min)
    && (UpperBound(c.max).None? || p.price <= UpperBound(c.max).value)
    && (c.category == "" || p.category == Some(c.category))
  }

  /** `filterProducts`. */
  function FilterProducts(products: seq<Product>, c: Criteria): (r: seq<Product>)
    ensures forall p :: p in r <==> p in products && Admits(p, c)
  {
    Filter(products, (p: Product) => Admits(p, c))
  }

  /** The filter result is an order-preserving subsequence of the catalog and
      holds exactly the products that pass all four tests. */
  lemma FilterProductsSpec(products: seq<Product>, c: Criteria)
    ensures SubsequenceOf(FilterProducts(products, c), products)
    ensures forall p :: p in FilterProducts(products, c) <==>
      && p in products
      && Contains(Lower(p.name), Lower(c.name))
      && p.price >= c.min.GetOr(0)
      && (c.max.None? || c.max.value == 0 || p.price <= c.max.value)
      && (c.category == "" || p.category == Some(c.category))
  {
    FilterIsSubsequence(products, (p: Product) => Admits(p, c));
    forall p
      ensures p in FilterProducts(products, c) <==>
        && p in products
        && Contains(Lower(p.name), Lower(c.name))
        && p.price >= c.min.GetOr(0)
        && (c.max.None? || c.max.value == 0 || p.price <= c.max.value)
        && (c.category == "" || p.category == Some(c.category))
    {
      assert p in FilterProducts(products, c) <==> p in products && Admits(p, c);
      assert p.price >= LowerBound(c.min) <==> p.price >= c.min.GetOr(0);
      assert (UpperBound(c.max).None? || p.price <= UpperBound(c.max).value)
             <==> (c.max.None? || c.max.value == 0 || p.price <= c.max.value);
    }
  }

  /** A maximum of 0 filters exactly like a blank maximum. */
  lemma ZeroMaxIsNoMax(products: seq<Product>, c: Criteria)
    ensures FilterProducts(products, c.(max := Some(0))) == FilterProducts(products, c.(max := None))
  {
    var zero, blank := c.(max := Some(0)), c.(max := None);
    assert UpperBound(zero.max) == UpperBound(blank.max);
    FilterCongruent(products, (p: Product) => Admits(p, zero), (p: Product) => Admits(p, blank));
  }

  /** The inputs as `resetFilter` leaves them: all blank. */
  const Cleared := Criteria("", None, None, "")

  /** `resetFilter` renders the whole catalog; running the filter on the
      cleared inputs shows the same list, since catalog prices are positive. */
  lemma ResetShowsWholeCatalog(products: seq<Product>)
    requires forall k :: 0 <= k < |products| ==> products[k].price >= 0
    ensures FilterProducts(products, Cleared) == products
  {
    forall p | p in products ensures Admits(p, Cleared) {
      assert "" <= Lower(p.name)[0..];
    }
    FilterKeepsAll(products, (p: Product) => Admits(p, Cleared));
  }

  /** A worked case: name "red" with prices 0 to 1000 and a blank category
      (no category filter) keeps both red items, the lamp included, and
      drops the blue shirt. */
  lemma RedUnderOneThousand()
    ensures
      var shirt := Product(1, "Red Shirt", "cotton", 500, Some("Clothing"), None, None);
      var blue := Product(2, "Blue Shirt", "linen", 1500, Some("Clothing"), None, None);
      var lamp := Product(3, "Red Lamp", "desk", 800, Some("Home"), None, None);
      FilterProducts([shirt, blue, lamp], Criteria("red", Some(0), Some(1000), "")) == [shirt, lamp]
  {
    var shirt := Product(1, "Red Shirt", "cotton", 500, Some("Clothing"), None, None);
    var blue := Product(2, "Blue Shirt", "linen", 1500, Some("Clothing"), None, None);
    var lamp := Product(3, "Red Lamp", "desk", 800, Some("Home"), None, None);
    var c := Criteria("red", Some(0), Some(1000), "");
    assert Lower("red") == "red";
    assert "red" <= Lower(shirt.name)[0..];
    assert "red" <= Lower(lamp.name)[0..];
    assert Admits(shirt, c) && !Admits(blue, c) && Admits(lamp, c);
    var ps := [shirt, blue, lamp];
    var keep := (p: Product) => Admits(p, c);
    assert ps[..2] == [shirt, blue] && ps[..2][..1] == [shirt] && [shirt][..0] == [];
    assert Filter([shirt], keep) == [shirt];
    assert Filter([shirt, blue], keep) == [shirt];
    assert Filter(ps, keep) == [shirt, lamp];
  }
}
