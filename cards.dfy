/** What `renderProducts` shows for each product: the star string, the
    discount badge, and the grid as a whole. Markup is not modelled; a card is
    the record of the values the markup displays. */
module Cards {
  import opened Wrappers
  import opened Catalog

  const FilledStar: char := '★'
  const EmptyStar: char := '☆'

  /** `c.repeat(n)` for a non-negative count. */
  function Repeat(c: char, n: nat): (r: string)
    ensures |r| == n
    ensures forall i :: 0 <= i < n ==> r[i] == c
  {
    if n == 0 then "" else [c] + Repeat(c, n - 1)
  }

  /** `c.repeat(n)` holds `n` copies of `c` and nothing else. */
  lemma {:induction false} RepeatCounts(c: char, d: char, n: nat)
    ensures multiset(Repeat(c, n))[d] == if d == c then n else 0
  {
    if n > 0 {
      RepeatCounts(c, d, n - 1);
      assert multiset(Repeat(c, n)) == multiset{c} + multiset(Repeat(c, n - 1));
    }
  }

  /** `Math.round(product.rating || 0)`: ratings are already whole numbers,
      and a missing rating counts as 0. */
  function Rating(p: Product): int {
    p.rating.GetOr(0)
  }

  /** The star string: `rating` filled stars followed by `5 - rating` empty
      ones. `None` where `repeat` would throw a RangeError, that is, where one
      of the two counts is negative. */
  function Stars(rating: int): (s: Option<string>)
    ensures s.Some? <==> 0 <= rating <= 5
    ensures s.Some? ==> |s.value| == 5
    ensures s.Some? ==> forall i :: 0 <= i < 5 ==> s.value[i] == (if i < rating then FilledStar else EmptyStar)
  {
    if rating < 0 || 5 - rating < 0 then None
    else Some(Repeat(FilledStar, rating) + Repeat(EmptyStar, 5 - rating))
  }

  /** A rating r in [0,5] shows exactly r filled and 5 - r empty stars. */
  lemma StarsCount(rating: int)
    requires 0 <= rating <= 5
    ensures multiset(Stars(rating).value)[FilledStar] == rating
    ensures multiset(Stars(rating).value)[EmptyStar] == 5 - rating
  {
    RepeatCounts(FilledStar, FilledStar, rating);
    RepeatCounts(FilledStar, EmptyStar, rating);
    RepeatCounts(EmptyStar, FilledStar, 5 - rating);
    RepeatCounts(EmptyStar, EmptyStar, 5 - rating);
    assert multiset(Stars(rating).value)
           == multiset(Repeat(FilledStar, rating)) + multiset(Repeat(EmptyStar, 5 - rating));
  }

  /** The percentage the badge shows: present only for a discount above 0
      (`product.discount && product.discount > 0`), and then that discount. */
  function Badge(discount: Option<int>): (r: Option<int>)
    ensures r.Some? <==> discount.Some? && discount.value > 0
    ensures r.Some? ==> r.value == discount.value
  {
    match discount
    case Some(d) => if d > 0 then Some(d) else None
    case None => None
  }

  /** The values one product card displays. */
  datatype Card = Card(
    id: nat,
    name: string,
    description: string,
    price: int,
    stars: string,
    badge: Option<int>,
    category: string)

  /** The card for `p`, or `None` where building its star string throws. */
  function CardFor(p: Product): (r: Option<Card>)
    ensures r.Some? <==> 0 <= Rating(p) <= 5
    ensures r.Some? ==> r.value.id == p.id && r.value.price == p.price
                        && r.value.badge == Badge(p.discount)
                        && Some(r.value.stars) == Stars(Rating(p))
  {
    match Stars(Rating(p))
    case None => None
    case Some(s) => Some(Card(p.id, p.name, p.description, p.price, s, Badge(p.discount), p.category.GetOr("")))
  }

  /** The `forEach` over the list: the cards appended before the loop ends,
      and whether it reached the end rather than stopping at a throw. */
  function BuildCards(products: seq<Product>): (r: (seq<Card>, bool))
    ensures |r.0| <= |products|
    ensures forall i :: 0 <= i < |r.0| ==> CardFor(products[i]) == Some(r.0[i])
    ensures r.1 <==> forall k :: 0 <= k < |products| ==> 0 <= Rating(products[k]) <= 5
    ensures r.1 ==> |r.0| == |products|
    ensures !r.1 ==> |r.0| < |products| && CardFor(products[|r.0|]).None?
  {
    if products == [] then ([], true)
    else
      match CardFor(products[0])
      case None => ([], false)
      case Some(c) =>
        var rest := BuildCards(products[1..]);
        assert forall k :: 1 <= k < |products| ==> products[k] == products[1..][k - 1];
        ([c] + rest.0, rest.1)
  }

  /** What the product grid ends up showing. */
  datatype Grid =
    | NoProductsFound          // the placeholder for an empty list
    | Cards(cards: seq<Card>)  // one card per product
    | Aborted(cards: seq<Card>) // a star string threw; the cards built before it stay

  /** `renderProducts(list)`. */
  function RenderProducts(products: seq<Product>): (g: Grid)
    ensures g.NoProductsFound? <==> products == []
    ensures g.Cards? ==> |g.cards| == |products|
                         && forall i :: 0 <= i < |products| ==> CardFor(products[i]) == Some(g.cards[i])
    ensures g.Aborted? ==> |g.cards| < |products| && CardFor(products[|g.cards|]).None?
                           && forall i :: 0 <= i < |g.cards| ==> CardFor(products[i]) == Some(g.cards[i])
    ensures products != [] ==> (g.Cards? <==> forall k :: 0 <= k < |products| ==> 0 <= Rating(products[k]) <= 5)
  {
    if products == [] then NoProductsFound
    else
      var built := BuildCards(products);
      if built.1 then Cards(built.0) else Aborted(built.0)
  }
}
