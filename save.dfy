/** The product form: `openModal`, `editProduct`, `saveProduct` and
    `deleteProduct`, as the request each would send to /api/products. The
    HTTP call itself and its callbacks are not modelled. */
module Save {
  import opened Wrappers
  import opened Catalog

  const ApiUrl: string := "/api/products"

  /** `${apiUrl}/${id}`: the resource of one product. */
  function ItemPath(id: string): string {
    ApiUrl + "/" + id
  }

  function DigitChar(d: nat): char
    requires d < 10
  {
    ('0' as int + d) as char
  }

  /** The decimal text of a numeric id, as a template literal prints it. */
  function NatToString(n: nat): (s: string)
    ensures |s| >= 1
    ensures forall i :: 0 <= i < |s| ==> '0' <= s[i] <= '9'
  {
    if n < 10 then [DigitChar(n)] else NatToString(n / 10) + [DigitChar(n % 10)]
  }

  /** The number a string of decimal digits denotes. */
  function DigitsValue(s: string): nat
    requires forall i :: 0 <= i < |s| ==> '0' <= s[i] <= '9'
  {
    if s == [] then 0 else DigitsValue(s[..|s| - 1]) * 10 + (s[|s| - 1] as int - '0' as int)
  }

  /** Printing an id and reading it back gives the id. */
  lemma {:induction false} NatToStringRoundTrip(n: nat)
    ensures DigitsValue(NatToString(n)) == n
  {
    if n >= 10 {
      NatToStringRoundTrip(n / 10);
      var s := NatToString(n);
      assert s[..|s| - 1] == NatToString(n / 10);
    }
  }

  /** Distinct ids address distinct resources. */
  lemma ItemPathInjective(a: nat, b: nat)
    ensures ItemPath(NatToString(a)) == ItemPath(NatToString(b)) ==> a == b
  {
    var prefix := ApiUrl + "/";
    if ItemPath(NatToString(a)) == ItemPath(NatToString(b)) {
      assert NatToString(a) == ItemPath(NatToString(a))[|prefix|..];
      assert NatToString(b) == ItemPath(NatToString(b))[|prefix|..];
      NatToStringRoundTrip(a);
      NatToStringRoundTrip(b);
    }
  }

  /** The JSON body of a create or an update. `price` is `None` where
      `parseFloat` gave NaN (sent as null). */
  datatype Body = Body(
    name: string,
    description: string,
    price: Option<int>,
    category: string,
    discount: int,
    rating: int)

  datatype Request =
    | Post(path: string, body: Body)
    | Put(path: string, body: Body)
    | Delete(path: string)

  /** The modal form, numeric fields already parsed. The hidden id is the raw
      text of its input. An optional field is `None` when its control is not
      on the page or its text does not parse. */
  datatype Form = Form(
    id: string,
    name: string,
    description: string,
    price: Option<int>,
    category: Option<string>,
    discount: Option<int>,
    rating: Option<int>)

  /** Which of the optional controls the page carries. */
  datatype Controls = Controls(category: bool, discount: bool, rating: bool)

  /** `productCategory?.value || "Electronics"`. */
  function CategoryOrDefault(category: Option<string>): (r: string)
    ensures r != ""
    ensures category.Some? && category.value != "" ==> r == category.value
    ensures category.None? || category.value == "" ==> r == "Electronics"
  {
    match category
    case Some(c) => if c != "" then c else "Electronics"
    case None => "Electronics"
  }

  /** `saveProduct`: an update (PUT to the product's resource) when the hidden
      id is non-empty, otherwise a create (POST to the collection). */
  function SaveProduct(f: Form): (r: Request)
    ensures r.Put? <==> f.id != ""
    ensures r.Post? <==> f.id == ""
    ensures r.Put? ==> r.path == ItemPath(f.id)
    ensures r.Post? ==> r.path == ApiUrl
    ensures !r.Delete? ==> r.body.name == f.name && r.body.description == f.description
                           && r.body.price == f.price
                           && r.body.category == CategoryOrDefault(f.category)
                           && r.body.discount == f.discount.GetOr(0)
                           && r.body.rating == f.rating.GetOr(0)
  {
    var body := Body(f.name, f.description, f.price, CategoryOrDefault(f.category),
                     f.discount.GetOr(0), f.rating.GetOr(0));
    if f.id != "" then Put(ItemPath(f.id), body) else Post(ApiUrl, body)
  }

  /** `openModal`: the form back at its reset values, hidden id cleared. */
  function OpenModal(reset: Form): (f: Form)
    ensures f.id == ""
    ensures f.(id := reset.id) == reset
  {
    reset.(id := "")
  }

  /** Saving from a freshly opened modal always creates. */
  lemma OpenThenSaveCreates(reset: Form)
    ensures SaveProduct(OpenModal(reset)).Post?
    ensures SaveProduct(OpenModal(reset)).path == ApiUrl
  {
  }

  /** `editProduct(id)`: the form filled from the product with that id, or
      `None` (the page unchanged) when no product has it. A missing category
      fills its control with the empty string; a missing discount or rating
      with 0. */
  function EditForm(products: seq<Product>, id: nat, controls: Controls): (r: Option<Form>)
    ensures r.None? <==> forall k :: 0 <= k < |products| ==> products[k].id != id
    ensures r.Some? ==> r.value.id != "" && r.value.id == NatToString(id)
  {
    match FindProduct(products, id)
    case None => None
    case Some(p) =>
      Some(Form(
        NatToString(p.id), p.name, p.description, Some(p.price),
        if controls.category then Some(p.category.GetOr("")) else None,
        if controls.discount then Some(p.discount.GetOr(0)) else None,
        if controls.rating then Some(p.rating.GetOr(0)) else None))
  }

  /** Editing a product and saving without changes sends an update to that
      product's resource carrying its own fields, with the defaults filled in.
      An optional control missing from the page sends its default, 0 or
      "Electronics", whatever the product held. */
  lemma EditThenSaveUpdates(products: seq<Product>, id: nat, controls: Controls, k: nat)
    requires k < |products| && products[k].id == id
    requires forall j :: 0 <= j < k ==> products[j].id != id
    ensures EditForm(products, id, controls).Some?
    ensures
      var p := products[k];
      SaveProduct(EditForm(products, id, controls).value)
      == Put(ItemPath(NatToString(id)),
             Body(p.name, p.description, Some(p.price),
                  if controls.category && p.category.Some? && p.category.value != ""
                  then p.category.value else "Electronics",
                  if controls.discount then p.discount.GetOr(0) else 0,
                  if controls.rating then p.rating.GetOr(0) else 0))
  {
    var p := products[k];
    assert FindProduct(products, id) == Some(p);
    var f := EditForm(products, id, controls).value;
    assert f.id == NatToString(id) && f.id != "";
    assert f.discount == if controls.discount then Some(p.discount.GetOr(0)) else None;
    assert f.rating == if controls.rating then Some(p.rating.GetOr(0)) else None;
  }

  /** `deleteProduct(id)`: a DELETE of the product's resource when the user
      confirms, no request otherwise. */
  function DeleteRequest(id: nat, confirmed: bool): (r: Option<Request>)
    ensures r.Some? <==> confirmed
    ensures r.Some? ==> r.value.Delete? && r.value.path == ItemPath(NatToString(id))
  {
    if confirmed then Some(Delete(ItemPath(NatToString(id)))) else None
  }
}
