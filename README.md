# Shop page: cart, search and product form

This project models the browser script of a small shop front
(`src/main/resources/static/js/app.js`). The script caches the catalog it
fetches from `/api/products`, renders it as cards, filters it on the client,
keeps a shopping cart in memory and sends create, update and delete requests
from a modal form. The Dafny modules follow the sections of the script:

- `Wrappers`: `Option`, which stands for a JavaScript value that may be `undefined` or `NaN`.
- `Sequences`: `Filter` (`Array.prototype.filter`) and `SubsequenceOf` ("keeps the order").
- `Catalog`: the `Product` record and `products.find(p => p.id === id)`.
- `Cart`: cart entries, the add and remove operations, and the count and total.
  The class `CartManager` owns the page's `products` and `cart` globals.
  Its methods update them in place and keep the cart invariant: ids are distinct and quantities are at least 1.
- `Search`: `searchProduct`, `filterProducts` and `resetFilter`, with the `|| 0` / `|| Infinity` defaulting of the price bounds.
- `Cards`: the star string, the discount badge and the product grid that `renderProducts` shows.
- `Save`: the request that `saveProduct`, `editProduct` + `saveProduct`, `openModal` + `saveProduct` and `deleteProduct` send.

Modelling choices:

- Prices are integers (minor currency units) and ratings are whole numbers.
- Category, discount and rating are `Option`s. The server entity
  (`src/main/java/com/sundar/ecommerce/entity/Product.java:12-26`) has only
  id, name, description and price, so in the page these three fields are
  often `undefined`.
- Form fields hold values that are already parsed. `None` means the control is missing or the text gave NaN.
- `toLowerCase` is modelled for ASCII letters only.
- `repeat` throws a RangeError when its count is negative. The model treats
  this as an error outcome: `Stars` returns `None` and the grid is
  `Aborted`, keeping the cards built before the throw. It is not a
  precondition.
- Because `0` is falsy, a maximum price of 0 also means "no upper bound"
  (`UpperBound`, `ZeroMaxIsNoMax`). With the name "red", prices 0 to 1000
  and a blank category, the filter keeps "Red Shirt" and "Red Lamp" in
  catalog order (`RedUnderOneThousand`).
- When `editProduct` sets the category control from a product with no
  category, the model assumes the control ends up empty. The page's HTML
  is not part of this model.

## Model

| member | source | states |
|---|---|---|
| Catalog.FindProduct | src/main/resources/static/js/app.js:61 | the result is the first product with the id, and `None` exactly when no product has it |
| Cart.FindEntry | src/main/resources/static/js/app.js:64 | the result is the index of the first cart entry with the id, and `None` exactly when no entry has it |
| Cart.CartManager.constructor | src/main/resources/static/js/app.js:2-3 | the page starts with an empty catalog and an empty cart that is well-formed |
| Cart.CartManager.LoadProducts | src/main/resources/static/js/app.js:14-18 | a successful fetch replaces the catalog wholesale and leaves the cart and its invariant as they were |
| Cart.CartAfterAdd | src/main/resources/static/js/app.js:60-66 | adding grows the cart by at most one entry; no existing snapshot changes; entries with other ids stay as they were; an appended entry is the found product with quantity 1; an unknown id leaves the cart unchanged |
| Cart.CartManager.AddToCart | src/main/resources/static/js/app.js:60-69 | the new cart is `CartAfterAdd` of the old one, the catalog is unchanged, and ids stay distinct with quantities of at least 1 |
| Cart.AddUnknownIdKeepsCart | src/main/resources/static/js/app.js:60-62 | adding an id that no product has leaves the cart unchanged |
| Cart.AddExistingIncrements | src/main/resources/static/js/app.js:64-65 | adding an id already in the cart raises that entry's quantity by exactly 1; the length and every other entry stay the same |
| Cart.AddNewAppends | src/main/resources/static/js/app.js:66 | adding a product that is not yet in the cart appends one entry at the end, a copy of the product with quantity 1 |
| Cart.AddPreservesWellFormed | src/main/resources/static/js/app.js:60-66 | adding keeps ids pairwise distinct and quantities at least 1 |
| Cart.AddTwiceGivesQuantityTwo | src/main/resources/static/js/app.js:60-66 | adding the same product twice gives one entry with quantity 2, not two entries |
| Cart.RemoveEntries | src/main/resources/static/js/app.js:96 | an entry is in the result exactly when it was in the cart and has a different id; no entry with the id is left |
| Cart.CartManager.RemoveFromCart | src/main/resources/static/js/app.js:95-98 | the new cart is `RemoveEntries` of the old one, the catalog is unchanged, and the invariant holds |
| Cart.RemoveKeepsOrder | src/main/resources/static/js/app.js:96 | removal keeps the other entries in their original order (the result is a subsequence of the cart) |
| Cart.RemoveAbsentIsNoOp | src/main/resources/static/js/app.js:96 | removing an id that is not in the cart leaves the cart unchanged |
| Cart.RemoveIdempotent | src/main/resources/static/js/app.js:96 | removing twice gives the same cart as removing once |
| Cart.RemovePreservesWellFormed | src/main/resources/static/js/app.js:95-96 | removal keeps ids pairwise distinct and quantities at least 1 |
| Cart.RemoveThenAddIsFresh | src/main/resources/static/js/app.js:60-96 | after a removal, adding the product again gives a fresh entry with quantity 1; no earlier quantity carries over |
| Cart.CartManager.Summary | src/main/resources/static/js/app.js:80-92 | the count shown is the sum of the quantities, and the total accumulated by the loop is the sum of price times quantity |
| Cart.CountAndTotalBounds | src/main/resources/static/js/app.js:80-92 | in a well-formed cart with non-negative prices, the count is at least the number of entries and the total is not negative; both are 0 for an empty cart |
| Cart.AddRaisesCount | src/main/resources/static/js/app.js:60-91 | adding a product that is in the catalog raises the displayed count by exactly 1 |
| Cart.AddRaisesTotal | src/main/resources/static/js/app.js:60-92 | adding raises the total by one unit price: the existing entry's snapshot price, or the catalog price for a new entry |
| Cart.RemoveLowersCount | src/main/resources/static/js/app.js:91-96 | removing an id lowers the count by exactly the units held under that id |
| Search.Lower | src/main/resources/static/js/app.js:111 | lower-casing keeps the length, turns each upper-case ASCII letter into its lower-case letter, and leaves every other character unchanged |
| Search.Contains | src/main/resources/static/js/app.js:112 | the recursive `includes` is true exactly when the needle occurs at some position of the text |
| Search.Search | src/main/resources/static/js/app.js:109-113 | a product is shown exactly when it is in the catalog and its name contains the query, ignoring case |
| Search.SearchKeepsOrder | src/main/resources/static/js/app.js:112 | search results keep catalog order, and an empty query shows the whole catalog |
| Search.SearchIgnoresCase | src/main/resources/static/js/app.js:111-112 | the results are the same for a query and its lower-cased form |
| Search.LowerBound | src/main/resources/static/js/app.js:118 | a blank or unparsable minimum becomes 0; any other minimum is kept |
| Search.UpperBound | src/main/resources/static/js/app.js:119 | there is no upper bound exactly when the maximum is blank, unparsable or 0; otherwise the maximum is the bound |
| Search.FilterProducts | src/main/resources/static/js/app.js:116-126 | a product is shown exactly when it is in the catalog and passes all four tests (`Admits`) |
| Search.FilterProductsSpec | src/main/resources/static/js/app.js:116-126 | the filter result is a subsequence of the catalog, and it holds a product exactly when all four tests pass: name substring, `min <= price`, `price <= max`, and a blank or equal category |
| Search.ZeroMaxIsNoMax | src/main/resources/static/js/app.js:119 | a maximum of 0 filters exactly like a blank maximum |
| Search.ResetShowsWholeCatalog | src/main/resources/static/js/app.js:130-135 | with the inputs cleared, the filter shows the whole catalog, as `resetFilter` renders it (given non-negative prices) |
| Search.RedUnderOneThousand | src/main/resources/static/js/app.js:116-126 | for "red" with prices 0 to 1000 and a blank category (no category filter), the result is both red items in catalog order, and the blue shirt is dropped |
| Cards.Repeat | src/main/resources/static/js/app.js:36 | `repeat(n)` has length n and every character is the repeated one |
| Cards.Stars | src/main/resources/static/js/app.js:36 | for a rating r in [0,5] the string has 5 characters: r filled stars, then empty ones; for any other r it is an error |
| Cards.StarsCount | src/main/resources/static/js/app.js:36 | for a rating r in [0,5] there are exactly r filled stars and 5 - r empty stars |
| Cards.Badge | src/main/resources/static/js/app.js:35 | a badge is shown exactly when the discount is present and above 0, and it shows that discount |
| Cards.CardFor | src/main/resources/static/js/app.js:33-54 | a card exists exactly when the rating is in range; it carries the product's id, price, badge and star string |
| Cards.BuildCards | src/main/resources/static/js/app.js:32-56 | the loop builds one card per product, in order, and stops at the first product whose rating is out of range |
| Cards.RenderProducts | src/main/resources/static/js/app.js:24-57 | the placeholder appears exactly for an empty list; otherwise one card per product; or the cards before the first failing product |
| Save.NatToString | src/main/resources/static/js/app.js:172 | a printed id is a non-empty string of decimal digits |
| Save.NatToStringRoundTrip | src/main/resources/static/js/app.js:172 | reading the printed id back gives the id |
| Save.ItemPathInjective | src/main/resources/static/js/app.js:198 | different ids address different resources |
| Save.CategoryOrDefault | src/main/resources/static/js/app.js:166 | the category sent is never empty: the control's value if non-empty, otherwise "Electronics" |
| Save.SaveProduct | src/main/resources/static/js/app.js:160-178 | the request is an update (PUT to `/api/products/{id}`) exactly when the hidden id is non-empty, otherwise a create (POST to `/api/products`); the body copies the fields, with discount and rating defaulting to 0 |
| Save.OpenModal | src/main/resources/static/js/app.js:141-146 | opening the modal clears the hidden id and leaves the reset values otherwise |
| Save.OpenThenSaveCreates | src/main/resources/static/js/app.js:141-177 | saving from a freshly opened modal always creates (POST to the collection) |
| Save.EditForm | src/main/resources/static/js/app.js:180-194 | editing an id that no product has does nothing; otherwise the hidden id is the product's printed id, which is never empty |
| Save.EditThenSaveUpdates | src/main/resources/static/js/app.js:160-194 | editing a product and saving it unchanged sends a PUT to that product's resource with its own fields; a missing optional control sends the default |
| Save.DeleteRequest | src/main/resources/static/js/app.js:196-199 | a DELETE of the product's resource is sent exactly when the user confirms, and no request otherwise |

## Left out

- All markup and DOM work: the card and cart-item HTML, `toggleCart`,
  `populateCategoryFilter` and its fixed category list, `closeModal`, the
  modal's visibility and `window.onclick`. These only change the display.
- The guard at the top of `updateCartUI` that returns when the cart panel is
  missing. It changes only what is displayed, never the cart.
- `checkout`: it only shows an alert and changes nothing.
- The network: the `axios` calls, the `.then`/`.catch` callbacks, the
  reload after a save or a delete, closing the modal on success, and the
  error alerts. A save or a delete is modelled as the request it would send.
  A fetch is modelled as `LoadProducts` with the fetched list as a parameter.
  A failed fetch leaves the state as it was, which is the same as not calling it.
- Concurrent requests and out-of-order responses: the model is sequential.
- Number parsing (`parseFloat`, `parseInt`, `Math.round`), fractional prices
  and ratings, NaN arithmetic: prices and ratings are whole numbers, and form
  fields are given already parsed.
- Search.Lower: folds only ASCII letters, whereas `toLowerCase` folds all of Unicode.
- Search.ResetShowsWholeCatalog: assumes prices are not negative, as the server
  entity requires. For a negative price, the cleared filter would hide a
  product that `resetFilter` still shows.
- `src/main/java/com/sundar/ecommerce/controller/ProductController.java` and
  `ProductRepository.java`: server code over a persistence service that is not
  part of this model.
