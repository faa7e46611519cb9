# Shop cart and checkout, modelled in Dafny

This project models the cart and order logic of a small Django shop (the `myapp` application).
The database is replaced by an in-memory store:
- a fixed catalog of products, each with an id, a name and an integer price;
- a sequence of orders, each with a customer, a `complete` flag, an optional transaction id and its lines;
- a sequence of shipping addresses.

An order's position in the sequence is its primary key. Its lines are a sequence of
(product, quantity) rows. `Cart.Quantities` reads them as a map from product to quantity.

The modules follow the program's structure:

- `Models` (models.dfy) holds the entities of `myapp/models.py` and the values derived from them:
  - `Customer.__str__`;
  - the field defaults of a new order and a new line;
  - `OrderItem.get_total`, `Order.get_cart_items` and `Order.get_cart_total`;
  - `Order.shipping`.

  The lemmas show that both sums are additive over lines.
- `Cart` (cart.dfy) holds the line-level half of `updateItem`:
  - get or create the line at quantity 0;
  - apply `+1` for `"add"` or `-1` for `"remove"`;
  - save the line, then delete it when its quantity is `<= 0`.

  The lemmas relate this to a map-level reference definition (`UpdateQuantities`). They
  also prove the "add", "remove" and other-action behaviour, validity of the lines and the
  exact change of both totals.
- `Orders` (orders.dfy) holds the store-level effect of the views as pure functions:
  - get-or-create of the customer's open order;
  - one `updateItem` request;
  - one `processOrder` checkout.

  The store invariant has three parts. A customer has at most one open order. Every line
  is positive, distinct and refers to a catalog product. An order carries a transaction id
  exactly when it is complete.
- `Search` (search.dfy) holds the `name__icontains` filter of the `products` and
  `product_list` views, with ASCII case folding.
- `Views` (shop.dfy) holds the class `Shop`. Its methods `GetOrCreateOpenOrder`, `UpdateItem`
  and `ProcessOrder` update the store's fields step by step, as the views do. Each is proved
  to produce exactly the state that the corresponding `Orders` function describes, and to
  keep the invariant.

Two details of the code are easy to misread:
- The transaction id is assigned to the order object in every authenticated checkout, but
  the only `save()` is in the matching branch (`myapp/views.py:199-203`). So the stored
  order gets the id only when the totals match. A mismatch leaves the stored order open and
  without an id.
- `OrderItem.get_total` dereferences the line's product (`myapp/models.py:85`). A line
  whose product is missing is therefore an error, not a zero. `LineTotal` and `CartTotal`
  require every product to be present, and the store invariant guarantees it.

## Model

| member | source | states |
|---|---|---|
| `Models.CustomerLabel` | myapp/models.py:12-13 | The label is the customer's name when set and non-empty, otherwise "Unnamed Customer"; it is never empty |
| `Models.NewOrder` | myapp/models.py:47-51 | A new order belongs to its customer, is not complete, has no transaction id and no lines |
| `Models.NewOrderItem` | myapp/models.py:79 | A new line refers to its product with quantity 0 |
| `Models.FindProduct` | myapp/views.py:173 | A product is found exactly when some catalog entry has the id, and the result is that catalog entry |
| `Models.LineTotal` | myapp/models.py:83-86 | A line's total is its product's price times its quantity; it is defined only when the product exists |
| `Models.CartItems` | myapp/models.py:70-74 | The unit count of an empty order is 0, and it is at least the number of lines when every quantity is positive |
| `Models.CartTotal` | myapp/models.py:63-67 | The total of an empty order is 0 and is non-negative for non-negative prices and quantities; every line's product must exist |
| `Models.Shipping` | myapp/models.py:56-60 | `shipping` is false whatever the lines are |
| `Models.CartItemsConcat` | myapp/models.py:71-74 | The unit count of two groups of lines is the sum of their counts |
| `Models.CartTotalConcat` | myapp/models.py:63-67 | The total of two groups of lines is the sum of their totals |
| `Models.CartItemsAppend` | myapp/models.py:73 | Adding a line with quantity q raises the unit count by q |
| `Models.CartTotalAppend` | myapp/models.py:66 | Adding a line raises the total by that line's price times quantity |
| `Models.CartItemsRemoveAt` | myapp/models.py:73 | Deleting a line lowers the unit count by its quantity |
| `Models.CartItemsSetAt` | myapp/models.py:73 | Changing one line's quantity changes the unit count by the difference |
| `Models.CartTotalRemoveAt` | myapp/models.py:66 | Deleting a line lowers the total by that line's total |
| `Models.CartTotalSetAt` | myapp/models.py:66 | Changing one line's quantity changes the total by the difference of its line totals |
| `Cart.Adjust` | myapp/views.py:178-181 | The quantity moves by at most one, and any action other than "add" or "remove" leaves it unchanged; the exact effect of each action is stated by `Cart.UpdateLinesAdd`, `Cart.UpdateLinesRemove` and `Cart.UpdateLinesOther` |
| `Cart.SaveLine` | myapp/views.py:183-186 | A line saved with a quantity `<= 0` is deleted (one line fewer), otherwise the line count is kept; its effect on validity and totals is stated by `Cart.SaveLineValid`, `Cart.SaveLineCartItems` and `Cart.SaveLineCartTotal` |
| `Cart.UpdateLines` | myapp/views.py:176-186 | One request changes the number of lines by at most one; its meaning is stated by `Cart.UpdateLinesRefines` against the map-level reference `Cart.UpdateQuantities` |
| `Cart.UpdateQuantities` | myapp/views.py:176-186 | The map-level reference changes only the requested product's entry, and never keeps an entry `<= 0` |
| `Cart.FindLine` | myapp/views.py:176 | The line found is the first one for the product, and there is none exactly when no line names the product |
| `Cart.QuantitiesHas` | myapp/views.py:176 | The map view has an entry for a product exactly when the order has a line for it |
| `Cart.UpdateLinesRefines` | myapp/views.py:176-186 | On lines with distinct products, one request keeps them distinct, and the map view changes exactly as the map-level reference (adjust, then drop the entry when `<= 0`) says |
| `Cart.UpdateLinesAdd` | myapp/views.py:176-179 | "add" sets the product's quantity to its old quantity plus one, changes no other product, and an absent product ends at 1 |
| `Cart.UpdateLinesRemove` | myapp/views.py:176-186 | "remove" lowers the product's quantity by one and drops it when it reaches `<= 0`; other products are unchanged; removing an absent product leaves the lines exactly as they were |
| `Cart.UpdateLinesOther` | myapp/views.py:178-186 | Any other action leaves the lines exactly as they were, because the line created at 0 is deleted again |
| `Cart.SaveLineValid` | myapp/views.py:183-186 | Saving a line then deleting it when `<= 0` leaves no line with quantity `<= 0` |
| `Cart.UpdateLinesValid` | myapp/views.py:176-186 | After a request for a catalog product, the lines are still distinct, all positive and all in the catalog |
| `Cart.SaveLineCartItems` | myapp/views.py:183-186 | Saving a line moves the unit count from its old quantity to the new one, or to 0 when the line is deleted |
| `Cart.UpdateLinesCartItems` | myapp/views.py:176-186 | One request changes `get_cart_items` by exactly `ItemsDelta`: +1 for "add", -1 for "remove" of a present product, 0 otherwise |
| `Cart.RemoveLineCartTotal` | myapp/views.py:186 | Deleting a line lowers the total by its product's price times its quantity |
| `Cart.SetLineCartTotal` | myapp/views.py:183 | Saving a line with a new quantity moves the total by its product's price times the change |
| `Cart.SaveLineCartTotal` | myapp/views.py:183-186 | Saving a line moves the total by the product's price times the change in its quantity |
| `Cart.UpdateLinesCartTotal` | myapp/views.py:176-186 | One request changes `get_cart_total` by the product's price times the same delta |
| `Cart.AddThenRemove` | myapp/views.py:176-186 | A "remove" right after an "add" of the same product restores the lines exactly |
| `Orders.FindOpenOrder` | myapp/views.py:174 | The order found is an incomplete order of the customer, and there is none exactly when the customer has no open order |
| `Orders.WithOpenOrder` | myapp/views.py:174 | Get-or-create keeps the number of orders or adds one; its full contract is `Orders.GetOrCreateSpec` |
| `Orders.OpenIndex` | myapp/views.py:197 | The index get-or-create yields is an existing position or the one just appended; see `Orders.GetOrCreateSpec` |
| `Orders.GetOrCreateSpec` | myapp/views.py:174 | Get-or-create keeps the invariant and all earlier orders, appends exactly one order only when the customer had none open, yields the customer's one open order, and the appended order is `NewOrder(c)`: not complete, no transaction id, no lines |
| `Orders.UpdateItemOrders` | myapp/views.py:173-186 | `updateItem` adds no order beyond get-or-create; its properties are stated by `Orders.UpdateItemPreservesInvariant` and `Orders.UpdateItemTotals` |
| `Orders.UpdateItemPreservesInvariant` | myapp/views.py:173-186 | `updateItem` for a catalog product keeps the store invariant, changes only the customer's open order (applying `UpdateLines` to its lines), never touches a completed order, and adds at most one order |
| `Orders.UpdateItemTotals` | myapp/views.py:176-186 | `updateItem` changes the open order's unit count by `ItemsDelta` and its total by price times `ItemsDelta` |
| `Orders.CheckoutOrders` | myapp/views.py:197-203 | Checkout adds no order beyond get-or-create; its properties are stated by `Orders.CheckoutSpec` |
| `Orders.CheckoutSpec` | myapp/views.py:197-203 | Checkout keeps the invariant. The open order becomes complete with the transaction id exactly when the submitted total equals its cart total. On a mismatch the store is the one get-or-create left, and no other order changes |
| `Orders.CheckoutEmptyCart` | myapp/views.py:197-203 | An empty cart submitted with total 0 completes and stores the transaction id |
| `Orders.CheckoutClosesCart` | myapp/views.py:197-203 | After a matching checkout the customer has no open order left |
| `Search.LowerChar` | myapp/views.py:124 | ASCII upper-case letters map to their lower-case forms; every other character is kept; the result is never upper case |
| `Search.Lower` | myapp/views.py:124 | Lower-casing keeps the length and folds each character separately |
| `Search.Contains` | myapp/views.py:124 | The result is true exactly when the query occurs in the name at some position |
| `Search.MatchesQuery` | myapp/views.py:124 | Every name matches the empty query; case is ignored, as `Search.MatchesQueryIgnoresCase` states |
| `Search.FilterByName` | myapp/views.py:124 | The filter never lengthens the catalog; see `Search.FilterByNameSpec` and `Search.FilterByNameConcat` |
| `Search.FilterByNameConcat` | myapp/views.py:124 | Filtering two parts of a catalog gives the two filtered parts in order, so a repeated entry is kept as often as it occurs |
| `Search.FilterByNameSingle` | myapp/views.py:124 | A single product is kept exactly when its name matches |
| `Search.FilterByNameSpec` | myapp/views.py:124 | The filter keeps exactly the catalog products whose name contains the query ignoring case, in catalog order |
| `Search.SearchProductsSpec` | myapp/views.py:121-127 | An empty query lists the whole catalog; any other query lists exactly the matching products as a subsequence of the catalog (the same rule as `product_list`, myapp/views.py:223-227) |
| `Search.SearchProducts` | myapp/views.py:121-127 | The result is never longer than the catalog; the search rule is stated by `Search.SearchProductsSpec` |
| `Search.EmptyQueryMatchesAll` | myapp/views.py:122-127 | Filtering with the empty query would also list the whole catalog |
| `Search.MatchesQueryIgnoresCase` | myapp/views.py:124 | Case is ignored on both sides: lower-casing the query, or the name, does not change whether they match |
| `Views.Shop.GetOrCreateOpenOrder` | myapp/views.py:174 | Returns the index of the customer's only open order. It appends a new order exactly when none was open and keeps the invariant and the addresses |
| `Views.Shop.UpdateItem` | myapp/views.py:167-188 | An unknown product id is refused before any order is created. Otherwise the reply is "Item was added" and the store becomes `UpdateItemOrders` of the old store. The invariant and the addresses are kept |
| `Views.Shop.ProcessOrder` | myapp/views.py:191-220 | A caller who is not logged in gets the error and nothing changes. Otherwise the store becomes `CheckoutOrders` of the old store and the reply is the success message. Exactly one address with the verbatim fields is appended exactly when shipping data is present, whatever the totals |

## Left out

- `Product.save` image resizing and `imageURL` (myapp/models.py:23-45): image-library calls and file storage.
- `login`, `register_view`, `logout_user` and the `post_save` signals that create customers (myapp/views.py:14-79): Django authentication and signals. A customer is an id here, and a caller who is not logged in is `None`.
- Views.Shop.ProcessOrder: a malformed request body is not modelled, and the typed parameters cannot express its partial effects. If `data['form']['total']` is missing or not a number (myapp/views.py:198), the request fails after get-or-create has already stored a new open order if the customer had none. If `data['shipping']` is truthy but not a mapping with `address`, `city`, `state` and `zipcode` (myapp/views.py:205-213), the request fails after `order.save()` has already completed a matching order. The caller then gets an error and no address is stored.
- Template rendering, `JsonResponse` and `json.loads` of request bodies: HTTP plumbing. Decoded request fields are method parameters, and the JSON replies are the `Reply` datatype.
- The page views `home`, `aboutus` and `feedback` only render, and `myorder` only reads. `cart`, `checkout` and `products` (myapp/views.py:112, 140, 155) also run get-or-create for a logged-in caller, which is `Views.Shop.GetOrCreateOpenOrder`. `Search.SearchProducts` models only the product filter of `products`. The guest-path crash in `cart` and the possible `None` dereference in `myorder` are not reproduced.
- Prices are `FloatField` values and the checkout compares `float` values. Here prices and totals are integers (the smallest currency unit) compared exactly, so rounding is not modelled.
- The transaction id is a timestamp taken from the clock. Here it is an opaque string parameter.
- Two requests racing through get-or-create are not modelled. The model is sequential, and the one-open-order invariant is stated only for sequential calls.
- The database collation of `icontains` is replaced by ASCII case folding.
- `updateItem` from a caller who is not logged in (the attribute error on `request.user.customer`) is not modelled. `Views.Shop.UpdateItem` takes a customer id.
- Nullable foreign keys (an order without a customer, a line whose product was deleted) and changes to the catalog are not modelled. The catalog is fixed, and the invariant keeps every line's product in it.
- The `MultipleObjectsReturned` error of get-or-create cannot arise. For the order (myapp/views.py:174, 197) the one-open-order invariant rules it out. For the line (myapp/views.py:176) `Cart.DistinctProducts` rules it out, because no order has two lines for one product. Every operation keeps both.
- A `NULL` quantity is not modelled. Quantities are integers that start at 0.
- The date fields (`date_oredered`, `date_added`) and the `__str__` of `Product`, `Order` and `ShippingAddress` are not modelled. They are timestamps and plain field reads.
