# Shop backend core: cart, favourites, product rules and orders

This project models the business core of a small e-commerce REST backend. It covers:

- the shopping cart each user document carries: adding a product, deleting it, changing its quantity, listing the cart (which reconciles it against the catalogue and stores the result), and clearing it;
- the money figures derived from the cart after every change: items price, tax, shipping and total;
- the user's list of favourite products;
- the product rules: required-field validation when products are added or updated, and reviews that keep a product's review count and mean rating in step with its reviews;
- the product filter query and the pagination arithmetic of the listing handlers;
- orders: checking a cart out into an order, summing the sales, and marking an order paid or delivered.

The database is modelled as values:

- the product collection is a `map` from product id to product (`Catalog.Catalogue`);
- a user's cart is a `CartEngine.CartValue`;
- the order collection is a sequence whose positions are the order ids.

Wherever a handler changes stored state, a class changes it in place:

- `CartEngine.Cart`, `Users.Account`, `Products.ProductStore` and `Orders.OrderTable`.

Each method of those classes is proved equal to a value-level function of the same handler: `AddStep`, `DeleteStep`, `UpdateStep`, `ListStep`, `AddFavouriteStep`, `PayStep` and so on. The properties are proved about those functions.

Money is integer cents. The source computes in floating-point dollars and rounds with `toFixed(2)`; the model computes in cents:

- items price: the sum of `price * qty`;
- tax: 15% rounded half up, `(15 * items + 50) / 100`;
- shipping: 0 when the items price exceeds 100.00 (10000 cents) and 10.00 otherwise;
- total: the sum of the three.

Files:

- `catalog.dfy`: products, reviews, `Option`, `Result`;
- `lists.dfy`: list helpers shared by favourites and reviews;
- `pricing.dfy`: cart lines and the totals formula;
- `cart.dfy`: the cart handlers;
- `users.dfy`: favourites;
- `products.dfy`: validation and reviews;
- `queries.dfy`: filter and pagination;
- `orders.dfy`: orders.

In these places the model follows what the code does rather than what its messages suggest:

- An add whose quantity is 0 or missing adds one item (`+qty || 1`). A negative quantity is refused as "not available". The "choose the quantity" reply can never be reached (`CartEngine.AddStep` proves the refusal).
- An update with quantity 0 removes the line, but only in memory: the pass over the remaining lines is what stores the cart. When the product was the cart's only line, the pass visits nothing. The reply is success, yet the stored cart still holds the line and its old money fields (`CartEngine.UpdateStep`).
- An update with a negative quantity, or one above the stock, is refused. An update does not lower quantities to the stock; only a listing does that.
- The stock a cart request is checked against is the product's `quantity` field, not `countInStock`.
- Checkout copies the cart's items, shipping and total prices but not its tax.

## Model

| member | source | states |
|---|---|---|
| Pricing.TaxOf | controllers/userController.js:434 | the tax is 15% of the items price to the nearest cent: its distance from the exact 15% is at most half a cent |
| Pricing.ShippingOf | controllers/userController.js:430 | shipping is free exactly when the items price is above 100.00, otherwise 10.00 |
| Pricing.TotalsOf | controllers/userController.js:424-442 | the four money fields of a set of lines: items price is the sum of price times quantity, shipping is free exactly above 100.00 and 10.00 otherwise, tax is 15% of items to the nearest cent, and the total is items plus tax plus shipping |
| Pricing.SumFromShift | controllers/userController.js:424-426 | the reduce with a starting sum equals that start plus the reduce from zero |
| Pricing.ItemsPriceCons | controllers/userController.js:424-426 | a line put in front of the cart adds its own price times quantity to the items price |
| Pricing.ItemsPriceAppend | controllers/userController.js:424-426 | the items price of two concatenated line lists is the sum of their items prices |
| Pricing.TotalsOfCons | controllers/userController.js:424-442 | putting a line in front of the others raises the items price by exactly that line's price times quantity |
| Pricing.TotalsOfEmpty | controllers/userController.js:424-442 | the formula applied to no lines gives items 0, tax 0, shipping 10.00 |
| Pricing.TotalsExamples | controllers/userController.js:424-442 | worked examples: two items at 60.00 cost 120.00 + 18.00 tax + free shipping = 138.00; two at 40.00 cost 80.00 + 12.00 tax + 10.00 shipping = 102.00 |
| Lists.IndexOf | controllers/userController.js:340 | `indexOf` of an element gives the first position holding it; the handlers call it only after a `find` has shown the element is present, so the absent case (-1 in the source) is never reached |
| Lists.RemoveFirst | controllers/userController.js:340 | `splice(indexOf(x), 1)` of a present element removes one occurrence: length minus one, multiset minus that element |
| Lists.RemoveFirstOfDistinct | controllers/userController.js:340 | in a duplicate-free list removing an element leaves exactly the other elements, still duplicate-free |
| Lists.RemoveFirstAfterAppend | controllers/userController.js:291 | removing an element that was just pushed onto a list not containing it gives the list back |
| CartEngine.EffectiveQty | controllers/userController.js:391 | the requested add quantity is never 0: a given non-zero number is kept, 0 or a missing quantity means 1 |
| CartEngine.Find | controllers/userController.js:412-417 | the looked-up line is in the cart and has the id; no line is found exactly when no line has the id |
| CartEngine.AddStep | controllers/userController.js:389-555 | which error each add gets (unknown product; quantity outside 1..stock; product already in cart; never "choose the quantity"); on success the new line goes to the front with the effective quantity, the other lines are refreshed from the catalogue and the totals are the formula of the new lines; a failed add for an unknown product or bad quantity changes nothing; well-formedness is kept |
| CartEngine.DeleteStep | controllers/userController.js:557-686 | deleting succeeds exactly when the product exists and is in the cart; success drops that product's line, refreshes the rest, and zeroes the totals when the cart becomes empty; failures change nothing; well-formedness is kept |
| CartEngine.UpdateStep | controllers/userController.js:688-809 | the error cases of an update (unknown product, not in cart, quantity negative or above stock) in both directions; success sets the quantity, removes the line for 0, or only refreshes when no quantity is given, then stores the refreshed lines with the formula's totals; when the edit leaves no line nothing is stored and the cart is as before; failures change nothing; well-formedness is kept |
| CartEngine.ListStep | controllers/userController.js:811-924 | a user without a cart gets an error and nothing changes; otherwise the stored cart becomes the reconciled lines with the formula's totals; well-formedness is kept |
| CartEngine.ClearStep | controllers/userController.js:926-945 | an existing cart is emptied with zero totals; a missing cart stays missing |
| CartEngine.FindRemoveId | controllers/userController.js:585-587 | after the filter the deleted product has no line and every other product's lookup is unchanged |
| CartEngine.RemoveIdAbsent | controllers/userController.js:585-587 | filtering out a product that has no line leaves the lines unchanged |
| CartEngine.RemoveIdWellFormed | controllers/userController.js:585-587 | the filter keeps ids distinct and quantities positive and only keeps existing lines |
| CartEngine.FindSetQty | controllers/userController.js:712-716 | setting a quantity changes that product's line to the new quantity and no other lookup |
| CartEngine.SetQtyWellFormed | controllers/userController.js:712-716 | setting a positive quantity keeps ids distinct and quantities positive |
| CartEngine.EditQtyWellFormed | controllers/userController.js:712-730 | the quantity edit of an update keeps ids distinct and quantities positive |
| CartEngine.RefreshedCons | controllers/userController.js:731-799 | the refresh pass handles the first line on its own and then the rest |
| CartEngine.RefreshedAppend | controllers/userController.js:731-799 | the refresh pass handles each line independently, so it distributes over concatenation |
| CartEngine.FindRefreshed | controllers/userController.js:485-535 | after a refresh a product's line exists exactly when it existed and the product is still in the catalogue, with the current product and the same quantity |
| CartEngine.RefreshedWellFormed | controllers/userController.js:485-535 | the refresh pass keeps ids distinct and quantities positive |
| CartEngine.RefreshedKeepsOrder | controllers/userController.js:485-535 | when every product still exists, the refresh keeps every line in its place with its quantity and the current product |
| CartEngine.RefreshedIdempotent | controllers/userController.js:731-799 | a second refresh against the same catalogue changes nothing |
| CartEngine.ReconciledCons | controllers/userController.js:829-916 | the listing pass handles the first line on its own and then the rest |
| CartEngine.ReconciledAppend | controllers/userController.js:829-916 | the listing pass distributes over concatenation |
| CartEngine.FindReconciled | controllers/userController.js:829-916 | in a cart with one line per product, a product keeps a line after a listing exactly when it had one, still exists and its quantity lowered to the stock is positive; that line carries the current product and the lowered quantity |
| CartEngine.ReconciledSound | controllers/userController.js:835-843 | every line a listing leaves has a catalogue product, carries that product, and has quantity between 1 and its stock |
| CartEngine.ReconciledWellFormed | controllers/userController.js:829-916 | a listing keeps ids distinct and leaves only positive quantities |
| CartEngine.ReconciledFixesSound | controllers/userController.js:829-916 | lines that are already current and within stock are left exactly as they are |
| CartEngine.ReconciledIdempotent | controllers/userController.js:829-916 | reconciling twice gives the lines of reconciling once |
| CartEngine.ListStepIdempotent | controllers/userController.js:811-924 | listing the cart twice without a catalogue change leaves the cart of listing it once |
| CartEngine.ListStepSound | controllers/userController.js:811-924 | after a listing every line is in the catalogue, current, and within stock |
| CartEngine.AddStepFind | controllers/userController.js:483 | after a successful add the product's line has the effective quantity and every other product's lookup is as after a refresh |
| CartEngine.AddTwiceRejected | controllers/userController.js:412-417 | a second add of a product that was just added never succeeds |
| CartEngine.DeleteUndoesAdd | controllers/userController.js:557-686 | deleting the product just added leaves the refreshed lines the cart had before |
| CartEngine.UpdateStepFind | controllers/userController.js:712-720 | after a successful update with a positive quantity the product's line has that quantity; with 0 it has no line unless it was the cart's only line, which then stays stored as it was; other lookups are as after a refresh |
| CartEngine.UpdateZeroVersusDelete | controllers/userController.js:717-731 | for the cart's only product, a delete stores an empty cart with zero money fields while an update to 0 stores nothing and the line stays; otherwise both leave the same lines, and where those lines end empty the delete zeroes the money fields while the update stores the empty-cart formula (10.00 shipping) |
| CartEngine.UpdateWithoutQtyRefreshes | controllers/userController.js:712 | an update without a quantity only runs the refresh pass |
| CartEngine.ClearThenList | controllers/userController.js:926-945 | listing a cleared cart gives an empty cart with zero totals |
| CartEngine.RefreshAt | controllers/userController.js:731-799 | one callback of the refresh pass replaces the visited line by its refreshed form and says where the next one is |
| CartEngine.ReconcileAt | controllers/userController.js:829-916 | one callback of the listing pass replaces the visited line by its clamped form and says where the next one is |
| CartEngine.Cart.RefreshLines | controllers/userController.js:485-535 | the in-place pass leaves the refreshed lines and the formula's totals, or the old totals when there was nothing to visit |
| CartEngine.Cart.ReconcileLines | controllers/userController.js:829-916 | the in-place listing pass leaves the reconciled lines and matching totals |
| CartEngine.Cart.AddToCart | controllers/userController.js:389-555 | the stored cart and reply are those of `AddStep`; the cart stays well-formed |
| CartEngine.Cart.DeleteFromCart | controllers/userController.js:557-686 | the stored cart and reply are those of `DeleteStep`; the cart stays well-formed |
| CartEngine.Cart.UpdateAmountInCart | controllers/userController.js:688-809 | the stored cart and reply are those of `UpdateStep`, including the unchanged cart when the edit leaves no line; the cart stays well-formed |
| CartEngine.Cart.GetCartProducts | controllers/userController.js:811-924 | the stored cart and reply are those of `ListStep`; the cart stays well-formed |
| CartEngine.Cart.ClearCartItems | controllers/userController.js:926-945 | the stored cart is that of `ClearStep` |
| Users.AddFavouriteStep | controllers/userController.js:244-299 | unknown product and already-favourite are the only refusals, each in both directions; success appends the product; duplicates never arise |
| Users.RemoveFavouriteStep | controllers/userController.js:301-347 | unknown product and not-a-favourite are the only refusals; success removes the first occurrence and keeps the order of the rest; in a duplicate-free list exactly that product leaves |
| Users.RemoveUndoesAdd | controllers/userController.js:244-347 | removing a product just made a favourite gives the list back |
| Users.AddFavouriteTwice | controllers/userController.js:273-285 | a second add of the same favourite is refused and leaves the list of the first |
| Users.RemoveFavouriteCounts | controllers/userController.js:340 | removal lowers that product's count by one and leaves every other count |
| Users.Account.AddFavourite | controllers/userController.js:244-299 | the stored list and reply are those of `AddFavouriteStep`; the reviewed list is untouched; the list stays duplicate-free |
| Users.Account.RemoveFavourite | controllers/userController.js:301-347 | the stored list and reply are those of `RemoveFavouriteStep`; the reviewed list is untouched; the list stays duplicate-free |
| Products.FirstMissing | controllers/productController.js:12-41 | no field is reported only when all are given; a reported field is missing and every field checked before it is given; a number field counts as given whenever its form text is non-empty, so `"0"` passes |
| Products.FirstMissingIsEarliest | controllers/productController.js:12-41 | with two fields missing the later one is never reported |
| Products.NewProduct | controllers/productController.js:7-58 | a product is created exactly when no field is missing, with the form's fields and consistent empty review figures |
| Products.ZeroNumbersAccepted | controllers/productController.js:12-54 | a complete form whose price, quantity and stock count are `"0"` is accepted and saves a free, out-of-stock product |
| Products.UpdateStep | controllers/productController.js:95-155 | the product must exist, then the form must be complete; success replaces the seven form fields of that product only and keeps its reviews, count and rating |
| Products.UpdateKeepsConsistent | controllers/productController.js:137-150 | an update keeps a product's review count and rating in step with its reviews |
| Products.AddReviewStep | controllers/productController.js:183-234 | the refusals (already reviewed, no rating, no comment) in both directions; success appends the user's review and leaves the count equal to the number of reviews and the rating equal to their mean, other fields unchanged |
| Products.DeleteReviewStep | controllers/productController.js:236-280 | refused exactly when the product is not on the user's reviewed list; otherwise all the user's reviews go, the count drops by one, the rating is recomputed over that count, and the first occurrence leaves the reviewed list, the rest keeping their order |
| Products.WithoutUserMembers | controllers/productController.js:260 | the filter keeps exactly the other users' reviews, and its length drops by the user's review count |
| Products.CountByOfHasReview | controllers/productController.js:192-199 | a user has no review exactly when their review count is 0 |
| Products.DeleteKeepsConsistent | controllers/productController.js:260-268 | deleting a user's single review keeps count and rating consistent and leaves no review by the user |
| Products.AddKeepsReviewedAgrees | controllers/productController.js:192-234 | a successful review pushes the product onto the reviewed list and keeps the two in agreement: the product is listed exactly when the user has a review on it, and at most once |
| Products.DeleteKeepsReviewedAgrees | controllers/productController.js:249-272 | from agreement, one review per user and consistent figures, a delete leaves the product consistent with one review per user and none by this user, takes the product off the reviewed list, and keeps the agreement, so the state the handlers produce always meets the premise of the delete |
| Products.WithoutUserKeepsOneReviewPerUser | controllers/productController.js:260 | the filter that drops a user's reviews keeps one review per user |
| Products.DeleteWithoutReviewMiscounts | controllers/productController.js:249-261 | a user who is on the reviewed list but has no review makes the count fall below the number of reviews |
| Products.WithoutUserOfAbsent | controllers/productController.js:260 | filtering out a user without reviews keeps the reviews |
| Products.AddKeepsOneReviewPerUser | controllers/productController.js:192-199 | reviews added through the handler never give a user two reviews |
| Products.OneReviewPerUserCount | controllers/productController.js:192-199 | with one review per user, a user with a review has exactly one |
| Products.RatingSumAppend | controllers/productController.js:225-227 | appending a review adds its rating to the sum |
| Products.RatingSumBounds | controllers/productController.js:225-227 | ratings within a range give a sum within the range times the count |
| Products.MeanBounds | controllers/productController.js:225-227 | the stored mean of ratings within a range lies within that range |
| Products.ProductStore.AddProduct | controllers/productController.js:7-58 | the reply is the first missing field; on success exactly the new product is stored under the new id |
| Products.ProductStore.UpdateProduct | controllers/productController.js:95-155 | the stored catalogue and reply are those of `UpdateStep` |
| Products.ProductStore.AddProductReview | controllers/productController.js:183-234 | an unknown product is refused; otherwise the stored product and reply are those of `AddReviewStep`, and success appends the product to the user's reviewed list |
| Products.ProductStore.DeleteProductReview | controllers/productController.js:236-280 | an unknown product is refused; otherwise the stored product, the user's reviewed list and the reply are those of `DeleteReviewStep` |
| ProductQueries.BuildFilterArgs | controllers/productController.js:348-358 | the category condition appears only when categories are checked; each price bound appears exactly when given; a product matches exactly when it is in a checked category and within the given bounds |
| ProductQueries.EmptyFilterSelectsAll | controllers/productController.js:351-360 | a request with no category and no price bound finds every product |
| ProductQueries.CategoriesSelectFewer | controllers/productController.js:352-360 | checking categories never finds more products, and every product found is in a checked category |
| ProductQueries.NarrowerBoundSelectsFewer | controllers/productController.js:356-358 | narrowing the price range never finds more products |
| ProductQueries.ParamOr | controllers/productController.js:61-62 | a missing parameter falls back to the default; a non-zero one is kept; 0 is kept as text by three handlers and replaced by the default by the fourth |
| ProductQueries.PagesCount | controllers/productController.js:64 | the page count is the ceiling of count over page size (no finite result for size 0) |
| ProductQueries.Paginate | controllers/productController.js:60-77 | the page and page size are the requested ones read as the handler reads them (`ParamOr`), falling back to 1 and 6; the page count is `PagesCount` of that size and the skip is the size times the page minus one; with no parameters it skips nothing and counts pages of six |
| ProductQueries.PageOfIndex | controllers/productController.js:64-67 | every product position lies on one of the counted pages |
| ProductQueries.PagesAreNonEmpty | controllers/productController.js:64-67 | every counted page starts before the end of the collection |
| ProductQueries.PageHoldsIndexIff | controllers/productController.js:67 | a page holds a position exactly when it is the position's page |
| Orders.BuildOrder | controllers/orderController.js:7-32 | checkout is refused exactly when the cart is missing or empty; otherwise the order copies the lines, the shipping address and payment method from the request, and the items, shipping and total prices, records no tax, and is neither paid nor delivered |
| Orders.OrderTotalIncludesTax | controllers/orderController.js:11-26 | an order from a priced cart charges the tax in its total although it does not record it |
| Orders.CheckoutAfterListing | controllers/orderController.js:11-26 | an order placed right after a listing holds only current, in-stock lines |
| Orders.SalesFromShift | controllers/orderController.js:61 | the reduce with a starting sum equals that start plus the reduce from zero |
| Orders.TotalSalesSnoc | controllers/orderController.js:61 | one more order adds its total to the sales |
| Orders.TotalSalesIsSum | controllers/orderController.js:59-63 | the sales figure is the plain sum of the order totals, and 0 with no orders |
| Orders.TotalSalesOnlyTotals | controllers/orderController.js:61 | only the order totals enter the sales figure |
| Orders.PayStep | controllers/orderController.js:99-117 | paying fails exactly when no payer is given; success sets the flag, the time and the payment record and changes nothing else |
| Orders.DeliverStep | controllers/orderController.js:119-133 | delivering sets the flag and the time and changes nothing else |
| Orders.StatusChangesKeepSales | controllers/orderController.js:99-133 | paying or delivering an order leaves the sales figure unchanged |
| Orders.PayIsIdempotentOnFlag | controllers/orderController.js:99-117 | paying twice is paying once with the later time |
| Orders.OrderTable.CreateOrder | controllers/orderController.js:7-32 | a refused checkout stores nothing; an accepted one appends the order and returns its position |
| Orders.OrderTable.MarkOrderAsPaid | controllers/orderController.js:99-117 | an unknown id is refused; otherwise the order is replaced as `PayStep` says, the others are untouched |
| Orders.OrderTable.MarkOrderAsDelivered | controllers/orderController.js:119-133 | an unknown id is refused; otherwise the order is replaced as `DeliverStep` says, the others are untouched |
| Orders.OrderTable.CalculateTotalSales | controllers/orderController.js:59-63 | the loop returns the sales figure of the stored orders |

The definitions the contracts above are stated against, and the source each one stands for:

- `Pricing.SumFrom`, `Pricing.ItemsPrice`: the reduce over the lines, controllers/userController.js:424-426.
- `CartEngine.RemoveId`: the filter by product id, controllers/userController.js:585-587 and 718-720.
- `CartEngine.SetQty`: setting the found line's quantity, controllers/userController.js:714-716.
- `CartEngine.EditQty`: the quantity edit of an update, controllers/userController.js:712-730.
- `CartEngine.RefreshLine`, `CartEngine.Refreshed`, `CartEngine.RefreshPass`: the pass after an add, a delete and an update, controllers/userController.js:485-535, 588-659 and 731-799.
- `CartEngine.ClampLine`, `CartEngine.Clamped`, `CartEngine.Reconciled`, `CartEngine.ReconcilePass`: the pass of a listing, controllers/userController.js:829-916.
- `Products.RatingSum`, `Products.Mean`: the sum of ratings and the stored rating, controllers/productController.js:225-227 and 263-267.
- `Products.WithoutUser`: the filter of a user's reviews, controllers/productController.js:260.
- `ProductQueries.Matches`, `ProductQueries.Selected`: what `Product.find(args)` returns, controllers/productController.js:360.
- `ProductQueries.Skip`: the number of products skipped before a page, controllers/productController.js:67.
- `Orders.SalesFrom`, `Orders.TotalSales`: the reduce of `calculateTotalSales`, controllers/orderController.js:59-63.

## Left out

- Authentication, login, logout, profiles and the user administration handlers are not modelled. The "log in first" and missing-user replies are left out because every modelled handler runs for an existing user.
- HTTP status codes, response bodies and the validation of route parameters are not modelled. An unknown product id stands in for a malformed one.
- `getFavourites`, `getReviewedProducts`, `fetchProductById`, `deleteProduct`, `getAllOrders`, `getUserOrder`, `countTotalOrders`, `findOrderById` and `calculateTotalSalesByDate` are left out: they read or delete and carry no rule beyond a lookup, or they depend on date grouping in the database.
- The category controller and image uploads are left out because they are outside the core. Image fields are not part of the product record.
- Concurrency is left out. Each pass over the cart is a `lines.map(async ...)` whose callbacks are not awaited, and some handlers reply before the pass ends. The model runs each pass sequentially to the end before the next statement.
- CartEngine.AddStep: the already-in-cart branch re-reads the user and saves the cart before it recomputes the totals. The stored totals can therefore lag one line behind; the model stores the recomputed ones.
- Floating point and `toFixed(2)` text are not modelled. Money is integer cents, and the tax is rounded half up.
- The product form arrives as multipart text, so its number fields are `None` when absent or empty and otherwise the number the text denotes; a `"0"` counts as given. The review rating and the filter's price bounds arrive as JSON numbers, and 0 stands for a missing value there, because both are falsy. The cart quantities keep a missing value and 0 apart (`Option<int>`). Text that is not a number (NaN) is not modelled, either in query parameters or in the product form: the form check only tests that a field is non-empty, so a price such as `"abc"` passes it and fails only when the database casts it on save.
- Negative prices, stock and stock counts are not modelled: `Catalog.Product` holds them as `nat`, while the form check lets a `"-1"` through. With a negative stock, the source's listing would clamp a line to that negative quantity and keep it, since it drops only lines with quantity 0. `CartEngine.ReconciledSound` therefore promises positive quantities only for the non-negative stock the model can hold.
- Fractional quantities are not modelled: cart quantities are integers, while `+req.body.qty` and `req.body.qty` accept a fraction such as 2.5 within the stock. Product form numbers are likewise whole.
- Products.AddReviewStep: the rating is an integer. The handler stores `Number(rating)` for any truthy rating, so it also accepts and averages a fraction such as 4.5; `Products.MeanBounds` covers only whole ratings.
- ProductQueries.Paginate: a page below 1 with a positive limit, or a negative limit on a page above 1, gives a negative skip, which the database refuses. The model only computes the figure.
- ProductQueries.BuildFilterArgs: a request without `checked` makes the source throw. The model takes the list as given.
- Products.NewProduct: the product schema is not part of this model. It is taken to default the reviews to none, the count to 0 and the rating to 0.
- Products.ProductStore.AddProduct: the database chooses the new id. The method takes a fresh id as input (`requires id !in products`).
- The empty-product-id check of `removeFavourite` is left out because a route always supplies the id.
- Orders.BuildOrder: the order schema is not part of this model and the handler sets none of these fields. The absent tax field is modelled as `None`, and the order is taken to start unpaid and undelivered with no payment time, payment result or delivery time.
