# ecom-shop cart, catalog and admin core in Dafny

This project models the core of ecom-shop. ecom-shop is a shop with a React storefront, an admin area and an Express/MongoDB API. The model covers:

- **The cart store** (`CartContext.tsx`). A guest keeps a list of cart entries in the browser, at most one per product. At login that list is merged into the signed-in user's server cart. Adding, updating, removing and clearing work on whichever cart is in use. The item count and total come from that same cart.
- **The cart page and checkout.** This covers when the cart counts as empty, which rows show, and the quantity options. It also covers the order request: 10% tax, free shipping strictly over 100, and the items copied from the server cart. Then the default address and the summary the checkout page displays.
- **The catalog pages** (`ProductsPage.tsx` and its unrouted copy `ProductPage.tsx`). This covers how the URL query is read and edited by `updateFilters`, and the product request built from it. It also covers the star rating component and the product detail page: its review submission with optimistic update, refetch and rollback, its quantity options, and its add-to-cart.
- **The admin pages.** These are:
  - client-side filtering of orders, payments, reviews and users;
  - order pages of seven with a page bar that uses "..." gaps;
  - the products table's five-button page window;
  - local deletes and review approval;
  - the dashboard statistics;
  - the product and category edit forms.
- **The server's product and category controllers.** This covers the listing query with its pagination and sort option, and create, update and delete with every error reply. It also covers the category listing sort and review creation with the re-rating of the product.

How each kind of source code is modelled:

- **Pure logic** becomes datatypes and functions with contracts. This covers filters, pricing, request building and controller decisions.
- **State the source changes in place** becomes a class whose methods say exactly what the new state is. This covers React state, `URLSearchParams` and the fetched Mongoose documents. Examples: `GuestCart.CartProvider`, `UrlFilters.CatalogPage`, `CategoryController.CategoryDocument`.
- **Loops** become methods proved against a specification function. Examples: the page bar of the orders page (`GetPageNumbers`) and the `forEach` of `updateFilters`.
- **JavaScript truthiness** is written out explicitly:
  - an absent string field is `None`, and `""` is falsy;
  - a price of `0` is falsy.
- **The database** is an in-memory value of collections. Sorting the product listing is left to the order of that sequence.

Replies of API calls, confirmations and outcomes of network calls are parameters: `reply`, `apiOk`, `confirmed`, `created`, `serverReviews`.

## Model

| member | source | states |
|---|---|---|
| GuestCart.FirstIndexOf | client/src/context/CartContext.tsx:161-163 | the first entry with the product id, and -1 exactly when no entry has it |
| GuestCart.NewItem | client/src/context/CartContext.tsx:170-180 | the new entry carries the product id, the quantity and `attributes` `{}`; without product data its price is 0, its name "Unknown Product" and it has no image |
| GuestCart.AddGuest | client/src/context/CartContext.tsx:160-181 | after adding, the product has an entry; the cart grows by one exactly when the product was absent; entries of other products stay in place |
| GuestCart.SetQuantity | client/src/context/CartContext.tsx:214-218 | same length and ids in the same order; every entry with the product id gets the new quantity |
| GuestCart.Without | client/src/context/CartContext.tsx:246-248 | never longer than before; every entry of another product is kept |
| GuestCart.Count | client/src/context/CartContext.tsx:281-286 | with non-negative quantities, no entry's quantity exceeds the count |
| GuestCart.Total | client/src/context/CartContext.tsx:288-296 | the sum of price times quantity (no contract of its own; AddTotal and TotalNonNegative state its properties) |
| GuestCart.TotalNonNegative | client/src/context/CartContext.tsx:288-296 | with non-negative prices and quantities the total is never negative |
| GuestCart.ImageOf | client/src/context/CartContext.tsx:177 | a new entry's image is the first of `images` when that is non-empty, otherwise the product data's `image`; nothing without product data |
| GuestCart.MergePayload | client/src/context/CartContext.tsx:95-99 | one merge item per guest entry, in order, with its id and quantity and `attributes` defaulting to `{}` |
| GuestCart.AddExisting | client/src/context/CartContext.tsx:166-169 | adding a product already in the cart raises that entry's quantity and leaves every other entry as it was |
| GuestCart.AddNew | client/src/context/CartContext.tsx:170-180 | adding a new product appends one entry: price defaults to 0, name to "Unknown Product", attributes are `{}`; the earlier entries are unchanged |
| GuestCart.AddKeepsUnique | client/src/context/CartContext.tsx:160-181 | adding never creates a second entry for a product |
| GuestCart.AddCount | client/src/context/CartContext.tsx:160-181 | the item count rises by exactly the quantity added |
| GuestCart.AddTotal | client/src/context/CartContext.tsx:160-181 | the cart total rises by the quantity times the price already recorded for that entry (or the new entry's price); adding never reprices an entry |
| GuestCart.SetQuantitySpec | client/src/context/CartContext.tsx:214-218 | update sets the quantity of the matching entries only, keeps length and order, and keeps ids unique |
| GuestCart.RemoveSpec | client/src/context/CartContext.tsx:246-248 | remove leaves no entry with the id, keeps every other entry in order, and changes nothing when the id is absent |
| GuestCart.RemoveKeepsUnique | client/src/context/CartContext.tsx:246-248 | removing keeps ids unique |
| GuestCart.RemoveCount | client/src/context/CartContext.tsx:246-248 | the remaining count plus the quantities removed is the old count |
| GuestCart.RemovePresentCount | client/src/context/CartContext.tsx:246-248 | with unique ids, removing a product lowers the count by exactly its quantity |
| GuestCart.CartProvider.constructor | client/src/context/CartContext.tsx:68-74 | the store starts signed out, with no server cart and the guest cart restored from the browser |
| GuestCart.CartProvider.HandleUserLogin | client/src/context/CartContext.tsx:88-135 | signed in with guest items, sends the merge payload; on success the cart is the reply and the guest cart is emptied; on failure the guest cart is kept and the cart refetched; signed out, the server cart is dropped |
| GuestCart.CartProvider.AddToCart | client/src/context/CartContext.tsx:137-193 | signed in, the cart is the API reply (kept on failure); as a guest, the guest cart is `AddGuest` of the old one, and unique ids are preserved |
| GuestCart.CartProvider.UpdateItem | client/src/context/CartContext.tsx:195-225 | with a loaded server cart only that cart changes; otherwise only the guest quantities change |
| GuestCart.CartProvider.RemoveItem | client/src/context/CartContext.tsx:227-255 | with a loaded server cart only that cart changes; otherwise the guest entries with the id go |
| GuestCart.CartProvider.ClearCartItems | client/src/context/CartContext.tsx:257-279 | signed in, a successful call drops the server cart; as a guest, the guest cart is emptied |
| GuestCart.CartProvider.GetCartItemsCount | client/src/context/CartContext.tsx:281-286 | the server's `totalItems` when the server cart is in use, else the sum of guest quantities |
| GuestCart.CartProvider.GetCartTotal | client/src/context/CartContext.tsx:288-296 | the server's `totalPrice` when the server cart is in use, else the sum of price times quantity |
| Checkout.OrderPricing | client/src/pages/CheckoutPage.tsx:113-116 | shipping is 0 exactly when the subtotal exceeds 100, else 10; tax is a tenth of the subtotal; total is subtotal + tax + shipping |
| Checkout.TotalDropsAtThreshold | client/src/pages/CheckoutPage.tsx:113-116 | the total is not monotone: any subtotal at most 100 costs more than one just over 100, within 100/11 of it (101 against 100, say) |
| Checkout.TotalBounds | client/src/pages/CheckoutPage.tsx:113-116 | for a non-negative subtotal the total lies between 1.1 times it and that plus 10 |
| Checkout.FirstImage | client/src/pages/CheckoutPage.tsx:123 | the first product image, or "" when there is none |
| Checkout.OrderItems | client/src/pages/CheckoutPage.tsx:119-126 | one order item per cart line, in order, copying id, name, quantity, line price, attributes and first image |
| Checkout.PlaceOrderRequest | client/src/pages/CheckoutPage.tsx:101-137 | a request is sent exactly when a cart is loaded and an address is selected; both addresses are the selection; items and prices come from the cart |
| Checkout.HandlePlaceOrder | client/src/pages/CheckoutPage.tsx:101-152 | the request sent is `PlaceOrderRequest`; only a created order clears the cart, through the store's clear |
| Checkout.SummaryMatchesOrder | client/src/pages/CheckoutPage.tsx:514-530 | the displayed tax and total equal the ones submitted, and "Free" shows exactly when shipping is 0 |
| Checkout.OrderSummary | client/src/pages/CheckoutPage.tsx:514-530 | the shipping line reads "Free" exactly when the subtotal exceeds 100; the displayed total is subtotal + tax + the shipping it shows |
| Checkout.FirstDefault | client/src/pages/CheckoutPage.tsx:49 | the first default address, and -1 exactly when none is default |
| Checkout.DefaultSelection | client/src/pages/CheckoutPage.tsx:48-54 | the first default address is selected, else the first address, else the selection is unchanged |
| CartPage.Rows | client/src/pages/CartPage.tsx:54-118 | the server lines when signed in with a cart, else the guest entries, one row each in order |
| CartPage.IsCartEmpty | client/src/pages/CartPage.tsx:24-26 | the cart page shows "empty" exactly when there are no rows to show, or when a signed-in user has no server cart loaded |
| CartPage.RowId | client/src/pages/CartPage.tsx:146-166 | the id a row's controls act on: the line id of a server row, the product id of a guest row (no contract of its own) |
| CartPage.LineTotal | client/src/pages/CartPage.tsx:161 | a line of quantity 0 costs nothing, of quantity 1 its price, and never a negative amount for non-negative inputs |
| CartPage.NonEmptyShowsRows | client/src/pages/CartPage.tsx:24-26 | past the empty check at least one row shows, and a signed-in user sees only server rows |
| CartPage.GuestRowRemove | client/src/pages/CartPage.tsx:166 | with unique ids, removing by a guest row's id removes exactly that row |
| CartPage.GuestRowUpdate | client/src/pages/CartPage.tsx:146-149 | with unique ids, updating by a guest row's id changes exactly that row |
| CartPage.ServerQuantityOptions | client/src/pages/CartPage.tsx:90-96 | options 1..min(10, stock); a negative stock makes `Array` throw |
| CartPage.ServerOptionOffered | client/src/pages/CartPage.tsx:90-96 | a quantity is offered exactly when it lies in 1..10 and within the stock |
| CartPage.GuestQuantityOptions | client/src/pages/CartPage.tsx:152-156 | guest rows always offer 1..10 |
| CartPage.GuestLineTotals | client/src/pages/CartPage.tsx:161 | one line total per guest entry, price times quantity |
| CartPage.LineTotalsAddUp | client/src/pages/CartPage.tsx:249-262 | the guest line totals add up to the subtotal the summary shows |
| CartPage.HandleQuantityChange | client/src/pages/CartPage.tsx:43-47 | a quantity of 0 or less changes nothing; a positive one goes to `updateItem` |
| Paging.CeilDiv | server/controllers/productController.js:60 | the least page count whose pages hold every element |
| Paging.CeilDivZero | server/controllers/productController.js:60 | there are no pages exactly when there is nothing to list |
| Paging.PageSliceShape | client/src/pages/admin/AdminOrders.tsx:67-69 | from page 1 on, a page is the contiguous block it names and holds at most a page size of elements |
| Paging.EveryElementOnAPage | client/src/pages/admin/AdminOrders.tsx:66-69 | element j is on page j / size + 1 at offset j % size, and that page exists |
| Paging.ChangePage | client/src/pages/admin/AdminOrders.tsx:71-75 | the page moves exactly when the target is within [1, totalPages]; otherwise it stays |
| Text.Lower | server/controllers/productController.js:18 | lower-casing keeps the length and folds each character |
| Text.LowerIdempotent | server/controllers/productController.js:18 | lower-casing twice is lower-casing once |
| Text.EmptyTermMatches | client/src/pages/admin/AdminUsers.tsx:54-59 | the empty search term matches every field |
| Text.FieldMatchesItself | client/src/pages/admin/AdminPayments.tsx:45 | a field always matches itself |
| Text.TermCaseIrrelevant | client/src/pages/admin/AdminOrders.tsx:53 | the case of the search term does not change the outcome |
| Catalog.Slug | server/controllers/categoryController.js:35 | the slug is the name, lower-cased, with every space replaced by '-'; same length |
| Catalog.SlugShape | server/controllers/productController.js:102 | a slug has no space and no upper-case ASCII letter |
| Catalog.SlugIdempotent | server/controllers/productController.js:102 | slugging a slug changes nothing |
| Catalog.SlugIgnoresCase | server/controllers/productController.js:102 | names differing only in case share a slug |
| Catalog.IndexOf | server/controllers/productController.js:161 | the position of the FIRST element with the key, and -1 exactly when none has it |
| Catalog.CategoryIndex | server/controllers/categoryController.js:75 | the position of the category with the id, -1 exactly when there is none (an instance of IndexOf) |
| Catalog.ProductIndex | server/controllers/productController.js:161 | the position of the product with the id, -1 exactly when there is none (an instance of IndexOf) |
| Catalog.FindCategory | server/controllers/categoryController.js:75 | the lookup fails (cast error) exactly for a malformed id, else gives the position |
| Catalog.FindProduct | server/controllers/productController.js:161 | the lookup fails (cast error) exactly for a malformed id, else gives the position |
| ProductController.PageOf | server/controllers/productController.js:13 | the page asked for, or 1 when it is missing, not a number or 0 |
| ProductController.SortOf | server/controllers/productController.js:31-38 | sort by the given field, descending only for "desc"; newest first when there is no field |
| ProductController.SkipLimit | server/controllers/productController.js:54-55 | every available element up to `limit`, in order from position `skip`: none past the end, `limit` when that many remain, otherwise the rest |
| ProductController.Matches | server/controllers/productController.js:15-29 | a query without keyword, category, brand or a full price range matches every product; a product matching both bounds implies min <= max |
| ProductController.GetProducts | server/controllers/productController.js:11-63 | fails exactly for a truthy category that is not an ObjectId (CastError) or a page below 1; otherwise `count` is the number of matches, `pages` their page count, and at most 10 matching products are returned |
| ProductController.ListingIsPageSlice | server/controllers/productController.js:53-55 | the listed products are exactly page `page` of the matches |
| ProductController.EveryMatchIsListed | server/controllers/productController.js:40-60 | every match appears on page j / 10 + 1, which is within the reported page count |
| ProductController.EmptyQueryListsAll | server/controllers/productController.js:15-38 | without filters every product matches, newest first |
| ProductController.OneBoundIgnored | server/controllers/productController.js:26-29 | a single price bound is ignored; the range needs both |
| ProductController.CreateProduct | server/controllers/productController.js:85-140 | a missing name throws; an absent or unknown category is 400 "Invalid category"; a taken slug is 400; otherwise exactly one product is appended |
| ProductController.CreateKeepsSlugsUnique | server/controllers/productController.js:111-116 | creating never gives two products the same slug |
| ProductController.MergeEmptyBody | server/controllers/productController.js:176-194 | an empty update body changes nothing |
| ProductController.MergeProduct | server/controllers/productController.js:164-194 | the id, rating and review count are kept; a truthy name replaces the name and recomputes the slug from it, otherwise both are kept |
| ProductController.MergeZeroes | server/controllers/productController.js:178-185 | a price of 0 is ignored, a stock of 0 is applied |
| ProductController.MergeIdempotent | server/controllers/productController.js:176-194 | the same update twice equals it once; id, rating and review count are never touched |
| ProductController.ProductDocument.constructor | server/controllers/productController.js:161 | the fetched document holds the stored record |
| ProductController.ProductDocument.ApplyUpdate | server/controllers/productController.js:176-194 | the field assignments leave the document equal to `MergeProduct` of the old one |
| ProductController.ProductDocument.AssignNameAndPrice | server/controllers/productController.js:165-179 | name, slug, price and description each take the truthy new value or keep the old one |
| ProductController.ProductDocument.AssignDetails | server/controllers/productController.js:180-183 | rich description, images, brand and category each take the truthy new value or keep the old one |
| ProductController.ProductDocument.AssignStockAndOffers | server/controllers/productController.js:184-194 | stock, featured flag and the discounts take any present value; attributes a truthy one |
| ProductController.UpdateProduct | server/controllers/productController.js:145-202 | unknown product 404; truthy unknown category 400; otherwise only that product changes, to the merge of it and the body |
| ProductController.DeleteProduct | server/controllers/productController.js:207-245 | 404, then 400 when in an order, then 400 when in a cart or wishlist; success exactly when all pass, removing that product |
| ProductController.DeleteRemovesOnlyThat | server/controllers/productController.js:239 | with unique ids, a delete removes that product and keeps every other |
| ProductController.Ratings | server/controllers/productController.js:280 | the ratings of the reviews, in order |
| ProductController.CreateProductReview | server/controllers/productController.js:250-288 | 404 for an unknown product, 400 for a second review by the user; otherwise the review is stored and the product's count and rating are recomputed from all its reviews |
| ProductController.ReviewCountAndRating | server/controllers/productController.js:277-280 | a review raises the count by one and, with ratings in 1..5, keeps the rating in 1..5 |
| ProductController.ReviewKeepsOnePerUser | server/controllers/productController.js:257-265 | at most one review per user and product is preserved |
| CategoryController.NameLeTotal | server/controllers/categoryController.js:10 | any two names are ordered one way or the other |
| CategoryController.InsertByName | server/controllers/categoryController.js:10 | inserting adds exactly the one category |
| CategoryController.InsertKeepsSorted | server/controllers/categoryController.js:10 | inserting into a name-sorted list keeps it sorted |
| CategoryController.SortedByName | server/controllers/categoryController.js:10 | the listing order, names ascending (a predicate, no contract of its own) |
| CategoryController.NameLeTrans | server/controllers/categoryController.js:10 | the name order is transitive |
| CategoryController.SortedFirstIsLeast | server/controllers/categoryController.js:10 | in a sorted listing the first category's name is at most every other name |
| CategoryController.GetCategories | server/controllers/categoryController.js:9-12 | the listing holds exactly the stored categories |
| CategoryController.GetCategoriesSorted | server/controllers/categoryController.js:10 | the listing is in ascending name order and a permutation of the store |
| CategoryController.CreateCategory | server/controllers/categoryController.js:31-67 | a missing name throws; a taken slug is 400; a given parent must exist (400); a blank parent is stored as none; on success the new parent exists |
| CategoryController.CreateKeepsSlugsUnique | server/controllers/categoryController.js:37-42 | creating never gives two categories the same slug |
| CategoryController.ParentCannotBeCleared | server/controllers/categoryController.js:94 | as written, an empty parent keeps the old parent |
| CategoryController.MergeCategoryIntended | server/controllers/categoryController.js:94 | the corrected merge: every field but the parent merges as written, and an empty parent clears it |
| CategoryController.IntendedParentRules | server/controllers/categoryController.js:90-95 | with the intended merge an empty parent clears, a real one is taken, an absent one is kept; other fields merge as written |
| CategoryController.MergeCategory | server/controllers/categoryController.js:78-95 | the id is kept; a truthy name replaces the name and recomputes the slug, otherwise both are kept; description, image and parent are replaced exactly by a truthy value; `isActive` changes exactly when it is defined |
| CategoryController.MergeCategoryEmptyBody | server/controllers/categoryController.js:90-95 | a body with no fields leaves the category unchanged |
| CategoryController.MergeCategoryIdempotent | server/controllers/categoryController.js:90-95 | applying the same update twice equals applying it once |
| CategoryController.CategoryDocument.constructor | server/controllers/categoryController.js:75 | the fetched document holds the stored record |
| CategoryController.CategoryDocument.ApplyUpdate | server/controllers/categoryController.js:90-95 | the assignments leave the document equal to `MergeCategory` of the old one |
| CategoryController.UpdateCategory | server/controllers/categoryController.js:72-103 | unknown category 404; truthy unknown parent 400; otherwise only that category changes, to the merge |
| CategoryController.DeleteCategory | server/controllers/categoryController.js:111-147 | malformed id 400, unknown 404, with subcategories 400, with products 400; success exactly when all pass, removing that category |
| CategoryController.DeleteLeavesNoDanglingRefs | server/controllers/categoryController.js:124-139 | after a delete no category has it as parent and no product is assigned to it |
| AdminOrders.FilteredOrders | client/src/pages/admin/AdminOrders.tsx:50-63 | an order is listed exactly when it passes search, status and payment filters |
| AdminOrders.MatchesSearch | client/src/pages/admin/AdminOrders.tsx:51-55 | searching for an order's own id finds it |
| AdminOrders.TotalPages | client/src/pages/admin/AdminOrders.tsx:66 | the least page count that holds every filtered order at seven a page, 0 exactly when none is left |
| AdminOrders.CurrentOrders | client/src/pages/admin/AdminOrders.tsx:67-69 | at most seven orders on a page, none past the last page |
| AdminOrders.FilteredIsSubsequence | client/src/pages/admin/AdminOrders.tsx:50 | the filter keeps the orders' relative order |
| AdminOrders.NoFiltersShowAll | client/src/pages/admin/AdminOrders.tsx:50-63 | with every filter off every order is shown unchanged |
| AdminOrders.PaymentFilterSplits | client/src/pages/admin/AdminOrders.tsx:58-60 | "paid" and any other non-empty payment value select complementary orders |
| AdminOrders.PagesCoverFiltered | client/src/pages/admin/AdminOrders.tsx:66-69 | a page shows at most 7 orders, and every filtered order is on some page within the page count |
| AdminOrders.Buttons | client/src/pages/admin/AdminOrders.tsx:82-84 | buttons for pages lo..hi in order |
| AdminOrders.PageNumbers | client/src/pages/admin/AdminOrders.tsx:77-108 | no entries without pages; otherwise between one and seven entries |
| AdminOrders.PushRange | client/src/pages/admin/AdminOrders.tsx:82-84 | the loop appends exactly the buttons lo..hi |
| AdminOrders.GetPageNumbers | client/src/pages/admin/AdminOrders.tsx:77-110 | the bar built loop by loop equals `PageNumbers` |
| AdminOrders.FewPagesAllShown | client/src/pages/admin/AdminOrders.tsx:81-84 | up to five pages the bar is every page in order |
| AdminOrders.ManyPagesEnds | client/src/pages/admin/AdminOrders.tsx:85-107 | beyond five pages the bar starts at 1, ends at the last page and has 6 or 7 entries |
| AdminOrders.PageNumbersIncrease | client/src/pages/admin/AdminOrders.tsx:77-110 | page numbers strictly increase along the bar |
| AdminOrders.GapsHidePages | client/src/pages/admin/AdminOrders.tsx:85-107 | neighbouring buttons are neighbouring pages, and a gap stands between two buttons and hides at least one page |
| AdminOrders.CurrentPageShown | client/src/pages/admin/AdminOrders.tsx:77-110 | the current page always has a button |
| AdminOrders.OrdersView.constructor | client/src/pages/admin/AdminOrders.tsx:16-19 | filters off, page 1 |
| AdminOrders.OrdersView.Shown | client/src/pages/admin/AdminOrders.tsx:69 | the current page shows at most 7 orders |
| AdminOrders.OrdersView.SetFilters | client/src/pages/admin/AdminOrders.tsx:40-42 | changing a filter goes back to page 1 and keeps the page valid |
| AdminOrders.OrdersView.GoToPage | client/src/pages/admin/AdminOrders.tsx:71-75 | only a page within [1, totalPages] is taken; the page stays valid |
| AdminProducts.FetchParams | client/src/pages/admin/AdminProducts.tsx:28-32 | the page is always sent; keyword and category exactly when non-empty |
| AdminProducts.WindowLength | client/src/pages/admin/AdminProducts.tsx:377 | five buttons, or as many as there are pages when fewer |
| AdminProducts.WindowStart | client/src/pages/admin/AdminProducts.tsx:378-388 | the window starts at 1 or later and ends by the last page; a page in range lies inside it |
| AdminProducts.PageWindow | client/src/pages/admin/AdminProducts.tsx:377-389 | min(5, totalPages) buttons |
| AdminProducts.WindowInRange | client/src/pages/admin/AdminProducts.tsx:377-389 | the window is a run of consecutive pages inside [1, totalPages] |
| AdminProducts.FewPagesWindow | client/src/pages/admin/AdminProducts.tsx:380-381 | up to five pages the window is exactly 1..totalPages |
| AdminProducts.WindowHoldsCurrent | client/src/pages/admin/AdminProducts.tsx:377-389 | the current page has a button, centred unless within two of an end |
| AdminProducts.PreviousPage | client/src/pages/admin/AdminProducts.tsx:369 | one page back, never below 1 |
| AdminProducts.NextPage | client/src/pages/admin/AdminProducts.tsx:407 | one page on, never beyond the page count |
| AdminProducts.StepsStayInRange | client/src/pages/admin/AdminProducts.tsx:367-412 | Previous and Next stay in [1, totalPages] and undo each other away from the ends |
| AdminProducts.ProductsView.constructor | client/src/pages/admin/AdminProducts.tsx:20-23 | empty fields, page 1 of 1 |
| AdminProducts.ProductsView.Loaded | client/src/pages/admin/AdminProducts.tsx:35-37 | a fetch replaces the rows and the counts |
| AdminProducts.ProductsView.SetSearchTerm | client/src/pages/admin/AdminProducts.tsx:105 | typing sets the term; the next fetch uses it on the current page and category (the fetch depends on it, line 44) |
| AdminProducts.ProductsView.HandleSearch | client/src/pages/admin/AdminProducts.tsx:60-63 | a search goes back to page 1 |
| AdminProducts.ProductsView.SelectCategory | client/src/pages/admin/AdminProducts.tsx:118-121 | choosing a category sets it and goes back to page 1 |
| AdminProducts.ProductsView.Previous | client/src/pages/admin/AdminProducts.tsx:368-370 | the page becomes `PreviousPage` of the old one |
| AdminProducts.ProductsView.Next | client/src/pages/admin/AdminProducts.tsx:406-408 | the page becomes `NextPage` of the old one |
| AdminProducts.ProductsView.ChooseWindowPage | client/src/pages/admin/AdminProducts.tsx:393 | a window button selects its page |
| AdminProducts.ProductsView.HandleDelete | client/src/pages/admin/AdminProducts.tsx:65-69 | after confirmation and a successful call the rows with the id go; otherwise nothing changes |
| AdminReviews.FilteredReviews | client/src/pages/admin/AdminReviews.tsx:71-84 | a review is listed exactly when it matches the search and the approval filter |
| AdminReviews.AllShownByDefault | client/src/pages/admin/AdminReviews.tsx:71-84 | an empty search with "all" shows every review; any filter keeps the order |
| AdminReviews.ApprovedPendingPartition | client/src/pages/admin/AdminReviews.tsx:78-83 | "all" finds exactly what "approved" or "pending" finds, and never both |
| AdminReviews.Approve | client/src/pages/admin/AdminReviews.tsx:43-49 | the review with the id takes the server's approval; nothing else changes |
| AdminReviews.ApprovedLeavesPending | client/src/pages/admin/AdminReviews.tsx:222 | an approved review leaves "pending", loses its approve button, and is still found by the search |
| AdminReviews.AfterDelete | client/src/pages/admin/AdminReviews.tsx:57-61 | after confirmation and a successful call the review leaves the list; otherwise nothing changes |
| AdminPayments.FilteredPayments | client/src/pages/admin/AdminPayments.tsx:42-53 | a payment is listed exactly when it matches the search and the status |
| AdminPayments.AllShownByDefault | client/src/pages/admin/AdminPayments.tsx:42-53 | with both filters empty every payment is listed; any filter keeps the order |
| AdminPayments.SearchReach | client/src/pages/admin/AdminPayments.tsx:43-47 | a payment without transaction id and with an unpopulated user is never found; one is always found by its own transaction id |
| AdminUsers.FilteredUsers | client/src/pages/admin/AdminUsers.tsx:54-59 | a user is listed exactly when name or email contains the term |
| AdminUsers.AllShownByDefault | client/src/pages/admin/AdminUsers.tsx:54-59 | the empty search lists everyone; any search keeps the order |
| AdminUsers.AfterDelete | client/src/pages/admin/AdminUsers.tsx:40-51 | nothing happens for an administrator, a declined confirmation or a failed call; otherwise the user leaves the list |
| AdminUsers.AdminsSurviveDelete | client/src/pages/admin/AdminUsers.tsx:174 | deleting from a row never removes an administrator |
| AdminDashboard.PaidTotals | client/src/pages/admin/AdminDashboard.tsx:135-140 | one total per paid order at most; non-negative totals give non-negative entries; without paid orders there are none |
| AdminDashboard.Revenue | client/src/pages/admin/AdminDashboard.tsx:135-140 | the sum of the paid totals (no contract of its own; the lemmas below state its properties) |
| AdminDashboard.RevenueIsPaidSum | client/src/pages/admin/AdminDashboard.tsx:135-140 | revenue is the sum of the totals of the paid orders and of nothing else |
| AdminDashboard.UnpaidOrderAddsNothing | client/src/pages/admin/AdminDashboard.tsx:136-139 | an unpaid order adds nothing to the revenue |
| AdminDashboard.RevenueNonNegative | client/src/pages/admin/AdminDashboard.tsx:135-140 | with non-negative totals the revenue is non-negative |
| AdminDashboard.PendingOrders | client/src/pages/admin/AdminDashboard.tsx:143-145 | at most the number of orders, and 0 exactly when none is "Pending" |
| AdminDashboard.AfterFetch | client/src/pages/admin/AdminDashboard.tsx:119-166 | on success the counts come from the lists, the revenue is the paid sum, the database shows connected; on failure the statistics stay and it shows an error |
| Forms.SetField | client/src/pages/admin/AdminProductEdit.tsx:81-89 | the named field takes the value, every other field keeps its own |
| Forms.SubmitTargetOf | client/src/pages/admin/AdminProductEdit.tsx:114-120 | update with the route's id exactly in edit mode, else create |
| AdminProductEdit.EmptyProductForm | client/src/pages/admin/AdminProductEdit.tsx:28-41 | the blank form has the twelve fields, no images, not featured, price 0 |
| AdminProductEdit.CategoryKey | client/src/pages/admin/AdminProductEdit.tsx:57-60 | a populated category is reduced to its id, an id is kept |
| AdminProductEdit.WithOptional | client/src/pages/admin/AdminProductEdit.tsx:55-56 | a spread adds the key exactly when the value is present and keeps the rest |
| AdminProductEdit.LoadedProductForm | client/src/pages/admin/AdminProductEdit.tsx:55-61 | the loaded form's category is the category's id, and brand is present exactly when the product has one |
| AdminProductEdit.ChangedValue | client/src/pages/admin/AdminProductEdit.tsx:83-88 | a checkbox stores its checked state, a number input the parsed number, any other input its text |
| AdminProductEdit.HandleChange | client/src/pages/admin/AdminProductEdit.tsx:74-90 | only the named field changes, to the changed value |
| AdminProductEdit.HandleAddImage | client/src/pages/admin/AdminProductEdit.tsx:92-100 | a blank URL changes nothing; otherwise it is appended as typed, the input is cleared, and other fields are kept |
| AdminProductEdit.HandleRemoveImage | client/src/pages/admin/AdminProductEdit.tsx:102-107 | exactly that position is dropped, and other fields are kept |
| AdminProductEdit.AddThenRemoveImage | client/src/pages/admin/AdminProductEdit.tsx:92-107 | adding an image and removing the last position restores the image list |
| AdminCategoryEdit.EmptyCategoryForm | client/src/pages/admin/AdminCategoryEdit.tsx:28-34 | the blank form has five fields, is active and has parent "" |
| AdminCategoryEdit.ParentCandidates | client/src/pages/admin/AdminCategoryEdit.tsx:42-46 | in edit mode every category except itself, else all of them |
| AdminCategoryEdit.NoSelfParent | client/src/pages/admin/AdminCategoryEdit.tsx:41-46 | a category is never offered as its own parent, and the others keep their order |
| AdminCategoryEdit.ParentKey | client/src/pages/admin/AdminCategoryEdit.tsx:52-55 | a populated parent gives its id, an id itself, no parent "" |
| AdminCategoryEdit.LoadedCategoryForm | client/src/pages/admin/AdminCategoryEdit.tsx:50-56 | the loaded form's parent is `ParentKey`, its name the category's, and isActive present exactly when the record has it |
| AdminCategoryEdit.TopLevelLoadsEmptyParent | client/src/pages/admin/AdminCategoryEdit.tsx:55 | a top-level category loads with parent "" |
| AdminCategoryEdit.HandleChange | client/src/pages/admin/AdminCategoryEdit.tsx:69-81 | a checkbox stores its checked state, any other input its text; only the named field changes |
| UrlFilters.Get | client/src/pages/ProductsPage.tsx:33 | absent exactly when no pair has the name, else a value paired with it |
| UrlFilters.DeleteKey | client/src/pages/ProductsPage.tsx:142 | exactly the pairs with other names remain |
| UrlFilters.SetKey | client/src/pages/ProductsPage.tsx:149 | after `set`, the key holds exactly the new value and every other pair is kept |
| UrlFilters.GetAfterDelete | client/src/pages/ProductsPage.tsx:147 | after a delete the name is gone and every other name reads as before |
| UrlFilters.GetAfterSet | client/src/pages/ProductsPage.tsx:149 | after a set the name reads as the value and every other name as before |
| UrlFilters.SetKeepsOthersInOrder | client/src/pages/ProductsPage.tsx:149 | a set disturbs no other pair, order included |
| UrlFilters.DeleteTwice | client/src/pages/ProductsPage.tsx:147 | deleting a name twice is deleting it once |
| UrlFilters.GetAfterEntry | client/src/pages/ProductsPage.tsx:145-151 | one entry leaves its name reading as the entry says and others as before |
| UrlFilters.UntouchedKeysKept | client/src/pages/ProductsPage.tsx:145-151 | a name no entry mentions reads as before |
| UrlFilters.ApplyFilters | client/src/pages/ProductsPage.tsx:145-151 | the `forEach` over the new filters (no contract of its own; GetAfterEntry, UntouchedKeysKept and EntriesTakeEffect state its effect) |
| UrlFilters.EntriesTakeEffect | client/src/pages/ProductsPage.tsx:145-151 | with distinct names every entry's name ends up unset for undefined or "", else its text |
| UrlFilters.GetOr | client/src/pages/ProductsPage.tsx:33-34 | the value when present and non-empty, else the fallback |
| UrlFilters.PriceText | client/src/pages/ProductsPage.tsx:35-40 | a bound is present exactly when its parameter is present and non-empty |
| UrlFilters.ReadUrl | client/src/pages/ProductsPage.tsx:33-42 | the sort field and order read from the URL are never empty |
| UrlFilters.EmptyUrlDefaults | client/src/pages/ProductsPage.tsx:33-42 | an empty URL reads as no filter, newest first |
| UrlFilters.KeywordSearchKeepsOtherFilters | client/src/pages/ProductsPage.tsx:99-102 | a keyword search changes the keyword reading only |
| UrlFilters.IndexOf | client/src/pages/ProductsPage.tsx:125 | the first position of the character, -1 exactly when it is absent |
| UrlFilters.SortSelection | client/src/pages/ProductsPage.tsx:125 | without a '-' the whole value is the field and there is no order; the field and the order never contain '-' |
| UrlFilters.SortSelectionSplits | client/src/pages/ProductsPage.tsx:125 | an option "field-order" splits back into its field and order |
| UrlFilters.SearchParams.Delete | client/src/pages/ProductsPage.tsx:142 | the pairs become `DeleteKey` of the old ones |
| UrlFilters.SearchParams.Set | client/src/pages/ProductsPage.tsx:149 | the pairs become `SetKey` of the old ones |
| UrlFilters.BoundText | client/src/pages/ProductsPage.tsx:35-40 | a price bound present in the URL is held as `String(Number(text))`; an absent one stays absent |
| UrlFilters.CatalogPage.constructor | client/src/pages/ProductsPage.tsx:33-54 | the form starts from what the URL says, on page 1, with the price bounds normalised through `Number` |
| UrlFilters.CatalogPage.UpdateFilters | client/src/pages/ProductsPage.tsx:130-154 | back to page 1; the query becomes the entries applied in order after dropping `pageNumber` |
| UrlFilters.CatalogPage.HandleSearch | client/src/pages/ProductsPage.tsx:99-102 | writes the typed term as the keyword |
| UrlFilters.CatalogPage.HandleCategoryChange | client/src/pages/ProductsPage.tsx:104-107 | sets the category field and writes it |
| UrlFilters.CatalogPage.HandlePriceChange | client/src/pages/ProductsPage.tsx:109-115 | a non-empty input sets that bound to its number, an empty one clears it; the other bound and the URL are untouched |
| UrlFilters.CatalogPage.HandleApplyPriceFilter | client/src/pages/ProductsPage.tsx:117-122 | writes both bounds; an undefined one is removed |
| UrlFilters.CatalogPage.HandleSortChange | client/src/pages/ProductsPage.tsx:124-128 | splits the selection and writes field and order |
| UrlFilters.CatalogPage.HandlePageChange | client/src/pages/ProductsPage.tsx:156-160 | pages outside [1, totalPages] are ignored |
| UrlFilters.CatalogPage.ClearFilters | client/src/pages/ProductsPage.tsx:162-168 | the form returns to its defaults and the URL loses every parameter |
| UrlFilters.UpdateFiltersEffect | client/src/pages/ProductsPage.tsx:130-154 | after `updateFilters` the page number is unset, each entry's name reads as the entry says, every other name as before |
| ProductsPage.QueryParams | client/src/pages/ProductsPage.tsx:73-84 | page number; keyword and category sent, unchanged, exactly when non-empty; bounds when defined, as their numbers; the sort field when non-empty; the sort order exactly when "asc" or "desc" |
| ProductsPage.RequestSortIsWellFormed | client/src/pages/ProductsPage.tsx:41-42 | the request always names a sort field and a well-formed order or none; a URL without sort asks for newest first |
| ProductPage.QueryParams | client/src/pages/ProductPage.tsx:64-73 | as the routed page, but any non-empty sort order is forwarded |
| ProductPage.PagesDifferOnlyInSortOrder | client/src/pages/ProductPage.tsx:73 | the two pages' requests differ only in the sort order, exactly when it is neither "asc" nor "desc" |
| ProductPage.SameServerSort | client/src/pages/ProductPage.tsx:73 | the listing sorts both pages' requests the same way |
| Rating.Stars | client/src/components/Rating.tsx:11-22 | five stars, star r chosen from the value |
| Rating.FilledIffHalfReached | client/src/components/Rating.tsx:15-19 | star r is filled exactly when the value is at least r - 1/2 |
| Rating.FillingIsMonotone | client/src/components/Rating.tsx:11-22 | filled stars come first |
| Rating.FilledCount | client/src/components/Rating.tsx:11-22 | the number of filled stars, never more than there are stars |
| Rating.Extremes | client/src/components/Rating.tsx:11-22 | 4.5 and above fills all five stars, below 0.5 none |
| Rating.FilledCountIsRounded | client/src/components/Rating.tsx:11-22 | the number of filled stars is the value rounded half up, clamped to 0..5 |
| Rating.Caption | client/src/components/Rating.tsx:23 | the caption appears exactly for a non-empty text |
| ProductDetail.Ratings | client/src/pages/ProductDetailPage.tsx:107 | the ratings of the reviews, in order |
| ProductDetail.AverageRating | client/src/pages/ProductDetailPage.tsx:106-108 | the average times the number of reviews is the sum of their ratings |
| ProductDetail.SubmitOutcome | client/src/pages/ProductDetailPage.tsx:69-153 | the reviews end as they were or as the server's refetch; a signed-in, created review resets the form |
| ProductDetail.Rerated | client/src/pages/ProductDetailPage.tsx:110-116 | the product's count is the list's length and its rating the list's mean; nothing else changes |
| ProductDetail.Optimistic | client/src/pages/ProductDetailPage.tsx:101-122 | the placeholder is appended, the product is re-rated over the longer list (its rating the mean of that list's ratings, its count that list's length), and the form is reset |
| ProductDetail.RejectedSubmitChangesNothing | client/src/pages/ProductDetailPage.tsx:72-77 | signed out, or with the review refused, nothing changes |
| ProductDetail.RefetchRerates | client/src/pages/ProductDetailPage.tsx:127-141 | after the refetch the server list shows and the product is re-rated over it |
| ProductDetail.RefetchFailureRollsBack | client/src/pages/ProductDetailPage.tsx:147-149 | a failed refetch restores list and product though the form was reset |
| ProductDetail.OptimisticRatingIsMean | client/src/pages/ProductDetailPage.tsx:102-115 | the optimistic rating times the new count is the old ratings' sum plus the submitted rating, and the count is one more than before |
| ProductDetail.EmptyRefetchKeepsOptimistic | client/src/pages/ProductDetailPage.tsx:126-140 | a refetch returning no reviews empties the list but keeps the optimistically re-rated product |
| ProductDetail.OptimisticRatingInRange | client/src/pages/ProductDetailPage.tsx:106-108 | with ratings in 1..5 the optimistic rating stays in 1..5 |
| ProductDetail.QuantityOptions | client/src/pages/ProductDetailPage.tsx:278-299 | options exist exactly for an in-stock product, 1..min(10, stock) |
| ProductDetail.QuantityOffered | client/src/pages/ProductDetailPage.tsx:293-299 | a quantity is offered exactly when in 1..10 and within the stock |
| ProductDetail.DetailAddLosesPriceAndName | client/src/pages/ProductDetailPage.tsx:59-63 | as written, a guest's new line from the detail page costs 0, is "Unknown Product" and has no image |
| ProductDetail.CardData | client/src/components/ProductCard.tsx:19-25 | the card passes the product's price and name, and the guest line's image becomes the product's first image |
| ProductDetail.CardDataKeepsPriceAndName | client/src/components/ProductCard.tsx:19-25 | with the card's product data the new line has the product's price, name and first image |
| ProductDetail.DetailPage.constructor | client/src/pages/ProductDetailPage.tsx:45-47 | the loaded product and reviews, with the first image selected |
| ProductDetail.DetailPage.ApplyOptimistic | client/src/pages/ProductDetailPage.tsx:101-122 | the state becomes `Optimistic` of the old one: the placeholder appended, the product re-rated to the mean of the longer list, the form reset |
| ProductDetail.DetailPage.SubmitReview | client/src/pages/ProductDetailPage.tsx:69-153 | the state becomes `SubmitOutcome` of the old one |
| ProductDetail.DetailPage.HandleAddToCart | client/src/pages/ProductDetailPage.tsx:59-63 | without a product nothing changes; for a guest, the line is added without product data |
| ProductDetail.DetailPage.HandleAddToCartIntended | client/src/components/ProductCard.tsx:17-26 | for a guest, the line is added with the card's product data |

## Left out

- The server's cart, order, review, user and address controllers and routes are not part of this model. Their replies are parameters (`reply`, `apiOk`, `created`).
- The `api/` wrappers, axios, `localStorage`, toasts, navigation and `AuthContext` are left out. Signed-in state and stored carts are inputs.
- Effect timing and React re-rendering are left out. Each handler is one atomic step. Concurrent or interleaved requests and the login effect's dependency list are not modelled.
- `checkSystemStatus` on the dashboard (API polling and health) is left out because it is I/O only.
- Floating point is modelled as exact `real`. `toFixed(2)` display rounding is left out.
- `Number(...)` / `Number.parseFloat` conversions are inputs (`parsed`, `pageNumber`). NaN is modelled only as "absent".
- JSON `null` in request bodies or records is not modelled. Fields are either present or `undefined`.
- MongoDB's `$regex` search is modelled as a case-insensitive substring test with ASCII-only case folding. Regex metacharacters in the keyword are not interpreted.
- `toLowerCase` folds only ASCII A-Z.
- Sorting of `getProducts` is delegated to the database. The store is taken as already in the sort option's order, and the sort option is part of the result.
- The category sort uses code-point order.
- Mongoose schema defaults and validation are not modelled. A created product takes neutral values for absent fields, and a created category is active.
- `Product.create` / `Category.create` returning nothing (the 400 "Invalid … data" branch) cannot happen in the model.
- `getProductById`, `getCategoryById`, `getTopProducts` and `getFeaturedProducts` are left out. They are plain reads with no logic beyond a 404.
- `mongoose.Types.ObjectId.isValid` is modelled for strings only: 24 hex digits or any 12 characters.
- The default argument `quantity = 1` of `addToCart` (CartContext.tsx:139) is not modelled: every caller passes a quantity, and the model always takes one.
- GuestCart.AddExisting: the in-place `+=` on the shared entry object (CartContext.tsx:168-169) is modelled as a value update. The aliasing with the previous state array is not captured.
- AdminProductEdit.LoadedProductForm states only the category key and brand presence, not every copied field, to keep the map proof small.
- AdminCategoryEdit.LoadedCategoryForm states only parent, name and isActive.
- Fractional page numbers are not modelled: pages are integers.
- The "Showing x–y of n" label on the products table is left out because it is display only.
- `Number(text)` followed by `String(number)` on the catalog pages' price bounds is a parameter (`numberText`). Its own behaviour ("010" to "10", "abc" to "NaN") is not modelled.
- ProductController.GetProducts: the price bounds are modelled as numbers. A non-numeric `priceMin` or `priceMax` given together with the other bound makes the cast to Number throw (a 500), and this path is not captured.
- Pages that only render (icons, classes, layout) are not modelled beyond the values they show.

## Findings

| source | as written | input that shows it | evidently intended | confidence | as-written member | corrected member |
|---|---|---|---|---|---|---|
| client/src/pages/ProductDetailPage.tsx:59-63 | `handleAddToCart` calls `addToCart(product._id, quantity)` without product data | a guest adds a product not yet in the cart from its detail page; the guest line gets price 0 and name "Unknown Product" | pass the product's price, name and image, as `ProductCard.tsx:19-25` does | not executed | ProductDetail.DetailAddLosesPriceAndName | ProductDetail.CardDataKeepsPriceAndName |
| server/controllers/categoryController.js:94 | `category.parent = parent \|\| category.parent` | updating a subcategory with the edit form's "None" parent (`parent: ""`) keeps the old parent, so a category can never be moved back to the top level | an empty parent clears it, as `createCategory` (line 58) treats it | not executed | CategoryController.ParentCannotBeCleared | CategoryController.IntendedParentRules |
