# A Dafny model of the storefront core

This project models the core of a Next.js clothing storefront and proves properties of it. The model covers:

- **Catalog.** Parsing and normalising the products document (`parseProductsJson`), the search over it, the filter panel, the sort, and the simple catalog lookups.
- **Catalog routes.** The HTTP routes that add, replace and delete products and categories in the catalog file.
- **Cart.** The cart reducer, the order total and order id, and the provider that saves carts and places orders in the user database.
- **Session.** Login, signup and profile update against the user database, plus the admin order ledger and the administrator seed.
- **Client components.** The checkout step machine, the cart page handlers, the add-to-cart button, the administrator's product and category forms, the phone input, and the product card's slug and option pre-selection.

## Form of the model

Pure code is written as functions and lemmas. Component and context state that the source updates step by step is written as classes with `modifies` clauses:

- `SearchView`, `FilterPanel`, `CartProvider`, `AuthSession`, `CheckoutProcess`;
- `ProductFormState`, `CategoryFormState`, `PhoneInputState`, `ProductCardState`.

Loops stay loops:

- the nested normalisation loops of `parseProductsJson`;
- the filter callback's loop over the filter entries;
- the attribute index built by the filter panel;
- the dedup loop of the search page;
- the nested `forEach` of the product PUT and DELETE routes.

Files are written as objects:

- **The catalog file** (`CatalogFiles.CatalogFile`) holds a readability flag and a `CatalogDocument`, which is either a parsed document or `Malformed`.
- **The user database** (`Database.StoreFile`) holds a `DbFile`, which is either `Unreadable` or a `Store`.

Every write takes a `writeSucceeds` flag. A failed write is taken to leave the file as it was.

Cart lines are values in the reducer (`CartContext.Reduce`). The object form `CartContext.CartLine` models the shallow-copy aliasing of the ADD_TO_CART branch.

Prices are integers in the catalog's currency unit. `toLowerCase` is modelled on ASCII letters. `localeCompare` is taken as the order of character codes. `Number.parseInt` is read as decimal.

Where a natural reading of the feature and the code differ, the model follows the code:

- a product DELETE with an absent id writes nothing and answers 404;
- a category DELETE with an absent id still writes and succeeds;
- a filter key named like a property every object inherits (`constructor`, `toString`, ...) rejects a product without that specification, because `in` sees the inherited property (`SearchContent.InheritedKeys`);
- a specification key named `minPrice` or `maxPrice` is never filtered on as an attribute, because the filter loop skips those keys (`SearchContent.IsPriceKey`); how such a key also disturbs the price bounds is under "Left out".

## Model

| member | source | states |
|---|---|---|
| JsonParser.ParseProductsJson | src/lib/json-parser.ts:42-95 | the nested loops that assign products to subcategories produce exactly the normalised catalog `Parse(doc)` |
| JsonParser.ParseKeepsShape | src/lib/json-parser.ts:47-57 | categories keep id, name and image, and subcategories keep id, name and categoryId, with counts and order unchanged |
| JsonParser.ParseMalformed | src/lib/json-parser.ts:91-94 | any parse or shape failure yields no categories and no products |
| JsonParser.FlatProductsCount | src/lib/json-parser.ts:59-75 | the flat product list is exactly as long as all raw product lists together |
| JsonParser.FlatProductsMember | src/lib/json-parser.ts:59-75 | a product is in the flat list iff it appears in some raw subcategory |
| JsonParser.FlatProductsAppend | src/lib/json-parser.ts:59-75 | document order: the products of a later category follow those of the earlier ones |
| JsonParser.FlatProductsConcat | src/lib/json-parser.ts:59-75 | flattening distributes over concatenation of category lists |
| JsonParser.SubcategoryListsMatches | src/lib/json-parser.ts:80-88 | a subcategory lists exactly the flat products whose category and subcategory names match the owning names ignoring case, in flat order |
| JsonParser.OrphanListedNowhere | src/lib/json-parser.ts:80-88 | a product matching no category/subcategory pair stays in the flat list but is listed under no subcategory |
| JsonParser.ListedProductsBelong | src/lib/json-parser.ts:82-86 | every listed product matches the names of the subcategory that lists it |
| SearchContent.MatchesFilters | src/app/search/SearchContent.tsx:22-38 | the callback with its loop and early returns decides exactly `Passes`: the price is within the inclusive bounds and every non-empty value list admits the product |
| SearchContent.FilterList | src/app/search/SearchContent.tsx:22-38 | the filtered list equals the specification filter of the products |
| SearchContent.FilterProductsMember | src/app/search/SearchContent.tsx:22-38 | a product is shown iff it is in the list and passes every constraint |
| SearchContent.FilterRespectsPriceBounds | src/app/search/SearchContent.tsx:23-25 | nothing outside the price bounds is ever shown |
| SearchContent.MissingSpecificationPasses | src/app/search/SearchContent.tsx:33 | a key the product has no own specification for excludes it iff the key is inherited from `Object.prototype` (`in` follows the prototype chain) and its list is non-empty |
| SearchContent.OwnKeyShadowsInherited | src/app/search/SearchContent.tsx:33 | a product with its own specification of that name is tested on its own value, even when the name is also inherited |
| SearchContent.FilterKeepsOrder | src/app/search/SearchContent.tsx:22 | the result is a subsequence of the products, in their order |
| SearchContent.NameLeTotal | src/app/search/SearchContent.tsx:57 | the name comparison is total |
| SearchContent.NameLeTransitive | src/app/search/SearchContent.tsx:57 | the name comparison is transitive |
| SearchContent.NameLeAntisymmetric | src/app/search/SearchContent.tsx:57 | the name comparison is antisymmetric |
| SearchContent.InOrderTotal | src/app/search/SearchContent.tsx:49-62 | every sort comparator is total |
| SearchContent.InOrderTransitive | src/app/search/SearchContent.tsx:49-62 | every sort comparator is transitive |
| SearchContent.InsertMultiset | src/app/search/SearchContent.tsx:48-63 | one insertion step adds exactly the inserted product |
| SearchContent.InsertSorted | src/app/search/SearchContent.tsx:48-63 | one insertion step keeps the list ordered |
| SearchContent.SortBySorted | src/app/search/SearchContent.tsx:48-63 | the sort returns an ordered permutation of its input |
| SearchContent.TiedIff | src/app/search/SearchContent.tsx:48-63 | two products compare as equal under an order iff they have the same price (price orders) or the same name (name orders) |
| SearchContent.InsertStable | src/app/search/SearchContent.tsx:48-63 | inserting a product keeps the relative order of the products tied with any given product, and puts the new one after them |
| SearchContent.SortByStable | src/app/search/SearchContent.tsx:48-63 | the sort is stable: the products tied with any given product come out in their input order |
| SearchContent.SortWithResult | src/app/search/SearchContent.tsx:45-65 | each known option gives an ordered permutation of the previous list that keeps the previous order among equal keys, and any other option gives the list unchanged |
| SearchContent.SearchView.constructor | src/app/search/SearchContent.tsx:17-18 | the view starts with every product shown and the sort option "featured" |
| SearchContent.SearchView.HandleFilterChange | src/app/search/SearchContent.tsx:20-43 | re-filtering always starts from the original products and keeps the sort option |
| SearchContent.SearchView.HandleSortChange | src/app/search/SearchContent.tsx:45-65 | the option is stored and the shown list becomes the sorted previous list |
| ProductFilters.AddProduct | src/components/ProductFilters.tsx:25-37 | one product adds its sizes, colors and specification values, and keys for exactly those it has, to the index |
| ProductFilters.BuildAttributes | src/components/ProductFilters.tsx:24-38 | the index has a key iff some product has that attribute, and its set is the union of the values of all products |
| ProductFilters.HasAttributeIff | src/components/ProductFilters.tsx:26-37 | an attribute is indexed iff some product has a non-empty size list, a non-empty color list, or a specification with that key |
| ProductFilters.AttributeValuesIff | src/components/ProductFilters.tsx:26-37 | a value is offered iff some product carries it |
| ProductFilters.AbsentAttributeEmpty | src/components/ProductFilters.tsx:24-38 | an attribute no product has offers no values |
| ProductFilters.MaxPrice | src/components/ProductFilters.tsx:22 | `Math.max` over the prices bounds every price and is attained |
| ProductFilters.MaxCategoryPrice | src/components/ProductFilters.tsx:22 | the slider ceiling is a multiple of 100, bounds every price, and lies within 100 of the highest price |
| ProductFilters.MaxCategoryPriceLeast | src/components/ProductFilters.tsx:22 | the ceiling is the least multiple of 100 that bounds all prices |
| ProductFilters.InitialFiltersAdmitAll | src/components/ProductFilters.tsx:45-49 | the initial filters admit every listed product of non-negative price |
| ProductFilters.ToggleMember | src/components/ProductFilters.tsx:82-85 | toggling removes a present value everywhere and adds an absent one, leaving the other values |
| ProductFilters.ToggleTwiceRestores | src/components/ProductFilters.tsx:82-85 | toggling an absent value twice restores the list |
| ProductFilters.FilterPanel.constructor | src/components/ProductFilters.tsx:21-51 | the panel starts with the attribute index, the ceiling, bounds 0 and the ceiling, and empty value lists |
| ProductFilters.FilterPanel.HandleInputChange | src/components/ProductFilters.tsx:69-78 | one bound becomes the parsed value (0 when the text does not parse), the other keeps its value, and both the range and the filters carry them |
| ProductFilters.FilterPanel.HandleSliderChange | src/components/ProductFilters.tsx:60-67 | the slider sets both bounds in the range and the filters |
| ProductFilters.FilterPanel.HandleAttributeChange | src/components/ProductFilters.tsx:80-91 | exactly one attribute's list is toggled |
| ProductFilters.FilterPanel.ApplyFilters | src/components/ProductFilters.tsx:93-95 | the current filters are handed to the page |
| Text.ParseIntOfDecimal | src/components/ProductFilters.tsx:70 | reading back the decimal text of a number, with or without a minus sign, gives the number |
| Text.ParseIntOfNonNumeric | src/components/ProductFilters.tsx:70 | text that does not start with white space, a sign or a digit reads as 0 |
| SearchPage.GetSearchResults | src/app/search/page.tsx:7-33 | the results are the query matches of the parsed products, and the subcategories are the de-duplicated located subcategories of the results, in first-seen order |
| SearchPage.SearchResultsMember | src/app/search/page.tsx:12-16 | a product is a result iff its name or description contains the query ignoring case |
| SearchPage.EmptyQueryListsAll | src/app/search/page.tsx:12-16 | the empty query lists every product |
| SearchPage.QueryCaseInsensitive | src/app/search/page.tsx:14-15 | a lower-cased query gives the same results as the query itself |
| SearchPage.Locate | src/app/search/page.tsx:20-22 | the result is the first category with the product's category name and the first of its subcategories with the subcategory name; it exists iff that first category has such a subcategory, so a later category of the same name is never searched |
| SearchPage.Related | src/app/search/page.tsx:18-27 | every related position names a real subcategory |
| SearchPage.RelatedDistinct | src/app/search/page.tsx:18-24 | no subcategory is listed twice |
| SearchPage.RelatedMember | src/app/search/page.tsx:19-26 | a subcategory is listed iff some result is located at it |
| ProductsLib.GetProductById | src/lib/products.ts:12-14 | the first product with the id, or none exactly when no product has it |
| ProductsLib.GetProductsByCategoryExact | src/lib/products.ts:16-18 | a product is returned iff its category equals the argument |
| ProductsLib.GetProductsByCategoryOrder | src/lib/products.ts:16-18 | the result keeps the list order |
| ProductsLib.LookupsWithinProducts | src/lib/products.ts:4-18 | a product found by id is in the list `getProducts` returns, an id some listed product has is always found, and a category's products are a subsequence of that list |
| CatalogFiles.CatalogFile.Commit | src/app/api/products/route.ts:14-16 | a planned write replaces the content only when it succeeds; a failed write is a server error |
| ProductsRoute.Get | src/app/api/products/route.ts:18-26 | a readable file gives the parsed flat product list, with a malformed one giving the empty list; an unreadable file is a server error |
| ProductsRoute.Post | src/app/api/products/route.ts:28-53 | the file is changed exactly as the POST outcome says; an unreadable or malformed file is a server error without a write |
| ProductsRoute.PostResponses | src/app/api/products/route.ts:34-48 | no category of that exact name means 400 without a write, no subcategory means 400 without a write, otherwise success with a write |
| ProductsRoute.PostAtFirstCategory | src/app/api/products/route.ts:34-45 | with the first category of that name fixed: subcategory-not-found iff none of its subcategories has the name, in which case nothing is written; success iff one has, and the product is appended to the first such subcategory |
| ProductsRoute.PostAddsOne | src/app/api/products/route.ts:45 | the stored products are the old ones plus exactly the new product, as a multiset |
| ProductsRoute.PostThenListed | src/app/api/products/route.ts:45 | after the write the new product is in the flat list that GET returns |
| ProductsRoute.EditSubcategories | src/app/api/products/route.ts:63-69 | the inner loop edits the first product with the id in every subcategory, and reports whether any matched |
| ProductsRoute.EditProducts | src/app/api/products/route.ts:62-70 | the outer loop edits every subcategory of every category, and reports whether any matched |
| ProductsRoute.ApplyToFile | src/app/api/products/route.ts:55-111 | an unreadable or malformed file is a server error without a write; otherwise the edit's outcome is committed: 404 without a write when no product has the id |
| ProductsRoute.Put | src/app/api/products/route.ts:55-82 | replace by id: 404 without a write when no product has the id, otherwise the edited document is written |
| ProductsRoute.Delete | src/app/api/products/route.ts:84-111 | delete by id: 404 without a write when no product has the id, otherwise the edited document is written |
| ProductsRoute.HitIff | src/app/api/products/route.ts:61-72 | the found flag is set iff some product in the document has the id |
| ProductsRoute.EditFirstMatchOnly | src/app/api/products/route.ts:93-97 | in one subcategory only the first product with the id is edited: DELETE shortens the list by exactly one and PUT (lines 64-68) keeps its length, and a later product with the same id stays |
| ProductsRoute.EditAbsentKeeps | src/app/api/products/route.ts:64-68 | a subcategory without the id is left as it is |
| ProductsRoute.EditKeepsOthers | src/app/api/products/route.ts:62-70 | products with other ids are kept, in order |
| ProductsRoute.PutStores | src/app/api/products/route.ts:64-67 | after a successful PUT the updated product is in the flat list |
| ProductsRoute.DeleteRemovesUnique | src/app/api/products/route.ts:91-99 | when no subcategory holds the id twice, a DELETE leaves no product with the id |
| CategoriesRoute.Get | src/app/api/categories/route.ts:8-17 | a readable file gives the parsed categories; an unreadable one is a server error |
| CategoriesRoute.Post | src/app/api/categories/route.ts:19-37 | the new category is appended to the parsed categories and written |
| CategoriesRoute.PostAppends | src/app/api/categories/route.ts:19-37 | the written list is the old list followed by exactly the new category |
| CategoriesRoute.PostOnMalformedKeepsOnlyNew | src/app/api/categories/route.ts:19-37 | on a malformed file the written list holds only the new category |
| CategoriesRoute.Put | src/app/api/categories/route.ts:39-62 | the file changes as the PUT outcome says |
| CategoriesRoute.PutResponses | src/app/api/categories/route.ts:39-62 | an absent id is 404 without a write; otherwise the first category with the id is replaced and nothing else changes |
| CategoriesRoute.Delete | src/app/api/categories/route.ts:64-82 | the file changes as the DELETE outcome says |
| CategoriesRoute.DeleteKeepsOthers | src/app/api/categories/route.ts:64-82 | a category stays iff it does not have the id, and the kept categories stay in file order |
| CategoriesRoute.DeleteDropsOrphans | src/app/api/categories/route.ts:64-82 | a product of the file whose own category and subcategory names match no category/subcategory name pair of the file is absent after a DELETE, even for an id no category has |
| Database.StoreFile.UpdateDatabase | src/lib/databaseUtils.ts:62-88 | after a successful write the file reads as the transformed document, which is returned; after a throwing transform or a failed write the file is unchanged and the fresh read is returned |
| Database.ReadFallback | src/lib/databaseUtils.ts:66-73 | an unreadable file reads as no users, no administrators and no orders |
| Database.UpdateStores | src/lib/databaseUtils.ts:79-83 | a successful update stores and returns the transformed document |
| Database.UpdateFailureKeepsFile | src/lib/databaseUtils.ts:84-87 | a failed write or a throwing transform keeps the file and returns the stored document |
| Database.UpdateCompose | src/lib/databaseUtils.ts:76-88 | two successful updates equal one update by the composition |
| Database.UpdateIdentity | src/lib/databaseUtils.ts:76-88 | the identity update leaves the stored content as it was |
| CartContext.AddExisting | src/contexts/CartContext.tsx:34-43 | adding a line already present keeps the length and bumps the first equal line by one, nothing else |
| CartContext.AddNew | src/contexts/CartContext.tsx:45 | a new line is appended with quantity 1, whatever the payload says |
| CartContext.AddTwice | src/contexts/CartContext.tsx:33-45 | adding the same new line twice gives one line of quantity 2 |
| CartContext.RemoveAllVariants | src/contexts/CartContext.tsx:46-47 | removal by bare id drops every size and color of the product and keeps the rest in order |
| CartContext.UpdateQuantityEffect | src/contexts/CartContext.tsx:48-54 | an update by bare id reaches every variant of the product and no other line |
| CartContext.ClearAndLoad | src/contexts/CartContext.tsx:55-58 | clearing gives the empty cart; loading gives the payload |
| CartContext.TotalAppend | src/contexts/CartContext.tsx:107 | the total is additive over concatenation |
| CartContext.TotalUpdate | src/contexts/CartContext.tsx:107 | changing one line changes the total by the difference of that line's amounts |
| CartContext.TotalAfterAdd | src/contexts/CartContext.tsx:33-45 | an add raises the total by exactly one unit price |
| CartContext.MaxId | src/contexts/CartContext.tsx:106 | the largest order id bounds all ids and is attained |
| CartContext.NewOrderId | src/contexts/CartContext.tsx:106 | the new id is 1 for no orders, otherwise one more than the largest id, so it is above every existing id |
| CartContext.MakeOrderFacts | src/contexts/CartContext.tsx:106-116 | a new order carries the cart's items and total and an id above all earlier ones |
| CartContext.CreateOrderEffect | src/contexts/CartContext.tsx:118-129 | the order goes to the user's history and the admin ledger, the stored cart empties, and nobody else changes |
| CartContext.SaveCartEffect | src/contexts/CartContext.tsx:84-93 | the stored cart of that user becomes the items, and nothing else changes |
| CartContext.AddAddressEffect | src/contexts/CartContext.tsx:150-164 | the address is appended for the user; a missing record makes the transform fail |
| CartContext.CartProvider.Dispatch | src/contexts/CartContext.tsx:65 | the items become the reducer's result |
| CartContext.CartProvider.LoadCartEffect | src/contexts/CartContext.tsx:68-79 | the stored cart of the logged-in user is loaded when there is one |
| CartContext.CartProvider.SaveCartEffect | src/contexts/CartContext.tsx:81-97 | the items are saved for the logged-in user, and nothing is written without one |
| CartContext.CartProvider.CreateOrder | src/contexts/CartContext.tsx:99-132 | fails without a user or a record; otherwise the new order is written and the cart clears, even when the write fails |
| CartContext.CartProvider.GetOrders | src/contexts/CartContext.tsx:134-140 | the user's orders, or none |
| CartContext.CartProvider.GetUserAddresses | src/contexts/CartContext.tsx:142-148 | the user's addresses, or none |
| CartContext.CartProvider.AddUserAddress | src/contexts/CartContext.tsx:150-164 | fails without a user; otherwise the address update is written |
| CartContext.AddToCartInPlace | src/contexts/CartContext.tsx:40-45 | the shallow copy and in-place increment give the reducer's items, but on a merge the previous state's line object is the one changed |
| CartContext.AddToCartTwiceInPlace | src/contexts/CartContext.tsx:40-43 | running the reducer twice on the same state raises the merged line by 2 and disagrees with the pure reducer |
| CartContext.AddToCartCopying | src/contexts/CartContext.tsx:33-45 | a copying reducer gives exactly the pure reducer's items without touching the previous state |
| AuthContext.AuthSession.Login | src/contexts/AuthContext.tsx:48-90 | succeeds iff some user or administrator has the email or username and the password; a matching user wins over an administrator; failure keeps the session |
| AuthContext.AuthSession.constructor | src/contexts/AuthContext.tsx:48-96 | a fresh session has no user |
| AuthContext.AuthSession.Logout | src/contexts/AuthContext.tsx:92-96 | the session is cleared |
| AuthContext.AuthSession.Signup | src/contexts/AuthContext.tsx:98-142 | succeeds iff neither the email nor the username is taken; on success the record is written and the new user is logged in; on failure nothing changes |
| AuthContext.AuthSession.UpdateUserProfile | src/contexts/AuthContext.tsx:144-170 | succeeds iff a user is logged in; the patch merges into the stored record and into the session |
| AuthContext.SignupInsertsOne | src/contexts/AuthContext.tsx:112-131 | signup adds exactly one record, with role user and empty orders, cart and addresses, and changes nothing else |
| AuthContext.SignupThenLogin | src/contexts/AuthContext.tsx:51-67 | the new record matches the credentials and its session view is the signed-up user |
| AuthContext.MergeCommutes | src/contexts/AuthContext.tsx:149-162 | the stored record and the session stay in step under a profile patch |
| AuthContext.ProfileKeepsOthers | src/contexts/AuthContext.tsx:148-160 | a profile update keeps the password, orders, cart and addresses, and the other users |
| AuthContext.MergeIdempotent | src/contexts/AuthContext.tsx:149-152 | merging a patch twice equals merging it once; the empty patch changes nothing |
| AdminStorage.GetAdminOrders | src/lib/adminStorage.ts:4-7 | the stored ledger, or empty when the file cannot be read |
| AdminStorage.SaveAdminOrders | src/lib/adminStorage.ts:9-14 | the ledger-replacing update is run |
| AdminStorage.AddAdminOrder | src/lib/adminStorage.ts:16-21 | the ledger-appending update is run |
| AdminStorage.SaveReplacesLedger | src/lib/adminStorage.ts:9-14 | saving replaces the ledger and keeps users and administrators |
| AdminStorage.AddAppends | src/lib/adminStorage.ts:16-21 | adding puts the order last, grows the ledger by one, and keeps the rest |
| AdminStorage.AddThenGet | src/lib/adminStorage.ts:4-21 | after a successful add, the ledger read back is the old one plus the order |
| AdminSetup.SetupAdminUser | src/lib/adminSetup.ts:3-21 | nothing is written when an administrator is stored under the email; otherwise the seed update is run |
| AdminSetup.SeedEffect | src/lib/adminSetup.ts:7-18 | the seeded record has the fixed email, username and password; the other administrators, the users and the ledger are untouched |
| AdminSetup.SetupIdempotent | src/lib/adminSetup.ts:3-21 | running the setup twice leaves the same content as running it once |
| Checkout.StepInRange | src/components/checkout/CheckoutProcess.tsx:13-39 | the step stays within 0..3 under every event |
| Checkout.StepOrders | src/components/checkout/CheckoutProcess.tsx:30-52 | an event places an order iff it is Next or a chosen address, taken at Payment with an address already stored |
| Checkout.SelectAtShipping | src/components/checkout/CheckoutProcess.tsx:45-52 | choosing an address at Shipping stores it and moves to Payment without an order |
| Checkout.CancelAtShipping | src/components/checkout/CheckoutProcess.tsx:45-47 | cancelling the form at Shipping moves back to Cart Review |
| Checkout.RunKeepsReachable | src/components/checkout/CheckoutProcess.tsx:83-106 | under the offered events Payment and Confirmation always have an address |
| Checkout.OrdersOfRun | src/components/checkout/CheckoutProcess.tsx:30-52 | along offered events exactly one order is placed when Confirmation is reached, and none otherwise |
| Checkout.CheckoutPlacesOneOrder | src/components/checkout/CheckoutProcess.tsx:25-106 | from the fresh checkout, reaching Confirmation is equivalent to having placed exactly one order |
| Checkout.CheckoutProcess.constructor | src/components/checkout/CheckoutProcess.tsx:25-26 | the checkout starts at Cart Review with no address |
| Checkout.CheckoutProcess.NextStep | src/components/checkout/CheckoutProcess.tsx:30-35 | the order request and the saturated step advance |
| Checkout.CheckoutProcess.PrevStep | src/components/checkout/CheckoutProcess.tsx:37-39 | the saturated step back |
| Checkout.CheckoutProcess.HandleAddressSelect | src/components/checkout/CheckoutProcess.tsx:45-52 | the handler acts as one address event, with `nextStep` reading the state of its render |
| ShoppingCart.MinusAction | src/components/ShoppingCart.tsx:66 | the minus button requests max(1, q-1) for the bare id, never below 1 |
| ShoppingCart.MinusEffect | src/components/ShoppingCart.tsx:23-24 | after minus every variant of the product has quantity max(1, q-1) of the clicked line's quantity q and is otherwise the same line, and other products are untouched |
| ShoppingCart.PlusEffect | src/components/ShoppingCart.tsx:23-25 | after plus every variant of the product has the clicked line's quantity plus one and is otherwise the same line, the length is kept, and other products are untouched |
| ShoppingCart.RemoveEffect | src/components/ShoppingCart.tsx:19-21 | after remove a line stays iff it is not a variant of the clicked product, in cart order |
| ShoppingCart.PlusThenMinus | src/components/ShoppingCart.tsx:66-73 | plus then minus restores a line of quantity at least 1 |
| ShoppingCart.TotalNonNegative | src/components/ShoppingCart.tsx:31 | with non-negative prices and quantities the total is non-negative |
| ShoppingCart.TotalSingle | src/components/ShoppingCart.tsx:31 | the empty cart totals 0 and one line contributes price times quantity |
| ShoppingCart.ClearedTotal | src/components/ShoppingCart.tsx:27-31 | clear empties the cart, and a cleared cart totals 0 |
| AddToCartButton.EnabledIff | src/components/AddToCartButton.tsx:34 | the button is enabled iff both a size and a color are chosen and non-empty |
| AddToCartButton.ClickAddsUnitPrice | src/components/AddToCartButton.tsx:18-28 | a click adds one unit of the product's price to the cart total |
| ProductForm.Include | src/components/admin/ProductForm.tsx:107-112 | a non-empty value not yet present is appended, otherwise nothing changes, so the list never gains a duplicate |
| ProductForm.ExcludeEffect | src/components/admin/ProductForm.tsx:114-116 | removal deletes every occurrence, keeps the rest in order, and keeps a duplicate-free list so |
| ProductForm.ExcludeAbsent | src/components/admin/ProductForm.tsx:114-116 | removing an absent value changes nothing |
| ProductForm.IncludeThenExclude | src/components/admin/ProductForm.tsx:107-116 | adding then removing a value is removing it |
| ProductForm.SetAttribute | src/components/admin/ProductForm.tsx:90-98 | a specification is set or overwritten only when both the name and the value are non-empty; other keys stay |
| ProductForm.DropAttribute | src/components/admin/ProductForm.tsx:100-105 | exactly the key is deleted and other entries keep their values |
| ProductForm.SetThenRemove | src/components/admin/ProductForm.tsx:90-105 | setting a new attribute and removing it restores the specifications |
| ProductForm.SelectChange | src/components/admin/ProductForm.tsx:73-78 | a new category clears the subcategory; a new subcategory changes only itself |
| ProductForm.TextChange | src/components/admin/ProductForm.tsx:68-71 | the input's own field takes the value and every other field is kept |
| ProductForm.TextChangeLastWins | src/components/admin/ProductForm.tsx:68-71 | typing into one input twice keeps the last text, and edits of two different inputs commute |
| ProductForm.ProductFormState.constructor | src/components/admin/ProductForm.tsx:20-45 | the form holds the given product, or the empty product, and all drafts are empty |
| ProductForm.ProductFormState.HandleChange | src/components/admin/ProductForm.tsx:68-71 | the text change is applied to the form and the drafts are untouched |
| ProductForm.ProductFormState.HandleAttributeChange | src/components/admin/ProductForm.tsx:85-88 | exactly one of the two attribute drafts takes the value |
| ProductForm.ProductFormState.AddAttribute | src/components/admin/ProductForm.tsx:90-98 | the specification is set and the drafts cleared on success; otherwise nothing changes |
| ProductForm.ProductFormState.RemoveAttribute | src/components/admin/ProductForm.tsx:100-105 | the key is removed from the form's specifications |
| ProductForm.ProductFormState.AddSize | src/components/admin/ProductForm.tsx:107-112 | the size is included and its draft cleared on success |
| ProductForm.ProductFormState.RemoveSize | src/components/admin/ProductForm.tsx:114-116 | every occurrence of the size is removed |
| ProductForm.ProductFormState.AddColor | src/components/admin/ProductForm.tsx:118-123 | the color is included and its draft cleared on success |
| ProductForm.ProductFormState.RemoveColor | src/components/admin/ProductForm.tsx:125-127 | every occurrence of the color is removed |
| ProductForm.ProductFormState.AddImage | src/components/admin/ProductForm.tsx:129-134 | the image is included and its draft cleared on success |
| ProductForm.ProductFormState.RemoveImage | src/components/admin/ProductForm.tsx:136-138 | every occurrence of the image is removed |
| ProductForm.ProductFormState.HandleSelectChange | src/components/admin/ProductForm.tsx:73-78 | the select change is applied to the form and the drafts are untouched |
| CategoryForm.Change | src/components/admin/CategoryForm.tsx:30-33 | only the named top-level field changes |
| CategoryForm.SubcategoryChange | src/components/admin/CategoryForm.tsx:35-39 | only that field of entry i changes; the length and the other entries stay |
| CategoryForm.WithNewSubcategory | src/components/admin/CategoryForm.tsx:41-46 | one blank entry is appended with the form's current id as its categoryId |
| CategoryForm.WithoutSubcategory | src/components/admin/CategoryForm.tsx:48-53 | exactly position i is removed and the others keep their order; an index past the end removes nothing |
| CategoryForm.AddThenRemove | src/components/admin/CategoryForm.tsx:41-53 | adding an entry and removing it restores the form |
| CategoryForm.AddedEntryKeepsOldId | src/components/admin/CategoryForm.tsx:30-46 | an entry keeps the category id of the moment it was added, even if the id is edited later |
| CategoryForm.CategoryFormState.constructor | src/components/admin/CategoryForm.tsx:18-28 | the form holds the given category, or a blank one without subcategories |
| CategoryForm.CategoryFormState.HandleChange | src/components/admin/CategoryForm.tsx:30-33 | the top-level field change is applied to the form |
| CategoryForm.CategoryFormState.HandleSubcategoryChange | src/components/admin/CategoryForm.tsx:35-39 | the subcategory field change is applied to the form |
| CategoryForm.CategoryFormState.AddSubcategory | src/components/admin/CategoryForm.tsx:41-46 | one blank entry with the current id is appended |
| CategoryForm.CategoryFormState.RemoveSubcategory | src/components/admin/CategoryForm.tsx:48-53 | the entry at the index is removed |
| PhoneInput.PhoneDigits | src/components/PhoneInput.tsx:35 | the stored number holds only digits: exactly the input's digits, in order |
| PhoneInput.DigitsKept | src/components/PhoneInput.tsx:35 | digit-only input is kept as typed |
| PhoneInput.FilteredCountriesMember | src/components/PhoneInput.tsx:58-66 | a country is listed iff its lower-cased code or name starts with the lower-cased term, in the original order |
| PhoneInput.EmptyTermListsAll | src/components/PhoneInput.tsx:58-66 | an empty term lists every country |
| PhoneInput.DialCodeLabel | src/components/PhoneInput.tsx:68-71 | the label is "code dial_code" of the first entry with the code, or "" when none has it |
| PhoneInput.PhoneInputState.HandleCountryChange | src/components/PhoneInput.tsx:24-31 | the country is set, the search term reset, and the current number is re-validated |
| PhoneInput.PhoneInputState.HandlePhoneChange | src/components/PhoneInput.tsx:33-40 | the stored number is the digits of the input |
| PhoneInput.PhoneInputState.constructor | src/components/PhoneInput.tsx:18-21 | the input starts with country "US", no number, no search term and every country listed |
| PhoneInput.PhoneInputState.HandleSearchChange | src/components/PhoneInput.tsx:54-56 | only the search term changes |
| PhoneInput.PhoneInputState.SearchEffect | src/components/PhoneInput.tsx:58-66 | the list becomes the countries matching the term |
| PhoneInput.CountryChangeShowsAll | src/components/PhoneInput.tsx:24-31 | after a country change and the search effect, every country is listed again |
| ProductCard.SlugNoSpace | src/components/products/product-card.tsx:13 | the slug before encoding contains no white space |
| ProductCard.SlugOfSpacelessName | src/components/products/product-card.tsx:13 | a name without white space gives the lower-cased name |
| ProductCard.RunBecomesDash | src/components/products/product-card.tsx:13 | every maximal run of white space becomes exactly one "-" |
| ProductCard.DashesAppend | src/components/products/product-card.tsx:13 | text ending in a non-space is dashed independently of what follows |
| ProductCard.ProductCardState.constructor | src/components/products/product-card.tsx:11-12 | a fresh card has no size and no color chosen |
| ProductCard.ProductCardState.SelectEffect | src/components/products/product-card.tsx:15-22 | the effect pre-selects the single size and the single color |
| ProductCard.AutoSelectedStable | src/components/products/product-card.tsx:15-22 | the pre-selection is idempotent; a choice exists afterwards iff there is exactly one option or one was already made, and a pre-selected value is an option |
| ProductCard.FreshCardButton | src/components/products/product-card.tsx:15-22 | on a fresh card the add button is enabled iff the product has exactly one non-empty size and one non-empty color |

## Left out

- I/O is not modelled byte for byte. File reads and writes, JSON syntax, HTTP requests and responses, `fetch`, `localStorage`, the router and `console` are not modelled. A file is a value with a readability flag, and every write takes a success flag.
- The asynchronous ordering of promises is not modelled. That includes the unawaited `createOrder` in CheckoutProcess.tsx line 32. Concurrent requests against the same file are not modelled either.
- Floating-point prices and `toFixed` rounding are not modelled: prices are integers.
- `handleNumberChange` in ProductForm.tsx is not modelled, because it relies on `Number(value)`'s float parsing.
- Locale-aware collation in `localeCompare` is not modelled; names compare by character codes. Unicode case mapping beyond ASCII letters is not modelled.
- `encodeURIComponent` in product-card.tsx line 13 is outside the model. The slug is specified before encoding.
- libphonenumber validation and E.164 formatting in PhoneInput.tsx lines 42-52 are foreign calls. The handlers return the (number, country) pair they pass to those calls.
- Rendering, `toggleSection`/`expandedSections` and the `isClient` flag are presentation only.
- The category list that ProductForm fetches, and the subcategory effect that depends on it (ProductForm.tsx lines 40-66), are I/O.
- CartContext.SaveCartTransform and AuthContext.ProfileTransform leave the users unchanged for an email without a record. The source would store a fragment record there, `{ ...undefined, cart }` or `{ ...undefined, ...profileData }`, and the model has no partial records.
- AuthContext.AuthSession.Login chooses some matching record, where the source takes the first in insertion order. Map order is not part of the model.
- ProductsRoute: the edits the source makes in place on the parsed raw document are modelled as rebuilt values. Only the cart line objects model aliasing.
- Database.StoreFile.UpdateDatabase does not model a write that fails half-way: a failed write is taken to leave the file as it was.
- ProductFilters.MaxCategoryPrice requires a non-empty product list. The search page renders the filter panel only when there are products (SearchContent.tsx line 67), and `Math.max()` of nothing is `-Infinity`.
- CategoryForm.CategoryFormState.HandleSubcategoryChange requires an index inside the list. Its callers pass indices of the rendered entries.
- A specification key named `minPrice` or `maxPrice` cannot be filtered on as an attribute. The filter loop skips those keys, and the model keeps that behaviour.
- ProductFilters.FilterPanel keeps the price bounds and the attribute lists in separate fields, where the source keeps them in one object. In the source the attribute keys are spread after `minPrice` and `maxPrice` (ProductFilters.tsx lines 45-49), so a specification key named `minPrice` or `maxPrice` replaces that bound with `[]`, and SearchContent.tsx line 23 then compares the price with `[]`, which reads as 0. Toggling such a key writes a list into the bound, and the slider and the inputs write a number over that attribute list. The model does not capture this collision.
- InitialFiltersAdmitAll assumes no attribute key is `minPrice` or `maxPrice`. With such a key the initial bound is `[]` in the source, and a product of positive price is then rejected by a `maxPrice` of `[]`.
- constructor (ProductFilters.FilterPanel.constructor) sets bounds 0 and the ceiling even when an attribute key is `minPrice` or `maxPrice`; the source's initial filters then hold `[]` for that bound.
- HandleInputChange does not model that writing `minPrice` or `maxPrice` also replaces an attribute list stored under that key.
- HandleSliderChange does not model that writing `minPrice` or `maxPrice` also replaces an attribute list stored under that key.
- HandleAttributeChange does not model that toggling the key `minPrice` or `maxPrice` changes the price bound of that name.
- The `role: "admin"` field the seed writes is implied by `AdminUserData`, which has no role field.

## Findings

| source | as written | input that shows it | evidently intended | confidence | as-written member | corrected member |
|---|---|---|---|---|---|---|
| src/contexts/CartContext.tsx:40-43 | `[...state.items]` is a shallow copy, so `quantity += 1` changes the line object the previous state also holds | a cart with one line of quantity 1 and an ADD_TO_CART of the same product, size and color, run by React twice on the same state (Strict Mode in development): the line ends at 3 instead of 2 | a new line object with the incremented quantity, leaving the previous state unchanged | not executed; medium, because the doubled run happens only when React invokes the reducer twice | CartContext.AddToCartTwiceInPlace | CartContext.AddToCartCopying |
