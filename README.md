# Inventory UI view controllers in Dafny

This project models the view-controller logic of an Angular inventory front end
(stores, stock lines, products, transactions) that talks to a remote REST API.
The logic lives in six component classes. Each of them becomes a Dafny class
whose fields are the component's fields.

- The store list page. It holds the fetched stores and a case-insensitive search
  over name and location. An add/edit modal is open while `showAddForm` is set
  or a store is being edited.
- The stock list page. It has a search by SKU, "Low Stock"/"In Stock" badges and
  deletion of one or all lines. Its transactions modal remaps each API
  transaction into a display record typed "CONSUME".
- The product catalogue. It has a search over name, SKU, brand and category, an
  availability check by trimmed SKU, and availability and stock classes.
- The dashboard. It shows counts, the low-stock count and the first five stores
  and low stock lines.
- The store detail page. It has an add/edit stock modal and a transactions modal
  that stores the API records unchanged.
- The navigation bar. It has the menu toggle and the active-link tests on the
  current route.

Each subscription callback is a separate method that receives the fetched data
(`OnStoresLoaded(fetched)`). A method that starts a remote call returns the call
it issues as an `ApiRequest` value. The state change made when the call
completes is a separate method (`OnStoreSaved`, `OnStockDeleted`). A
`confirm(...)` dialog is a boolean argument. The `[(ngModel)]` bindings of the
search boxes and form fields are the methods `OnSearchInput`, `OnCheckSkuInput`
and `OnFormInput`. `OnSearchInput` assumes that the binding stores the term
before the `(input)` handler runs the filter.

Shared pure layers:

- `Text`: ASCII `toLowerCase`, `includes`, `startsWith` and ECMAScript `trim`.
  `includes` is a left-to-right scan. It is proved equal to "occurs at some
  offset".
- `Seqs`: `Array.prototype.filter`, proved to be an order-preserving selection
  that keeps every copy of each accepted element, and `slice(0, n)`.
- `Models`: the records of `src/models/stock.model.ts`, the `Store` record, the
  display transaction record, the low-stock threshold of 10, the truthiness of
  an optional id, and the API calls.

`src/models/store.model.ts` is not part of this model. The `Store` shape (`id?`,
`name`, `location`) comes from how the components use it.

Behaviour that the contracts make explicit:

- After every reload, the filtered list is the whole fetched list, whatever the
  search box holds. The current search is not re-applied. This is stated by
  `OnStoresLoaded`, `OnStocksLoaded` and `OnProductsLoaded`.
- An id that a component reads with `!` from a record that may lack it is sent
  as `undefined`. The issued request carries it as an `Option`.
- A transactions response that arrives after its modal was closed still
  overwrites `transactions`. `OnTransactionsLoaded` has no precondition on the
  modal state.
- A product with a negative total quantity gets neither result-card class.

## Model

| member | source | states |
|---|---|---|
| `Models.IsLowStock` | src/app/components/dashboard/dashboard.component.ts:258 | the low-stock test `quantity < 10` shared by the dashboard, the stock badges and the detail page's highlight (no contract; its meaning is stated by `Dashboard.LowStockSpec`, `StockList.BadgeClassesPartition` and `StoreDetail.QuantityHighlightedIffLow`) |
| `Models.IsTruthyId` | src/app/components/stocks/stock-list/stock-list.component.ts:455 | the truthiness of an optional id, `if (stock.id)`: present and non-zero (no contract; used by both `ViewTransactions` methods) |
| `Text.ToLower` | src/app/components/stores/store-list/store-list.component.ts:358-359 | `toLowerCase` keeps the length and lower-cases each character (ASCII) |
| `Text.ToLowerHasNoUpper` | src/app/components/stores/store-list/store-list.component.ts:358-359 | a lower-cased string holds no upper-case ASCII letter |
| `Text.ToLowerIdempotent` | src/app/components/stores/store-list/store-list.component.ts:358-359 | lower-casing twice equals lower-casing once |
| `Text.Includes` | src/app/components/stores/store-list/store-list.component.ts:358-359 | `includes` as a left-to-right scan of start positions; a match needs a needle no longer than the haystack, and the empty needle always matches |
| `Text.IncludesOccurs` | src/app/components/stores/store-list/store-list.component.ts:358-359 | every match reported by the left-to-right scan is an occurrence of the term |
| `Text.OccursIncludes` | src/app/components/stores/store-list/store-list.component.ts:358-359 | the scan reports every occurrence of the term, wherever it starts |
| `Text.IncludesIffOccurs` | src/app/components/stores/store-list/store-list.component.ts:358-359 | `includes` returns true exactly when the needle occurs at some offset of the haystack |
| `Text.StartsWith` | src/app/components/layout/navbar/navbar.component.ts:27 | `startsWith`: `prefix` is a prefix of `s` (no contract; used by `Navbar.StoresActiveRoutes`) |
| `Text.TrimStart` | src/app/components/products/product-list/product-list.component.ts:492 | the result is a suffix of the input, everything dropped is white space, and it does not start with white space |
| `Text.TrimEnd` | src/app/components/products/product-list/product-list.component.ts:492 | the result is a prefix of the input, everything dropped is white space, and it does not end with white space |
| `Text.Trim` | src/app/components/products/product-list/product-list.component.ts:492 | `trim()`: never longer than its input, and a non-empty result neither starts nor ends with white space |
| `Text.TrimIsSlice` | src/app/components/products/product-list/product-list.component.ts:492 | `trim()` returns a contiguous slice with only white space cut on either side, and the slice neither starts nor ends with white space |
| `Text.TrimEmptyIffAllSpace` | src/app/components/products/product-list/product-list.component.ts:492 | `trim()` is empty exactly when the input is all white space |
| `Text.TrimIdempotent` | src/app/components/products/product-list/product-list.component.ts:492-493 | trimming the trimmed SKU changes nothing |
| `Seqs.Filter` | src/app/components/stores/store-list/store-list.component.ts:357 | `filter` is no longer than its input, and an element is in the result iff it is in the input and passes the test |
| `Seqs.FilterIsSubsequence` | src/app/components/stores/store-list/store-list.component.ts:357 | `filter` keeps the relative order of the elements it keeps |
| `Seqs.FilterMultiplicity` | src/app/components/stores/store-list/store-list.component.ts:357 | `filter` keeps every copy of an accepted element and no copy of a rejected one |
| `Seqs.FilterKeepsAll` | src/app/components/stores/store-list/store-list.component.ts:357 | a test passed by every element returns the list unchanged |
| `Seqs.FilterIdempotent` | src/app/components/stores/store-list/store-list.component.ts:357 | filtering the filtered list again with the same test changes nothing |
| `Seqs.Take` | src/app/components/dashboard/dashboard.component.ts:253 | `slice(0, n)` is a prefix of length min(n, length) |
| `StoreList.StoreMatches` | src/app/components/stores/store-list/store-list.component.ts:358-359 | the callback of `filter`: the lower-cased term occurs in the lower-cased name or location (no contract; characterised by `StoresMatchingSpec`) |
| `StoreList.StoresMatching` | src/app/components/stores/store-list/store-list.component.ts:357-360 | `stores.filter(...)` with that callback (no contract; characterised by `StoresMatchingSpec`) |
| `StoreList.StoresMatchingSpec` | src/app/components/stores/store-list/store-list.component.ts:357-360 | the store search is an order-preserving selection that keeps a store (every copy) iff the lower-cased term occurs in its lower-cased name or location; the empty term keeps all |
| `StoreList.StoresMatchingIdempotent` | src/app/components/stores/store-list/store-list.component.ts:357 | searching the search result with the same term gives the same result |
| `StoreList.StoreMatchesIgnoresCase` | src/app/components/stores/store-list/store-list.component.ts:358-359 | a term and its lower-cased form match the same stores |
| `StoreList.SearchByLocationExample` | src/app/components/stores/store-list/store-list.component.ts:357-360 | searching "la" over Central/NY and West/LA keeps only West (location match) |
| `StoreList.StoreListComponent.constructor` | src/app/components/stores/store-list/store-list.component.ts:336-341 | both lists empty, empty term, no form, nothing edited, blank form, modal hidden |
| `StoreList.StoreListComponent.ModalVisible` | src/app/components/stores/store-list/store-list.component.ts:43 | `showAddForm \|\| editingStore`, the condition of the modal's `*ngIf` (no contract; used by `OpenAddForm`, `EditStore` and `CloseModal`) |
| `StoreList.StoreListComponent.ModalTitle` | src/app/components/stores/store-list/store-list.component.ts:46 | the modal title, "Edit Store" while editing, else "Add New Store" (no contract; used by `EditStore`) |
| `StoreList.StoreListComponent.SubmitLabel` | src/app/components/stores/store-list/store-list.component.ts:60 | the submit label, "Update" while editing, else "Add" (no contract; used by `EditStore`) |
| `StoreList.StoreListComponent.LoadStores` | src/app/components/stores/store-list/store-list.component.ts:345-350 | activation asks for all stores |
| `StoreList.StoreListComponent.OnStoresLoaded` | src/app/components/stores/store-list/store-list.component.ts:350-353 | `stores` and `filteredStores` both become the fetched list; the other fields are unchanged |
| `StoreList.StoreListComponent.FilterStores` | src/app/components/stores/store-list/store-list.component.ts:356-361 | `filteredStores` becomes the search of `stores` by `searchTerm`, independent of its previous value; only that field changes |
| `StoreList.StoreListComponent.OnSearchInput` | src/app/components/stores/store-list/store-list.component.ts:23-24 | the term is stored and the list re-filtered with it |
| `StoreList.StoreListComponent.OpenAddForm` | src/app/components/stores/store-list/store-list.component.ts:16 | the "Add Store" button shows the modal |
| `StoreList.StoreListComponent.EditStore` | src/app/components/stores/store-list/store-list.component.ts:363-366 | the store is remembered and copied into the form; the modal shows "Edit Store" and "Update" |
| `StoreList.StoreListComponent.OnFormInput` | src/app/components/stores/store-list/store-list.component.ts:52-56 | the form's name and location are replaced and its id is kept |
| `StoreList.StoreListComponent.DeleteStore` | src/app/components/stores/store-list/store-list.component.ts:368-370 | a deletion by id is issued iff confirmed |
| `StoreList.StoreListComponent.OnStoreDeleted` | src/app/components/stores/store-list/store-list.component.ts:370-372 | completion of a deletion reloads the list |
| `StoreList.StoreListComponent.SaveStore` | src/app/components/stores/store-list/store-list.component.ts:376-387 | an update with the edited store's id when editing, else an addition, each sending the form record |
| `StoreList.StoreListComponent.OnStoreSaved` | src/app/components/stores/store-list/store-list.component.ts:378-386 | completion reloads the list and closes the modal |
| `StoreList.StoreListComponent.CloseModal` | src/app/components/stores/store-list/store-list.component.ts:390-394 | no form, nothing edited, blank form; so the modal is hidden (template line 43) |
| `StockList.StockMatches` | src/app/components/stocks/stock-list/stock-list.component.ts:432 | the callback of `filter`: the lower-cased term occurs in the lower-cased SKU (no contract; characterised by `StocksMatchingSpec`) |
| `StockList.StocksMatching` | src/app/components/stocks/stock-list/stock-list.component.ts:431-433 | `stocks.filter(...)` with that callback (no contract; characterised by `StocksMatchingSpec`) |
| `StockList.StocksMatchingSpec` | src/app/components/stocks/stock-list/stock-list.component.ts:430-434 | the stock search is an order-preserving selection that keeps a line (every copy) iff the lower-cased term occurs in its lower-cased SKU; the empty term keeps all |
| `StockList.LowBadgeClass` | src/app/components/stocks/stock-list/stock-list.component.ts:52 | `[class.low-stock-badge]="stock.quantity < 10"` (no contract; characterised by `BadgeClassesPartition`) |
| `StockList.GoodBadgeClass` | src/app/components/stocks/stock-list/stock-list.component.ts:53 | `[class.good-stock-badge]="stock.quantity >= 10"` (no contract; characterised by `BadgeClassesPartition`) |
| `StockList.StatusBadge` | src/app/components/stocks/stock-list/stock-list.component.ts:54 | the badge text, "Low Stock" below 10, else "In Stock" (no contract; characterised by `BadgeClassesPartition`) |
| `StockList.BadgeClassesPartition` | src/app/components/stocks/stock-list/stock-list.component.ts:46-54 | exactly one of the low/good badge classes applies, and the text reads "Low Stock" iff low (quantity < 10), else "In Stock" |
| `StockList.EmptyMessage` | src/app/components/stocks/stock-list/stock-list.component.ts:33-34 | the no-data block: shown only for an empty filtered list, with "No stock items found." when there are no lines at all (no contract; characterised by `EmptyMessageAfterSearch` and `OnStocksLoaded`) |
| `StockList.ClearAllVisible` | src/app/components/stocks/stock-list/stock-list.component.ts:17 | `*ngIf="stocks.length > 0"` on "Clear All Stock" (no contract; used by `OnStocksLoaded`) |
| `StockList.ToDisplay` | src/app/components/stocks/stock-list/stock-list.component.ts:459-465 | the object literal built for one API transaction (no contract; its fields are stated per record by `Remap`) |
| `StockList.EmptyMessageAfterSearch` | src/app/components/stocks/stock-list/stock-list.component.ts:33-34 | after a search the "match your search" message shows iff there are lines and none matches; "No stock items found." iff there are no lines |
| `StockList.Remap` | src/app/components/stocks/stock-list/stock-list.component.ts:456-467 | the remapping keeps length and order; each output has the stock's id, the consumed quantity, the creation time, type "CONSUME" and the same id |
| `StockList.RemapSameIff` | src/app/components/stocks/stock-list/stock-list.component.ts:458-466 | two API lists remap alike iff they agree record by record on consumed quantity, creation time and id (SKU and store id are dropped) |
| `StockList.StockListComponent.constructor` | src/app/components/stocks/stock-list/stock-list.component.ts:410-415 | empty lists and term, transactions modal closed with nothing selected |
| `StockList.StockListComponent.TransactionsModalVisible` | src/app/components/stocks/stock-list/stock-list.component.ts:66 | `showTransactions && selectedStock`, the modal's `*ngIf` (no contract; used by `ViewTransactions` and `CloseTransactionsModal`) |
| `StockList.StockListComponent.LoadStocks` | src/app/components/stocks/stock-list/stock-list.component.ts:419-424 | activation asks for all stock lines |
| `StockList.StockListComponent.OnStocksLoaded` | src/app/components/stocks/stock-list/stock-list.component.ts:424-427 | both lists become the fetched list; the "found" message shows iff it is empty, and "Clear All Stock" shows iff it is not (template lines 17, 33-34) |
| `StockList.StockListComponent.FilterStocks` | src/app/components/stocks/stock-list/stock-list.component.ts:430-434 | `filteredStocks` becomes the SKU search of `stocks`; `stocks` is unchanged |
| `StockList.StockListComponent.OnSearchInput` | src/app/components/stocks/stock-list/stock-list.component.ts:27-28 | the term is stored and the list re-filtered with it |
| `StockList.StockListComponent.DeleteStock` | src/app/components/stocks/stock-list/stock-list.component.ts:436-438 | a deletion by id is issued iff confirmed |
| `StockList.StockListComponent.DeleteAllStocks` | src/app/components/stocks/stock-list/stock-list.component.ts:444-446 | the delete-all call is issued iff confirmed |
| `StockList.StockListComponent.OnStocksDeleted` | src/app/components/stocks/stock-list/stock-list.component.ts:438-447 | completion of either deletion reloads the list |
| `StockList.StockListComponent.ViewTransactions` | src/app/components/stocks/stock-list/stock-list.component.ts:452-456 | the line is selected and the modal opened; the transactions are requested iff the id is truthy (present and non-zero) |
| `StockList.StockListComponent.OnTransactionsLoaded` | src/app/components/stocks/stock-list/stock-list.component.ts:456-469 | `transactions` becomes the remapped list for the stock id of the transactions request that was issued (the id the closure captured) |
| `StockList.StockListComponent.CloseTransactionsModal` | src/app/components/stocks/stock-list/stock-list.component.ts:475-479 | modal closed, no line selected, no transactions; so the modal is hidden (template line 66) |
| `StockList.ViewThenLoad` | src/app/components/stocks/stock-list/stock-list.component.ts:452-471 | opening the modal on a line with a truthy id and receiving the answer shows one record per API transaction, in order, each with that line's id and the consumed quantity |
| `ProductList.ProductMatches` | src/app/components/products/product-list/product-list.component.ts:484-487 | the callback of `filter`: the lower-cased term occurs in the lower-cased name, SKU, brand or category name (no contract; characterised by `ProductsMatchingSpec`) |
| `ProductList.ProductsMatching` | src/app/components/products/product-list/product-list.component.ts:483-488 | `products.filter(...)` with that callback (no contract; characterised by `ProductsMatchingSpec`) |
| `ProductList.ProductsMatchingSpec` | src/app/components/products/product-list/product-list.component.ts:482-489 | the product search is an order-preserving selection that keeps a product (every copy) iff the lower-cased term occurs in its lower-cased name, SKU, brand or category; the empty term keeps all |
| `ProductList.IsAvailable` | src/app/components/products/product-list/product-list.component.ts:42 | `totalQuantity && totalQuantity > 0`: present, truthy and positive (no contract; characterised by `AvailabilityBadgeSpec`) |
| `ProductList.AvailabilityBadge` | src/app/components/products/product-list/product-list.component.ts:42 | the badge text, "Available" or "Unavailable" (no contract; characterised by `AvailabilityBadgeSpec`) |
| `ProductList.CardAvailableClass` | src/app/components/products/product-list/product-list.component.ts:38 | the result card's `available` class, the same test as the badge (no contract; characterised by `CardClassesPartition`) |
| `ProductList.CardUnavailableClass` | src/app/components/products/product-list/product-list.component.ts:38 | the result card's `unavailable` class, `!totalQuantity \|\| totalQuantity === 0` (no contract; characterised by `CardClassesPartition`) |
| `ProductList.AvailabilityBadgeSpec` | src/app/components/products/product-list/product-list.component.ts:41-42 | the badge reads "Available" iff the total quantity is present and positive; an absent one reads "Unavailable" |
| `ProductList.CardClassesPartition` | src/app/components/products/product-list/product-list.component.ts:38 | for an absent or non-negative quantity exactly one of `available`/`unavailable` applies; a negative one gets neither |
| `ProductList.StockLabelShown` | src/app/components/products/product-list/product-list.component.ts:81 | `*ngIf="product.totalQuantity !== undefined"` on the stock label (no contract; characterised by `StockLabelClasses`) |
| `ProductList.LowStockClass` | src/app/components/products/product-list/product-list.component.ts:82 | `low-stock`: below 10 and above 0 (no contract; characterised by `StockLabelClasses`) |
| `ProductList.OutOfStockClass` | src/app/components/products/product-list/product-list.component.ts:82 | `out-of-stock`: exactly 0 (no contract; characterised by `StockLabelClasses`) |
| `ProductList.StockLabelClasses` | src/app/components/products/product-list/product-list.component.ts:81-83 | the label, and with it both classes, exists iff the total quantity is defined; on a shown label `low-stock` and `out-of-stock` never apply together, and for a non-negative quantity one of them applies iff the quantity is low |
| `ProductList.EmptyMessage` | src/app/components/products/product-list/product-list.component.ts:54-55 | the no-data block: shown only for an empty filtered list, with "No products found." when there are no products at all (no contract; characterised by `EmptyMessageAfterSearch`) |
| `ProductList.EmptyMessageAfterSearch` | src/app/components/products/product-list/product-list.component.ts:54-55 | after a search the "match your search" message shows iff there are products and none matches; "No products found." iff there are none |
| `ProductList.ProductListComponent.constructor` | src/app/components/products/product-list/product-list.component.ts:463-467 | empty lists, term and SKU; no checked product |
| `ProductList.ProductListComponent.CheckEnabled` | src/app/components/products/product-list/product-list.component.ts:33 | `[disabled]="!checkSku"`: the button is enabled iff the SKU box is non-empty (no contract; used by `CheckAvailability`) |
| `ProductList.ProductListComponent.LoadProducts` | src/app/components/products/product-list/product-list.component.ts:471-476 | activation asks for all products |
| `ProductList.ProductListComponent.OnProductsLoaded` | src/app/components/products/product-list/product-list.component.ts:476-479 | both lists become the fetched list |
| `ProductList.ProductListComponent.FilterProducts` | src/app/components/products/product-list/product-list.component.ts:482-489 | `filteredProducts` becomes the search of `products`; `products` is unchanged |
| `ProductList.ProductListComponent.OnSearchInput` | src/app/components/products/product-list/product-list.component.ts:19-20 | the term is stored and the list re-filtered with it |
| `ProductList.ProductListComponent.OnCheckSkuInput` | src/app/components/products/product-list/product-list.component.ts:31 | the SKU box's text is stored |
| `ProductList.ProductListComponent.CheckAvailability` | src/app/components/products/product-list/product-list.component.ts:491-497 | a request is issued iff the SKU holds a non-white-space character, and it sends the trimmed SKU; in particular nothing is issued while the button is disabled (line 33) |
| `ProductList.ProductListComponent.OnAvailabilityResult` | src/app/components/products/product-list/product-list.component.ts:493-495 | a success replaces the checked product; a failure leaves the previous one |
| `Dashboard.LowStock` | src/app/components/dashboard/dashboard.component.ts:258-259 | `stocks.filter(stock => stock.quantity < 10)` (no contract; characterised by `LowStockSpec`) |
| `Dashboard.LowStockSpec` | src/app/components/dashboard/dashboard.component.ts:258-259 | the low lines are those with quantity < 10, in fetch order with every copy, and never more than all lines |
| `Dashboard.LowStockExample` | src/app/components/dashboard/dashboard.component.ts:258-259 | lines of 5 and 15 units give one low line, the first, listed alone |
| `Dashboard.DashboardComponent.Valid` | src/app/components/dashboard/dashboard.component.ts:251-260 | the invariant the three callbacks keep: low count at most line count, both lists at most five long and every listed line low (no contract; established by the constructor and kept by every callback) |
| `Dashboard.DashboardComponent.constructor` | src/app/components/dashboard/dashboard.component.ts:234-239 | all counts 0 and both lists empty |
| `Dashboard.DashboardComponent.LoadDashboardData` | src/app/components/dashboard/dashboard.component.ts:250-264 | stores, stocks and products are requested |
| `Dashboard.DashboardComponent.OnStoresLoaded` | src/app/components/dashboard/dashboard.component.ts:251-254 | store count and the first min(5, count) stores; only those two fields change |
| `Dashboard.DashboardComponent.OnStocksLoaded` | src/app/components/dashboard/dashboard.component.ts:256-260 | line count, low count = number of low lines, first min(5, low count) low lines; the invariant (low count at most line count, listed lines all low) is kept |
| `Dashboard.DashboardComponent.OnProductsLoaded` | src/app/components/dashboard/dashboard.component.ts:262-264 | product count only |
| `StoreDetail.QuantityHighlighted` | src/app/components/stores/store-detail/store-detail.component.ts:37 | `[class.low-stock]="stock.quantity < 10"` on a quantity cell (no contract; characterised by `QuantityHighlightedIffLow`) |
| `StoreDetail.QuantityHighlightedIffLow` | src/app/components/stores/store-detail/store-detail.component.ts:37 | a cell is highlighted iff its quantity is below 10, and a line of the store is highlighted iff the dashboard's low-stock selection over the same lines keeps it |
| `StoreDetail.StoreDetailComponent.PageVisible` | src/app/components/stores/store-detail/store-detail.component.ts:15 | `*ngIf="store"`: the page renders once the store is loaded (no contract; the precondition of the callbacks that read `store!`) |
| `StoreDetail.StoreDetailComponent.StockModalVisible` | src/app/components/stores/store-detail/store-detail.component.ts:50 | `showAddStock \|\| editingStock`, the stock modal's `*ngIf` (no contract; used by `OpenAddStock`, `EditStock` and `CloseStockModal`) |
| `StoreDetail.StoreDetailComponent.StockModalTitle` | src/app/components/stores/store-detail/store-detail.component.ts:53 | "Edit Stock" while editing, else "Add New Stock" (no contract; used by `EditStock` and `CloseStockModal`) |
| `StoreDetail.StoreDetailComponent.StockSubmitLabel` | src/app/components/stores/store-detail/store-detail.component.ts:67 | "Update" while editing, else "Add" (no contract; used by `EditStock` and `CloseStockModal`) |
| `StoreDetail.StoreDetailComponent.TransactionsModalVisible` | src/app/components/stores/store-detail/store-detail.component.ts:74 | `showTransactions && selectedStock`, the transactions modal's `*ngIf` (no contract; used by `ViewTransactions` and `CloseTransactionsModal`) |
| `StoreDetail.StoreDetailComponent.constructor` | src/app/components/stores/store-detail/store-detail.component.ts:470-477 | no store, no lines, both modals closed, blank form; the page is not rendered |
| `StoreDetail.StoreDetailComponent.Init` | src/app/components/stores/store-detail/store-detail.component.ts:485-489 | the store and its lines are requested by the route's id |
| `StoreDetail.StoreDetailComponent.OnStoreLoaded` | src/app/components/stores/store-detail/store-detail.component.ts:492-494 | the store is set and the page renders |
| `StoreDetail.StoreDetailComponent.OnStocksLoaded` | src/app/components/stores/store-detail/store-detail.component.ts:498-500 | the lines become the fetched list |
| `StoreDetail.StoreDetailComponent.OpenAddStock` | src/app/components/stores/store-detail/store-detail.component.ts:21 | the "Add Stock" button shows the modal |
| `StoreDetail.StoreDetailComponent.EditStock` | src/app/components/stores/store-detail/store-detail.component.ts:503-506 | the line is remembered and copied into the form; the modal shows "Edit Stock" and "Update" (lines 53, 67) |
| `StoreDetail.StoreDetailComponent.OnFormInput` | src/app/components/stores/store-detail/store-detail.component.ts:59-63 | the form's SKU and quantity are replaced and the rest kept |
| `StoreDetail.StoreDetailComponent.DeleteStock` | src/app/components/stores/store-detail/store-detail.component.ts:508-510 | a deletion by id is issued iff confirmed |
| `StoreDetail.StoreDetailComponent.OnStockDeleted` | src/app/components/stores/store-detail/store-detail.component.ts:510-512 | completion reloads the current store's lines |
| `StoreDetail.StoreDetailComponent.ViewTransactions` | src/app/components/stores/store-detail/store-detail.component.ts:516-520 | the line is selected and the modal opened; the transactions are requested iff the id is truthy |
| `StoreDetail.StoreDetailComponent.OnTransactionsLoaded` | src/app/components/stores/store-detail/store-detail.component.ts:520-522 | the API records are stored unchanged |
| `StoreDetail.StoreDetailComponent.SaveStock` | src/app/components/stores/store-detail/store-detail.component.ts:526-537 | an update by the edited line's id when editing, else an addition to the current store's id |
| `StoreDetail.StoreDetailComponent.OnStockSaved` | src/app/components/stores/store-detail/store-detail.component.ts:528-536 | completion reloads the store's lines and closes the modal |
| `StoreDetail.StoreDetailComponent.CloseStockModal` | src/app/components/stores/store-detail/store-detail.component.ts:540-544 | no add form, nothing edited, form back to empty SKU and quantity 0; so the modal is hidden (line 50), titled "Add New Stock" with "Add" |
| `StoreDetail.StoreDetailComponent.CloseTransactionsModal` | src/app/components/stores/store-detail/store-detail.component.ts:546-550 | modal closed, nothing selected, no transactions; so the modal is hidden (template line 74) |
| `Navbar.DashboardActive` | src/app/components/layout/navbar/navbar.component.ts:20 | `currentRoute === '/dashboard'` (no contract; characterised by `AtMostOneActive`) |
| `Navbar.StoresActive` | src/app/components/layout/navbar/navbar.component.ts:27 | `currentRoute === '/stores' \|\| currentRoute.startsWith('/stores/')` (no contract; characterised by `StoresActiveRoutes`) |
| `Navbar.StocksActive` | src/app/components/layout/navbar/navbar.component.ts:34 | `currentRoute === '/stocks'` (no contract; characterised by `AtMostOneActive`) |
| `Navbar.ProductsActive` | src/app/components/layout/navbar/navbar.component.ts:41 | `currentRoute === '/products'` (no contract; characterised by `AtMostOneActive`) |
| `Navbar.AtMostOneActive` | src/app/components/layout/navbar/navbar.component.ts:20-41 | no route makes two of the four links active |
| `Navbar.StoresActiveRoutes` | src/app/components/layout/navbar/navbar.component.ts:27 | Stores is active on "/stores" and on every "/stores/..." route, but not on "/storesX" |
| `Navbar.EmptyRouteHasNoActiveLink` | src/app/components/layout/navbar/navbar.component.ts:169 | the initial empty route makes no link active |
| `Navbar.NavbarComponent.constructor` | src/app/components/layout/navbar/navbar.component.ts:169-170 | empty route, closed menu, no active link |
| `Navbar.NavbarComponent.OnNavigationEnd` | src/app/components/layout/navbar/navbar.component.ts:174-179 | the navigation's url becomes the current route |
| `Navbar.NavbarComponent.ToggleMenu` | src/app/components/layout/navbar/navbar.component.ts:182-184 | the menu state is negated |
| `Navbar.NavbarComponent.CloseMenu` | src/app/components/layout/navbar/navbar.component.ts:186-188 | the menu is closed; every link's click does this (lines 21, 28, 35, 42) |
| `Navbar.ToggleTwice` | src/app/components/layout/navbar/navbar.component.ts:182-184 | two toggles restore the menu state |
| `Navbar.CloseTwice` | src/app/components/layout/navbar/navbar.component.ts:186-188 | closing is idempotent |

## Left out

- The HTTP services (`src/services/stock.service.ts`, `src/services/store.service.ts`) only build URLs and return Observables. Their calls appear here as `ApiRequest` values, and the API's behaviour is outside the model.
- Asynchrony: subscription timing, the order of the dashboard's three fetches, and the absence of cancellation. Every callback is a method that can be called at any time, late ones included.
- Application bootstrap (`src/main.ts`) and routing (`src/app/app.routes.ts`). The router is represented only by `OnNavigationEnd`.
- Template rendering and styles, the image fallback `onImageError`, and the `console.log` of the stock list.
- `Number(...)` conversion of the route parameter on the detail page. `Init` takes the converted id as an integer.
- JavaScript numbers are modelled as unbounded integers: no fractions, NaN or infinities. Truthiness of an id is "present and non-zero".
- `Text.ToLower`: does not model full Unicode case mapping, because only ASCII letters are lower-cased. A search on non-ASCII letters can differ from the browser's.
- `price` is left out of `Product`, because it is a floating-point value that is only displayed. `ConsumeStockRequest` is not used by any modelled component.
- `null` for `totalQuantity` is not distinguished from an absent value.
- The detail page's transactions modal renders `type`, `quantity` and `timestamp`. The stored API records do not have those members. This rendering is not part of the model.
- The `{ ...store }` copy in `editStore`/`editStock` matters in the source because objects are shared references. With value datatypes the copy cannot alias the list entry, so the model does not capture aliasing.
