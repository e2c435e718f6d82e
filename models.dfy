/** The records exchanged with the inventory API, the one classification
    shared by every page (low stock), and the remote calls the pages issue. */
module Models {
  import opened Wrappers

  /** A store; `id` is assigned by the API. */
  datatype Store = Store(id: Option<int>, name: string, location: string)

  /** A stock line of a store. */
  datatype Stock = Stock(id: Option<int>, sku: string, quantity: int, storeId: Option<int>)

  /** A transaction as the API delivers it (the declared `Transaction` record). */
  datatype ApiTransaction = ApiTransaction(
    id: Option<int>, sku: string, storeId: int, consumedQuantity: int, createdAt: string)

  /** The record the stock list builds for its transactions modal; it does not
      have the shape of `ApiTransaction`. The `type` member is called `kind`. */
  datatype DisplayTransaction = DisplayTransaction(
    stockId: int, quantity: int, timestamp: string, kind: string, id: Option<int>)

  /** A catalogue product; `totalQuantity` and `available` are filled in by the
      availability endpoints only. */
  datatype Product = Product(
    id: Option<int>, categoryName: string, name: string, sku: string, brand: string,
    description: string, imageUrl: string, isActive: bool,
    available: Option<bool>, totalQuantity: Option<int>)

  /** The form defaults the store and stock modals reset to. */
  const BlankStore := Store(None, "", "")
  const BlankStock := Stock(None, "", 0, None)

  /** A stock quantity below this is "low" everywhere in the UI. */
  const LowStockThreshold := 10

  predicate IsLowStock(quantity: int)
  {
    quantity < LowStockThreshold
  }

  /** JavaScript truthiness of an optional numeric id: absent and 0 are false. */
  predicate IsTruthyId(id: Option<int>)
  {
    id.Some? && id.value != 0
  }

  /** A remote call, as issued by a page. An id the page reads with `!` from a
      record that may lack it is carried as an `Option` (`undefined` is sent). */
  datatype ApiRequest =
    | GetAllStores
    | GetStore(id: Option<int>)
    | GetStoreStocks(id: Option<int>)
    | AddStore(store: Store)
    | UpdateStore(id: Option<int>, store: Store)
    | DeleteStore(id: Option<int>)
    | GetAllStocks
    | AddStock(storeId: Option<int>, stock: Stock)
    | UpdateStock(id: Option<int>, stock: Stock)
    | DeleteStock(id: Option<int>)
    | DeleteAllStocks
    | GetStockTransactions(stockId: int)
    | GetAllProducts
    | CheckProductAvailability(sku: string)

  /** The single failure a remote call can end with. */
  datatype RequestError = RequestFailed
}
