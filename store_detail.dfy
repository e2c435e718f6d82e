/** The detail page of one store: its stock lines, an add/edit stock modal
    and a transactions modal. The page body exists only once the store has
    been loaded. */
module StoreDetail {
  import opened Wrappers
  import opened Models
  import opened Dashboard

  /** A quantity cell is highlighted below the threshold. */
  predicate QuantityHighlighted(quantity: int)
  {
    IsLowStock(quantity)
  }

  /** A line of the store is highlighted exactly when it has fewer than ten
      units, which is exactly when the dashboard's low-stock selection over
      the same lines keeps it. */
  lemma QuantityHighlightedIffLow(stocks: seq<Stock>)
    ensures forall q :: QuantityHighlighted(q) <==> q < 10
    ensures forall s :: s in stocks ==> (QuantityHighlighted(s.quantity) <==> s in LowStock(stocks))
  {
    LowStockSpec(stocks);
  }

  class StoreDetailComponent {
    var store: Option<Store>
    var stocks: seq<Stock>
    var showAddStock: bool
    var editingStock: Option<Stock>
    var showTransactions: bool
    var selectedStock: Option<Stock>
    var transactions: seq<ApiTransaction>
    var currentStock: Stock

    constructor ()
      ensures store == None && stocks == []
      ensures !showAddStock && editingStock == None && currentStock == BlankStock
      ensures !showTransactions && selectedStock == None && transactions == []
      ensures !PageVisible() && !StockModalVisible() && !TransactionsModalVisible()
    {
      store := None;
      stocks := [];
      showAddStock := false;
      editingStock := None;
      showTransactions := false;
      selectedStock := None;
      transactions := [];
      currentStock := BlankStock;
    }

    /** The whole page, and so every button on it, is rendered only for a loaded store. */
    function PageVisible(): bool
      reads this
    {
      store.Some?
    }

    /** The add/edit modal is shown while adding or while a line is being edited. */
    function StockModalVisible(): bool
      reads this
    {
      showAddStock || editingStock.Some?
    }

    function StockModalTitle(): string
      reads this
    {
      if editingStock.Some? then "Edit Stock" else "Add New Stock"
    }

    /** The submit button of the stock modal. */
    function StockSubmitLabel(): string
      reads this
    {
      if editingStock.Some? then "Update" else "Add"
    }

    function TransactionsModalVisible(): bool
      reads this
    {
      showTransactions && selectedStock.Some?
    }

    /** `ngOnInit` with the route's id already converted to a number: the
        store and its stock lines are requested. */
    method Init(storeId: int) returns (issued: seq<ApiRequest>)
      ensures issued == [GetStore(Some(storeId)), GetStoreStocks(Some(storeId))]
    {
      issued := [GetStore(Some(storeId)), GetStoreStocks(Some(storeId))];
    }

    /** The callback of `loadStore`. */
    method OnStoreLoaded(loaded: Store)
      modifies this`store
      ensures store == Some(loaded) && PageVisible()
    {
      store := Some(loaded);
    }

    /** The callback of `loadStocks`. */
    method OnStocksLoaded(fetched: seq<Stock>)
      modifies this`stocks
      ensures stocks == fetched
    {
      stocks := fetched;
    }

    /** The "Add Stock" button. */
    method OpenAddStock()
      modifies this`showAddStock
      ensures showAddStock && StockModalVisible()
    {
      showAddStock := true;
    }

    /** `editStock`: remembers the line and copies it into the form. */
    method EditStock(stock: Stock)
      modifies this`editingStock, this`currentStock
      ensures editingStock == Some(stock) && currentStock == stock
      ensures StockModalVisible() && StockModalTitle() == "Edit Stock" && StockSubmitLabel() == "Update"
    {
      editingStock := Some(stock);
      currentStock := stock;
    }

    /** The form's SKU and quantity inputs; the copied id and store are kept. */
    method OnFormInput(sku: string, quantity: int)
      modifies this`currentStock
      ensures currentStock == old(currentStock).(sku := sku, quantity := quantity)
    {
      currentStock := currentStock.(sku := sku, quantity := quantity);
    }

    /** `deleteStock`: issued only when confirmed; nothing changes meanwhile. */
    method DeleteStock(id: Option<int>, confirmed: bool) returns (issued: Option<ApiRequest>)
      ensures confirmed ==> issued == Some(ApiRequest.DeleteStock(id))
      ensures !confirmed ==> issued == None
    {
      if confirmed {
        issued := Some(ApiRequest.DeleteStock(id));
      } else {
        issued := None;
      }
    }

    /** Completion of a deletion: the stock lines of the current store are fetched again. */
    method OnStockDeleted() returns (issued: ApiRequest)
      requires PageVisible()
      ensures issued == GetStoreStocks(store.value.id)
    {
      issued := GetStoreStocks(store.value.id);
    }

    /** `viewTransactions`: opens the modal on the line, and asks for its
        transactions only when its id is truthy (present and non-zero). */
    method ViewTransactions(stock: Stock) returns (issued: Option<ApiRequest>)
      modifies this`selectedStock, this`showTransactions
      ensures selectedStock == Some(stock) && showTransactions && TransactionsModalVisible()
      ensures IsTruthyId(stock.id) ==> issued == Some(GetStockTransactions(stock.id.value))
      ensures !IsTruthyId(stock.id) ==> issued == None
    {
      selectedStock := Some(stock);
      showTransactions := true;
      if IsTruthyId(stock.id) {
        issued := Some(GetStockTransactions(stock.id.value));
      } else {
        issued := None;
      }
    }

    /** The callback of the transactions request: the records are stored as
        they arrive, without remapping. */
    method OnTransactionsLoaded(fetched: seq<ApiTransaction>)
      modifies this`transactions
      ensures transactions == fetched
    {
      transactions := fetched;
    }

    /** `saveStock`: an update of the edited line by its id, otherwise an
        addition to the current store (whose id is read only in that case). */
    method SaveStock() returns (issued: ApiRequest)
      requires editingStock.Some? || PageVisible()
      ensures editingStock.Some? ==> issued == UpdateStock(editingStock.value.id, currentStock)
      ensures editingStock.None? ==> issued == AddStock(store.value.id, currentStock)
    {
      if editingStock.Some? {
        issued := UpdateStock(editingStock.value.id, currentStock);
      } else {
        issued := AddStock(store.value.id, currentStock);
      }
    }

    /** Completion of an update or an addition: the store's lines are fetched
        again and the modal is closed. */
    method OnStockSaved() returns (issued: ApiRequest)
      requires PageVisible()
      modifies this`showAddStock, this`editingStock, this`currentStock
      ensures issued == GetStoreStocks(store.value.id)
      ensures !showAddStock && editingStock == None && currentStock == BlankStock
      ensures !StockModalVisible()
    {
      issued := GetStoreStocks(store.value.id);
      CloseStockModal();
    }

    /** `closeStockModal`: back to the fixed form defaults, which hides the modal. */
    method CloseStockModal()
      modifies this`showAddStock, this`editingStock, this`currentStock
      ensures !showAddStock && editingStock == None && currentStock == BlankStock
      ensures !StockModalVisible() && StockModalTitle() == "Add New Stock" && StockSubmitLabel() == "Add"
    {
      showAddStock := false;
      editingStock := None;
      currentStock := BlankStock;
    }

    /** `closeTransactionsModal`: closes the modal and forgets the line and its transactions. */
    method CloseTransactionsModal()
      modifies this`showTransactions, this`selectedStock, this`transactions
      ensures !showTransactions && selectedStock == None && transactions == []
      ensures !TransactionsModalVisible()
    {
      showTransactions := false;
      selectedStock := None;
      transactions := [];
    }
  }
}
