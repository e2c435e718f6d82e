/** The page listing every stock line: a search by SKU, status badges,
    deletion of one or all lines, and a transactions modal whose records are
    remapped from the API's shape into a display shape. */
module StockList {
  import opened Wrappers
  import opened Text
  import opened Seqs
  import opened Models

  /** The search test of `filterStocks`: the lower-cased term occurs in the lower-cased SKU. */
  predicate StockMatches(stock: Stock, term: string)
  {
    Includes(ToLower(stock.sku), ToLower(term))
  }

  function StockTest(term: string): Stock -> bool
  {
    stock => StockMatches(stock, term)
  }

  /** The stock lines that `filterStocks` keeps for `term`. */
  function StocksMatching(stocks: seq<Stock>, term: string): seq<Stock>
  {
    Filter(stocks, StockTest(term))
  }

  /** The search result is an order-preserving selection: a line is kept, with
      all its copies, exactly when its SKU matches; the empty term keeps all. */
  lemma StocksMatchingSpec(stocks: seq<Stock>, term: string)
    ensures IsSubsequence(StocksMatching(stocks, term), stocks)
    ensures forall s :: s in StocksMatching(stocks, term) <==> s in stocks && StockMatches(s, term)
    ensures forall s :: multiset(StocksMatching(stocks, term))[s]
                        == if StockMatches(s, term) then multiset(stocks)[s] else 0
    ensures term == "" ==> StocksMatching(stocks, term) == stocks
  {
    FilterIsSubsequence(stocks, StockTest(term));
    forall s
      ensures multiset(StocksMatching(stocks, term))[s]
              == if StockMatches(s, term) then multiset(stocks)[s] else 0
    {
      FilterMultiplicity(stocks, StockTest(term), s);
    }
    if term == "" {
      forall s | s in stocks
        ensures StockTest(term)(s)
      {
        assert Includes(ToLower(s.sku), ToLower(term));
      }
      FilterKeepsAll(stocks, StockTest(term));
    }
  }

  /** The quantity cell and the badge are marked low below the threshold ... */
  predicate LowBadgeClass(quantity: int)
  {
    IsLowStock(quantity)
  }

  /** ... and marked good from the threshold on. */
  predicate GoodBadgeClass(quantity: int)
  {
    quantity >= LowStockThreshold
  }

  function StatusBadge(quantity: int): string
  {
    if IsLowStock(quantity) then "Low Stock" else "In Stock"
  }

  /** Exactly one badge class applies to every quantity, and the badge text agrees with it. */
  lemma BadgeClassesPartition(quantity: int)
    ensures LowBadgeClass(quantity) != GoodBadgeClass(quantity)
    ensures StatusBadge(quantity) == "Low Stock" <==> LowBadgeClass(quantity)
    ensures StatusBadge(quantity) == "In Stock" <==> GoodBadgeClass(quantity)
  {
  }

  /** The message shown in place of the table; none while some line is visible. */
  function EmptyMessage(stocks: seq<Stock>, filteredStocks: seq<Stock>): Option<string>
  {
    if |filteredStocks| == 0 then
      Some(if |stocks| == 0 then "No stock items found." else "No stock items match your search.")
    else None
  }

  /** After a search, the "match your search" message appears exactly when
      there are stock lines and none of them matches; the "found" message
      exactly when there are none at all. */
  lemma EmptyMessageAfterSearch(stocks: seq<Stock>, term: string)
    ensures EmptyMessage(stocks, StocksMatching(stocks, term)) == Some("No stock items match your search.")
            <==> stocks != [] && forall s :: s in stocks ==> !StockMatches(s, term)
    ensures EmptyMessage(stocks, StocksMatching(stocks, term)) == Some("No stock items found.")
            <==> stocks == []
  {
    StocksMatchingSpec(stocks, term);
    var r := StocksMatching(stocks, term);
    if r != [] {
      assert r[0] in r;
    }
  }

  /** The "Clear All Stock" button is present only while there are stock lines. */
  predicate ClearAllVisible(stocks: seq<Stock>)
  {
    |stocks| > 0
  }

  /** One API transaction of the stock with id `stockId` as the modal shows it. */
  function ToDisplay(stockId: int, t: ApiTransaction): DisplayTransaction
  {
    DisplayTransaction(stockId, t.consumedQuantity, t.createdAt, "CONSUME", t.id)
  }

  /** The `map` inside `viewTransactions`: each API record, in order, becomes a
      display record of the stock, typed "CONSUME". */
  function Remap(stockId: int, api: seq<ApiTransaction>): (r: seq<DisplayTransaction>)
    ensures |r| == |api|
    ensures forall i :: 0 <= i < |api| ==>
              && r[i].stockId == stockId
              && r[i].quantity == api[i].consumedQuantity
              && r[i].timestamp == api[i].createdAt
              && r[i].kind == "CONSUME"
              && r[i].id == api[i].id
  {
    if api == [] then [] else [ToDisplay(stockId, api[0])] + Remap(stockId, api[1..])
  }

  /** Two API lists remap to the same display list exactly when they agree,
      record by record, on consumed quantity, creation time and id: the SKU and
      the store id of a transaction are dropped. */
  lemma RemapSameIff(stockId: int, a: seq<ApiTransaction>, b: seq<ApiTransaction>)
    ensures Remap(stockId, a) == Remap(stockId, b) <==>
              && |a| == |b|
              && forall i :: 0 <= i < |a| ==>
                   && a[i].consumedQuantity == b[i].consumedQuantity
                   && a[i].createdAt == b[i].createdAt
                   && a[i].id == b[i].id
  {
    var ra, rb := Remap(stockId, a), Remap(stockId, b);
    if ra == rb {
      forall i | 0 <= i < |a|
        ensures a[i].consumedQuantity == b[i].consumedQuantity
        ensures a[i].createdAt == b[i].createdAt && a[i].id == b[i].id
      {
        assert ra[i] == rb[i];
      }
    }
    if |a| == |b| && forall i :: 0 <= i < |a| ==>
         && a[i].consumedQuantity == b[i].consumedQuantity
         && a[i].createdAt == b[i].createdAt
         && a[i].id == b[i].id
    {
      forall i | 0 <= i < |ra|
        ensures ra[i] == rb[i]
      {
      }
    }
  }

  class StockListComponent {
    var stocks: seq<Stock>
    var filteredStocks: seq<Stock>
    var searchTerm: string
    var showTransactions: bool
    var selectedStock: Option<Stock>
    var transactions: seq<DisplayTransaction>

    constructor ()
      ensures stocks == [] && filteredStocks == [] && searchTerm == ""
      ensures !showTransactions && selectedStock == None && transactions == []
    {
      stocks := [];
      filteredStocks := [];
      searchTerm := "";
      showTransactions := false;
      selectedStock := None;
      transactions := [];
    }

    /** The transactions modal is shown while it is open on a selected stock line. */
    function TransactionsModalVisible(): bool
      reads this
    {
      showTransactions && selectedStock.Some?
    }

    /** `loadStocks`, called on page activation and after every deletion. */
    method LoadStocks() returns (issued: ApiRequest)
      ensures issued == GetAllStocks
    {
      issued := GetAllStocks;
    }

    /** The callback of `loadStocks`: both lists become the fetched list. */
    method OnStocksLoaded(fetched: seq<Stock>)
      modifies this`stocks, this`filteredStocks
      ensures stocks == fetched && filteredStocks == fetched
      ensures EmptyMessage(stocks, filteredStocks) == (if fetched == [] then Some("No stock items found.") else None)
      ensures ClearAllVisible(stocks) <==> fetched != []
    {
      stocks := fetched;
      filteredStocks := fetched;
    }

    /** `filterStocks`: recomputed from `stocks` and the term alone. */
    method FilterStocks()
      modifies this`filteredStocks
      ensures filteredStocks == StocksMatching(stocks, searchTerm)
    {
      filteredStocks := StocksMatching(stocks, searchTerm);
    }

    /** Typing in the search box: the binding stores the term, then `filterStocks` runs. */
    method OnSearchInput(term: string)
      modifies this`searchTerm, this`filteredStocks
      ensures searchTerm == term && filteredStocks == StocksMatching(stocks, term)
    {
      searchTerm := term;
      FilterStocks();
    }

    /** `deleteStock`: issued only when confirmed; nothing changes meanwhile. */
    method DeleteStock(id: Option<int>, confirmed: bool) returns (issued: Option<ApiRequest>)
      ensures confirmed ==> issued == Some(ApiRequest.DeleteStock(id))
      ensures !confirmed ==> issued == None
    {
      if confirmed {
        issued := Some(ApiRequest.DeleteStock(id));
      } else {
        issued := None;
      }
    }

    /** `deleteAllStocks`: issued only when confirmed. */
    method DeleteAllStocks(confirmed: bool) returns (issued: Option<ApiRequest>)
      ensures confirmed ==> issued == Some(ApiRequest.DeleteAllStocks)
      ensures !confirmed ==> issued == None
    {
      if confirmed {
        issued := Some(ApiRequest.DeleteAllStocks);
      } else {
        issued := None;
      }
    }

    /** Completion of either deletion: the list is fetched again. */
    method OnStocksDeleted() returns (issued: ApiRequest)
      ensures issued == GetAllStocks
    {
      issued := LoadStocks();
    }

    /** `viewTransactions`: opens the modal on the line, and asks for its
        transactions only when its id is truthy (present and non-zero). */
    method ViewTransactions(stock: Stock) returns (issued: Option<ApiRequest>)
      modifies this`selectedStock, this`showTransactions
      ensures selectedStock == Some(stock) && showTransactions && TransactionsModalVisible()
      ensures IsTruthyId(stock.id) ==> issued == Some(GetStockTransactions(stock.id.value))
      ensures !IsTruthyId(stock.id) ==> issued == None
    {
      selectedStock := Some(stock);
      showTransactions := true;
      if IsTruthyId(stock.id) {
        issued := Some(GetStockTransactions(stock.id.value));
      } else {
        issued := None;
      }
    }

    /** The callback of the transactions request `request` that
        `ViewTransactions` issued: the records are remapped with the stock id
        that request was made for. It applies even when the modal was closed in
        the meantime. */
    method OnTransactionsLoaded(request: ApiRequest, api: seq<ApiTransaction>)
      requires request.GetStockTransactions?
      modifies this`transactions
      ensures transactions == Remap(request.stockId, api)
    {
      transactions := Remap(request.stockId, api);
    }

    /** `closeTransactionsModal`: closes the modal and forgets the line and its transactions. */
    method CloseTransactionsModal()
      modifies this`showTransactions, this`selectedStock, this`transactions
      ensures !showTransactions && selectedStock == None && transactions == []
      ensures !TransactionsModalVisible()
    {
      showTransactions := false;
      selectedStock := None;
      transactions := [];
    }
  }

  /** Opening the modal on a line with a truthy id and then receiving the
      answer to the request it issued: the modal shows one record per API
      transaction, in order, each attributed to the line that was opened. */
  method ViewThenLoad(page: StockListComponent, stock: Stock, api: seq<ApiTransaction>)
    requires IsTruthyId(stock.id)
    modifies page
    ensures page.TransactionsModalVisible() && page.selectedStock == Some(stock)
    ensures |page.transactions| == |api|
    ensures forall i :: 0 <= i < |api| ==>
              page.transactions[i].stockId == stock.id.value
              && page.transactions[i].quantity == api[i].consumedQuantity
  {
    var issued := page.ViewTransactions(stock);
    page.OnTransactionsLoaded(issued.value, api);
  }
}
