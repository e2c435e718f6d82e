/** The dashboard: counts of stores, stock lines and products, the number of
    low stock lines, and the first five stores and low stock lines. */
module Dashboard {
  import opened Wrappers
  import opened Seqs
  import opened Models

  /** How many entries each dashboard list shows. */
  const ListLength := 5

  function LowTest(): Stock -> bool
  {
    (stock: Stock) => IsLowStock(stock.quantity)
  }

  /** `stocks.filter(stock => stock.quantity < 10)`. */
  function LowStock(stocks: seq<Stock>): seq<Stock>
  {
    Filter(stocks, LowTest())
  }

  /** The low stock lines are those of the fetched lines, in fetch order and
      with all their copies, whose quantity is below the threshold. */
  lemma LowStockSpec(stocks: seq<Stock>)
    ensures IsSubsequence(LowStock(stocks), stocks)
    ensures |LowStock(stocks)| <= |stocks|
    ensures forall s :: s in LowStock(stocks) <==> s in stocks && IsLowStock(s.quantity)
    ensures forall s :: multiset(LowStock(stocks))[s]
                        == if IsLowStock(s.quantity) then multiset(stocks)[s] else 0
  {
    FilterIsSubsequence(stocks, LowTest());
    forall s
      ensures multiset(LowStock(stocks))[s] == if IsLowStock(s.quantity) then multiset(stocks)[s] else 0
    {
      FilterMultiplicity(stocks, LowTest(), s);
    }
  }

  /** Stock lines of 5 and 15 units: one is low, and it is the one listed. */
  lemma LowStockExample()
    ensures LowStock([Stock(None, "A", 5, None), Stock(None, "B", 15, None)]) == [Stock(None, "A", 5, None)]
    ensures Take(LowStock([Stock(None, "A", 5, None), Stock(None, "B", 15, None)]), ListLength)
            == [Stock(None, "A", 5, None)]
  {
    var a, b := Stock(None, "A", 5, None), Stock(None, "B", 15, None);
    assert [a, b][1..] == [b];
    assert Filter([b], LowTest()) == [];
  }

  class DashboardComponent {
    var totalStores: int
    var totalStocks: int
    var totalProducts: int
    var lowStockCount: int
    var recentStores: seq<Store>
    var lowStockItems: seq<Stock>

    /** What holds of the six fields before and after every callback. */
    ghost predicate Valid()
      reads this
    {
      && 0 <= lowStockCount <= totalStocks
      && 0 <= totalStores && 0 <= totalProducts
      && |recentStores| == (if totalStores < ListLength then totalStores else ListLength)
      && |lowStockItems| == (if lowStockCount < ListLength then lowStockCount else ListLength)
      && forall s :: s in lowStockItems ==> IsLowStock(s.quantity)
    }

    constructor ()
      ensures Valid()
      ensures totalStores == 0 && totalStocks == 0 && totalProducts == 0 && lowStockCount == 0
      ensures recentStores == [] && lowStockItems == []
    {
      totalStores := 0;
      totalStocks := 0;
      totalProducts := 0;
      lowStockCount := 0;
      recentStores := [];
      lowStockItems := [];
    }

    /** `loadDashboardData`: the three fetches, issued together. */
    method LoadDashboardData() returns (issued: seq<ApiRequest>)
      ensures issued == [GetAllStores, GetAllStocks, GetAllProducts]
    {
      issued := [GetAllStores, GetAllStocks, GetAllProducts];
    }

    /** The stores callback: the count and the first five stores; nothing else changes. */
    method OnStoresLoaded(stores: seq<Store>)
      requires Valid()
      modifies this`totalStores, this`recentStores
      ensures Valid()
      ensures totalStores == |stores| && recentStores == Take(stores, ListLength)
    {
      totalStores := |stores|;
      recentStores := Take(stores, ListLength);
    }

    /** The stocks callback: the count, the low stock count and the first five
        low stock lines in fetch order; nothing else changes. */
    method OnStocksLoaded(stocks: seq<Stock>)
      requires Valid()
      modifies this`totalStocks, this`lowStockItems, this`lowStockCount
      ensures Valid()
      ensures totalStocks == |stocks|
      ensures lowStockCount == |LowStock(stocks)|
      ensures lowStockItems == Take(LowStock(stocks), ListLength)
    {
      LowStockSpec(stocks);
      totalStocks := |stocks|;
      lowStockItems := Take(LowStock(stocks), ListLength);
      lowStockCount := |LowStock(stocks)|;
    }

    /** The products callback: the count only. */
    method OnProductsLoaded(products: seq<Product>)
      requires Valid()
      modifies this`totalProducts
      ensures Valid()
      ensures totalProducts == |products|
    {
      totalProducts := |products|;
    }
  }
}
