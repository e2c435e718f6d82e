/** The product catalogue page: a search over name, SKU, brand and category,
    an availability check by SKU, and the availability and stock classes of
    the template. */
module ProductList {
  import opened Wrappers
  import opened Text
  import opened Seqs
  import opened Models

  /** The search test of `filterProducts`: the lower-cased term occurs in the
      lower-cased name, SKU, brand or category name. */
  predicate ProductMatches(product: Product, term: string)
  {
    var t := ToLower(term);
    || Includes(ToLower(product.name), t)
    || Includes(ToLower(product.sku), t)
    || Includes(ToLower(product.brand), t)
    || Includes(ToLower(product.categoryName), t)
  }

  function ProductTest(term: string): Product -> bool
  {
    product => ProductMatches(product, term)
  }

  /** The products that `filterProducts` keeps for `term`. */
  function ProductsMatching(products: seq<Product>, term: string): seq<Product>
  {
    Filter(products, ProductTest(term))
  }

  /** The search result is an order-preserving selection: a product is kept,
      with all its copies, exactly when one of its four fields matches; the
      empty term keeps all. */
  lemma ProductsMatchingSpec(products: seq<Product>, term: string)
    ensures IsSubsequence(ProductsMatching(products, term), products)
    ensures forall p :: p in ProductsMatching(products, term) <==> p in products && ProductMatches(p, term)
    ensures forall p :: multiset(ProductsMatching(products, term))[p]
                        == if ProductMatches(p, term) then multiset(products)[p] else 0
    ensures term == "" ==> ProductsMatching(products, term) == products
  {
    FilterIsSubsequence(products, ProductTest(term));
    forall p
      ensures multiset(ProductsMatching(products, term))[p]
              == if ProductMatches(p, term) then multiset(products)[p] else 0
    {
      FilterMultiplicity(products, ProductTest(term), p);
    }
    if term == "" {
      forall p | p in products
        ensures ProductTest(term)(p)
      {
        assert Includes(ToLower(p.name), ToLower(term));
      }
      FilterKeepsAll(products, ProductTest(term));
    }
  }

  /** `totalQuantity && totalQuantity > 0`: present, truthy and positive. */
  predicate IsAvailable(totalQuantity: Option<int>)
  {
    totalQuantity.Some? && totalQuantity.value != 0 && totalQuantity.value > 0
  }

  function AvailabilityBadge(totalQuantity: Option<int>): string
  {
    if IsAvailable(totalQuantity) then "Available" else "Unavailable"
  }

  /** The result card's `available` class (same test as the badge). */
  predicate CardAvailableClass(totalQuantity: Option<int>)
  {
    IsAvailable(totalQuantity)
  }

  /** The result card's `unavailable` class: `!totalQuantity` (absent or zero)
      or `totalQuantity === 0`. */
  predicate CardUnavailableClass(totalQuantity: Option<int>)
  {
    totalQuantity.None? || totalQuantity.value == 0
  }

  /** The badge reads "Available" exactly for a present positive quantity. */
  lemma AvailabilityBadgeSpec(totalQuantity: Option<int>)
    ensures AvailabilityBadge(totalQuantity) == "Available"
            <==> totalQuantity.Some? && totalQuantity.value > 0
    ensures totalQuantity == None ==> AvailabilityBadge(totalQuantity) == "Unavailable"
  {
  }

  /** For an absent or non-negative quantity exactly one card class applies;
      a negative quantity gets neither. */
  lemma CardClassesPartition(totalQuantity: Option<int>)
    ensures totalQuantity.None? || totalQuantity.value >= 0
            ==> CardAvailableClass(totalQuantity) != CardUnavailableClass(totalQuantity)
    ensures totalQuantity.Some? && totalQuantity.value < 0
            ==> !CardAvailableClass(totalQuantity) && !CardUnavailableClass(totalQuantity)
  {
  }

  /** The grid's stock label is shown only for a defined total quantity. */
  predicate StockLabelShown(totalQuantity: Option<int>)
  {
    totalQuantity.Some?
  }

  /** `low-stock` on the label: below the threshold but above zero. */
  predicate LowStockClass(quantity: int)
  {
    quantity < LowStockThreshold && quantity > 0
  }

  /** `out-of-stock` on the label: exactly zero. */
  predicate OutOfStockClass(quantity: int)
  {
    quantity == 0
  }

  /** The label of a product without a total quantity is not rendered, so it
      carries neither class; on a shown label the two classes never apply
      together and, for a non-negative quantity, one of them applies exactly
      when the product is low on stock. */
  lemma StockLabelClasses(totalQuantity: Option<int>)
    ensures !StockLabelShown(totalQuantity) <==> totalQuantity == None
    ensures StockLabelShown(totalQuantity) ==>
              !(LowStockClass(totalQuantity.value) && OutOfStockClass(totalQuantity.value))
    ensures StockLabelShown(totalQuantity) && totalQuantity.value >= 0 ==>
              (LowStockClass(totalQuantity.value) || OutOfStockClass(totalQuantity.value)
               <==> IsLowStock(totalQuantity.value))
  {
  }

  /** The message shown in place of the grid; none while some product is visible. */
  function EmptyMessage(products: seq<Product>, filteredProducts: seq<Product>): Option<string>
  {
    if |filteredProducts| == 0 then
      Some(if |products| == 0 then "No products found." else "No products match your search.")
    else None
  }

  /** After a search, the "match your search" message appears exactly when
      there are products and none of them matches; the "found" message exactly
      when there are none at all. */
  lemma EmptyMessageAfterSearch(products: seq<Product>, term: string)
    ensures EmptyMessage(products, ProductsMatching(products, term)) == Some("No products match your search.")
            <==> products != [] && forall p :: p in products ==> !ProductMatches(p, term)
    ensures EmptyMessage(products, ProductsMatching(products, term)) == Some("No products found.")
            <==> products == []
  {
    ProductsMatchingSpec(products, term);
    var r := ProductsMatching(products, term);
    if r != [] {
      assert r[0] in r;
    }
  }

  class ProductListComponent {
    var products: seq<Product>
    var filteredProducts: seq<Product>
    var searchTerm: string
    var checkSku: string
    var checkedProduct: Option<Product>

    constructor ()
      ensures products == [] && filteredProducts == [] && searchTerm == ""
      ensures checkSku == "" && checkedProduct == None
    {
      products := [];
      filteredProducts := [];
      searchTerm := "";
      checkSku := "";
      checkedProduct := None;
    }

    /** The "Check" button is disabled while the SKU box is empty; a click on
        an enabled button with only white space in the box still issues nothing. */
    function CheckEnabled(): bool
      reads this
    {
      checkSku != ""
    }

    /** `loadProducts`, called on page activation. */
    method LoadProducts() returns (issued: ApiRequest)
      ensures issued == GetAllProducts
    {
      issued := GetAllProducts;
    }

    /** The callback of `loadProducts`: both lists become the fetched list. */
    method OnProductsLoaded(fetched: seq<Product>)
      modifies this`products, this`filteredProducts
      ensures products == fetched && filteredProducts == fetched
    {
      products := fetched;
      filteredProducts := fetched;
    }

    /** `filterProducts`: recomputed from `products` and the term alone. */
    method FilterProducts()
      modifies this`filteredProducts
      ensures filteredProducts == ProductsMatching(products, searchTerm)
    {
      filteredProducts := ProductsMatching(products, searchTerm);
    }

    /** Typing in the search box: the binding stores the term, then `filterProducts` runs. */
    method OnSearchInput(term: string)
      modifies this`searchTerm, this`filteredProducts
      ensures searchTerm == term && filteredProducts == ProductsMatching(products, term)
    {
      searchTerm := term;
      FilterProducts();
    }

    /** Typing in the SKU box. */
    method OnCheckSkuInput(sku: string)
      modifies this`checkSku
      ensures checkSku == sku
    {
      checkSku := sku;
    }

    /** `checkAvailability`: asks for the trimmed SKU, and only when it is not
        empty; nothing on the page changes until the answer arrives. */
    method CheckAvailability() returns (issued: Option<ApiRequest>)
      ensures issued.Some? <==> exists k :: 0 <= k < |checkSku| && !IsJsSpace(checkSku[k])
      ensures !CheckEnabled() ==> issued == None
      ensures issued.Some? ==> issued == Some(CheckProductAvailability(Trim(checkSku)))
      ensures issued.Some? ==> issued.value.sku != [] && !IsJsSpace(issued.value.sku[0])
    {
      var sku := Trim(checkSku);
      TrimEmptyIffAllSpace(checkSku);
      TrimIsSlice(checkSku);
      if sku != "" {
        issued := Some(CheckProductAvailability(sku));
      } else {
        issued := None;
      }
    }

    /** The outcome of the availability request: only a success replaces the
        shown product; a failure, which the page does not handle, leaves the
        previous result in place. */
    method OnAvailabilityResult(outcome: Result<Product, RequestError>)
      modifies this`checkedProduct
      ensures outcome.Success? ==> checkedProduct == Some(outcome.value)
      ensures outcome.Failure? ==> checkedProduct == old(checkedProduct)
    {
      if outcome.Success? {
        checkedProduct := Some(outcome.value);
      }
    }
  }
}
