/** The catalogue page (src/pages/Browse.tsx): category selection, a price
    range, a sort key, a grid/list switch and a filter-panel switch. None of
    them reaches the product grid, which always shows the whole product list. */
module Browse {
  import opened Wrappers
  import opened Seqs
  import CategoryFilter

  datatype ProductSeller = ProductSeller(name: string, rating: int)

  datatype Product = Product(
    id: string,
    title: string,
    price: int,
    category: string,
    condition: string,
    location: string,
    image: string,
    seller: ProductSeller,
    isLiked: bool)

  datatype ViewMode = Grid | ListView

  const DefaultMinPrice: int := 0
  const DefaultMaxPrice: int := 500

  /** `parseInt(text) || 0` for the minimum, given the parse result (`None`
      for NaN). Since a parsed 0 falls back to 0, this is plain "0 when
      there is no number". */
  function MinFromInput(parsed: Option<int>): (r: int)
    ensures r == parsed.GetOr(DefaultMinPrice)
  {
    match parsed
    case None => DefaultMinPrice
    case Some(n) => if n == 0 then DefaultMinPrice else n
  }

  /** `parseInt(text) || 500` for the maximum: no number and a typed 0 both
      give 500, so the maximum is never 0. */
  function MaxFromInput(parsed: Option<int>): (r: int)
    ensures r != 0
    ensures r == DefaultMaxPrice <==> parsed == None || parsed == Some(0) || parsed == Some(DefaultMaxPrice)
    ensures parsed.Some? && parsed.value != 0 ==> r == parsed.value
  {
    match parsed
    case None => DefaultMaxPrice
    case Some(n) => if n == 0 then DefaultMaxPrice else n
  }

  /** The product grid: the whole list, whatever the selection, price range,
      sort key or view mode. */
  function VisibleProducts(products: seq<Product>, selected: seq<string>, minPrice: int, maxPrice: int,
                           sortBy: string, viewMode: ViewMode): (r: seq<Product>)
    ensures |r| == |products|
    ensures forall i :: 0 <= i < |r| ==> r[i] == products[i]
  {
    products
  }

  /** Neither the filters nor the sort key change what is shown or the
      "N results" badge, which counts the whole list. */
  lemma FiltersIgnored(products: seq<Product>, selected: seq<string>, minPrice: int, maxPrice: int,
                       sortBy: string, viewMode: ViewMode)
    ensures VisibleProducts(products, selected, minPrice, maxPrice, sortBy, viewMode)
         == VisibleProducts(products, [], DefaultMinPrice, DefaultMaxPrice, "newest", Grid)
    ensures |VisibleProducts(products, selected, minPrice, maxPrice, sortBy, viewMode)| == |products|
  {
  }

  /** Typing a minimum above the current maximum is accepted: nothing keeps
      the range ordered. */
  lemma MinMayExceedMax(maxPrice: int)
    ensures forall n :: n > maxPrice ==> MinFromInput(Some(n)) == n
  {
  }

  class BrowsePage {
    var selectedCategories: seq<string>
    var minPrice: int
    var maxPrice: int
    var sortBy: string
    var viewMode: ViewMode
    var showFilters: bool

    ghost predicate Valid()
      reads this
    {
      NoDuplicates(selectedCategories)
    }

    /** Nothing selected, range 0 to 500, newest first, grid, panel open. */
    constructor ()
      ensures Valid()
      ensures selectedCategories == [] && minPrice == DefaultMinPrice && maxPrice == DefaultMaxPrice
      ensures sortBy == "newest" && viewMode == Grid && showFilters
    {
      selectedCategories := [];
      minPrice, maxPrice := DefaultMinPrice, DefaultMaxPrice;
      sortBy := "newest";
      viewMode := Grid;
      showFilters := true;
    }

    /** The minimum price input. */
    method EnterMinPrice(parsed: Option<int>)
      requires Valid()
      modifies this
      ensures Valid()
      ensures minPrice == MinFromInput(parsed) && maxPrice == old(maxPrice)
      ensures selectedCategories == old(selectedCategories) && sortBy == old(sortBy)
      ensures viewMode == old(viewMode) && showFilters == old(showFilters)
    {
      minPrice := MinFromInput(parsed);
    }

    /** The maximum price input. */
    method EnterMaxPrice(parsed: Option<int>)
      requires Valid()
      modifies this
      ensures Valid()
      ensures maxPrice == MaxFromInput(parsed) && minPrice == old(minPrice)
      ensures selectedCategories == old(selectedCategories) && sortBy == old(sortBy)
      ensures viewMode == old(viewMode) && showFilters == old(showFilters)
    {
      maxPrice := MaxFromInput(parsed);
    }

    /** The two-thumb slider hands over both ends at once. */
    method SlidePriceRange(low: int, high: int)
      requires Valid()
      modifies this
      ensures Valid()
      ensures minPrice == low && maxPrice == high
      ensures selectedCategories == old(selectedCategories) && sortBy == old(sortBy)
      ensures viewMode == old(viewMode) && showFilters == old(showFilters)
    {
      minPrice, maxPrice := low, high;
    }

    /** A click on a category in the side panel (`handleCategoryToggle`
        handing its result to `setSelectedCategories`). */
    method ToggleCategory(id: string)
      requires Valid()
      modifies this
      ensures Valid()
      ensures selectedCategories == CategoryFilter.Toggle(old(selectedCategories), id)
      ensures minPrice == old(minPrice) && maxPrice == old(maxPrice) && sortBy == old(sortBy)
      ensures viewMode == old(viewMode) && showFilters == old(showFilters)
    {
      CategoryFilter.ToggleKeepsNoDuplicates(selectedCategories, id);
      selectedCategories := CategoryFilter.Toggle(selectedCategories, id);
    }

    /** The side panel's "Clear all". */
    method ClearPanelCategories()
      requires Valid()
      modifies this
      ensures Valid()
      ensures selectedCategories == CategoryFilter.ClearAll()
      ensures minPrice == old(minPrice) && maxPrice == old(maxPrice) && sortBy == old(sortBy)
      ensures viewMode == old(viewMode) && showFilters == old(showFilters)
    {
      selectedCategories := CategoryFilter.ClearAll();
    }

    /** The x on a chip in the active-filter row. */
    method RemoveChip(category: string)
      requires Valid()
      modifies this
      ensures Valid()
      ensures selectedCategories == CategoryFilter.Without(old(selectedCategories), category)
      ensures minPrice == old(minPrice) && maxPrice == old(maxPrice) && sortBy == old(sortBy)
      ensures viewMode == old(viewMode) && showFilters == old(showFilters)
    {
      FilterNoDuplicates(selectedCategories, CategoryFilter.IsNot(category));
      selectedCategories := CategoryFilter.Without(selectedCategories, category);
    }

    /** "Clear all" in the active-filter row. */
    method ClearChips()
      requires Valid()
      modifies this
      ensures Valid()
      ensures selectedCategories == []
      ensures minPrice == old(minPrice) && maxPrice == old(maxPrice) && sortBy == old(sortBy)
      ensures viewMode == old(viewMode) && showFilters == old(showFilters)
    {
      selectedCategories := [];
    }

    method SetSortBy(key: string)
      requires Valid()
      modifies this
      ensures Valid()
      ensures sortBy == key
      ensures selectedCategories == old(selectedCategories) && minPrice == old(minPrice)
      ensures maxPrice == old(maxPrice) && viewMode == old(viewMode) && showFilters == old(showFilters)
    {
      sortBy := key;
    }

    method SetViewMode(mode: ViewMode)
      requires Valid()
      modifies this
      ensures Valid()
      ensures viewMode == mode
      ensures selectedCategories == old(selectedCategories) && minPrice == old(minPrice)
      ensures maxPrice == old(maxPrice) && sortBy == old(sortBy) && showFilters == old(showFilters)
    {
      viewMode := mode;
    }

    /** The "Filters" button opens or closes the side panel. */
    method ToggleFilters()
      requires Valid()
      modifies this
      ensures Valid()
      ensures showFilters == !old(showFilters)
      ensures selectedCategories == old(selectedCategories) && minPrice == old(minPrice)
      ensures maxPrice == old(maxPrice) && sortBy == old(sortBy) && viewMode == old(viewMode)
    {
      showFilters := !showFilters;
    }
  }
}
