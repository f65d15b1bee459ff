/** The filter panel of `components/product/ProductFilter.tsx`: its state
    variables and the handlers that change them. Prices are whole rupees, as
    the slider moves in steps of 100. */
module ProductFilterPanel {
  import opened Base

  /** The object handed to `onFilter`. Every key is optional; `category`
      may be present with the value `undefined`, hence the nested option. */
  datatype FilterUpdate = FilterUpdate(
    category: Option<Option<string>>,
    priceRange: Option<(int, int)>,
    newArrivals: Option<bool>,
    bestSellers: Option<bool>,
    sale: Option<bool>)

  /** `{}` */
  const NoUpdate := FilterUpdate(None, None, None, None, None)

  /** What a checkbox reports when clicked. */
  datatype CheckedState = Checked | Unchecked | Indeterminate

  /** The three on/off filters. */
  datatype Flag = NewArrivalsFlag | BestSellersFlag | SaleFlag

  class ProductFilter {
    const minPrice: int
    const maxPrice: int
    var priceRange: (int, int)
    var category: Option<string>
    var newArrivals: bool
    var bestSellers: bool
    var sale: bool
    var isOpen: bool

    /** Mounting the panel: the range spans the bounds (0 and 50000 unless
        given), the category is the page's, and every flag is off. */
    constructor (selectedCategory: Option<string>, minPriceProp: Option<int>, maxPriceProp: Option<int>)
      ensures minPrice == (if minPriceProp.Some? then minPriceProp.value else 0)
      ensures maxPrice == (if maxPriceProp.Some? then maxPriceProp.value else 50000)
      ensures priceRange == (minPrice, maxPrice)
      ensures category == selectedCategory
      ensures !newArrivals && !bestSellers && !sale && !isOpen
    {
      minPrice := if minPriceProp.Some? then minPriceProp.value else 0;
      maxPrice := if maxPriceProp.Some? then maxPriceProp.value else 50000;
      priceRange := (if minPriceProp.Some? then minPriceProp.value else 0,
                     if maxPriceProp.Some? then maxPriceProp.value else 50000);
      category := selectedCategory;
      newArrivals := false;
      bestSellers := false;
      sale := false;
      isOpen := false;
    }

    /** A category checkbox is ticked exactly when its slug is the selection,
        so at most one is ticked at a time. */
    function IsChecked(slug: string): (r: bool)
      reads this
      ensures r <==> category == Some(slug)
    {
      category == Some(slug)
    }

    /** `handlePriceChange`: the slider's two thumbs become the range. */
    method HandlePriceChange(value: seq<int>)
      requires |value| >= 2
      modifies this
      ensures priceRange == (value[0], value[1])
      ensures category == old(category) && isOpen == old(isOpen)
      ensures newArrivals == old(newArrivals) && bestSellers == old(bestSellers) && sale == old(sale)
    {
      priceRange := (value[0], value[1]);
    }

    /** `handleCategoryChange`: clicking the selected category deselects it;
        clicking another one selects that one instead. */
    method HandleCategoryChange(slug: string)
      modifies this
      ensures category == (if old(category) == Some(slug) then None else Some(slug))
      ensures priceRange == old(priceRange) && isOpen == old(isOpen)
      ensures newArrivals == old(newArrivals) && bestSellers == old(bestSellers) && sale == old(sale)
    {
      category := if category == Some(slug) then None else Some(slug);
    }

    /** `setNewArrivals(checked === true)` and its two siblings: only a
        definite tick turns a flag on. */
    method HandleCheckedChange(flag: Flag, checked: CheckedState)
      modifies this
      ensures flag == NewArrivalsFlag ==> newArrivals == (checked == Checked)
      ensures flag == BestSellersFlag ==> bestSellers == (checked == Checked)
      ensures flag == SaleFlag ==> sale == (checked == Checked)
      ensures flag != NewArrivalsFlag ==> newArrivals == old(newArrivals)
      ensures flag != BestSellersFlag ==> bestSellers == old(bestSellers)
      ensures flag != SaleFlag ==> sale == old(sale)
      ensures category == old(category) && priceRange == old(priceRange) && isOpen == old(isOpen)
    {
      var on := checked == Checked;
      match flag
      case NewArrivalsFlag => newArrivals := on;
      case BestSellersFlag => bestSellers := on;
      case SaleFlag => sale := on;
    }

    /** `handleApplyFilters`: hands over exactly the current selection and
        closes the sheet. */
    method HandleApplyFilters() returns (update: FilterUpdate)
      modifies this
      ensures update == FilterUpdate(Some(category), Some(priceRange), Some(newArrivals), Some(bestSellers), Some(sale))
      ensures !isOpen
      ensures category == old(category) && priceRange == old(priceRange)
      ensures newArrivals == old(newArrivals) && bestSellers == old(bestSellers) && sale == old(sale)
    {
      update := FilterUpdate(Some(category), Some(priceRange), Some(newArrivals), Some(bestSellers), Some(sale));
      isOpen := false;
    }

    /** `handleApplyMobileFilters`: the same as applying. */
    method HandleApplyMobileFilters() returns (update: FilterUpdate)
      modifies this
      ensures update == FilterUpdate(Some(category), Some(priceRange), Some(newArrivals), Some(bestSellers), Some(sale))
      ensures !isOpen
      ensures category == old(category) && priceRange == old(priceRange)
      ensures newArrivals == old(newArrivals) && bestSellers == old(bestSellers) && sale == old(sale)
    {
      update := HandleApplyFilters();
      isOpen := false;
    }

    /** `handleClearFilters`: back to the defaults, handing over `{}`. */
    method HandleClearFilters() returns (update: FilterUpdate)
      modifies this
      ensures update == NoUpdate
      ensures category == None && priceRange == (minPrice, maxPrice)
      ensures !newArrivals && !bestSellers && !sale
      ensures isOpen == old(isOpen)
    {
      category := None;
      priceRange := (minPrice, maxPrice);
      newArrivals := false;
      bestSellers := false;
      sale := false;
      update := NoUpdate;
    }
  }

  /** Two category boxes are never ticked together. */
  lemma AtMostOneChecked(panel: ProductFilter, a: string, b: string)
    requires panel.IsChecked(a) && panel.IsChecked(b)
    ensures a == b
  {
  }

  /** Clicking the same category twice restores the selection when it was
      empty or that category; when another category was selected, the
      selection ends up empty. */
  method CategoryClickedTwice(panel: ProductFilter, slug: string)
    modifies panel
    ensures old(panel.category) in {None, Some(slug)} ==> panel.category == old(panel.category)
    ensures old(panel.category) !in {None, Some(slug)} ==> panel.category == None
  {
    panel.HandleCategoryChange(slug);
    panel.HandleCategoryChange(slug);
  }

  /** Applying right after clearing hands over the defaults, not `{}`. */
  method ApplyAfterClear(panel: ProductFilter) returns (cleared: FilterUpdate, applied: FilterUpdate)
    modifies panel
    ensures cleared == NoUpdate
    ensures applied == FilterUpdate(Some(None), Some((panel.minPrice, panel.maxPrice)), Some(false), Some(false), Some(false))
  {
    cleared := panel.HandleClearFilters();
    applied := panel.HandleApplyFilters();
  }
}
