/** The product list of the admin area, `pages/admin/products.tsx`: the
    search over names and descriptions, the colour of the stock column, the
    price shown and the delete action. The fetch and the delete request are
    not part of this model: the fetched list and the selected product are
    parameters. */
module AdminProducts {
  import opened Base
  import opened Schema
  import opened JsText
  import Utils

  /** `name.toLowerCase().includes(q) || description.toLowerCase().includes(q)`
      with `q` the lower-cased search. */
  predicate MatchesSearch(p: Product, query: string)
  {
    Includes(ToLowerCase(p.name), ToLowerCase(query))
    || Includes(ToLowerCase(p.description), ToLowerCase(query))
  }

  /** `filteredProducts`: `undefined` while nothing is fetched; otherwise the
      products whose name or description contains the search, in order. */
  function FilteredProducts(products: Option<seq<Product>>, query: string): (r: Option<seq<Product>>)
    ensures r.Some? <==> products.Some?
    ensures r.Some? ==> IsSubsequence(r.value, products.value)
    ensures r.Some? ==> forall i :: 0 <= i < |r.value| ==> MatchesSearch(r.value[i], query)
    ensures r.Some? ==> forall i :: 0 <= i < |products.value| ==>
      (products.value[i] in r.value <==> MatchesSearch(products.value[i], query))
    ensures r.Some? ==> forall i :: 0 <= i < |products.value| ==>
      multiset(r.value)[products.value[i]] ==
        (if MatchesSearch(products.value[i], query) then multiset(products.value)[products.value[i]] else 0)
  {
    match products
    case None => None
    case Some(ps) =>
      var kept := Filter(ps, (p: Product) => MatchesSearch(p, query));
      FilterCounts(ps, (p: Product) => MatchesSearch(p, query));
      assert forall i :: 0 <= i < |kept| ==> MatchesSearch(kept[i], query);
      Some(kept)
  }

  /** An empty search lists every product. */
  lemma EmptySearchListsAll(products: seq<Product>)
    ensures FilteredProducts(Some(products), "") == Some(products)
  {
    forall i | 0 <= i < |products|
      ensures MatchesSearch(products[i], "")
    {
      IncludesEmpty(ToLowerCase(products[i].name));
    }
    FilterKeepsAll(products, (p: Product) => MatchesSearch(p, ""));
  }

  /** The class of the stock cell: more than 10 is 'text-success', 1 to 10
      'text-warning', none or fewer 'text-error' — the same tiers, and the
      same classes, as the shared stock-colour helper. */
  function StockClass(stock: int): (c: string)
    ensures c == Utils.GetStockStatusColor(stock)
    ensures c == "text-success" <==> stock > 10
    ensures c == "text-error" <==> stock <= 0
  {
    if stock > 10 then "text-success" else if stock > 0 then "text-warning" else "text-error"
  }

  /** What the price cell renders after the price: the struck-out regular
      price, nothing, or — since React renders the number `0` that
      `discountPrice && (...)` yields for a zero discount — a stray "0". */
  datatype Trailer = StruckOut(price: int) | StrayZero | Nothing

  /** The price cell: `discountPrice || price`, then what
      `discountPrice && (...)` renders. */
  datatype PriceCell = PriceCell(shown: int, after: Trailer)

  function ShownPrice(p: Product): (cell: PriceCell)
    ensures cell.shown == EffectivePrice(p)
    ensures cell.after.StruckOut? <==> HasDiscount(p)
    ensures cell.after.StruckOut? ==> cell.after.price == p.price
    ensures cell.after.StrayZero? <==> p.discountPrice == Some(0)
  {
    match p.discountPrice
    case Some(d) => if d != 0 then PriceCell(d, StruckOut(p.price)) else PriceCell(p.price, StrayZero)
    case None => PriceCell(p.price, Nothing)
  }

  /** `handleDeleteProduct`: the id whose deletion it requests; nothing
      without a selected product. */
  function HandleDeleteProduct(selected: Option<Product>): (request: Option<int>)
    ensures request.Some? <==> selected.Some?
    ensures request.Some? ==> request.value == selected.value.id
  {
    match selected
    case None => None
    case Some(p) => Some(p.id)
  }
}
