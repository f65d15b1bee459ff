/** The catalogue page of `pages/products.tsx`: the filters read from the
    address bar, the merge of a filter change, the query string written
    back, the sort of the fetched products and the page title. The query
    string is kept as its list of name/value pairs; percent-encoding is not
    modelled. The locale order of product names is an abstract rank. */
module Catalogue {
  import opened Base
  import opened Schema
  import opened JsText
  import opened ProductFilterPanel

  /** `URLSearchParams`: name/value pairs in order. */
  type Params = seq<(string, string)>

  /** `params.get(key)`: the value of the first pair named `key`. */
  function Get(params: Params, key: string): (r: Option<string>)
    ensures r.None? ==> forall i :: 0 <= i < |params| ==> params[i].0 != key
    ensures r.Some? ==>
      exists i :: 0 <= i < |params| && params[i] == (key, r.value) && (forall j :: 0 <= j < i ==> params[j].0 != key)
  {
    if params == [] then None
    else if params[0].0 == key then Some(params[0].1)
    else Get(params[1..], key)
  }

  /** Every pair named `key` removed. */
  function RemoveKey(params: Params, key: string): (r: Params)
    ensures |r| <= |params|
  {
    if params == [] then []
    else if params[0].0 == key then RemoveKey(params[1..], key)
    else [params[0]] + RemoveKey(params[1..], key)
  }

  /** `params.set(key, value)`: the first pair named `key` takes the value
      and the later ones go; with no such pair, one is appended. */
  function Set(params: Params, key: string, value: string): (r: Params)
    ensures Get(params, key).None? ==> r == params + [(key, value)]
  {
    if params == [] then [(key, value)]
    else if params[0].0 == key then [(key, value)] + RemoveKey(params[1..], key)
    else [params[0]] + Set(params[1..], key, value)
  }

  /** After removal no pair is named `key`; the others read as before. */
  lemma {:induction false} RemoveKeyGet(params: Params, key: string, k: string)
    ensures Get(RemoveKey(params, key), k) == if k == key then None else Get(params, k)
  {
    if params != [] {
      RemoveKeyGet(params[1..], key, k);
    }
  }

  /** After `set`, `key` reads as the new value and every other name reads
      as before. */
  lemma {:induction false} SetGet(params: Params, key: string, value: string, k: string)
    ensures Get(Set(params, key, value), k) == if k == key then Some(value) else Get(params, k)
  {
    if params != [] {
      if params[0].0 == key {
        RemoveKeyGet(params[1..], key, k);
      } else {
        SetGet(params[1..], key, value, k);
      }
    }
  }

  /** `if (cond) params.set(key, value)` */
  function SetIf(params: Params, cond: bool, key: string, value: string): Params
  {
    if cond then Set(params, key, value) else params
  }

  lemma SetIfGet(params: Params, cond: bool, key: string, value: string, k: string)
    ensures Get(SetIf(params, cond, key, value), k) == if cond && k == key then Some(value) else Get(params, k)
  {
    if cond {
      SetGet(params, key, value, k);
    }
  }

  /** The page's `filters` state. */
  datatype Filters = Filters(
    category: Option<string>,
    priceRange: (JsInt, JsInt),
    newArrivals: bool,
    bestSellers: bool,
    sale: bool,
    search: Option<string>,
    sort: string)

  /** A string is truthy when present and non-empty. */
  predicate Truthy(s: Option<string>)
  {
    s.Some? && s.value != ""
  }

  /** `value || fallback` for a string that may be absent. */
  function OrElse(s: Option<string>, fallback: string): (r: string)
    ensures Truthy(s) ==> r == s.value
    ensures !Truthy(s) ==> r == fallback
  {
    if Truthy(s) then s.value else fallback
  }

  /** `value || undefined` */
  function OrUndefined(s: Option<string>): (r: Option<string>)
    ensures r != Some("")
    ensures Truthy(s) ==> r == s
    ensures !Truthy(s) ==> r == None
  {
    if Truthy(s) then s else None
  }

  /** The filters the page starts from, read from the address bar: an
      empty parameter counts as absent, a flag is on only for the literal
      `true`, and the price bounds default to 0 and 50000. */
  function ParseFilters(params: Params): (f: Filters)
    ensures f.category != Some("") && f.search != Some("") && f.sort != ""
    ensures f.newArrivals <==> Get(params, "new") == Some("true")
    ensures f.bestSellers <==> Get(params, "bestseller") == Some("true")
    ensures f.sale <==> Get(params, "sale") == Some("true")
    ensures !Truthy(Get(params, "category")) ==> f.category == None
    ensures !Truthy(Get(params, "q")) ==> f.search == None
    ensures !Truthy(Get(params, "sort")) ==> f.sort == "newest"
    ensures Truthy(Get(params, "category")) ==> f.category == Get(params, "category")
    ensures Truthy(Get(params, "q")) ==> f.search == Get(params, "q")
    ensures Truthy(Get(params, "sort")) ==> Some(f.sort) == Get(params, "sort")
  {
    Filters(
      OrUndefined(Get(params, "category")),
      (ParseInt(OrElse(Get(params, "minPrice"), "0")), ParseInt(OrElse(Get(params, "maxPrice"), "50000"))),
      Get(params, "new") == Some("true"),
      Get(params, "bestseller") == Some("true"),
      Get(params, "sale") == Some("true"),
      OrUndefined(Get(params, "q")),
      OrElse(Get(params, "sort"), "newest"))
  }

  const DefaultFilters := Filters(None, (Int(0), Int(50000)), false, false, false, None, "newest")

  /** With no parameters the page shows everything between 0 and 50000,
      newest first. */
  lemma UrlDefaults()
    ensures ParseFilters([]) == DefaultFilters
  {
    MinPriceDefault([]);
    MaxPriceDefault([]);
  }

  /** An absent `minPrice` reads as the lower bound 0. */
  lemma MinPriceDefault(params: Params)
    requires Get(params, "minPrice") == None
    ensures ParseFilters(params).priceRange.0 == Int(0)
  {
    ZeroParses();
    assert OrElse(Get(params, "minPrice"), "0") == "0";
  }

  /** An absent `maxPrice` reads as the upper bound 50000. */
  lemma MaxPriceDefault(params: Params)
    requires Get(params, "maxPrice") == None
    ensures ParseFilters(params).priceRange.1 == Int(50000)
  {
    FiftyThousandParses();
    assert OrElse(Get(params, "maxPrice"), "50000") == "50000";
  }

  /** The fallback text of the lower price bound reads as 0. */
  lemma ZeroParses()
    ensures ParseInt("0") == Int(0)
  {
    assert IntToString(0) == "0";
    ParseIntToString(0);
  }

  /** The fallback text of the upper price bound reads as 50000. */
  lemma FiftyThousandParses()
    ensures ParseInt("50000") == Int(50000)
  {
    assert NatToString(5) == "5";
    assert NatToString(50) == "50";
    assert NatToString(500) == "500";
    assert NatToString(5000) == "5000";
    assert IntToString(50000) == "50000";
    ParseIntToString(50000);
  }

  /** `{ ...prev, ...update }`: every key the update carries replaces the
      old value, every other key keeps it. */
  function Merge(prev: Filters, u: FilterUpdate): (r: Filters)
    ensures r.category == (if u.category.Some? then u.category.value else prev.category)
    ensures r.priceRange == (if u.priceRange.Some? then (Int(u.priceRange.value.0), Int(u.priceRange.value.1)) else prev.priceRange)
    ensures r.newArrivals == (if u.newArrivals.Some? then u.newArrivals.value else prev.newArrivals)
    ensures r.bestSellers == (if u.bestSellers.Some? then u.bestSellers.value else prev.bestSellers)
    ensures r.sale == (if u.sale.Some? then u.sale.value else prev.sale)
    ensures r.search == prev.search && r.sort == prev.sort
  {
    Filters(
      if u.category.Some? then u.category.value else prev.category,
      if u.priceRange.Some? then (Int(u.priceRange.value.0), Int(u.priceRange.value.1)) else prev.priceRange,
      if u.newArrivals.Some? then u.newArrivals.value else prev.newArrivals,
      if u.bestSellers.Some? then u.bestSellers.value else prev.bestSellers,
      if u.sale.Some? then u.sale.value else prev.sale,
      prev.search,
      prev.sort)
  }

  /** Merging `{}` changes nothing, and merging the same update twice is
      the same as merging it once. */
  lemma MergeLaws(prev: Filters, u: FilterUpdate)
    ensures Merge(prev, NoUpdate) == prev
    ensures Merge(Merge(prev, u), u) == Merge(prev, u)
  {
  }

  /** What the query string `handleFilterChange` writes reads as, name by
      name: the update's category and flags when set, both price bounds or
      neither, and the sort and the search of the filters as they were
      before the change. */
  function QueryRead(u: FilterUpdate, prev: Filters, k: string): Option<string>
  {
    if k == "q" && Truthy(prev.search) then prev.search
    else if k == "sort" && prev.sort != "" then Some(prev.sort)
    else if k == "maxPrice" && u.priceRange.Some? then Some(IntToString(u.priceRange.value.1))
    else if k == "minPrice" && u.priceRange.Some? then Some(IntToString(u.priceRange.value.0))
    else if k == "sale" && u.sale == Some(true) then Some("true")
    else if k == "bestseller" && u.bestSellers == Some(true) then Some("true")
    else if k == "new" && u.newArrivals == Some(true) then Some("true")
    else if k == "category" && u.category.Some? && Truthy(u.category.value) then u.category.value
    else None
  }

  /** The query string `handleFilterChange` writes, by eight conditional
      `set` calls on an empty one; every name reads as `QueryRead` says. */
  function QueryOf(u: FilterUpdate, prev: Filters): (r: Params)
    ensures forall k :: Get(r, k) == QueryRead(u, prev, k)
  {
    assert forall k :: Get(TailQuery(FlagQuery(u), u, prev), k) == QueryRead(u, prev, k) by {
      forall k {
        QueryGet(u, prev, k);
      }
    }
    TailQuery(FlagQuery(u), u, prev)
  }

  /** The last four `set` calls, on the query `p4` the first four wrote:
      the price bounds, the sort and the search. */
  function TailQuery(p4: Params, u: FilterUpdate, prev: Filters): Params
  {
    var p5 := SetIf(p4, u.priceRange.Some?, "minPrice", PriceText(u.priceRange, true));
    var p6 := SetIf(p5, u.priceRange.Some?, "maxPrice", PriceText(u.priceRange, false));
    var p7 := SetIf(p6, prev.sort != "", "sort", prev.sort);
    SetIf(p7, Truthy(prev.search), "q", OrElse(prev.search, ""))
  }

  /** The first four `set` calls: the category and the three flags. */
  function FlagQuery(u: FilterUpdate): Params
  {
    var p1 := SetIf([], u.category.Some? && Truthy(u.category.value), "category", OrElse(OrNone(u.category), ""));
    var p2 := SetIf(p1, u.newArrivals == Some(true), "new", "true");
    var p3 := SetIf(p2, u.bestSellers == Some(true), "bestseller", "true");
    SetIf(p3, u.sale == Some(true), "sale", "true")
  }

  /** The category an update carries, flattened. */
  function OrNone(c: Option<Option<string>>): Option<string>
  {
    if c.Some? then c.value else None
  }

  /** A price bound of the update in decimal. */
  function PriceText(range: Option<(int, int)>, low: bool): string
  {
    if range.None? then "" else IntToString(if low then range.value.0 else range.value.1)
  }

  /** What each name of the written query reads as. */
  lemma QueryGet(u: FilterUpdate, prev: Filters, k: string)
    ensures Get(TailQuery(FlagQuery(u), u, prev), k) == QueryRead(u, prev, k)
  {
    var p4 := FlagQuery(u);
    var p5 := SetIf(p4, u.priceRange.Some?, "minPrice", PriceText(u.priceRange, true));
    var p6 := SetIf(p5, u.priceRange.Some?, "maxPrice", PriceText(u.priceRange, false));
    var p7 := SetIf(p6, prev.sort != "", "sort", prev.sort);
    FlagQueryGet(u, k);
    SetIfGet(p4, u.priceRange.Some?, "minPrice", PriceText(u.priceRange, true), k);
    SetIfGet(p5, u.priceRange.Some?, "maxPrice", PriceText(u.priceRange, false), k);
    SetIfGet(p6, prev.sort != "", "sort", prev.sort, k);
    SetIfGet(p7, Truthy(prev.search), "q", OrElse(prev.search, ""), k);
  }

  /** What each name of the category-and-flags part reads as. */
  lemma FlagQueryGet(u: FilterUpdate, k: string)
    ensures Get(FlagQuery(u), k) ==
      if k == "sale" && u.sale == Some(true) then Some("true")
      else if k == "bestseller" && u.bestSellers == Some(true) then Some("true")
      else if k == "new" && u.newArrivals == Some(true) then Some("true")
      else if k == "category" && u.category.Some? && Truthy(u.category.value) then u.category.value
      else None
  {
    var p1 := SetIf([], u.category.Some? && Truthy(u.category.value), "category", OrElse(OrNone(u.category), ""));
    var p2 := SetIf(p1, u.newArrivals == Some(true), "new", "true");
    var p3 := SetIf(p2, u.bestSellers == Some(true), "bestseller", "true");
    SetIfGet([], u.category.Some? && Truthy(u.category.value), "category", OrElse(OrNone(u.category), ""), k);
    SetIfGet(p1, u.newArrivals == Some(true), "new", "true", k);
    SetIfGet(p2, u.bestSellers == Some(true), "bestseller", "true", k);
    SetIfGet(p3, u.sale == Some(true), "sale", "true", k);
  }

  /** `QueryRead` for each name the page writes. */
  lemma QueryReadByName(u: FilterUpdate, prev: Filters)
    ensures QueryRead(u, prev, "category") ==
      (if u.category.Some? && Truthy(u.category.value) then u.category.value else None)
    ensures QueryRead(u, prev, "new") == (if u.newArrivals == Some(true) then Some("true") else None)
    ensures QueryRead(u, prev, "bestseller") == (if u.bestSellers == Some(true) then Some("true") else None)
    ensures QueryRead(u, prev, "sale") == (if u.sale == Some(true) then Some("true") else None)
    ensures QueryRead(u, prev, "minPrice") == (if u.priceRange.Some? then Some(IntToString(u.priceRange.value.0)) else None)
    ensures QueryRead(u, prev, "maxPrice") == (if u.priceRange.Some? then Some(IntToString(u.priceRange.value.1)) else None)
    ensures QueryRead(u, prev, "sort") == (if prev.sort != "" then Some(prev.sort) else None)
    ensures QueryRead(u, prev, "q") == (if Truthy(prev.search) then prev.search else None)
  {
  }

  /** One name of the written query reads as `QueryRead` says. */
  lemma ReadBack(u: FilterUpdate, prev: Filters, k: string)
    ensures Get(QueryOf(u, prev), k) == QueryRead(u, prev, k)
  {
  }

  /** The query names the update's category when it is set and non-empty,
      and no category otherwise; each flag appears, as `true`, exactly when
      the update turns it on. */
  lemma QueryCategoryAndFlags(u: FilterUpdate, prev: Filters)
    ensures Get(QueryOf(u, prev), "category") ==
      (if u.category.Some? && Truthy(u.category.value) then u.category.value else None)
    ensures Get(QueryOf(u, prev), "new") == (if u.newArrivals == Some(true) then Some("true") else None)
    ensures Get(QueryOf(u, prev), "bestseller") == (if u.bestSellers == Some(true) then Some("true") else None)
    ensures Get(QueryOf(u, prev), "sale") == (if u.sale == Some(true) then Some("true") else None)
  {
    QueryReadByName(u, prev);
    ReadBack(u, prev, "category");
    ReadBack(u, prev, "new");
    ReadBack(u, prev, "bestseller");
    ReadBack(u, prev, "sale");
  }

  /** Both price bounds appear, in decimal, or neither does. */
  lemma QueryPrices(u: FilterUpdate, prev: Filters)
    ensures Get(QueryOf(u, prev), "minPrice").Some? <==> Get(QueryOf(u, prev), "maxPrice").Some?
    ensures Get(QueryOf(u, prev), "minPrice").Some? <==> u.priceRange.Some?
    ensures u.priceRange.Some? ==>
      Get(QueryOf(u, prev), "minPrice") == Some(IntToString(u.priceRange.value.0))
      && Get(QueryOf(u, prev), "maxPrice") == Some(IntToString(u.priceRange.value.1))
  {
    QueryReadByName(u, prev);
    ReadBack(u, prev, "minPrice");
    ReadBack(u, prev, "maxPrice");
  }

  /** The sort and the search come from the filters before the change. */
  lemma QuerySortAndSearch(u: FilterUpdate, prev: Filters)
    ensures Get(QueryOf(u, prev), "sort") == (if prev.sort != "" then Some(prev.sort) else None)
    ensures Get(QueryOf(u, prev), "q") == (if Truthy(prev.search) then prev.search else None)
  {
    QueryReadByName(u, prev);
    ReadBack(u, prev, "sort");
    ReadBack(u, prev, "q");
  }

  /** `handleFilterChange`'s `URLSearchParams`, built by successive `set`
      calls on an empty one. */
  method BuildQuery(u: FilterUpdate, prev: Filters) returns (params: Params)
    ensures params == QueryOf(u, prev)
  {
    params := [];
    if u.category.Some? && Truthy(u.category.value) {
      params := Set(params, "category", u.category.value.value);
    }
    ghost var p1 := params;
    assert p1 == SetIf([], u.category.Some? && Truthy(u.category.value), "category", OrElse(OrNone(u.category), ""));
    if u.newArrivals == Some(true) {
      params := Set(params, "new", "true");
    }
    ghost var p2 := params;
    assert p2 == SetIf(p1, u.newArrivals == Some(true), "new", "true");
    if u.bestSellers == Some(true) {
      params := Set(params, "bestseller", "true");
    }
    ghost var p3 := params;
    assert p3 == SetIf(p2, u.bestSellers == Some(true), "bestseller", "true");
    if u.sale == Some(true) {
      params := Set(params, "sale", "true");
    }
    ghost var p4 := params;
    assert p4 == SetIf(p3, u.sale == Some(true), "sale", "true") == FlagQuery(u);
    if u.priceRange.Some? {
      params := Set(params, "minPrice", IntToString(u.priceRange.value.0));
      ghost var p5 := params;
      assert p5 == SetIf(p4, true, "minPrice", PriceText(u.priceRange, true));
      params := Set(params, "maxPrice", IntToString(u.priceRange.value.1));
      assert params == SetIf(p5, true, "maxPrice", PriceText(u.priceRange, false));
    }
    ghost var p6 := params;
    assert p6 == SetIf(SetIf(p4, u.priceRange.Some?, "minPrice", PriceText(u.priceRange, true)),
                       u.priceRange.Some?, "maxPrice", PriceText(u.priceRange, false));
    if prev.sort != "" {
      params := Set(params, "sort", prev.sort);
    }
    ghost var p7 := params;
    assert p7 == SetIf(p6, prev.sort != "", "sort", prev.sort);
    if Truthy(prev.search) {
      params := Set(params, "q", prev.search.value);
    }
    assert params == SetIf(p7, Truthy(prev.search), "q", OrElse(prev.search, ""));
  }

  /** Reloading after the panel's Apply restores the merged filters: the
      query string written for a complete update reads back as the filters
      the page moved to. */
  lemma QueryRoundTrip(prev: Filters, u: FilterUpdate)
    requires u.category.Some? && u.category.value != Some("")
    requires u.priceRange.Some? && u.newArrivals.Some? && u.bestSellers.Some? && u.sale.Some?
    requires prev.search != Some("") && prev.sort != ""
    ensures ParseFilters(QueryOf(u, prev)) == Merge(prev, u)
  {
    QueryCategoryAndFlags(u, prev);
    QueryPrices(u, prev);
    QuerySortAndSearch(u, prev);
    ParseIntToString(u.priceRange.value.0);
    ParseIntToString(u.priceRange.value.1);
  }

  /** "Clear All Filters" hands `{}` to `handleFilterChange`: the filters
      the page shows stay as they were, while the query string keeps only
      the sort and the search, so a reload shows the defaults. */
  lemma ClearAllKeepsFilters(prev: Filters)
    requires prev.search != Some("") && prev.sort != ""
    ensures Merge(prev, NoUpdate) == prev
    ensures ParseFilters(QueryOf(NoUpdate, prev)) == DefaultFilters.(search := prev.search, sort := prev.sort)
  {
    UrlDefaults();
    QueryCategoryAndFlags(NoUpdate, prev);
    QueryPrices(NoUpdate, prev);
    QuerySortAndSearch(NoUpdate, prev);
  }

  /** `s` is ordered by `key`. */
  predicate SortedBy<T>(s: seq<T>, key: T -> int)
  {
    forall i, j :: 0 <= i < j < |s| ==> key(s[i]) <= key(s[j])
  }

  /** `x` placed before the first element with a larger key. */
  function Insert<T>(x: T, s: seq<T>, key: T -> int): (r: seq<T>)
    ensures |r| == |s| + 1
    ensures multiset(r) == multiset(s) + multiset{x}
  {
    if s == [] then [x]
    else if key(x) < key(s[0]) then [x] + s
    else
      assert s == [s[0]] + s[1..];
      [s[0]] + Insert(x, s[1..], key)
  }

  /** A stable sort by `key`, as `Array.prototype.sort` with a comparator
      that subtracts the keys. */
  function SortBy<T>(s: seq<T>, key: T -> int): (r: seq<T>)
    ensures multiset(r) == multiset(s)
  {
    if s == [] then []
    else
      assert s == s[..|s| - 1] + [s[|s| - 1]];
      Insert(s[|s| - 1], SortBy(s[..|s| - 1], key), key)
  }

  /** The elements of `s` whose key is `v`, in order. */
  function KeyRun<T>(s: seq<T>, key: T -> int, v: int): seq<T>
  {
    if s == [] then [] else (if key(s[0]) == v then [s[0]] else []) + KeyRun(s[1..], key, v)
  }

  lemma {:induction false} KeyRunAppend<T>(a: seq<T>, b: seq<T>, key: T -> int, v: int)
    ensures KeyRun(a + b, key, v) == KeyRun(a, key, v) + KeyRun(b, key, v)
    decreases |a|
  {
    if a == [] {
      assert a + b == b;
    } else {
      var h := if key(a[0]) == v then [a[0]] else [];
      assert (a + b)[0] == a[0];
      assert (a + b)[1..] == a[1..] + b;
      KeyRunAppend(a[1..], b, key, v);
      assert KeyRun(a + b, key, v) == h + (KeyRun(a[1..], key, v) + KeyRun(b, key, v));
      assert KeyRun(a, key, v) == h + KeyRun(a[1..], key, v);
    }
  }

  /** No element has key `v`, so the run is empty. */
  lemma {:induction false} KeyRunEmpty<T>(s: seq<T>, key: T -> int, v: int)
    requires forall i :: 0 <= i < |s| ==> key(s[i]) != v
    ensures KeyRun(s, key, v) == []
    decreases |s|
  {
    if s != [] {
      KeyRunEmpty(s[1..], key, v);
    }
  }

  /** Every key is at least `lo`. */
  predicate AllAtLeast<T>(s: seq<T>, key: T -> int, lo: int)
  {
    forall i :: 0 <= i < |s| ==> lo <= key(s[i])
  }

  lemma {:induction false} InsertAtLeast<T>(x: T, s: seq<T>, key: T -> int, lo: int)
    requires AllAtLeast(s, key, lo) && lo <= key(x)
    ensures AllAtLeast(Insert(x, s, key), key, lo)
    decreases |s|
  {
    if s != [] && key(x) >= key(s[0]) {
      InsertAtLeast(x, s[1..], key, lo);
    }
  }

  /** Inserting into a sorted sequence keeps it sorted. */
  lemma {:induction false} InsertSorted<T>(x: T, s: seq<T>, key: T -> int)
    requires SortedBy(s, key)
    ensures SortedBy(Insert(x, s, key), key)
    decreases |s|
  {
    if s != [] && key(x) >= key(s[0]) {
      InsertSorted(x, s[1..], key);
      InsertAtLeast(x, s[1..], key, key(s[0]));
    }
  }

  /** Inserting into a sorted sequence puts `x` at the end of its key's
      run and leaves the other runs alone. */
  lemma {:induction false} InsertKeyRun<T>(x: T, s: seq<T>, key: T -> int, v: int)
    requires SortedBy(s, key)
    ensures KeyRun(Insert(x, s, key), key, v) == KeyRun(s, key, v) + (if key(x) == v then [x] else [])
    decreases |s|
  {
    if s == [] {
    } else if key(x) < key(s[0]) {
      assert ([x] + s)[1..] == s;
      if key(x) == v {
        KeyRunEmpty(s, key, v);
      }
    } else {
      InsertKeyRun(x, s[1..], key, v);
      var r := Insert(x, s, key);
      var rest := Insert(x, s[1..], key);
      assert r == [s[0]] + rest;
      assert r[0] == s[0] && r[1..] == rest;
      var h := if key(s[0]) == v then [s[0]] else [];
      assert KeyRun(r, key, v) == h + KeyRun(rest, key, v);
      assert KeyRun(s, key, v) == h + KeyRun(s[1..], key, v);
    }
  }

  /** `SortBy` orders by key. */
  lemma {:induction false} SortBySorted<T>(s: seq<T>, key: T -> int)
    ensures SortedBy(SortBy(s, key), key)
    decreases |s|
  {
    if s != [] {
      SortBySorted(s[..|s| - 1], key);
      InsertSorted(s[|s| - 1], SortBy(s[..|s| - 1], key), key);
    }
  }

  /** `SortBy` keeps elements with equal keys in their input order. */
  lemma {:induction false} SortByStable<T>(s: seq<T>, key: T -> int, v: int)
    ensures KeyRun(SortBy(s, key), key, v) == KeyRun(s, key, v)
    decreases |s|
  {
    if s != [] {
      var init := s[..|s| - 1];
      var x := s[|s| - 1];
      SortByStable(init, key, v);
      SortByLast(s, key);
      SortedInsertKeyRun(x, init, key, v);
      KeyRunLast(s, key, v);
    }
  }

  lemma SortByLast<T>(s: seq<T>, key: T -> int)
    requires s != []
    ensures SortBy(s, key) == Insert(s[|s| - 1], SortBy(s[..|s| - 1], key), key)
  {
  }

  lemma KeyRunLast<T>(s: seq<T>, key: T -> int, v: int)
    requires s != []
    ensures KeyRun(s, key, v) == KeyRun(s[..|s| - 1], key, v) + (if key(s[|s| - 1]) == v then [s[|s| - 1]] else [])
  {
    var x := s[|s| - 1];
    assert s == s[..|s| - 1] + [x];
    KeyRunAppend(s[..|s| - 1], [x], key, v);
    KeyRunSingle(x, key, v);
  }

  lemma SortedInsertKeyRun<T>(x: T, s: seq<T>, key: T -> int, v: int)
    ensures KeyRun(Insert(x, SortBy(s, key), key), key, v) == KeyRun(SortBy(s, key), key, v) + (if key(x) == v then [x] else [])
  {
    SortBySorted(s, key);
    InsertKeyRun(x, SortBy(s, key), key, v);
  }

  lemma KeyRunSingle<T>(x: T, key: T -> int, v: int)
    ensures KeyRun([x], key, v) == (if key(x) == v then [x] else [])
  {
    assert [x][1..] == [];
  }

  /** The comparator of `price-high`, as a key: higher prices first. */
  function NegatedPrice(p: Product): int
  {
    -EffectivePrice(p)
  }

  /** `sortProducts`: no products yet gives none; otherwise a sorted copy,
      cheapest first for `price-low`, dearest first for `price-high`, by name
      for `name`, and the fetched order for `newest` or anything else. Equal
      keys keep their fetched order. */
  function SortProducts(products: Option<seq<Product>>, sort: string, nameRank: string -> int): (r: seq<Product>)
    ensures products.None? ==> r == []
    ensures products.Some? ==> multiset(r) == multiset(products.value)
    ensures sort == "price-low" ==>
      (forall i, j :: 0 <= i < j < |r| ==> EffectivePrice(r[i]) <= EffectivePrice(r[j]))
      && (products.Some? ==> forall v :: KeyRun(r, EffectivePrice, v) == KeyRun(products.value, EffectivePrice, v))
    ensures sort == "price-high" ==>
      (forall i, j :: 0 <= i < j < |r| ==> EffectivePrice(r[i]) >= EffectivePrice(r[j]))
      && (products.Some? ==> forall v :: KeyRun(r, NegatedPrice, v) == KeyRun(products.value, NegatedPrice, v))
    ensures sort == "name" ==> forall i, j :: 0 <= i < j < |r| ==> nameRank(r[i].name) <= nameRank(r[j].name)
    ensures products.Some? && sort !in {"price-low", "price-high", "name"} ==> r == products.value
  {
    match products
    case None => []
    case Some(ps) =>
      if sort == "price-low" then
        (forall v | true ensures KeyRun(SortBy(ps, EffectivePrice), EffectivePrice, v) == KeyRun(ps, EffectivePrice, v) {
           SortByStable(ps, EffectivePrice, v);
         }
         SortBySorted(ps, EffectivePrice);
         SortBy(ps, EffectivePrice))
      else if sort == "price-high" then
        (forall v | true ensures KeyRun(SortBy(ps, NegatedPrice), NegatedPrice, v) == KeyRun(ps, NegatedPrice, v) {
           SortByStable(ps, NegatedPrice, v);
         }
         SortBySorted(ps, NegatedPrice);
         var r := SortBy(ps, NegatedPrice);
         assert forall i, j :: 0 <= i < j < |r| ==> NegatedPrice(r[i]) <= NegatedPrice(r[j]);
         r)
      else if sort == "name" then
        var key := (p: Product) => nameRank(p.name);
        SortBySorted(ps, key);
        SortBy(ps, key)
      else ps
  }

  /** `getPageTitle`: the first filter set, in the order category, new
      arrivals, best sellers, sale, search, names the page. */
  function PageTitle(f: Filters): (t: string)
    ensures Truthy(f.category) ==> t == Capitalize(f.category.value) + " Sarees"
    ensures !Truthy(f.category) && !f.newArrivals && !f.bestSellers && !f.sale && Truthy(f.search) ==>
      t == "Search Results for \"" + f.search.value + "\""
  {
    if Truthy(f.category) then Capitalize(f.category.value) + " Sarees"
    else if f.newArrivals then "New Arrivals"
    else if f.bestSellers then "Best Sellers"
    else if f.sale then "Sale Items"
    else if Truthy(f.search) then "Search Results for \"" + f.search.value + "\""
    else "All Products"
  }

  /** A filter decides the title exactly when no filter before it in the
      order is set: whatever comes later is ignored. */
  lemma TitlePrecedence(f: Filters, newArrivals: bool, bestSellers: bool, sale: bool, search: Option<string>)
    ensures Truthy(f.category) ==>
      PageTitle(f) == PageTitle(f.(newArrivals := newArrivals, bestSellers := bestSellers, sale := sale, search := search))
    ensures !Truthy(f.category) && f.newArrivals ==>
      PageTitle(f) == "New Arrivals" == PageTitle(f.(bestSellers := bestSellers, sale := sale, search := search))
    ensures !Truthy(f.category) && !f.newArrivals && f.bestSellers ==>
      PageTitle(f) == "Best Sellers" == PageTitle(f.(sale := sale, search := search))
    ensures !Truthy(f.category) && !f.newArrivals && !f.bestSellers && f.sale ==>
      PageTitle(f) == "Sale Items" == PageTitle(f.(search := search))
  {
  }

  /** The title is "All Products" exactly when no filter is set. */
  lemma AllProductsIffUnfiltered(f: Filters)
    ensures PageTitle(f) == "All Products" <==>
      !Truthy(f.category) && !f.newArrivals && !f.bestSellers && !f.sale && !Truthy(f.search)
  {
    var t := PageTitle(f);
    if Truthy(f.category) {
      assert t[|t| - 1] == 's' && t[|t| - 7] == ' ';
      assert "All Products"[11] == 's' && "All Products"[5] == 'r';
      assert t != "All Products" by {
        if |t| == 12 {
          assert t[5] == ' ';
        }
      }
    } else if !f.newArrivals && !f.bestSellers && !f.sale && Truthy(f.search) {
      assert t[0] == 'S';
    }
  }

  /** The page's state: its filters and the query string it last wrote. */
  class ProductsPage {
    var filters: Filters
    var query: Params

    /** The page opens on the filters its address bar names. */
    constructor (params: Params)
      ensures filters == ParseFilters(params) && query == params
    {
      filters := ParseFilters(params);
      query := params;
    }

    /** `handleFilterChange`: the update is merged into the filters and the
        query string is rewritten from the update and the previous sort and
        search. */
    method HandleFilterChange(u: FilterUpdate)
      modifies this
      ensures filters == Merge(old(filters), u)
      ensures query == QueryOf(u, old(filters))
    {
      var prev := filters;
      filters := Merge(prev, u);
      query := BuildQuery(u, prev);
    }

    /** `handleSortChange`: only the sort changes; the query string is left
        as it was. */
    method HandleSortChange(value: string)
      modifies this
      ensures filters == old(filters).(sort := value)
      ensures query == old(query)
    {
      filters := filters.(sort := value);
    }

    /** The products as listed, in the page's sort order. */
    function Listed(products: Option<seq<Product>>, nameRank: string -> int): (r: seq<Product>)
      reads this
      ensures products.Some? ==> multiset(r) == multiset(products.value)
    {
      SortProducts(products, filters.sort, nameRank)
    }
  }
}
