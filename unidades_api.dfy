/** The catalogue page of `scripts/unidadesDisponibles-api.js`: the
    globals `apiVehiclesData`, `apiFilteredVehicles`, `apiCurrentFilters`,
    `apiCurrentPage`, `apiCurrentSort` and `apiTotalVehiclesCount`. The
    script opens with a top-level `return`, which a classic script refuses,
    so these handlers may never be installed; they are modelled as written. */
module UnidadesApi {
  import opened Wrappers
  import opened JsText
  import opened JsValues
  import opened StableSort
  import opened Listing

  /** `apiVehiclesPerPage` */
  const PerPage: int := 24

  /** `apiCurrentFilters`: `type` is written from the URL, `search` from the
      URL, and `tipo` is read by the filter. */
  datatype Filters = Filters(typeList: Option<seq<string>>, search: Option<string>, tipo: Option<seq<string>>)

  const NoFilters: Filters := Filters(None, None, None)

  /** `checkAPIURLFilters` given the `category` and `search` URL
      parameters (`None` when absent): a category other than 'all' becomes
      the one-element `type` list, and a non-empty search is copied as it is. */
  function URLFilters(f: Filters, category: Option<string>, search: Option<string>): (r: Filters)
    ensures category.Some? && category.value != "" && category.value != "all" ==> r.typeList == Some([category.value])
    ensures !(category.Some? && category.value != "" && category.value != "all") ==> r.typeList == f.typeList
    ensures search.Some? && search.value != "" ==> r.search == search
    ensures !(search.Some? && search.value != "") ==> r.search == f.search
    ensures r.tipo == f.tipo
  {
    var withType := if category.Some? && category.value != "" && category.value != "all" then f.(typeList := Some([category.value])) else f;
    if search.Some? && search.value != "" then withType.(search := search) else withType
  }

  /** The category the URL activates: the category item whose
      `data-category` equals the parameter, among `categories`. */
  function URLActiveCategory(active: Option<string>, category: Option<string>, categories: seq<string>): (r: Option<string>)
    ensures category.Some? && category.value != "" && category.value != "all" ==>
      (r.Some? <==> category.value in categories) && (r.Some? ==> r.value == category.value)
    ensures !(category.Some? && category.value != "" && category.value != "all") ==> r == active
  {
    if category.Some? && category.value != "" && category.value != "all" then
      if category.value in categories then Some(category.value) else None
    else active
  }

  /** `${vehicle.brand} ${vehicle.model} ${vehicle.full_name || vehicle.fullName} ${vehicle.type_name || vehicle.typeName}`, lower-cased. */
  function SearchText(v: JsValue): string {
    Joined(ToStr(Get(v, "brand")), ToStr(Get(v, "model")),
           ToStr(Or(Get(v, "full_name"), Get(v, "fullName"))),
           ToStr(Or(Get(v, "type_name"), Get(v, "typeName"))))
  }

  /** The four parts joined by single spaces and lower-cased. */
  function Joined(brand: string, model: string, name: string, kind: string): string {
    ToLower(brand + " " + model + " " + name + " " + kind)
  }

  /** The callback of `applyAPIFilters`, with the category of the active
      category item. */
  predicate Passes(v: JsValue, f: Filters, activeCategory: Option<string>) {
    (f.search.None? || f.search.value == "" || Contains(SearchText(v), ToLower(f.search.value)))
    && (activeCategory.None? || activeCategory.value == "all" || Get(v, "type") == Str(activeCategory.value))
    && (f.tipo.None? || |f.tipo.value| == 0 || (Get(v, "type").Str? && Get(v, "type").s in f.tipo.value))
  }

  function PassesWith(f: Filters, activeCategory: Option<string>): JsValue -> bool {
    v => Passes(v, f, activeCategory)
  }

  /** The `type` list the URL writes is never read by the filter: only the
      active category item the URL also selects narrows the list. */
  lemma TypeListUnread(v: JsValue, f: Filters, activeCategory: Option<string>, types: Option<seq<string>>)
    ensures Passes(v, f.(typeList := types), activeCategory) == Passes(v, f, activeCategory)
  {
  }

  /** A search finds a vehicle whatever the case of its words: searching
      for a brand, in any case, keeps a vehicle of that brand. */
  lemma SearchIgnoresCase(v: JsValue, typed: string)
    requires Get(v, "brand").Str? && ToLower(typed) == ToLower(Get(v, "brand").s)
    ensures Passes(v, Filters(None, Some(typed), None), None)
  {
    SearchTextStartsWithBrand(v);
    assert StartsWith(SearchText(v), ToLower(typed));
  }

  /** The searchable text opens with the lower-cased brand. */
  lemma SearchTextStartsWithBrand(v: JsValue)
    requires Get(v, "brand").Str?
    ensures StartsWith(SearchText(v), ToLower(Get(v, "brand").s))
  {
    var brand := Get(v, "brand").s;
    assert ToStr(Get(v, "brand")) == brand;
    JoinedStartsWith(brand, ToStr(Get(v, "model")), ToStr(Or(Get(v, "full_name"), Get(v, "fullName"))),
                     ToStr(Or(Get(v, "type_name"), Get(v, "typeName"))));
  }

  lemma JoinedStartsWith(brand: string, model: string, name: string, kind: string)
    ensures StartsWith(Joined(brand, model, name, kind), ToLower(brand))
  {
    var rest := " " + model + " " + name + " " + kind;
    assert brand + " " + model + " " + name + " " + kind == brand + rest;
    LowerKeepsPrefix(brand, rest, brand + rest);
  }

  /** Lower-casing keeps a prefix a prefix. */
  lemma LowerKeepsPrefix(a: string, rest: string, whole: string)
    requires whole == a + rest
    ensures StartsWith(ToLower(whole), ToLower(a))
  {
    var t := ToLower(whole);
    forall k | 0 <= k < |a| ensures t[k] == ToLower(a)[k] {
      assert whole[k] == a[k];
    }
    assert t[..|a|] == ToLower(a);
  }

  /** `(x || 0)`, converted for the subtraction in the comparator. */
  function OrZero(v: JsValue): JsValue {
    ToNumber(Or(v, Num(0)))
  }

  /** `a - b` inside the comparator; a `NaN` difference counts as 0. */
  function Diff(x: JsValue, y: JsValue): int {
    if x.Num? && y.Num? then x.n - y.n else 0
  }

  /** `v.created_at || v.date_added || 0` */
  function Created(v: JsValue): JsValue {
    Or(Or(Get(v, "created_at"), Get(v, "date_added")), Num(0))
  }

  /** The comparator of `applyAPISorting`. A missing price counts as 0;
      year and kilometers are subtracted as they are. `time` is what
      `new Date(x).getTime()` gives, which this model takes as given. */
  function Compare(a: JsValue, b: JsValue, sort: string, time: JsValue -> int): int {
    if sort == "price-asc" then Diff(OrZero(Get(a, "price")), OrZero(Get(b, "price")))
    else if sort == "price-desc" then Diff(OrZero(Get(b, "price")), OrZero(Get(a, "price")))
    else if sort == "year-desc" then Diff(ToNumber(Get(b, "year")), ToNumber(Get(a, "year")))
    else if sort == "year-asc" then Diff(ToNumber(Get(a, "year")), ToNumber(Get(b, "year")))
    else if sort == "km-asc" then Diff(ToNumber(Get(a, "kilometers")), ToNumber(Get(b, "kilometers")))
    else if sort == "km-desc" then Diff(ToNumber(Get(b, "kilometers")), ToNumber(Get(a, "kilometers")))
    else if Truthy(Get(a, "is_featured")) && !Truthy(Get(b, "is_featured")) then -1
    else if !Truthy(Get(a, "is_featured")) && Truthy(Get(b, "is_featured")) then 1
    else time(Created(b)) - time(Created(a))
  }

  function Price(v: JsValue): int {
    var x := OrZero(Get(v, "price"));
    if x.Num? then x.n else 0
  }

  function RankOf(v: JsValue, sort: string, time: JsValue -> int): Rank {
    if sort == "price-asc" then Rank(Price(v), 0)
    else if sort == "price-desc" then Rank(-Price(v), 0)
    else if sort == "year-desc" then Rank(-NumberOr0(Get(v, "year")), 0)
    else if sort == "year-asc" then Rank(NumberOr0(Get(v, "year")), 0)
    else if sort == "km-asc" then Rank(NumberOr0(Get(v, "kilometers")), 0)
    else if sort == "km-desc" then Rank(-NumberOr0(Get(v, "kilometers")), 0)
    else Rank(if Truthy(Get(v, "is_featured")) then 0 else 1, -time(Created(v)))
  }

  function RankBy(sort: string, time: JsValue -> int): JsValue -> Rank {
    v => RankOf(v, sort, time)
  }

  /** A vehicle whose price (missing as 0), year and kilometers are numbers. */
  predicate Numeric(v: JsValue) {
    OrZero(Get(v, "price")).Num? && ToNumber(Get(v, "year")).Num? && ToNumber(Get(v, "kilometers")).Num?
  }

  /** The comparator orders two vehicles exactly as their ranks do. */
  lemma CompareMatchesRank(a: JsValue, b: JsValue, sort: string, time: JsValue -> int)
    requires Numeric(a) && Numeric(b)
    ensures Compare(a, b, sort, time) < 0 <==> RankLess(RankOf(a, sort, time), RankOf(b, sort, time))
    ensures Compare(a, b, sort, time) > 0 <==> RankLess(RankOf(b, sort, time), RankOf(a, sort, time))
  {
  }

  /** A vehicle without a price sorts as price 0: before every vehicle of
      positive price under 'price-asc'. */
  lemma MissingPriceIsZero(v: JsValue, w: JsValue, time: JsValue -> int)
    requires !Truthy(Get(v, "price"))
    requires Get(w, "price").Num? && Get(w, "price").n > 0
    ensures RankLess(RankOf(v, "price-asc", time), RankOf(w, "price-asc", time))
  {
  }

  /** After a 'price-asc' sort prices, missing ones as 0, never decrease;
      after 'relevance' no vehicle that is not featured precedes a featured one. */
  lemma SortOrders(s: seq<JsValue>, time: JsValue -> int, i: int, j: int)
    requires 0 <= i < j < |s|
    ensures var r := Sort(s, RankBy("price-asc", time)); |r| == |s| && Price(r[i]) <= Price(r[j])
    ensures var r := Sort(s, RankBy("relevance", time));
      |r| == |s| && (Truthy(Get(r[j], "is_featured")) ==> Truthy(Get(r[i], "is_featured")))
  {
    SortPermutes(s, RankBy("price-asc", time));
    SortSorted(s, RankBy("price-asc", time));
    SortPermutes(s, RankBy("relevance", time));
    SortSorted(s, RankBy("relevance", time));
  }

  /** The globals. */
  class Catalogue {
    var vehiclesData: seq<JsValue>
    var filteredVehicles: seq<JsValue>
    var currentFilters: Filters
    var currentPage: int
    var currentSort: string
    var totalCount: JsValue

    ghost predicate Valid()
      reads this
    {
      currentPage >= 1
    }

    constructor ()
      ensures Valid() && vehiclesData == [] && filteredVehicles == [] && currentFilters == NoFilters
      ensures currentPage == 1 && currentSort == "relevance" && totalCount == Num(0)
    {
      vehiclesData := [];
      filteredVehicles := [];
      currentFilters := NoFilters;
      currentPage := 1;
      currentSort := "relevance";
      totalCount := Num(0);
    }

    /** What `applyAPIFilters` leaves in `apiFilteredVehicles`. */
    function Expected(activeCategory: Option<string>, time: JsValue -> int): seq<JsValue>
      reads this
    {
      Sort(Keep(vehiclesData, PassesWith(currentFilters, activeCategory)), RankBy(currentSort, time))
    }

    /** `applyAPIFilters` once its timer has run: the passing vehicles,
      sorted, from the first page. */
    method ApplyFilters(activeCategory: Option<string>, time: JsValue -> int)
      requires Valid()
      modifies this
      ensures Valid() && filteredVehicles == Expected(activeCategory, time) && currentPage == 1
      ensures vehiclesData == old(vehiclesData) && currentFilters == old(currentFilters)
      ensures currentSort == old(currentSort) && totalCount == old(totalCount)
    {
      filteredVehicles := Sort(Keep(vehiclesData, PassesWith(currentFilters, activeCategory)), RankBy(currentSort, time));
      currentPage := 1;
    }

    /** `loadVehiclesFromAPI` given the response: a `vehicles` array is
      kept with its total (`response.total` or else the array's length);
      any other response falls back to an empty list. Either way the
      filters are applied. */
    method LoadVehicles(response: JsValue, activeCategory: Option<string>, time: JsValue -> int) returns (loaded: bool)
      requires Valid()
      modifies this
      ensures Valid() && loaded == Get(response, "vehicles").Arr?
      ensures loaded ==>
        (vehiclesData == Get(response, "vehicles").items && totalCount == Or(Get(response, "total"), Num(|vehiclesData|)))
      ensures !loaded ==> vehiclesData == [] && totalCount == old(totalCount)
      ensures filteredVehicles == Expected(activeCategory, time) && currentPage == 1
      ensures currentFilters == old(currentFilters) && currentSort == old(currentSort)
    {
      var list := Get(response, "vehicles");
      loaded := list.Arr?;
      if loaded {
        vehiclesData := list.items;
        totalCount := Or(Get(response, "total"), Num(|list.items|));
      } else {
        vehiclesData := [];
      }
      ApplyFilters(activeCategory, time);
    }

    /** `checkAPIURLFilters` on the filter record. */
    method CheckURLFilters(category: Option<string>, search: Option<string>)
      modifies this
      ensures currentFilters == URLFilters(old(currentFilters), category, search)
      ensures vehiclesData == old(vehiclesData) && filteredVehicles == old(filteredVehicles)
      ensures currentPage == old(currentPage) && currentSort == old(currentSort) && totalCount == old(totalCount)
    {
      currentFilters := URLFilters(currentFilters, category, search);
    }

    /** The cards `renderAPIVehicles` draws. */
    function Visible(): (r: seq<JsValue>)
      reads this
      requires Valid()
      ensures |r| == if currentPage * PerPage < |filteredVehicles| then currentPage * PerPage else |filteredVehicles|
      ensures r == filteredVehicles[..|r|]
    {
      Take(filteredVehicles, currentPage * PerPage)
    }

    /** `showingCount` in `updateAPIResultsDisplay`: the size of the
      visible prefix. */
    function ShowingCount(): (n: int)
      reads this
      requires Valid()
      ensures n == |Visible()|
    {
      if currentPage * PerPage < |filteredVehicles| then currentPage * PerPage else |filteredVehicles|
    }
  }

  /** After filtering the first page is shown and a vehicle is listed
      exactly when it is loaded and passes. */
  lemma FilteredMembers(vs: seq<JsValue>, f: Filters, activeCategory: Option<string>, sort: string, time: JsValue -> int, v: JsValue)
    ensures var r := Sort(Keep(vs, PassesWith(f, activeCategory)), RankBy(sort, time));
      (v in r <==> v in vs && Passes(v, f, activeCategory)) && multiset(r) <= multiset(vs)
  {
    var kept := Keep(vs, PassesWith(f, activeCategory));
    SortPermutes(kept, RankBy(sort, time));
    KeepMembership(vs, PassesWith(f, activeCategory), v);
    assert v in Sort(kept, RankBy(sort, time)) <==> v in multiset(Sort(kept, RankBy(sort, time)));
  }
}
