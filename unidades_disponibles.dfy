/** The catalogue page of `scripts/unidadesDisponibles.js`: the module
    globals `currentFilters`, `filteredVehicles`, `currentPage`,
    `isLoading` and `currentSort`, moved by the checkbox, range, search,
    sort and load-more handlers. The vehicles are the records the page's
    sample generator builds, so every field has its type. */
module UnidadesDisponibles {
  import opened Wrappers
  import opened JsText
  import opened JsValues
  import opened StableSort
  import opened Listing

  datatype Vehicle = Vehicle(
    id: string, brand: string, model: string, typeName: string, vtype: string,
    traccion: string, transmission: string, year: int, kilometers: int, price: int,
    dateAdded: int)

  /** `vehiclesPerPage` */
  const PerPage: int := 24

  /** A `{min, max}` range object; a bound is only ever set to a non-zero
      number. */
  datatype Range = Range(min: Option<int>, max: Option<int>)

  /** `currentFilters`: the checkbox lists by input name, the search text,
      and the year and kilometer ranges. */
  datatype Filters = Filters(lists: map<string, seq<string>>, search: Option<string>,
                             year: Option<Range>, kilometers: Option<Range>)

  const NoFilters: Filters := Filters(map[], None, None, None)

  predicate NoDuplicates(s: seq<string>) {
    forall i, j :: 0 <= i < j < |s| ==> s[i] != s[j]
  }

  /** The shape the handlers keep the checkbox lists in: no empty list is
      stored and no list repeats a value. */
  predicate ListsWellKept(lists: map<string, seq<string>>) {
    forall name :: name in lists ==> lists[name] != [] && NoDuplicates(lists[name])
  }

  /** `s.filter(val => val !== x)` */
  function Without(s: seq<string>, x: string): (r: seq<string>)
    ensures x !in r && forall y :: y in r <==> y in s && y != x
  {
    if s == [] then []
    else if s[0] == x then Without(s[1..], x)
    else [s[0]] + Without(s[1..], x)
  }

  /** Removing a value never creates a repeat. */
  lemma {:induction false} WithoutKeepsDistinct(s: seq<string>, x: string)
    requires NoDuplicates(s)
    ensures NoDuplicates(Without(s, x))
  {
    if s != [] {
      assert NoDuplicates(s[1..]) by {
        forall i, j | 0 <= i < j < |s[1..]| ensures s[1..][i] != s[1..][j] {
          assert s[1..][i] == s[i + 1] && s[1..][j] == s[j + 1];
        }
      }
      WithoutKeepsDistinct(s[1..], x);
      if s[0] != x {
        var rest := Without(s[1..], x);
        assert s[0] !in s[1..] by {
          forall k | 0 <= k < |s[1..]| ensures s[1..][k] != s[0] {
            assert s[1..][k] == s[k + 1];
          }
        }
        var r := [s[0]] + rest;
        forall i, j | 0 <= i < j < |r| ensures r[i] != r[j] {
          if i == 0 {
            assert r[j] == rest[j - 1] && r[j] in rest;
          } else {
            assert r[i] == rest[i - 1] && r[j] == rest[j - 1];
          }
        }
      }
    }
  }

  /** The checkbox part of `handleFilterChange`: a checked value is added
      to its list unless already there; an unchecked one is removed, and
      an emptied list is deleted. */
  function Toggle(lists: map<string, seq<string>>, name: string, value: string, checked: bool): (r: map<string, seq<string>>)
    ensures forall other :: other != name ==> (other in r <==> other in lists) && (other in r ==> r[other] == lists[other])
    ensures checked ==>
      (name in r && value in r[name] && forall y :: y in r[name] <==> y == value || (name in lists && y in lists[name]))
    ensures !checked ==>
      (name in r ==> value !in r[name] && forall y :: y in r[name] <==> name in lists && y in lists[name] && y != value)
    ensures !checked ==> (name !in r <==> name !in lists || forall y :: y in lists[name] ==> y == value)
  {
    var current := if name in lists then lists[name] else [];
    if checked then
      if value in current then lists[name := current] else lists[name := current + [value]]
    else
      var kept := Without(current, value);
      assert kept != [] ==> kept[0] in kept;
      if kept == [] then lists - {name} else lists[name := kept]
  }

  /** The handler keeps the lists well kept. */
  lemma ToggleKeepsLists(lists: map<string, seq<string>>, name: string, value: string, checked: bool)
    requires ListsWellKept(lists)
    ensures ListsWellKept(Toggle(lists, name, value, checked))
  {
    var current := if name in lists then lists[name] else [];
    if !checked && name in lists {
      WithoutKeepsDistinct(current, value);
    }
    if checked && value !in current {
      var grown := current + [value];
      forall i, j | 0 <= i < j < |grown| ensures grown[i] != grown[j] {
        if j == |current| {
          assert grown[i] == current[i];
        }
      }
    }
  }

  /** Checking a box twice stores its value once; unchecking after
      checking leaves the list as it was without the value. */
  lemma CheckTwiceIsOnce(lists: map<string, seq<string>>, name: string, value: string)
    ensures Toggle(Toggle(lists, name, value, true), name, value, true) == Toggle(lists, name, value, true)
  {
  }

  /** `transmissionMap[filter]` */
  function TransmissionLabel(filter: string): (r: Option<string>)
    ensures r.Some? <==> filter == "manual" || filter == "automatica"
  {
    if filter == "manual" then Some("Manual")
    else if filter == "automatica" then Some("Automática")
    else None
  }

  /** The list `lists[name]` when it is set and non-empty. */
  predicate Restricts(lists: map<string, seq<string>>, name: string) {
    name in lists && |lists[name]| > 0
  }

  /** The callback of `applyFilters`, with the category of the active
      category item (none when no item is active). */
  predicate Passes(v: Vehicle, f: Filters, activeCategory: Option<string>) {
    (f.search.None? || f.search.value == ""
      || Contains(ToLower(v.brand + " " + v.model + " " + v.typeName), ToLower(f.search.value)))
    && (activeCategory.None? || activeCategory.value == "all" || v.vtype == activeCategory.value)
    && (!Restricts(f.lists, "tipo") || v.vtype in f.lists["tipo"])
    && (!Restricts(f.lists, "traccion") || v.traccion in f.lists["traccion"])
    && (!Restricts(f.lists, "marca") || ToLower(v.brand) in f.lists["marca"])
    && (!Restricts(f.lists, "transmision")
        || exists k :: 0 <= k < |f.lists["transmision"]| && TransmissionLabel(f.lists["transmision"][k]) == Some(v.transmission))
    && (f.year.None? || InRange(v.year, f.year.value))
    && (f.kilometers.None? || InRange(v.kilometers, f.kilometers.value))
  }

  /** A value within the truthy bounds of a range, inclusively. */
  predicate InRange(x: int, r: Range) {
    !(r.min.Some? && r.min.value != 0 && x < r.min.value)
    && !(r.max.Some? && r.max.value != 0 && x > r.max.value)
  }

  function PassesWith(f: Filters, activeCategory: Option<string>): Vehicle -> bool {
    v => Passes(v, f, activeCategory)
  }

  /** The transmission filter passes a vehicle exactly when one of the
      checked values names its transmission. */
  lemma TransmissionFilter(v: Vehicle, checkedValues: seq<string>)
    requires checkedValues != []
    ensures Passes(v, Filters(map["transmision" := checkedValues], None, None, None), None) <==>
      (("manual" in checkedValues && v.transmission == "Manual")
       || ("automatica" in checkedValues && v.transmission == "Automática"))
  {
    var f := Filters(map["transmision" := checkedValues], None, None, None);
    assert f.lists["transmision"] == checkedValues;
    if "manual" in checkedValues && v.transmission == "Manual" {
      var k :| 0 <= k < |checkedValues| && checkedValues[k] == "manual";
      assert TransmissionLabel(checkedValues[k]) == Some(v.transmission);
    }
    if "automatica" in checkedValues && v.transmission == "Automática" {
      var k :| 0 <= k < |checkedValues| && checkedValues[k] == "automatica";
      assert TransmissionLabel(checkedValues[k]) == Some(v.transmission);
    }
  }

  /** With no filters and no category chosen, every vehicle passes. */
  lemma NoFiltersPassAll(v: Vehicle, activeCategory: Option<string>)
    requires activeCategory.None? || activeCategory.value == "all"
    ensures Passes(v, NoFilters, activeCategory)
  {
  }

  /** The comparator of `applySorting`: 'relevance' and any unknown key
      put the most recently added first. */
  function Compare(a: Vehicle, b: Vehicle, sort: string): int {
    if sort == "price-asc" then a.price - b.price
    else if sort == "price-desc" then b.price - a.price
    else if sort == "year-desc" then b.year - a.year
    else if sort == "year-asc" then a.year - b.year
    else if sort == "km-asc" then a.kilometers - b.kilometers
    else if sort == "km-desc" then b.kilometers - a.kilometers
    else b.dateAdded - a.dateAdded
  }

  function RankOf(v: Vehicle, sort: string): Rank {
    if sort == "price-asc" then Rank(v.price, 0)
    else if sort == "price-desc" then Rank(-v.price, 0)
    else if sort == "year-desc" then Rank(-v.year, 0)
    else if sort == "year-asc" then Rank(v.year, 0)
    else if sort == "km-asc" then Rank(v.kilometers, 0)
    else if sort == "km-desc" then Rank(-v.kilometers, 0)
    else Rank(-v.dateAdded, 0)
  }

  function RankBy(sort: string): Vehicle -> Rank {
    v => RankOf(v, sort)
  }

  /** The comparator orders two vehicles exactly as their ranks do, so the
      stable `sort` with it is the stable sort by rank. */
  lemma CompareMatchesRank(a: Vehicle, b: Vehicle, sort: string)
    ensures Compare(a, b, sort) < 0 <==> RankLess(RankOf(a, sort), RankOf(b, sort))
    ensures Compare(a, b, sort) > 0 <==> RankLess(RankOf(b, sort), RankOf(a, sort))
  {
  }

  /** After a 'price-asc' sort prices never decrease; after 'relevance'
      the dates never increase. */
  lemma SortOrders(s: seq<Vehicle>, i: int, j: int)
    requires 0 <= i < j < |s|
    ensures var r := Sort(s, RankBy("price-asc")); |r| == |s| && r[i].price <= r[j].price
    ensures var r := Sort(s, RankBy("relevance")); |r| == |s| && r[i].dateAdded >= r[j].dateAdded
  {
    SortPermutes(s, RankBy("price-asc"));
    SortSorted(s, RankBy("price-asc"));
    SortPermutes(s, RankBy("relevance"));
    SortSorted(s, RankBy("relevance"));
  }

  /** What `updateLoadMoreButton` shows: nothing, or the number of
      vehicles still hidden. */
  function LoadMoreButton(total: int, page: int): (r: Option<int>)
    ensures r.None? <==> page * PerPage >= total
    ensures r.Some? ==> r.value == total - page * PerPage && r.value > 0
  {
    if page * PerPage >= total then None else Some(total - page * PerPage)
  }

  /** The module globals. */
  class Page {
    var vehiclesData: seq<Vehicle>
    var filteredVehicles: seq<Vehicle>
    var currentFilters: Filters
    var currentPage: int
    var isLoading: bool
    var currentSort: string

    ghost predicate Valid()
      reads this
    {
      currentPage >= 1 && ListsWellKept(currentFilters.lists)
    }

    constructor ()
      ensures Valid() && vehiclesData == [] && filteredVehicles == [] && currentFilters == NoFilters
      ensures currentPage == 1 && !isLoading && currentSort == "relevance"
    {
      vehiclesData := [];
      filteredVehicles := [];
      currentFilters := NoFilters;
      currentPage := 1;
      isLoading := false;
      currentSort := "relevance";
    }

    /** What `applyFilters` leaves in `filteredVehicles`. */
    function Expected(activeCategory: Option<string>): seq<Vehicle>
      reads this
    {
      Sort(Keep(vehiclesData, PassesWith(currentFilters, activeCategory)), RankBy(currentSort))
    }

    /** `renderVehicles`: `filteredVehicles.slice(0, currentPage * 24)`. */
    function Visible(): (r: seq<Vehicle>)
      reads this
      requires Valid()
      ensures |r| == if currentPage * PerPage < |filteredVehicles| then currentPage * PerPage else |filteredVehicles|
      ensures r == filteredVehicles[..|r|]
    {
      Take(filteredVehicles, currentPage * PerPage)
    }

    /** `applyFilters` once its timer has run: the passing vehicles, sorted,
      from the first page. */
    method ApplyFilters(activeCategory: Option<string>)
      requires Valid()
      modifies this
      ensures Valid() && filteredVehicles == Expected(activeCategory) && currentPage == 1 && !isLoading
      ensures vehiclesData == old(vehiclesData) && currentFilters == old(currentFilters) && currentSort == old(currentSort)
    {
      isLoading := true;
      filteredVehicles := Keep(vehiclesData, PassesWith(currentFilters, activeCategory));
      ApplySorting();
      currentPage := 1;
      isLoading := false;
    }

    /** `applySorting`: `filteredVehicles.sort(...)` in place. */
    method ApplySorting()
      requires Valid()
      modifies this
      ensures Valid() && filteredVehicles == Sort(old(filteredVehicles), RankBy(currentSort))
      ensures vehiclesData == old(vehiclesData) && currentFilters == old(currentFilters)
      ensures currentSort == old(currentSort) && currentPage == old(currentPage) && isLoading == old(isLoading)
    {
      filteredVehicles := Sort(filteredVehicles, RankBy(currentSort));
    }

    /** A click on a sort option: the new key, applied to the shown list
      without going back to the first page. */
    method ChooseSort(sort: string)
      requires Valid()
      modifies this
      ensures Valid() && currentSort == sort && filteredVehicles == Sort(old(filteredVehicles), RankBy(sort))
      ensures vehiclesData == old(vehiclesData) && currentFilters == old(currentFilters)
      ensures currentPage == old(currentPage) && isLoading == old(isLoading)
    {
      currentSort := sort;
      ApplySorting();
    }

    /** `handleFilterChange` for an input named `name`: a checkbox toggles
      its value in the list of that name; any other input only filters
      again. */
    method HandleFilterChange(isCheckbox: bool, name: string, value: string, checked: bool, activeCategory: Option<string>)
      requires Valid()
      modifies this
      ensures Valid()
      ensures isCheckbox ==> currentFilters == old(currentFilters).(lists := Toggle(old(currentFilters).lists, name, value, checked))
      ensures !isCheckbox ==> currentFilters == old(currentFilters)
      ensures filteredVehicles == Expected(activeCategory) && currentPage == 1
      ensures vehiclesData == old(vehiclesData) && currentSort == old(currentSort)
    {
      if isCheckbox {
        ToggleKeepsLists(currentFilters.lists, name, value, checked);
        currentFilters := currentFilters.(lists := Toggle(currentFilters.lists, name, value, checked));
      }
      ApplyFilters(activeCategory);
    }

    /** `handleRangeFilter` on the input `inputId` holding `text`: input
      that parses to 0 or `NaN` changes nothing; otherwise the year or
      kilometer bound the id names is set. */
    method HandleRangeFilter(inputId: string, text: string, activeCategory: Option<string>)
      requires Valid()
      modifies this
      ensures var p := ParseIntText(text);
        !(p.Num? && p.n != 0) ==>
          (currentFilters == old(currentFilters) && filteredVehicles == old(filteredVehicles) && currentPage == old(currentPage))
      ensures var p := ParseIntText(text);
        p.Num? && p.n != 0 ==>
          (currentFilters == SetBound(old(currentFilters), inputId, p.n) && filteredVehicles == Expected(activeCategory) && currentPage == 1)
      ensures Valid() && vehiclesData == old(vehiclesData) && currentSort == old(currentSort)
    {
      var p := ParseIntText(text);
      if !(p.Num? && p.n != 0) {
        return;
      }
      var value := p.n;
      currentFilters := SetBound(currentFilters, inputId, value);
      ApplyFilters(activeCategory);
    }

    /** `handleSearch`: the trimmed, lower-cased text. */
    method HandleSearch(typed: string, activeCategory: Option<string>)
      requires Valid()
      modifies this
      ensures Valid() && currentFilters == old(currentFilters).(search := Some(ToLower(Trim(typed))))
      ensures filteredVehicles == Expected(activeCategory) && currentPage == 1
      ensures vehiclesData == old(vehiclesData) && currentSort == old(currentSort)
    {
      currentFilters := currentFilters.(search := Some(ToLower(Trim(typed))));
      ApplyFilters(activeCategory);
    }

    /** `clearSearch` */
    method ClearSearch(activeCategory: Option<string>)
      requires Valid()
      modifies this
      ensures Valid() && currentFilters == old(currentFilters).(search := None)
      ensures filteredVehicles == Expected(activeCategory) && currentPage == 1
      ensures vehiclesData == old(vehiclesData) && currentSort == old(currentSort)
    {
      currentFilters := currentFilters.(search := None);
      ApplyFilters(activeCategory);
    }

    /** `clearAllFilters`: no filters and the 'all' category, so every
      vehicle is shown, in the current sort order, from the first page. */
    method ClearAllFilters()
      requires Valid()
      modifies this
      ensures Valid() && currentFilters == NoFilters && currentPage == 1
      ensures filteredVehicles == Sort(vehiclesData, RankBy(currentSort))
      ensures vehiclesData == old(vehiclesData) && currentSort == old(currentSort)
    {
      currentFilters := NoFilters;
      ApplyFilters(Some("all"));
      forall k | 0 <= k < |vehiclesData| ensures PassesWith(NoFilters, Some("all"))(vehiclesData[k]) {
        NoFiltersPassAll(vehiclesData[k], Some("all"));
      }
      KeepAll(vehiclesData, PassesWith(NoFilters, Some("all")));
    }

    /** A click on the load-more button: ignored while loading; otherwise
      one more page, with the loading flag up until the timer runs. */
    method LoadMoreVehicles()
      requires Valid()
      modifies this
      ensures Valid()
      ensures old(isLoading) ==> currentPage == old(currentPage) && isLoading
      ensures !old(isLoading) ==> currentPage == old(currentPage) + 1 && isLoading
      ensures vehiclesData == old(vehiclesData) && filteredVehicles == old(filteredVehicles)
      ensures currentFilters == old(currentFilters) && currentSort == old(currentSort)
    {
      if isLoading {
        return;
      }
      isLoading := true;
      currentPage := currentPage + 1;
    }

    /** The load-more timer: the page is shown again and loading ends. */
    method LoadingDone()
      requires Valid()
      modifies this
      ensures Valid() && !isLoading
      ensures vehiclesData == old(vehiclesData) && filteredVehicles == old(filteredVehicles)
      ensures currentFilters == old(currentFilters) && currentSort == old(currentSort) && currentPage == old(currentPage)
    {
      isLoading := false;
    }
  }

  /** The range part of `handleRangeFilter`: an id holding 'year' sets a
      year bound, else one holding 'km' a kilometer bound; 'min' in the id
      picks the lower bound, anything else the upper. */
  function SetBound(f: Filters, inputId: string, value: int): (r: Filters)
    ensures r.lists == f.lists && r.search == f.search
    ensures Contains(inputId, "year") ==>
      (r.kilometers == f.kilometers && r.year.Some?
       && if Contains(inputId, "min") then r.year.value.min == Some(value) else r.year.value.max == Some(value))
    ensures !Contains(inputId, "year") && Contains(inputId, "km") ==>
      (r.year == f.year && r.kilometers.Some?
       && if Contains(inputId, "min") then r.kilometers.value.min == Some(value) else r.kilometers.value.max == Some(value))
    ensures !Contains(inputId, "year") && !Contains(inputId, "km") ==> r == f
  {
    if Contains(inputId, "year") then
      var range := if f.year.Some? then f.year.value else Range(None, None);
      f.(year := Some(if Contains(inputId, "min") then range.(min := Some(value)) else range.(max := Some(value))))
    else if Contains(inputId, "km") then
      var range := if f.kilometers.Some? then f.kilometers.value else Range(None, None);
      f.(kilometers := Some(if Contains(inputId, "min") then range.(min := Some(value)) else range.(max := Some(value))))
    else f
  }

  /** Two clicks on load-more before the timer runs load one page, not two. */
  method DoubleClickLoadsOnce(p: Page)
    requires p.Valid() && !p.isLoading
    modifies p
    ensures p.currentPage == old(p.currentPage) + 1
  {
    p.LoadMoreVehicles();
    p.LoadMoreVehicles();
  }

  /** The button hides exactly when the visible prefix is the whole
      list, and otherwise counts the vehicles the prefix leaves out. */
  lemma ButtonMatchesVisible(p: Page)
    requires p.Valid()
    ensures LoadMoreButton(|p.filteredVehicles|, p.currentPage).None? <==> p.Visible() == p.filteredVehicles
    ensures LoadMoreButton(|p.filteredVehicles|, p.currentPage).Some? ==>
      LoadMoreButton(|p.filteredVehicles|, p.currentPage).value == |p.filteredVehicles| - |p.Visible()|
  {
  }
}
