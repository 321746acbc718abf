/** The API catalogue page of `scripts/unidadesDisponibles-final.js`: the
    globals `vehiclesData`, `filteredVehicles`, `currentFilters` and
    `currentPage` that the `UnidadesAPI` handlers reassign, over the raw
    vehicle objects the backend returns. */
module UnidadesFinal {
  import opened Wrappers
  import opened JsText
  import opened JsValues
  import opened StableSort
  import opened Listing
  import Tally
  import LarrosaUnified

  const Origin: string := "http://localhost:8000/"
  const Placeholder: string := "../assets/imagenes/placeholder-vehicle.jpg"
  /** `vehiclesPerPage` */
  const PerPage: int := 24

  /** `vehicle.images[0]` when `vehicle.images && vehicle.images.length > 0`:
      the first element of an array, or the first character of a string. */
  function FirstImage(images: JsValue): (r: Option<JsValue>)
    ensures r.None? <==> !((images.Arr? && |images.items| > 0) || (images.Str? && |images.s| > 0))
    ensures images.Arr? && |images.items| > 0 ==> r == Some(images.items[0])
  {
    match images
    case Arr(items) => if |items| > 0 then Some(items[0]) else None
    case Str(s) => if |s| > 0 then Some(Str([s[0]])) else None
    case _ => None
  }

  /** `getVehicleImageUrl(vehicle)` given `vehicle.images`: the placeholder
      without images; a first image starting "http" as it is; one starting
      "/static" or "static" on the backend's origin without its leading
      slash; any other string as it is. A first image that is not a string
      makes `startsWith` throw, given here as `None`. */
  function VehicleImageUrl(images: JsValue): (r: Option<string>)
    ensures FirstImage(images).None? ==> r == Some(Placeholder)
    ensures r.None? <==> FirstImage(images).Some? && !FirstImage(images).value.Str?
    ensures FirstImage(images).Some? && FirstImage(images).value.Str? ==>
      var p := FirstImage(images).value.s;
      r == Some(if StartsWith(p, "http") then p
                else if StartsWith(p, "/static") || StartsWith(p, "static") then Origin + DropLeadingSlash(p)
                else p)
  {
    match FirstImage(images)
    case None => Some(Placeholder)
    case Some(first) =>
      if !first.Str? then None
      else
        var p := first.s;
        if StartsWith(p, "http") then Some(p)
        else if StartsWith(p, "/static") || StartsWith(p, "static") then Some(Origin + DropLeadingSlash(p))
        else Some(p)
  }

  /** On a first image under "static/" the page and the shared API client
      build the same URL. */
  lemma AgreesWithClient(p: string)
    requires LarrosaUnified.IsStaticPath(p)
    ensures VehicleImageUrl(Arr([Str(p)])) == Some(LarrosaUnified.ImageUrl(Str(p)))
  {
    if StartsWith(p, "static/") {
      assert p[..6] == "static" && p[0] == 's';
    } else {
      assert p[..7] == "/static" && p[0] == '/';
    }
    assert !StartsWith(p, "http");
    assert LarrosaUnified.ImageUrl(Str(p)) == LarrosaUnified.StaticUrl + "/" + DropLeadingSlash(p);
    assert LarrosaUnified.StaticUrl + "/" == Origin;
  }

  /** The URL of a vehicle whose first image is an absolute URL or an
      unrecognised path is that string itself. */
  lemma OtherPathsKept(p: string)
    requires !StartsWith(p, "/static") && !StartsWith(p, "static")
    ensures VehicleImageUrl(Arr([Str(p)])) == Some(p)
  {
  }

  /** `getStatusClass(status)`: 'available' for a falsy status; otherwise
      by the lower-cased text, 'disponible' before 'reservado' before
      'vendido', and 'available' when none occurs. A truthy status that
      is not a string has no `toLowerCase`, given here as `None`. */
  function StatusClass(status: JsValue): (r: Option<string>)
    ensures !Truthy(status) ==> r == Some("available")
    ensures Truthy(status) && !status.Str? ==> r.None?
    ensures r.Some? ==> r.value in {"available", "reserved", "sold"}
  {
    if !Truthy(status) then Some("available")
    else if !status.Str? then None
    else
      var lower := ToLower(status.s);
      if Contains(lower, "disponible") then Some("available")
      else if Contains(lower, "reservado") then Some("reserved")
      else if Contains(lower, "vendido") then Some("sold")
      else Some("available")
  }

  /** A status string is 'sold' exactly when it mentions 'vendido' in any
      case and mentions neither 'disponible' nor 'reservado', and
      'reserved' exactly when it mentions 'reservado' but not 'disponible'. */
  lemma StatusPrecedence(s: string)
    requires s != ""
    ensures StatusClass(Str(s)) == Some("sold") <==>
      Contains(ToLower(s), "vendido") && !Contains(ToLower(s), "disponible") && !Contains(ToLower(s), "reservado")
    ensures StatusClass(Str(s)) == Some("reserved") <==>
      Contains(ToLower(s), "reservado") && !Contains(ToLower(s), "disponible")
    ensures StatusClass(Str(s)).Some?
  {
  }

  /** The filter record `currentFilters`; only the category and the search
      text are read by `applyFilters`. */
  datatype Filters = Filters(category: string, search: string, types: seq<string>, brands: seq<string>,
                             yearMin: Option<int>, yearMax: Option<int>, kmMin: Option<int>, kmMax: Option<int>)

  /** The record the page starts with and `clearAllFilters` restores. */
  const InitialFilters: Filters := Filters("all", "", [], [], None, None, None, None)

  /** `${vehicle.brand} ${vehicle.model} ${vehicle.full_name || vehicle.fullName}`, lower-cased. */
  function SearchText(v: JsValue): string {
    ToLower(ToStr(Get(v, "brand")) + " " + ToStr(Get(v, "model")) + " " + ToStr(Or(Get(v, "full_name"), Get(v, "fullName"))))
  }

  /** The callback of `applyFilters`: a category other than 'all' (when
      set) must equal the vehicle's type, and a non-empty search text must
      occur in its search text. */
  predicate Passes(v: JsValue, f: Filters) {
    (f.category == "" || f.category == "all" || Get(v, "type") == Str(f.category))
    && (f.search == "" || Contains(SearchText(v), f.search))
  }

  function PassesWith(f: Filters): JsValue -> bool {
    v => Passes(v, f)
  }

  /** Under the initial filters every vehicle passes. */
  lemma InitialFiltersPassAll(vs: seq<JsValue>)
    ensures Keep(vs, PassesWith(InitialFilters)) == vs
  {
    KeepAll(vs, PassesWith(InitialFilters));
  }

  /** `(x || 0)`, converted for the subtraction in the comparator. */
  function OrZero(v: JsValue): JsValue {
    ToNumber(Or(v, Num(0)))
  }

  /** `(a || 0) - (b || 0)`; a `NaN` difference counts as 0, as `sort` treats it. */
  function Diff(a: JsValue, b: JsValue): int {
    var x := OrZero(a);
    var y := OrZero(b);
    if x.Num? && y.Num? then x.n - y.n else 0
  }

  /** The comparator of `sortVehicles`. `time` is what
      `new Date(x).getTime()` gives for `x`, which this model takes as
      given; 'relevance' and any unknown key put featured vehicles first,
      then the most recently created. */
  function Compare(a: JsValue, b: JsValue, sort: string, time: JsValue -> int): int {
    if sort == "year-desc" then Diff(Get(b, "year"), Get(a, "year"))
    else if sort == "year-asc" then Diff(Get(a, "year"), Get(b, "year"))
    else if sort == "km-asc" then Diff(Get(a, "kilometers"), Get(b, "kilometers"))
    else if sort == "km-desc" then Diff(Get(b, "kilometers"), Get(a, "kilometers"))
    else if Truthy(Get(a, "is_featured")) && !Truthy(Get(b, "is_featured")) then -1
    else if !Truthy(Get(a, "is_featured")) && Truthy(Get(b, "is_featured")) then 1
    else time(Created(b)) - time(Created(a))
  }

  /** `v.created_at || v.date_added || 0` */
  function Created(v: JsValue): JsValue {
    Or(Or(Get(v, "created_at"), Get(v, "date_added")), Num(0))
  }

  /** The number a value contributes once missing values count as 0. */
  function Zeroed(v: JsValue): int {
    var x := OrZero(v);
    if x.Num? then x.n else 0
  }

  function RankOf(v: JsValue, sort: string, time: JsValue -> int): Rank {
    if sort == "year-desc" then Rank(-Zeroed(Get(v, "year")), 0)
    else if sort == "year-asc" then Rank(Zeroed(Get(v, "year")), 0)
    else if sort == "km-asc" then Rank(Zeroed(Get(v, "kilometers")), 0)
    else if sort == "km-desc" then Rank(-Zeroed(Get(v, "kilometers")), 0)
    else Rank(if Truthy(Get(v, "is_featured")) then 0 else 1, -time(Created(v)))
  }

  function RankBy(sort: string, time: JsValue -> int): JsValue -> Rank {
    v => RankOf(v, sort, time)
  }

  /** A vehicle whose year and kilometers, with missing ones as 0, are numbers. */
  predicate Numeric(v: JsValue) {
    OrZero(Get(v, "year")).Num? && OrZero(Get(v, "kilometers")).Num?
  }

  /** The comparator orders two vehicles exactly as their ranks do. */
  lemma CompareMatchesRank(a: JsValue, b: JsValue, sort: string, time: JsValue -> int)
    requires Numeric(a) && Numeric(b)
    ensures Compare(a, b, sort, time) < 0 <==> RankLess(RankOf(a, sort, time), RankOf(b, sort, time))
    ensures Compare(a, b, sort, time) > 0 <==> RankLess(RankOf(b, sort, time), RankOf(a, sort, time))
  {
    var ya, yb := Zeroed(Get(a, "year")), Zeroed(Get(b, "year"));
    var ka, kb := Zeroed(Get(a, "kilometers")), Zeroed(Get(b, "kilometers"));
    assert Diff(Get(a, "year"), Get(b, "year")) == ya - yb;
    assert Diff(Get(b, "year"), Get(a, "year")) == yb - ya;
    assert Diff(Get(a, "kilometers"), Get(b, "kilometers")) == ka - kb;
    assert Diff(Get(b, "kilometers"), Get(a, "kilometers")) == kb - ka;
    if sort == "year-desc" {
    } else if sort == "year-asc" {
    } else if sort == "km-asc" {
    } else if sort == "km-desc" {
    } else {
      assert RankOf(a, sort, time) == Rank(if Truthy(Get(a, "is_featured")) then 0 else 1, -time(Created(a)));
      assert RankOf(b, sort, time) == Rank(if Truthy(Get(b, "is_featured")) then 0 else 1, -time(Created(b)));
    }
  }

  /** A vehicle without a year sorts as year 0: after every vehicle of a
      positive year under 'year-desc'. */
  lemma MissingYearIsZero(v: JsValue, w: JsValue, time: JsValue -> int)
    requires v.Obj? && !Truthy(Get(v, "year"))
    requires Get(w, "year").Num? && Get(w, "year").n > 0
    ensures RankLess(RankOf(w, "year-desc", time), RankOf(v, "year-desc", time))
  {
  }

  /** After a 'relevance' sort no vehicle that is not featured precedes a
      featured one. */
  lemma FeaturedFirst(s: seq<JsValue>, time: JsValue -> int, i: int, j: int)
    requires 0 <= i < j < |s|
    ensures var r := Sort(s, RankBy("relevance", time));
      |r| == |s| && (Truthy(Get(r[j], "is_featured")) ==> Truthy(Get(r[i], "is_featured")))
  {
    SortPermutes(s, RankBy("relevance", time));
    SortSorted(s, RankBy("relevance", time));
  }

  /** The keys `updateCategoryCounters` counts: `vehicle.type` as an object
      key, for the vehicles whose type is truthy. */
  function TypeKeys(vs: seq<JsValue>): (r: seq<string>)
    ensures |r| <= |vs|
  {
    if vs == [] then []
    else
      var last := vs[|vs| - 1];
      TypeKeys(vs[..|vs| - 1]) + (if Truthy(Get(last, "type")) then [ToStr(Get(last, "type"))] else [])
  }

  /** A vehicle with a falsy type adds to no type bucket. */
  lemma UntypedUncounted(vs: seq<JsValue>, v: JsValue)
    requires !Truthy(Get(v, "type"))
    ensures TypeKeys(vs + [v]) == TypeKeys(vs)
  {
    assert (vs + [v])[..|vs|] == vs;
  }

  /** One key per vehicle whose type is truthy. */
  lemma {:induction false} TypeKeysCount(vs: seq<JsValue>)
    ensures |TypeKeys(vs)| == |Keep(vs, HasType)|
    decreases |vs|
  {
    if vs != [] {
      TypeKeysCount(vs[..|vs| - 1]);
    }
  }

  predicate HasTypeAt(v: JsValue) {
    Truthy(Get(v, "type"))
  }

  const HasType: JsValue -> bool := v => HasTypeAt(v)

  /** The globals. */
  class Page {
    var vehiclesData: seq<JsValue>
    var filteredVehicles: seq<JsValue>
    var currentFilters: Filters
    var currentPage: int

    ghost predicate Valid()
      reads this
    {
      currentPage >= 1
    }

    constructor ()
      ensures Valid() && vehiclesData == [] && filteredVehicles == [] && currentFilters == InitialFilters && currentPage == 1
    {
      vehiclesData := [];
      filteredVehicles := [];
      currentFilters := InitialFilters;
      currentPage := 1;
    }

    /** `loadVehicles` given the parsed body: a `vehicles` array replaces
      both lists; anything else leaves them as they were. */
    method LoadVehicles(data: JsValue) returns (loaded: bool)
      requires Valid()
      modifies this
      ensures Valid() && loaded == Get(data, "vehicles").Arr?
      ensures loaded ==> vehiclesData == Get(data, "vehicles").items && filteredVehicles == vehiclesData
      ensures !loaded ==> vehiclesData == old(vehiclesData) && filteredVehicles == old(filteredVehicles)
      ensures currentFilters == old(currentFilters) && currentPage == old(currentPage)
    {
      var list := Get(data, "vehicles");
      loaded := list.Arr?;
      if loaded {
        vehiclesData := list.items;
        filteredVehicles := vehiclesData;
      }
    }

    /** `applyFilters` */
    method ApplyFilters()
      requires Valid()
      modifies this
      ensures Valid() && filteredVehicles == Keep(vehiclesData, PassesWith(currentFilters)) && currentPage == 1
      ensures vehiclesData == old(vehiclesData) && currentFilters == old(currentFilters)
    {
      filteredVehicles := Keep(vehiclesData, PassesWith(currentFilters));
      currentPage := 1;
    }

    /** `filterByCategory(category)` */
    method FilterByCategory(category: string)
      requires Valid()
      modifies this
      ensures Valid() && currentFilters == old(currentFilters).(category := category) && currentPage == 1
      ensures filteredVehicles == Keep(vehiclesData, PassesWith(currentFilters)) && vehiclesData == old(vehiclesData)
    {
      currentFilters := currentFilters.(category := category);
      ApplyFilters();
    }

    /** The search input handler: the typed text, lower-cased but not trimmed. */
    method Search(typed: string)
      requires Valid()
      modifies this
      ensures Valid() && currentFilters == old(currentFilters).(search := ToLower(typed)) && currentPage == 1
      ensures filteredVehicles == Keep(vehiclesData, PassesWith(currentFilters)) && vehiclesData == old(vehiclesData)
    {
      currentFilters := currentFilters.(search := ToLower(typed));
      ApplyFilters();
    }

    /** `clearAllFilters`: the initial record again, and every vehicle shown. */
    method ClearAllFilters()
      requires Valid()
      modifies this
      ensures Valid() && currentFilters == InitialFilters && currentPage == 1
      ensures filteredVehicles == vehiclesData && vehiclesData == old(vehiclesData)
    {
      currentFilters := InitialFilters;
      ApplyFilters();
      InitialFiltersPassAll(vehiclesData);
    }

    /** `sortVehicles(sortType)`: `filteredVehicles` sorted in place; the
      page stays where it was. */
    method SortVehicles(sortType: string, time: JsValue -> int)
      requires Valid()
      modifies this
      ensures Valid() && filteredVehicles == Sort(old(filteredVehicles), RankBy(sortType, time))
      ensures multiset(filteredVehicles) == multiset(old(filteredVehicles))
      ensures vehiclesData == old(vehiclesData) && currentFilters == old(currentFilters) && currentPage == old(currentPage)
    {
      SortPermutes(filteredVehicles, RankBy(sortType, time));
      filteredVehicles := Sort(filteredVehicles, RankBy(sortType, time));
    }

    /** The cards `renderVehicles` draws: the first `currentPage * 24`. */
    function Visible(): (r: seq<JsValue>)
      reads this
      requires Valid()
      ensures |r| == if currentPage * PerPage < |filteredVehicles| then currentPage * PerPage else |filteredVehicles|
      ensures r == filteredVehicles[..|r|]
    {
      Take(filteredVehicles, currentPage * PerPage)
    }

    /** `updateCategoryCounters`: 'all' starts at the number of vehicles and
      each truthy type adds one to its own key. */
    method UpdateCategoryCounters() returns (counts: map<string, int>)
      ensures forall k :: k in counts <==> k == "all" || k in TypeKeys(vehiclesData)
      ensures counts["all"] == |vehiclesData| + Tally.Occurrences(TypeKeys(vehiclesData), "all")
      ensures forall k :: k in counts && k != "all" ==> counts[k] == Tally.Occurrences(TypeKeys(vehiclesData), k)
    {
      counts := Tally.CountInto(map["all" := |vehiclesData|], TypeKeys(vehiclesData));
    }
  }
}
