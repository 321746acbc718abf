/** The single-file front end `scripts/larrosa-unified.js`: its API client's
    image URLs, the catalogue page (`UnidadesDisponibles`: normalised
    vehicles, filters, sort orders and category counters) and the detail
    page's image gallery (`DetalleVehiculo` and the `nextImage` /
    `previousImage` globals). */
module LarrosaUnified {
  import opened Wrappers
  import opened JsText
  import opened JsValues
  import opened StableSort
  import opened Listing
  import Tally

  /** `LARROSA_CONFIG.STATIC_URL` */
  const StaticUrl: string := "http://localhost:8000"
  /** `LARROSA_CONFIG.PLACEHOLDER_IMAGE` */
  const Placeholder: string := "../assets/imagenes/placeholder-vehicle.jpg"

  /** `LarrosaAPIClient.getImageUrl(imageData)`: the placeholder for a falsy
      value; a string starting "http" as it is, one starting "static/" or
      "/static/" under the static origin, any other string as it is; an
      object through its first truthy `file_path`, `filename`, `url` or
      `path`; anything else the placeholder. */
  function ImageUrl(imageData: JsValue): (r: string)
    ensures !Truthy(imageData) ==> r == Placeholder
    ensures imageData.Str? && StartsWith(imageData.s, "http") ==> r == imageData.s
    ensures Truthy(imageData) && imageData.Str? && !IsStaticPath(imageData.s) ==> r == imageData.s
    ensures imageData.Str? && !StartsWith(imageData.s, "http") && IsStaticPath(imageData.s) ==>
      r == StaticUrl + "/" + DropLeadingSlash(imageData.s)
    ensures Truthy(imageData) && !imageData.Str? && !imageData.Obj? ==> r == Placeholder
    decreases imageData
  {
    if !Truthy(imageData) then Placeholder
    else match imageData
      case Str(s) =>
        if StartsWith(s, "http") then s
        else if IsStaticPath(s) then StaticUrl + "/" + DropLeadingSlash(s)
        else s
      case Obj(fields) =>
        var path := ObjectImagePath(imageData);
        if Truthy(path) then ImageUrl(path) else Placeholder
      case _ => Placeholder
  }

  /** The test for a path under the static mount. */
  predicate IsStaticPath(s: string) {
    StartsWith(s, "static/") || StartsWith(s, "/static/")
  }

  /** `imageData.file_path || imageData.filename || imageData.url || imageData.path`:
      a value held by one of the object's fields, so smaller than it. */
  function ObjectImagePath(o: JsValue): (r: JsValue)
    requires o.Obj?
    ensures r == Undefined || r < o
  {
    FirstOfSmaller(o, ["file_path", "filename", "url", "path"]);
    FirstOf(o, ["file_path", "filename", "url", "path"])
  }

  /** Every URL the client hands out maps to itself when fed back: the
      placeholder and every "http" URL are returned unchanged. */
  lemma {:induction false} ImageUrlIdempotent(imageData: JsValue)
    ensures ImageUrl(Str(ImageUrl(imageData))) == ImageUrl(imageData)
    decreases imageData
  {
    if !Truthy(imageData) || (!imageData.Str? && !imageData.Obj?) {
      PlaceholderIsFixed();
    } else if imageData.Obj? {
      var path := ObjectImagePath(imageData);
      if Truthy(path) {
        ImageUrlIdempotent(path);
      } else {
        PlaceholderIsFixed();
      }
    } else if !StartsWith(imageData.s, "http") && IsStaticPath(imageData.s) {
      var r := ImageUrl(imageData);
      assert r[..4] == StaticUrl[..4] == "http";
    }
  }

  lemma PlaceholderIsFixed()
    ensures ImageUrl(Str(Placeholder)) == Placeholder
  {
    assert Placeholder[0] == '.' && "http"[0] == 'h' && "static/"[0] == 's' && "/static/"[0] == '/';
  }

  /** An image row sent by the backend resolves through its `file_path`. */
  lemma ImageRowUrl(path: string, rest: seq<(string, JsValue)>)
    requires path != ""
    ensures ImageUrl(Obj([("file_path", Str(path))] + rest)) == ImageUrl(Str(path))
  {
    var o := Obj([("file_path", Str(path))] + rest);
    assert Get(o, "file_path") == Str(path);
  }

  /** The client-side vehicle record `normalizeVehicle` builds. */
  datatype Vehicle = Vehicle(
    id: JsValue, brand: JsValue, model: JsValue, fullName: JsValue,
    year: JsValue, kilometers: JsValue, power: JsValue,
    vtype: JsValue, typeName: JsValue, status: JsValue, location: JsValue,
    transmission: JsValue, traccion: JsValue, description: JsValue,
    color: JsValue, price: JsValue, images: seq<JsValue>, isFeatured: JsValue)

  /** `getTypeName(type)`: the label of a known type slug (the slug is the
      property name, so the value is first converted to a string), 'Varios'
      for any other. */
  function TypeName(t: JsValue): (r: string)
    ensures r != ""
  {
    var key := ToStr(t);
    if key == "camion-tractor" then "Camión Tractor"
    else if key == "camion-chasis" then "Camión Chasis"
    else if key == "remolques" then "Remolques"
    else if key == "utilitarios" then "Utilitarios"
    else "Varios"
  }

  /** The label is one of the five the table holds, and it is 'Varios'
      exactly when the slug is not one of the four known ones. */
  lemma TypeNameIsLabel(t: JsValue)
    ensures TypeName(t) in ["Camión Tractor", "Camión Chasis", "Remolques", "Utilitarios", "Varios"]
    ensures TypeName(t) == "Varios" <==> ToStr(t) !in ["camion-tractor", "camion-chasis", "remolques", "utilitarios"]
  {
  }

  /** `v.images` as an array: an array is kept, a single truthy value is
      wrapped, anything else gives none. */
  function ImageList(images: JsValue): (r: seq<JsValue>)
    ensures images.Arr? ==> r == images.items
    ensures !images.Arr? ==> (r == [] <==> !Truthy(images))
    ensures !images.Arr? && Truthy(images) ==> r == [images]
  {
    if images.Arr? then images.items else if Truthy(images) then [images] else []
  }

  /** `v.key || fallback` */
  function Pick(v: JsValue, key: string, fallback: JsValue): (r: JsValue)
    ensures Truthy(Get(v, key)) ==> r == Get(v, key)
    ensures !Truthy(Get(v, key)) ==> r == fallback
    ensures Truthy(fallback) ==> Truthy(r)
  {
    Or(Get(v, key), fallback)
  }

  /** `v.first || v.second || fallback` */
  function Pick2(v: JsValue, first: string, second: string, fallback: JsValue): (r: JsValue)
    ensures Truthy(Get(v, first)) ==> r == Get(v, first)
    ensures !Truthy(Get(v, first)) ==> r == Pick(v, second, fallback)
    ensures Truthy(fallback) ==> Truthy(r)
  {
    Or(Get(v, first), Pick(v, second, fallback))
  }

  /** The labels a record without brand or model gets. */
  const UnknownBrand: string := "Marca desconocida"
  const UnknownModel: string := "Modelo desconocido"

  /** `${v.brand || ''} ${v.model || ''}`.trim() */
  function ComposedName(v: JsValue): string {
    Trim(ToStr(Pick(v, "brand", Str(""))) + " " + ToStr(Pick(v, "model", Str(""))))
  }

  /** `normalizeVehicle(v)`, with the current year as a parameter: each
      field is the first truthy of its source fields, or its default. */
  function NormalizeVehicle(v: JsValue, currentYear: int): (r: Vehicle)
    ensures r.images == ImageList(Get(v, "images"))
    ensures Truthy(r.isFeatured) <==> Truthy(Get(v, "is_featured"))
    ensures !Truthy(Get(v, "type")) && !Truthy(Get(v, "vehicle_type")) ==> r.vtype == Str("varios")
  {
    Vehicle(
      Get(v, "id"),
      Pick(v, "brand", Str(UnknownBrand)),
      Pick(v, "model", Str(UnknownModel)),
      Pick2(v, "full_name", "fullName", Str(ComposedName(v))),
      Pick(v, "year", Num(currentYear)),
      Pick2(v, "kilometers", "km", Num(0)),
      Pick2(v, "power", "hp", Num(0)),
      Pick2(v, "type", "vehicle_type", Str("varios")),
      Pick2(v, "type_name", "typeName", Str(TypeName(Pick(v, "type", Str("varios"))))),
      Pick(v, "status", Str("Disponible")),
      Pick(v, "location", Str("Villa María, Córdoba")),
      Pick(v, "transmission", Str("Manual")),
      Pick2(v, "traccion", "traction", Str("4x2")),
      Pick(v, "description", Str("Vehículo comercial")),
      Pick(v, "color", Str("No especificado")),
      Pick(v, "price", Null),
      ImageList(Get(v, "images")),
      Pick(v, "is_featured", Bool(false)))
  }

  /** The shape `normalizeVehicle` leaves a record in: every labelled
      field filled in, and each optional one either truthy or its default. */
  predicate WellFormed(r: Vehicle, currentYear: int) {
    Truthy(r.brand) && Truthy(r.model) && Truthy(r.vtype) && Truthy(r.typeName)
    && Truthy(r.status) && Truthy(r.location) && Truthy(r.transmission)
    && Truthy(r.traccion) && Truthy(r.description) && Truthy(r.color)
    && (Truthy(r.year) || r.year == Num(currentYear))
    && (Truthy(r.kilometers) || r.kilometers == Num(0))
    && (Truthy(r.power) || r.power == Num(0))
    && (Truthy(r.price) || r.price == Null)
    && (Truthy(r.isFeatured) || r.isFeatured == Bool(false))
  }

  /** Every record `normalizeVehicle` returns has that shape. */
  lemma NormalizedIsWellFormed(v: JsValue, currentYear: int)
    ensures WellFormed(NormalizeVehicle(v, currentYear), currentYear)
  {
    var r := NormalizeVehicle(v, currentYear);
    assert Truthy(r.brand) && Truthy(r.model) by {
      assert r.brand == Pick(v, "brand", Str(UnknownBrand));
      assert r.model == Pick(v, "model", Str(UnknownModel));
    }
    assert Truthy(r.vtype) && Truthy(r.typeName) by {
      assert r.vtype == Pick2(v, "type", "vehicle_type", Str("varios"));
      assert r.typeName == Pick2(v, "type_name", "typeName", Str(TypeName(Pick(v, "type", Str("varios")))));
    }
    assert Truthy(r.status) && Truthy(r.location) && Truthy(r.transmission) by {
      assert r.status == Pick(v, "status", Str("Disponible"));
      assert r.location == Pick(v, "location", Str("Villa María, Córdoba"));
      assert r.transmission == Pick(v, "transmission", Str("Manual"));
    }
    assert Truthy(r.traccion) && Truthy(r.description) && Truthy(r.color) by {
      assert r.traccion == Pick2(v, "traccion", "traction", Str("4x2"));
      assert r.description == Pick(v, "description", Str("Vehículo comercial"));
      assert r.color == Pick(v, "color", Str("No especificado"));
    }
  }

  /** The normalised record as the plain object the page keeps. */
  function ToObject(r: Vehicle): JsValue {
    Obj([("id", r.id), ("brand", r.brand), ("model", r.model), ("full_name", r.fullName),
         ("year", r.year), ("kilometers", r.kilometers), ("power", r.power),
         ("type", r.vtype), ("type_name", r.typeName), ("status", r.status),
         ("location", r.location), ("transmission", r.transmission),
         ("traccion", r.traccion), ("description", r.description), ("color", r.color),
         ("price", r.price), ("images", Arr(r.images)), ("is_featured", r.isFeatured)])
  }

  /** The field names of `ToObject`, in order. */
  const ObjectKeys: seq<string> := ["id", "brand", "model", "full_name", "year", "kilometers", "power",
    "type", "type_name", "status", "location", "transmission", "traccion", "description", "color",
    "price", "images", "is_featured"]

  /** Reading field `key` of the object gives the value stored at its
      position. */
  lemma ObjectField(r: Vehicle, i: int)
    requires 0 <= i < |ObjectKeys|
    ensures Get(ToObject(r), ObjectKeys[i]) == ToObject(r).fields[i].1
  {
    var f := ToObject(r).fields;
    assert forall j :: 0 <= j < |f| ==> f[j].0 == ObjectKeys[j];
    forall j | 0 <= j < i ensures ObjectKeys[j] != ObjectKeys[i] {
      ObjectKeysDistinct(j, i);
    }
    LookupAt(f, ObjectKeys[i], i);
  }

  /** No two keys of the object agree in length, first and last letter. */
  lemma ObjectKeysDistinct(j: int, i: int)
    requires 0 <= j < i < |ObjectKeys|
    ensures ObjectKeys[j] != ObjectKeys[i]
  {
    var a, b := ObjectKeys[j], ObjectKeys[i];
    assert |a| != |b| || a[0] != b[0] || a[|a| - 1] != b[|b| - 1];
  }

  /** The object has none of the alternative names the second pass looks
      at for the full name, the kilometers and the power. */
  lemma ObjectLacksAliases(r: Vehicle, key: string)
    requires key == "fullName" || key == "km" || key == "hp"
    ensures Get(ToObject(r), key) == Undefined
  {
    var f := ToObject(r).fields;
    assert forall j :: 0 <= j < |f| ==> f[j].0 == ObjectKeys[j];
    forall j | 0 <= j < |ObjectKeys| ensures ObjectKeys[j] != key {
      assert |ObjectKeys[j]| != |key| || ObjectKeys[j][0] != key[0];
    }
    LookupFound(f, key);
  }

  /** Normalising a normalised record changes nothing, as long as its full
      name came out non-empty. */
  lemma NormalizeIdempotent(v: JsValue, currentYear: int)
    requires Truthy(NormalizeVehicle(v, currentYear).fullName)
    ensures var r := NormalizeVehicle(v, currentYear);
      NormalizeVehicle(ToObject(r), currentYear) == r
  {
    NormalizedIsWellFormed(v, currentYear);
    RenormalizeWellFormed(NormalizeVehicle(v, currentYear), currentYear);
  }

  /** A well-formed record with a full name survives a second pass. */
  lemma RenormalizeWellFormed(r: Vehicle, currentYear: int)
    requires WellFormed(r, currentYear) && Truthy(r.fullName)
    ensures NormalizeVehicle(ToObject(r), currentYear) == r
  {
    ObjectReadsBack(r);
    NormalizeFromFields(ToObject(r), r, currentYear);
  }

  /** Each field of the object reads back as the record's field, and the
      alternative names read as `undefined`. */
  lemma ObjectReadsBack(r: Vehicle)
    ensures var o := ToObject(r);
      Get(o, "id") == r.id && Get(o, "brand") == r.brand && Get(o, "model") == r.model
      && Get(o, "full_name") == r.fullName && Get(o, "fullName") == Undefined
      && Get(o, "year") == r.year && Get(o, "kilometers") == r.kilometers && Get(o, "km") == Undefined
      && Get(o, "power") == r.power && Get(o, "hp") == Undefined
      && Get(o, "type") == r.vtype && Get(o, "type_name") == r.typeName
      && Get(o, "status") == r.status && Get(o, "location") == r.location
      && Get(o, "transmission") == r.transmission && Get(o, "traccion") == r.traccion
      && Get(o, "description") == r.description && Get(o, "color") == r.color
      && Get(o, "price") == r.price && Get(o, "images") == Arr(r.images)
      && Get(o, "is_featured") == r.isFeatured
  {
    ObjectField(r, 0);
    ObjectField(r, 1);
    ObjectField(r, 2);
    ObjectField(r, 3);
    ObjectField(r, 4);
    ObjectField(r, 5);
    ObjectField(r, 6);
    ObjectField(r, 7);
    ObjectField(r, 8);
    ObjectField(r, 9);
    ObjectField(r, 10);
    ObjectField(r, 11);
    ObjectField(r, 12);
    ObjectField(r, 13);
    ObjectField(r, 14);
    ObjectField(r, 15);
    ObjectField(r, 16);
    ObjectField(r, 17);
    ObjectLacksAliases(r, "fullName");
    ObjectLacksAliases(r, "km");
    ObjectLacksAliases(r, "hp");
  }

  /** `normalizeVehicle` only reads the named fields: an object whose
      fields read as a well-formed record's (and lacks the alternative
      names) normalises to that record. */
  lemma NormalizeFromFields(o: JsValue, r: Vehicle, currentYear: int)
    requires WellFormed(r, currentYear) && Truthy(r.fullName)
    requires Get(o, "id") == r.id && Get(o, "brand") == r.brand && Get(o, "model") == r.model
    requires Get(o, "full_name") == r.fullName && Get(o, "year") == r.year
    requires Get(o, "kilometers") == r.kilometers && Get(o, "km") == Undefined
    requires Get(o, "power") == r.power && Get(o, "hp") == Undefined
    requires Get(o, "type") == r.vtype && Get(o, "type_name") == r.typeName
    requires Get(o, "status") == r.status && Get(o, "location") == r.location
    requires Get(o, "transmission") == r.transmission && Get(o, "traccion") == r.traccion
    requires Get(o, "description") == r.description && Get(o, "color") == r.color
    requires Get(o, "price") == r.price && Get(o, "images") == Arr(r.images)
    requires Get(o, "is_featured") == r.isFeatured
    ensures NormalizeVehicle(o, currentYear) == r
  {
  }

  /** A row with neither brand nor model gets an empty full name, which a
      second pass replaces by the two default labels: normalising is not
      idempotent on such rows. */
  lemma NormalizeNotIdempotentWithoutNames(currentYear: int)
    ensures NormalizeVehicle(Obj([]), currentYear).fullName == Str("")
    ensures NormalizeVehicle(ToObject(NormalizeVehicle(Obj([]), currentYear)), currentYear).fullName
      == Str(UnknownBrand + " " + UnknownModel)
  {
    var r := NormalizeVehicle(Obj([]), currentYear);
    EmptyRowNames(currentYear);
    ObjectReadsBack(r);
    DefaultNamesComposed(ToObject(r), currentYear);
  }

  /** An empty row gets the default brand and model and an empty full name. */
  lemma EmptyRowNames(currentYear: int)
    ensures var r := NormalizeVehicle(Obj([]), currentYear);
      r.brand == Str(UnknownBrand) && r.model == Str(UnknownModel) && r.fullName == Str("")
  {
    var o := Obj([]);
    assert Get(o, "brand") == Undefined && Get(o, "model") == Undefined;
    assert Get(o, "full_name") == Undefined && Get(o, "fullName") == Undefined;
    assert Trim(" ") == "";
    assert ComposedName(o) == "";
  }

  /** With an empty full name and the default brand and model, the second
      pass composes the two default labels. */
  lemma DefaultNamesComposed(o: JsValue, currentYear: int)
    requires Get(o, "full_name") == Str("") && Get(o, "fullName") == Undefined
    requires Get(o, "brand") == Str(UnknownBrand) && Get(o, "model") == Str(UnknownModel)
    ensures NormalizeVehicle(o, currentYear).fullName == Str(UnknownBrand + " " + UnknownModel)
  {
    DefaultLabelsComposed(o);
    assert NormalizeVehicle(o, currentYear).fullName == Pick2(o, "full_name", "fullName", Str(ComposedName(o)));
  }

  /** The default brand and model compose, with one space, into a name
      trimming leaves alone. */
  lemma DefaultLabelsComposed(o: JsValue)
    requires Get(o, "brand") == Str(UnknownBrand) && Get(o, "model") == Str(UnknownModel)
    ensures ComposedName(o) == UnknownBrand + " " + UnknownModel
  {
    var name := UnknownBrand + " " + UnknownModel;
    assert ToStr(Pick(o, "brand", Str(""))) == UnknownBrand;
    assert ToStr(Pick(o, "model", Str(""))) == UnknownModel;
    assert name[0] == 'M' && name[|name| - 1] == 'o';
    TrimKeeps(name);
  }

  /** `this.filters` */
  datatype Filters = Filters(
    category: string, search: string,
    yearMin: Option<int>, yearMax: Option<int>, kmMin: Option<int>, kmMax: Option<int>,
    brands: seq<string>)

  /** The filters the constructor sets. */
  const InitialFilters: Filters := Filters("all", "", None, None, None, None, [])

  /** A numeric bound that is set and truthy (0 counts as unset). */
  predicate Active(bound: Option<int>) {
    bound.Some? && bound.value != 0
  }

  /** The text the search box is matched against. */
  function SearchText(v: Vehicle): string {
    ToStr(v.brand) + " " + ToStr(v.model) + " " + ToStr(v.fullName) + " " + ToStr(v.description)
  }

  /** The brand checkboxes: some checked value and the lower-cased brand
      contain one another. */
  predicate BrandMatches(v: Vehicle, brands: seq<string>) {
    var vehicleBrand := ToLower(ToStr(v.brand));
    exists k :: 0 <= k < |brands| && (Contains(vehicleBrand, brands[k]) || Contains(brands[k], vehicleBrand))
  }

  /** The callback of `applyFilters`. */
  predicate Passes(v: Vehicle, f: Filters) {
    (f.category == "" || f.category == "all" || v.vtype == Str(f.category))
    && (f.search == "" || Contains(ToLower(SearchText(v)), ToLower(f.search)))
    && !(Active(f.yearMin) && Less(v.year, Num(f.yearMin.value)))
    && !(Active(f.yearMax) && Less(Num(f.yearMax.value), v.year))
    && !(Active(f.kmMin) && Less(v.kilometers, Num(f.kmMin.value)))
    && !(Active(f.kmMax) && Less(Num(f.kmMax.value), v.kilometers))
    && (f.brands == [] || BrandMatches(v, f.brands))
  }

  /** With the initial filters every vehicle passes. */
  lemma InitialFiltersPassAll(v: Vehicle)
    ensures Passes(v, InitialFilters)
  {
  }

  /** A vehicle passes the bounds exactly when each truthy bound holds
      inclusively, for vehicles whose year and kilometers are numbers. */
  lemma BoundsInclusive(v: Vehicle, f: Filters)
    requires v.year.Num? && v.kilometers.Num?
    ensures (!(Active(f.yearMin) && Less(v.year, Num(f.yearMin.value)))
             && !(Active(f.yearMax) && Less(Num(f.yearMax.value), v.year)))
      <==> ((Active(f.yearMin) ==> f.yearMin.value <= v.year.n) && (Active(f.yearMax) ==> v.year.n <= f.yearMax.value))
  {
  }

  /** `a.year - b.year` and the like inside the comparator: a `NaN`
      difference counts as 0, as `sort` treats it. */
  function Diff(a: JsValue, b: JsValue): int {
    var x := ToNumber(a);
    var y := ToNumber(b);
    if x.Num? && y.Num? then x.n - y.n else 0
  }

  /** The comparator of `applySort` for the sort key `sort`. */
  function Compare(a: Vehicle, b: Vehicle, sort: string): int {
    if sort == "year-desc" then Diff(b.year, a.year)
    else if sort == "year-asc" then Diff(a.year, b.year)
    else if sort == "km-asc" then Diff(a.kilometers, b.kilometers)
    else if sort == "km-desc" then Diff(b.kilometers, a.kilometers)
    else if Truthy(a.isFeatured) && !Truthy(b.isFeatured) then -1
    else if !Truthy(a.isFeatured) && Truthy(b.isFeatured) then 1
    else Diff(b.year, a.year)
  }

  /** The position a vehicle sorts by under each key: 'relevance' (and
      any unknown key) puts featured vehicles first, then newer years. */
  function RankOf(v: Vehicle, sort: string): Rank {
    if sort == "year-desc" then Rank(-NumberOr0(v.year), 0)
    else if sort == "year-asc" then Rank(NumberOr0(v.year), 0)
    else if sort == "km-asc" then Rank(NumberOr0(v.kilometers), 0)
    else if sort == "km-desc" then Rank(-NumberOr0(v.kilometers), 0)
    else Rank(if Truthy(v.isFeatured) then 0 else 1, -NumberOr0(v.year))
  }

  /** A vehicle whose year and kilometers convert to numbers. */
  predicate Numeric(v: Vehicle) {
    ToNumber(v.year).Num? && ToNumber(v.kilometers).Num?
  }

  /** The comparator says "before" exactly when the rank is smaller, and
      "after" exactly when it is larger, so `sort` with it is the stable
      sort by rank. */
  lemma CompareMatchesRank(a: Vehicle, b: Vehicle, sort: string)
    requires Numeric(a) && Numeric(b)
    ensures Compare(a, b, sort) < 0 <==> RankLess(RankOf(a, sort), RankOf(b, sort))
    ensures Compare(a, b, sort) > 0 <==> RankLess(RankOf(b, sort), RankOf(a, sort))
  {
  }

  /** The callback of `applyFilters` for the filters `f`. */
  function PassesWith(f: Filters): Vehicle -> bool {
    v => Passes(v, f)
  }

  /** The rank function of a sort key, as `Sort` takes it. */
  function RankBy(sort: string): Vehicle -> Rank {
    v => RankOf(v, sort)
  }

  /** After a 'relevance' sort no non-featured vehicle precedes a featured
      one, and after 'km-asc' the kilometers never decrease. */
  lemma SortOrders(s: seq<Vehicle>, i: int, j: int)
    requires 0 <= i < j < |s|
    ensures var r := Sort(s, RankBy("relevance"));
      |r| == |s| && (Truthy(r[j].isFeatured) ==> Truthy(r[i].isFeatured))
    ensures var r := Sort(s, RankBy("km-asc"));
      |r| == |s| && NumberOr0(r[i].kilometers) <= NumberOr0(r[j].kilometers)
  {
    SortPermutes(s, RankBy("relevance"));
    SortSorted(s, RankBy("relevance"));
    SortPermutes(s, RankBy("km-asc"));
    SortSorted(s, RankBy("km-asc"));
  }

  /** `parseInt(text) || fallback` */
  function ParsedOr(text: string, fallback: int): (r: int)
    ensures ParseIntText(text).Num? && ParseIntText(text).n != 0 ==> r == ParseIntText(text).n
    ensures !(ParseIntText(text).Num? && ParseIntText(text).n != 0) ==> r == fallback
  {
    var p := ParseIntText(text);
    if p.Num? && p.n != 0 then p.n else fallback
  }

  /** `data.vehicles || data || []` mapped through `normalizeVehicle`:
      reading `vehicles` of `null` or `undefined` throws, a value that is
      not an array has no `map`, and `normalizeVehicle` throws on the first
      `null` or `undefined` row when it reads its `full_name`; in each case
      loading fails. */
  function LoadedVehicles(data: JsValue, currentYear: int): (r: Result<seq<Vehicle>, string>)
    ensures data.Null? || data.Undefined? ==> r == Err(Unreadable(data, "vehicles"))
    ensures r.Ok? <==> !data.Null? && !data.Undefined? && Or(Get(data, "vehicles"), Or(data, Arr([]))).Arr?
                       && NoNullish(Or(Get(data, "vehicles"), Or(data, Arr([]))).items)
    ensures !data.Null? && !data.Undefined? && Or(Get(data, "vehicles"), Or(data, Arr([]))).Arr?
            && !NoNullish(Or(Get(data, "vehicles"), Or(data, Arr([]))).items) ==>
      var items := Or(Get(data, "vehicles"), Or(data, Arr([]))).items;
      r == Err(Unreadable(items[FirstNullish(items)], "full_name"))
    ensures r.Ok? ==> (|r.value| == |Or(Get(data, "vehicles"), Or(data, Arr([]))).items|
                       && forall k :: 0 <= k < |r.value| ==>
                         r.value[k] == NormalizeVehicle(Or(Get(data, "vehicles"), Or(data, Arr([]))).items[k], currentYear))
  {
    var list := Or(Get(data, "vehicles"), Or(data, Arr([])));
    if data.Null? || data.Undefined? then Err(Unreadable(data, "vehicles"))
    else if !list.Arr? then Err("map is not a function")
    else if !NoNullish(list.items) then Err(Unreadable(list.items[FirstNullish(list.items)], "full_name"))
    else Ok(seq(|list.items|, k requires 0 <= k < |list.items| => NormalizeVehicle(list.items[k], currentYear)))
  }

  /** The property name each vehicle is counted under. */
  function TypeKeys(vs: seq<Vehicle>): (r: seq<string>)
    ensures |r| == |vs| && forall k :: 0 <= k < |vs| ==> r[k] == ToStr(vs[k].vtype)
  {
    seq(|vs|, k requires 0 <= k < |vs| => ToStr(vs[k].vtype))
  }

  /** `(${counts[category] || 0})`: the number shown for a category. */
  function Shown(counts: map<string, int>, category: string): (n: int)
    ensures category in counts && counts[category] != 0 ==> n == counts[category]
    ensures category !in counts || counts[category] == 0 ==> n == 0
  {
    if category in counts && counts[category] != 0 then counts[category] else 0
  }

  /** The `UnidadesDisponibles` object's state. */
  class Catalogue {
    var vehicles: seq<Vehicle>
    var filtered: seq<Vehicle>
    var filters: Filters
    var currentSort: string

    constructor ()
      ensures vehicles == [] && filtered == [] && filters == InitialFilters && currentSort == "relevance"
    {
      vehicles := [];
      filtered := [];
      filters := InitialFilters;
      currentSort := "relevance";
    }

    /** What `applyFilters` leaves in `filtered`: the vehicles that pass,
      in the order of the current sort. */
    function Expected(): seq<Vehicle>
      reads this
    {
      Sort(Keep(vehicles, PassesWith(filters)), RankBy(currentSort))
    }

    /** `loadVehicles` with the response `data`: on success every row is
      normalised and shown unfiltered and unsorted; on failure nothing
      changes. */
    method LoadVehicles(data: JsValue, currentYear: int) returns (ok: bool)
      modifies this
      ensures ok <==> LoadedVehicles(data, currentYear).Ok?
      ensures ok ==> vehicles == LoadedVehicles(data, currentYear).value && filtered == vehicles
      ensures !ok ==> vehicles == old(vehicles) && filtered == old(filtered)
      ensures filters == old(filters) && currentSort == old(currentSort)
    {
      var loaded := LoadedVehicles(data, currentYear);
      if loaded.Err? {
        return false;
      }
      vehicles := loaded.value;
      filtered := vehicles;
      return true;
    }

    /** `applyFilters`: the passing vehicles, then `applySort`. */
    method ApplyFilters()
      modifies this
      ensures filtered == Expected()
      ensures vehicles == old(vehicles) && filters == old(filters) && currentSort == old(currentSort)
    {
      filtered := Keep(vehicles, PassesWith(filters));
      ApplySort();
    }

    /** `applySort`: `filtered.sort(...)` in place, by the current key. */
    method ApplySort()
      modifies this
      ensures filtered == Sort(old(filtered), RankBy(currentSort))
      ensures vehicles == old(vehicles) && filters == old(filters) && currentSort == old(currentSort)
    {
      filtered := Sort(filtered, RankBy(currentSort));
    }

    /** A click on a sort option. */
    method ChooseSort(sort: string)
      modifies this
      ensures currentSort == sort && filtered == Sort(old(filtered), RankBy(sort))
      ensures vehicles == old(vehicles) && filters == old(filters)
    {
      currentSort := sort;
      ApplySort();
    }

    /** `filterByCategory(category)` */
    method FilterByCategory(category: string)
      modifies this
      ensures filters == old(filters).(category := category) && filtered == Expected()
      ensures vehicles == old(vehicles) && currentSort == old(currentSort)
    {
      filters := filters.(category := category);
      ApplyFilters();
    }

    /** The year inputs' handler: unparsable or zero input falls back to
      2000 and the current year. */
    method UpdateYearFilter(minText: string, maxText: string, currentYear: int)
      modifies this
      ensures filters == old(filters).(yearMin := Some(ParsedOr(minText, 2000)),
                                       yearMax := Some(ParsedOr(maxText, currentYear)))
      ensures filtered == Expected()
      ensures vehicles == old(vehicles) && currentSort == old(currentSort)
    {
      filters := filters.(yearMin := Some(ParsedOr(minText, 2000)), yearMax := Some(ParsedOr(maxText, currentYear)));
      ApplyFilters();
    }

    /** The kilometer inputs' handler: fallbacks 0 and 1000000. */
    method UpdateKmFilter(minText: string, maxText: string)
      modifies this
      ensures filters == old(filters).(kmMin := Some(ParsedOr(minText, 0)),
                                       kmMax := Some(ParsedOr(maxText, 1000000)))
      ensures filtered == Expected()
      ensures vehicles == old(vehicles) && currentSort == old(currentSort)
    {
      filters := filters.(kmMin := Some(ParsedOr(minText, 0)), kmMax := Some(ParsedOr(maxText, 1000000)));
      ApplyFilters();
    }

    /** A brand checkbox changed: the checked values become the brand list. */
    method UpdateBrands(checked: seq<string>)
      modifies this
      ensures filters == old(filters).(brands := checked) && filtered == Expected()
      ensures vehicles == old(vehicles) && currentSort == old(currentSort)
    {
      filters := filters.(brands := checked);
      ApplyFilters();
    }

    /** `checkURLFilters` with the `category` and `filter` query
      parameters: a truthy category other than 'all' is applied. */
    method CheckURLFilters(categoryParam: Option<string>, filterParam: Option<string>)
      modifies this
      ensures var c := if categoryParam.Some? && categoryParam.value != "" then categoryParam else filterParam;
        if c.Some? && c.value != "" && c.value != "all"
        then filters == old(filters).(category := c.value) && filtered == Expected()
        else filters == old(filters) && filtered == old(filtered)
      ensures vehicles == old(vehicles) && currentSort == old(currentSort)
    {
      var category := if categoryParam.Some? && categoryParam.value != "" then categoryParam else filterParam;
      if category.Some? && category.value != "" && category.value != "all" {
        FilterByCategory(category.value);
      }
    }

    /** `updateCategoryCounters`: 'all' starts at the number of vehicles,
      then each vehicle adds one under its type. */
    method UpdateCategoryCounters() returns (counts: map<string, int>)
      ensures forall k :: k in counts <==> k == "all" || k in TypeKeys(vehicles)
      ensures counts["all"] == |vehicles| + Tally.Occurrences(TypeKeys(vehicles), "all")
      ensures forall k :: k in counts && k != "all" ==> counts[k] == Tally.Occurrences(TypeKeys(vehicles), k)
    {
      counts := Tally.CountInto(map["all" := |vehicles|], TypeKeys(vehicles));
    }
  }

  /** A filtered list holds exactly the vehicles that pass, each as often
      as in the full list at most. */
  lemma ExpectedIsFiltered(vehicles: seq<Vehicle>, f: Filters, sort: string, v: Vehicle)
    ensures var r := Sort(Keep(vehicles, PassesWith(f)), RankBy(sort));
      (v in r <==> v in vehicles && Passes(v, f)) && multiset(r) <= multiset(vehicles)
  {
    var kept := Keep(vehicles, PassesWith(f));
    SortPermutes(kept, RankBy(sort));
    KeepMembership(vehicles, PassesWith(f), v);
    assert v in Sort(kept, RankBy(sort)) <==> v in multiset(Sort(kept, RankBy(sort)));
  }

  /** When no vehicle's type is 'all', the 'all' counter is the number of
      vehicles and the type counters add up to it. */
  lemma CountersAddUp(vehicles: seq<Vehicle>, types: seq<string>)
    requires Tally.Distinct(types) && "all" !in types
    requires forall k :: 0 <= k < |vehicles| ==> ToStr(vehicles[k].vtype) in types
    ensures Tally.Occurrences(TypeKeys(vehicles), "all") == 0
    ensures Tally.SumOver(TypeKeys(vehicles), types) == |vehicles|
  {
    Tally.OccurrencesZero(TypeKeys(vehicles), "all");
    Tally.CountsAddUp(TypeKeys(vehicles), types);
  }

  /** Index after `nextImage` is asked for, when there are images. */
  function NextIndex(index: int, count: int): (r: int)
    requires 0 <= index && count > 0
    ensures 0 <= r < count
    ensures index < count - 1 ==> r == index + 1
    ensures index == count - 1 ==> r == 0
  {
    (index + 1) % count
  }

  /** Index `previousImage` asks for: from 0 the last one, else one back. */
  function PreviousIndex(index: int, count: int): (r: int)
    requires 0 <= index
    ensures index == 0 ==> r == count - 1
    ensures index > 0 ==> r == index - 1
  {
    if index == 0 then count - 1 else index - 1
  }

  /** Within range, a step back undoes a step forward and the other way
      round. */
  lemma StepsInverse(index: int, count: int)
    requires 0 <= index < count
    ensures PreviousIndex(NextIndex(index, count), count) == index
    ensures NextIndex(PreviousIndex(index, count), count) == index
  {
  }

  /** `updateMainImage(index)` moves only to a truthy image that exists. */
  function Shows(images: seq<JsValue>, current: int, index: int): (r: int)
    ensures r == index || r == current
    ensures r == index <==> (index == current || (0 <= index < |images| && Truthy(images[index])))
  {
    if 0 <= index < |images| && Truthy(images[index]) then index else current
  }

  /** The `DetalleVehiculo` gallery: its images and the shown index. */
  class Detail {
    var images: seq<JsValue>
    var currentImageIndex: int

    predicate Valid()
      reads this
    {
      currentImageIndex >= 0
    }

    constructor ()
      ensures Valid() && images == [] && currentImageIndex == 0
    {
      images := [];
      currentImageIndex := 0;
    }

    /** The image part of `populateData`: the vehicle's images, and the
      first one shown when there is one. */
    method Populate(vehicleImages: seq<JsValue>)
      requires Valid()
      modifies this
      ensures Valid() && images == vehicleImages
      ensures currentImageIndex == if |images| > 0 then Shows(images, old(currentImageIndex), 0)
                                   else old(currentImageIndex)
    {
      images := vehicleImages;
      if |images| > 0 {
        UpdateMainImage(0);
      }
    }

    /** `updateMainImage(index)`, also what `selectImage` calls. */
    method UpdateMainImage(index: int)
      requires Valid()
      modifies this
      ensures Valid() && images == old(images)
      ensures currentImageIndex == Shows(images, old(currentImageIndex), index)
    {
      if !(0 <= index < |images|) || !Truthy(images[index]) {
        return;
      }
      currentImageIndex := index;
    }

    /** `window.nextImage`; with no images the index is `NaN` and nothing
      is shown. */
    method NextImage()
      requires Valid()
      modifies this
      ensures Valid() && images == old(images)
      ensures |images| == 0 ==> currentImageIndex == old(currentImageIndex)
      ensures |images| > 0 ==>
        currentImageIndex == Shows(images, old(currentImageIndex), NextIndex(old(currentImageIndex), |images|))
    {
      if |images| == 0 {
        return;
      }
      var next := (currentImageIndex + 1) % |images|;
      UpdateMainImage(next);
    }

    /** `window.previousImage` */
    method PreviousImage()
      requires Valid()
      modifies this
      ensures Valid() && images == old(images)
      ensures currentImageIndex == Shows(images, old(currentImageIndex), PreviousIndex(old(currentImageIndex), |images|))
    {
      var prev := if currentImageIndex == 0 then |images| - 1 else currentImageIndex - 1;
      UpdateMainImage(prev);
    }
  }

  /** With every image truthy, the gallery cycles: `nextImage` then
      `previousImage` comes back to the same index. */
  lemma GalleryCycles(images: seq<JsValue>, index: int)
    requires 0 <= index < |images|
    requires forall k :: 0 <= k < |images| ==> Truthy(images[k])
    ensures var next := Shows(images, index, NextIndex(index, |images|));
      next == NextIndex(index, |images|) && Shows(images, next, PreviousIndex(next, |images|)) == index
  {
    StepsInverse(index, |images|);
  }
}
