/** The catalogue page of `scripts/unidades-fix.js`: the two image-URL
    clients (`APIClientFixed`, and `APIClientDebug` that
    `fixImageHandling` swaps in), the record normalisation of
    `UnidadesDisponiblesSystem` with its two image-list readers, and the
    system's filters and category counters. */
module UnidadesFix {
  import opened Wrappers
  import opened JsText
  import opened JsValues
  import opened Listing
  import Tally
  import LarrosaUnified

  const Origin: string := "http://localhost:8000/"
  const Placeholder: string := "../assets/imagenes/placeholder-vehicle.jpg"

  /** The prefix test both clients use for paths under the static mount
      (no trailing slash, so "staticfoo.jpg" passes too). */
  predicate IsStatic(s: string) {
    StartsWith(s, "/static") || StartsWith(s, "static")
  }

  /** `APIClientFixed.getImageUrl`: the placeholder for a falsy value; a
      string starting "http" as it is, a static path under the origin with
      one leading slash removed, any other string as it is; an object
      through its first truthy `file_path`, `filename`, `url` or `path`;
      anything else the placeholder. */
  function FixedImageUrl(imageData: JsValue): (r: string)
    ensures !Truthy(imageData) ==> r == Placeholder
    ensures imageData.Str? && StartsWith(imageData.s, "http") ==> r == imageData.s
    ensures imageData.Str? && !StartsWith(imageData.s, "http") && IsStatic(imageData.s) ==>
      r == Origin + DropLeadingSlash(imageData.s)
    ensures Truthy(imageData) && imageData.Str? && !IsStatic(imageData.s) ==> r == imageData.s
    ensures Truthy(imageData) && !imageData.Str? && !imageData.Obj? ==> r == Placeholder
    decreases imageData
  {
    if !Truthy(imageData) then Placeholder
    else match imageData
      case Str(s) =>
        if StartsWith(s, "http") then s
        else if IsStatic(s) then Origin + DropLeadingSlash(s)
        else s
      case Obj(_) =>
        var path := FirstOf(imageData, ["file_path", "filename", "url", "path"]);
        FirstOfSmaller(imageData, ["file_path", "filename", "url", "path"]);
        if Truthy(path) then FixedImageUrl(path) else Placeholder
      case _ => Placeholder
  }

  lemma PlaceholderIsKept()
    ensures FixedImageUrl(Str(Placeholder)) == Placeholder
  {
    assert Placeholder[0] == '.';
    assert "http"[0] == 'h' && "/static"[0] == '/' && "static"[0] == 's';
  }

  /** Feeding a URL the fixed client produced back into it changes nothing. */
  lemma {:induction false} FixedImageUrlIdempotent(imageData: JsValue)
    ensures FixedImageUrl(Str(FixedImageUrl(imageData))) == FixedImageUrl(imageData)
    decreases imageData
  {
    if !Truthy(imageData) || (!imageData.Str? && !imageData.Obj?) {
      PlaceholderIsKept();
    } else if imageData.Obj? {
      var path := FirstOf(imageData, ["file_path", "filename", "url", "path"]);
      FirstOfSmaller(imageData, ["file_path", "filename", "url", "path"]);
      if Truthy(path) {
        FixedImageUrlIdempotent(path);
      } else {
        PlaceholderIsKept();
      }
    } else if !StartsWith(imageData.s, "http") && IsStatic(imageData.s) {
      var r := FixedImageUrl(imageData);
      assert r[..4] == Origin[..4] == "http";
    }
  }

  /** On a path that both clients treat as static, this one and the
      `larrosa-unified.js` client build the same URL; on "static" without
      the slash they part: this client prefixes it, the other keeps it. */
  lemma FixedAgreesOnStaticPaths(s: string)
    requires !StartsWith(s, "http") && LarrosaUnified.IsStaticPath(s)
    ensures FixedImageUrl(Str(s)) == LarrosaUnified.ImageUrl(Str(s))
  {
    StaticPathIsStatic(s);
    assert Origin == LarrosaUnified.StaticUrl + "/";
  }

  /** A path under "static/" or "/static/" passes the looser test. */
  lemma StaticPathIsStatic(s: string)
    requires LarrosaUnified.IsStaticPath(s)
    ensures IsStatic(s)
  {
    if StartsWith(s, "static/") {
      assert s[..6] == s[..7][..6] == "static/"[..6] == "static";
    } else {
      assert s[..7] == s[..8][..7] == "/static/"[..7] == "/static";
    }
  }

  lemma StaticWithoutSlashDiffers()
    ensures FixedImageUrl(Str("staticx.jpg")) == Origin + "staticx.jpg"
    ensures LarrosaUnified.ImageUrl(Str("staticx.jpg")) == "staticx.jpg"
  {
    var s := "staticx.jpg";
    assert s[..6] == "static" && s[0] != 'h' && s[0] != '/';
    assert !StartsWith(s, "static/") by { assert s[6] == 'x'; }
  }

  /** `APIClientDebug.getImageUrl`: as the fixed client, except that a
      plain string holding a '.' is taken for a file name under
      "static/images/", and an object is also searched for `image_url`
      and `src`. */
  function DebugImageUrl(imageData: JsValue): (r: string)
    ensures !Truthy(imageData) ==> r == Placeholder
    ensures imageData.Str? && StartsWith(imageData.s, "http") ==> r == imageData.s
    ensures imageData.Str? && !StartsWith(imageData.s, "http") && IsStatic(imageData.s) ==>
      r == Origin + DropLeadingSlash(imageData.s)
    ensures Truthy(imageData) && imageData.Str? && !StartsWith(imageData.s, "http") && !IsStatic(imageData.s) ==>
      r == if '.' in imageData.s then Origin + "static/images/" + imageData.s else imageData.s
    decreases imageData
  {
    if !Truthy(imageData) then Placeholder
    else match imageData
      case Str(s) =>
        if StartsWith(s, "http") then s
        else if IsStatic(s) then Origin + DropLeadingSlash(s)
        else if ContainsDot(s); Contains(s, ".") then Origin + "static/images/" + s
        else s
      case Obj(_) =>
        var path := FirstOf(imageData, DebugKeys);
        FirstOfSmaller(imageData, DebugKeys);
        if Truthy(path) then DebugImageUrl(path) else Placeholder
      case _ => Placeholder
  }

  const DebugKeys: seq<string> := ["file_path", "filename", "url", "path", "image_url", "src"]

  lemma ContainsDot(s: string)
    ensures Contains(s, ".") <==> '.' in s
  {
    ContainsAt(s, ".");
    if '.' in s {
      var i :| 0 <= i < |s| && s[i] == '.';
      assert OccursAt(s, ".", i);
    }
    if Contains(s, ".") {
      var i :| OccursAt(s, ".", i);
      assert s[i] == s[i..i + 1][0];
    }
  }

  /** Every URL of the debug client other than the placeholder maps to
      itself when fed back; the placeholder itself does not, because it
      holds a '.' and is taken for a file name. */
  lemma {:induction false} DebugImageUrlStable(imageData: JsValue)
    requires DebugImageUrl(imageData) != Placeholder
    ensures DebugImageUrl(Str(DebugImageUrl(imageData))) == DebugImageUrl(imageData)
    decreases imageData
  {
    if imageData.Obj? {
      var path := FirstOf(imageData, DebugKeys);
      FirstOfSmaller(imageData, DebugKeys);
      DebugImageUrlStable(path);
    } else if imageData.Str? {
      var s := imageData.s;
      ContainsDot(s);
      var r := DebugImageUrl(imageData);
      if !StartsWith(s, "http") && (IsStatic(s) || '.' in s) {
        assert r[..4] == Origin[..4] == "http";
      } else if !StartsWith(s, "http") {
        ContainsDot(r);
      }
    }
  }

  lemma DebugPlaceholderMoves()
    ensures DebugImageUrl(Str(Placeholder)) == Origin + "static/images/" + Placeholder
  {
    var p := Placeholder;
    assert p[0] == '.' && p != "";
    assert !StartsWith(p, "http") by {
      assert p[..4][0] == '.' && "http"[0] == 'h';
    }
    assert !IsStatic(p) by {
      assert p[..7][0] == '.' && "/static"[0] == '/';
      assert p[..6][0] == '.' && "static"[0] == 's';
    }
    assert '.' in p;
  }

  /** `processImages(images)`: a string becomes a one-element list, an
      array is kept, an object gives its `images`, `urls` or `files` array
      (the first truthy one) when that is an array, and anything else
      gives none. */
  function ProcessImages(images: JsValue): (r: seq<JsValue>)
    ensures !Truthy(images) ==> r == []
    ensures images.Str? && Truthy(images) ==> r == [images]
    ensures images.Arr? ==> r == images.items
    ensures images.Obj? ==>
      var picked := Or(FirstOf(images, ["images", "urls", "files"]), Arr([]));
      r == if picked.Arr? then picked.items else []
    ensures !images.Str? && !images.Arr? && !images.Obj? ==> r == []
  {
    if !Truthy(images) then []
    else match images
      case Str(_) => [images]
      case Arr(items) => items
      case Obj(_) =>
        var picked := Or(FirstOf(images, ["images", "urls", "files"]), Arr([]));
        if picked.Arr? then picked.items else []
      case _ => []
  }

  /** The fields `processImagesAdvanced` searches for a list, and then for
      a single image. */
  const ListKeys: seq<string> := ["images", "urls", "files", "photos", "attachments"]
  const SingleKeys: seq<string> := ["url", "file_path", "filename", "src", "image_url", "path"]

  /** The values of the fields `keys` of `o`, in order. */
  function Reads(o: JsValue, keys: seq<string>): (r: seq<JsValue>)
    ensures |r| == |keys| && forall k :: 0 <= k < |keys| ==> r[k] == Get(o, keys[k])
  {
    seq(|keys|, k requires 0 <= k < |keys| => Get(o, keys[k]))
  }

  /** The items of the first non-empty array among `vals`, or none. */
  function FirstNonEmpty(vals: seq<JsValue>): seq<JsValue> {
    if vals == [] then []
    else if vals[0].Arr? && |vals[0].items| > 0 then vals[0].items
    else FirstNonEmpty(vals[1..])
  }

  /** A one-element list of the first truthy value among `vals`, or none. */
  function FirstTruthyList(vals: seq<JsValue>): seq<JsValue> {
    if vals == [] then []
    else if Truthy(vals[0]) then [vals[0]]
    else FirstTruthyList(vals[1..])
  }

  /** What `processImagesAdvanced(images)` returns. */
  function AdvancedImages(images: JsValue): seq<JsValue> {
    if !Truthy(images) then []
    else match images
      case Str(_) => [images]
      case Arr(items) => items
      case Obj(_) =>
        var found := FirstNonEmpty(Reads(images, ListKeys));
        if found != [] then found else FirstTruthyList(Reads(images, SingleKeys))
      case _ => []
  }

  /** `processImagesAdvanced(images)`: the two searches are loops that stop
      at the first hit. */
  method ProcessImagesAdvanced(images: JsValue) returns (result: seq<JsValue>)
    ensures result == AdvancedImages(images)
  {
    if !Truthy(images) {
      return [];
    }
    result := [];
    if images.Str? {
      result := [images];
    } else if images.Arr? {
      result := images.items;
    } else if images.Obj? {
      var possibleArrays := Reads(images, ListKeys);
      var i := 0;
      while i < |possibleArrays|
        invariant 0 <= i <= |possibleArrays|
        invariant result == [] && FirstNonEmpty(possibleArrays) == FirstNonEmpty(possibleArrays[i..])
      {
        var arr := possibleArrays[i];
        assert possibleArrays[i..][1..] == possibleArrays[i + 1..];
        if arr.Arr? && |arr.items| > 0 {
          result := arr.items;
          break;
        }
        i := i + 1;
      }
      if |result| == 0 {
        var possibleProps := Reads(images, SingleKeys);
        var j := 0;
        while j < |possibleProps|
          invariant 0 <= j <= |possibleProps|
          invariant result == [] && FirstTruthyList(possibleProps) == FirstTruthyList(possibleProps[j..])
        {
          var prop := possibleProps[j];
          assert possibleProps[j..][1..] == possibleProps[j + 1..];
          if Truthy(prop) {
            result := [prop];
            break;
          }
          j := j + 1;
        }
      }
    }
  }

  /** `FirstNonEmpty` returns the items of the first non-empty array. */
  lemma {:induction false} FirstNonEmptyAt(vals: seq<JsValue>, i: int)
    requires 0 <= i < |vals| && vals[i].Arr? && |vals[i].items| > 0
    requires forall j :: 0 <= j < i ==> !(vals[j].Arr? && |vals[j].items| > 0)
    ensures FirstNonEmpty(vals) == vals[i].items
    decreases i
  {
    if i > 0 {
      FirstNonEmptyAt(vals[1..], i - 1);
    }
  }

  /** With no non-empty array, `FirstNonEmpty` gives none. */
  lemma {:induction false} FirstNonEmptyNone(vals: seq<JsValue>)
    requires forall j :: 0 <= j < |vals| ==> !(vals[j].Arr? && |vals[j].items| > 0)
    ensures FirstNonEmpty(vals) == []
    decreases |vals|
  {
    if vals != [] {
      FirstNonEmptyNone(vals[1..]);
    }
  }

  /** `FirstTruthyList` holds the first truthy value, or nothing when there
      is none. */
  lemma {:induction false} FirstTruthyListAt(vals: seq<JsValue>, i: int)
    requires 0 <= i <= |vals|
    requires forall j :: 0 <= j < i ==> !Truthy(vals[j])
    ensures i < |vals| && Truthy(vals[i]) ==> FirstTruthyList(vals) == [vals[i]]
    ensures i == |vals| ==> FirstTruthyList(vals) == []
    decreases i
  {
    if i > 0 {
      FirstTruthyListAt(vals[1..], i - 1);
    }
  }

  /** For an object, the advanced reader takes the first non-empty array
      among `images`, `urls`, `files`, `photos`, `attachments`; failing
      that, the first truthy single field; else nothing. */
  lemma AdvancedImagesOfObject(o: JsValue, i: int, j: int)
    requires o.Obj?
    requires 0 <= i <= |ListKeys| && 0 <= j <= |SingleKeys|
    requires forall k :: 0 <= k < i ==> !(Get(o, ListKeys[k]).Arr? && |Get(o, ListKeys[k]).items| > 0)
    requires forall k :: 0 <= k < j ==> !Truthy(Get(o, SingleKeys[k]))
    ensures i < |ListKeys| && Get(o, ListKeys[i]).Arr? && |Get(o, ListKeys[i]).items| > 0 ==>
      AdvancedImages(o) == Get(o, ListKeys[i]).items
    ensures i == |ListKeys| && j < |SingleKeys| && Truthy(Get(o, SingleKeys[j])) ==>
      AdvancedImages(o) == [Get(o, SingleKeys[j])]
    ensures i == |ListKeys| && j == |SingleKeys| ==> AdvancedImages(o) == []
  {
    var lists := Reads(o, ListKeys);
    var singles := Reads(o, SingleKeys);
    if i < |ListKeys| && Get(o, ListKeys[i]).Arr? && |Get(o, ListKeys[i]).items| > 0 {
      FirstNonEmptyAt(lists, i);
    }
    if i == |ListKeys| {
      FirstNonEmptyNone(lists);
      FirstTruthyListAt(singles, j);
    }
  }

  /** Both readers keep an array as it is, so re-reading the image list of
      a normalised record, as `fixImageHandling` does, changes nothing. */
  lemma ReadersKeepArrays(items: seq<JsValue>)
    ensures ProcessImages(Arr(items)) == items
    ensures AdvancedImages(Arr(items)) == items
  {
  }

  /** `getTypeName(type)`: the label of a known slug, 'Varios' for any
      other (the table's own 'varios' entry gives the same). */
  function TypeName(t: JsValue): (r: string)
    ensures r != ""
  {
    var key := ToStr(t);
    if key == "camion-tractor" then "Camión Tractor"
    else if key == "camion-chasis" then "Camión Chasis"
    else if key == "remolques" then "Remolques"
    else if key == "utilitarios" then "Utilitarios"
    else if key == "varios" then "Varios"
    else "Varios"
  }

  /** The label is 'Varios' exactly when the slug is none of the four
      specific types; it is the label `larrosa-unified.js` gives too. */
  lemma TypeNameIsLabel(t: JsValue)
    ensures TypeName(t) == "Varios" <==> ToStr(t) !in ["camion-tractor", "camion-chasis", "remolques", "utilitarios"]
    ensures TypeName(t) == LarrosaUnified.TypeName(t)
  {
  }

  /** The record `normalizeVehicle` builds. */
  datatype Vehicle = Vehicle(
    id: JsValue, brand: JsValue, model: JsValue, fullName: JsValue,
    year: JsValue, kilometers: JsValue, power: JsValue,
    vtype: JsValue, typeName: JsValue, status: JsValue, location: JsValue,
    transmission: JsValue, traccion: JsValue, color: JsValue, description: JsValue,
    observations: JsValue, images: seq<JsValue>, isFeatured: JsValue,
    dateRegistered: JsValue, price: JsValue, isActive: bool)

  /** `v.key || fallback` */
  function Pick(v: JsValue, key: string, fallback: JsValue): (r: JsValue)
    ensures Truthy(fallback) ==> Truthy(r)
  {
    Or(Get(v, key), fallback)
  }

  /** `v.first || v.second || fallback` */
  function Pick2(v: JsValue, first: string, second: string, fallback: JsValue): (r: JsValue)
    ensures Truthy(fallback) ==> Truthy(r)
  {
    Or(Get(v, first), Pick(v, second, fallback))
  }

  /** `${v.brand || 'Vehículo'} ${v.model || ''}`.trim() */
  function ComposedName(v: JsValue): string {
    Trim(ToStr(Pick(v, "brand", Str("Vehículo"))) + " " + ToStr(Pick(v, "model", Str(""))))
  }

  /** `normalizeVehicle(vehicle)`, with the clock (`Date.now()`), the
      current year and today's date as parameters. */
  function NormalizeVehicle(v: JsValue, now: int, currentYear: int, today: string): (r: Vehicle)
    ensures r.isActive <==> Get(v, "is_active") != Bool(false)
    ensures r.images == ProcessImages(Or(Get(v, "images"), Or(Get(v, "image"), Arr([]))))
  {
    Vehicle(
      Or(Get(v, "id"), Str("temp_" + IntToString(now))),
      Pick(v, "brand", Str("Sin marca")),
      Pick(v, "model", Str("Sin modelo")),
      Pick2(v, "full_name", "fullName", Str(ComposedName(v))),
      Pick(v, "year", Num(currentYear)),
      Pick2(v, "kilometers", "km", Num(0)),
      Pick2(v, "power", "hp", Num(0)),
      Pick2(v, "type", "vehicle_type", Str("varios")),
      Pick2(v, "type_name", "typeName", Str(TypeName(Pick(v, "type", Str("varios"))))),
      Pick(v, "status", Str("Disponible")),
      Pick(v, "location", Str("Villa María, Córdoba")),
      Pick(v, "transmission", Str("Manual")),
      Pick2(v, "traccion", "traction", Str("4x2")),
      Pick(v, "color", Str("No especificado")),
      Pick(v, "description", Str("Vehículo comercial")),
      Pick(v, "observations", Null),
      ProcessImages(Or(Get(v, "images"), Or(Get(v, "image"), Arr([])))),
      Pick(v, "is_featured", Bool(false)),
      Pick2(v, "date_registered", "dateRegistered", Str(today)),
      Pick(v, "price", Null),
      Get(v, "is_active") != Bool(false))
  }

  /** Every normalised record has a truthy id and truthy labels, and its
      type is 'varios' when the row names none. */
  lemma NormalizedLabels(v: JsValue, now: int, currentYear: int, today: string)
    ensures var r := NormalizeVehicle(v, now, currentYear, today);
      Truthy(r.id) && Truthy(r.brand) && Truthy(r.model) && Truthy(r.vtype) && Truthy(r.typeName)
      && Truthy(r.status) && Truthy(r.location) && Truthy(r.transmission) && Truthy(r.traccion)
      && Truthy(r.color) && Truthy(r.description)
    ensures var r := NormalizeVehicle(v, now, currentYear, today);
      !Truthy(Get(v, "type")) && !Truthy(Get(v, "vehicle_type")) ==> r.vtype == Str("varios")
  {
    NormalizedNames(v, now, currentYear, today);
    NormalizedDefaults(v, now, currentYear, today);
  }

  lemma NormalizedNames(v: JsValue, now: int, currentYear: int, today: string)
    ensures var r := NormalizeVehicle(v, now, currentYear, today);
      Truthy(r.id) && Truthy(r.brand) && Truthy(r.model) && Truthy(r.vtype) && Truthy(r.typeName)
      && (!Truthy(Get(v, "type")) && !Truthy(Get(v, "vehicle_type")) ==> r.vtype == Str("varios"))
  {
    var r := NormalizeVehicle(v, now, currentYear, today);
    assert r.id == Or(Get(v, "id"), Str("temp_" + IntToString(now)));
    TempIdNonEmpty(now);
    assert r.brand == Pick(v, "brand", Str("Sin marca"));
    assert r.model == Pick(v, "model", Str("Sin modelo"));
    assert r.vtype == Pick2(v, "type", "vehicle_type", Str("varios"));
    assert r.typeName == Pick2(v, "type_name", "typeName", Str(TypeName(Pick(v, "type", Str("varios")))));
  }

  lemma NormalizedDefaults(v: JsValue, now: int, currentYear: int, today: string)
    ensures var r := NormalizeVehicle(v, now, currentYear, today);
      Truthy(r.status) && Truthy(r.location) && Truthy(r.transmission) && Truthy(r.traccion)
      && Truthy(r.color) && Truthy(r.description)
  {
    var r := NormalizeVehicle(v, now, currentYear, today);
    assert r.status == Pick(v, "status", Str("Disponible"));
    assert r.location == Pick(v, "location", Str("Villa María, Córdoba"));
    assert r.transmission == Pick(v, "transmission", Str("Manual"));
    assert r.traccion == Pick2(v, "traccion", "traction", Str("4x2"));
    assert r.color == Pick(v, "color", Str("No especificado"));
    assert r.description == Pick(v, "description", Str("Vehículo comercial"));
  }

  lemma TempIdNonEmpty(now: int)
    ensures "temp_" + IntToString(now) != ""
  {
    assert ("temp_" + IntToString(now))[0] == 't';
  }

  /** `this.currentFilters`: the category ('' when unset) and the
      lower-cased search text ('' when unset). */
  datatype Filters = Filters(category: string, search: string)

  const InitialFilters: Filters := Filters("all", "")

  /** The callback of `applyFilters`. The search text is compared as it
      is stored; the input handler is what lower-cases it. */
  predicate Passes(v: Vehicle, f: Filters) {
    (f.category == "" || f.category == "all" || v.vtype == Str(f.category))
    && (f.search == "" || Contains(ToLower(ToStr(v.brand) + " " + ToStr(v.model) + " " + ToStr(v.fullName)), f.search))
  }

  function PassesWith(f: Filters): Vehicle -> bool {
    v => Passes(v, f)
  }

  /** The cleared filters let every vehicle through. */
  lemma InitialFiltersPassAll(vs: seq<Vehicle>)
    ensures Keep(vs, PassesWith(InitialFilters)) == vs
  {
    KeepAll(vs, PassesWith(InitialFilters));
  }

  /** A vehicle is shown exactly when it is loaded and passes: of the
      selected type unless 'all', and holding the search text. */
  lemma FilteredMembers(vs: seq<Vehicle>, f: Filters, v: Vehicle)
    ensures v in Keep(vs, PassesWith(f)) <==>
      v in vs && (f.category == "" || f.category == "all" || v.vtype == Str(f.category))
      && (f.search == "" || Contains(ToLower(ToStr(v.brand) + " " + ToStr(v.model) + " " + ToStr(v.fullName)), f.search))
  {
    KeepMembership(vs, PassesWith(f), v);
  }

  /** A search holding an ASCII capital never matches, were it stored as
      typed: the page's text is lower-cased, which is why the input handler
      lower-cases the search before storing it. */
  lemma UpperCaseSearchNeverMatches(v: Vehicle, category: string, search: string, j: nat)
    requires j < |search| && 'A' <= search[j] <= 'Z'
    ensures !Passes(v, Filters(category, search))
  {
    var raw := ToStr(v.brand) + " " + ToStr(v.model) + " " + ToStr(v.fullName);
    var t := ToLower(raw);
    if Contains(t, search) {
      ContainsAt(t, search);
      var i :| OccursAt(t, search, i);
      assert t[i..i + |search|][j] == search[j];
      assert t[i + j] == LowerChar(raw[i + j]);
      LowerCharNotCapital(raw[i + j]);
      assert false;
    }
  }

  /** The list in `loadVehicles`: `response.vehicles`, the response itself
      or `response.data`, whichever is first an array. */
  function ResponseList(response: JsValue): (r: Option<seq<JsValue>>)
    ensures r.None? <==> !Get(response, "vehicles").Arr? && !response.Arr? && !Get(response, "data").Arr?
  {
    if Get(response, "vehicles").Arr? then Some(Get(response, "vehicles").items)
    else if response.Arr? then Some(response.items)
    else if Get(response, "data").Arr? then Some(Get(response, "data").items)
    else None
  }

  /** Each vehicle's counter key: `vehicle.type || 'varios'`. */
  function CounterKeys(vs: seq<Vehicle>): (r: seq<string>)
    ensures |r| == |vs| && forall k :: 0 <= k < |vs| ==> r[k] == ToStr(Or(vs[k].vtype, Str("varios")))
  {
    seq(|vs|, k requires 0 <= k < |vs| => ToStr(Or(vs[k].vtype, Str("varios"))))
  }

  /** A vehicle without a type is counted under 'varios'. */
  lemma UntypedCountsAsVarios(vs: seq<Vehicle>, k: int)
    requires 0 <= k < |vs| && !Truthy(vs[k].vtype)
    ensures CounterKeys(vs)[k] == "varios"
  {
  }

  /** `rows.map(v => this.normalizeVehicle(v))` on rows it can read. */
  function NormalizedAll(rows: seq<JsValue>, now: int, currentYear: int, today: string): (r: seq<Vehicle>)
    ensures |r| == |rows|
    ensures forall k :: 0 <= k < |rows| ==> r[k] == NormalizeVehicle(rows[k], now, currentYear, today)
  {
    seq(|rows|, k requires 0 <= k < |rows| => NormalizeVehicle(rows[k], now, currentYear, today))
  }

  /** What `loadVehicles` reports: the number of rows it loads, or the
    error it shows — no list in the response, or the `TypeError` of
    reading `id` on the first `null` or `undefined` row. */
  function LoadOutcome(response: JsValue): (r: Result<nat, string>)
    ensures r.Err? <==> ResponseList(response).None? || !NoNullish(ResponseList(response).value)
    ensures ResponseList(response).Some? && !NoNullish(ResponseList(response).value) ==>
      var rows := ResponseList(response).value;
      r == Err(Unreadable(rows[FirstNullish(rows)], "id"))
    ensures r.Ok? ==> r.value == |ResponseList(response).value|
  {
    match ResponseList(response)
    case None => Err("Formato de respuesta inválido")
    case Some(rows) =>
      if FirstNullish(rows) < |rows| then Err(Unreadable(rows[FirstNullish(rows)], "id"))
      else Ok(|rows|)
  }

  /** The state of `UnidadesDisponiblesSystem`. */
  class System {
    var vehiclesData: seq<Vehicle>
    var filteredVehicles: seq<Vehicle>
    var currentFilters: Filters
    /** True once `fixImageHandling` swapped in the debug client. */
    var debugClient: bool

    constructor ()
      ensures vehiclesData == [] && filteredVehicles == [] && currentFilters == InitialFilters && !debugClient
    {
      vehiclesData := [];
      filteredVehicles := [];
      currentFilters := InitialFilters;
      debugClient := false;
    }

    /** `loadVehicles` given the API's response: a response with no list
      fails, an empty list leaves the data as it was, and otherwise every
      row is normalised and shown unfiltered. `normalizeVehicle` reads
      `vehicle.id` first, so the `map` throws at the first `null` or
      `undefined` row, and the lists stay as they were. */
    method LoadVehicles(response: JsValue, now: int, currentYear: int, today: string) returns (outcome: Result<nat, string>)
      modifies this
      ensures outcome == LoadOutcome(response)
      ensures outcome.Ok? && outcome.value > 0 ==>
        vehiclesData == NormalizedAll(ResponseList(response).value, now, currentYear, today)
        && filteredVehicles == vehiclesData
      ensures (outcome.Err? || outcome.value == 0) ==>
        vehiclesData == old(vehiclesData) && filteredVehicles == old(filteredVehicles)
      ensures currentFilters == old(currentFilters) && debugClient == old(debugClient)
    {
      outcome := LoadOutcome(response);
      if outcome.Ok? && outcome.value > 0 {
        Show(NormalizedAll(ResponseList(response).value, now, currentYear, today));
      }
    }

    /** `this.vehiclesData = vehicles; this.filteredVehicles = [...vehicles]` */
    method Show(vehicles: seq<Vehicle>)
      modifies this
      ensures vehiclesData == vehicles && filteredVehicles == vehicles
      ensures currentFilters == old(currentFilters) && debugClient == old(debugClient)
    {
      vehiclesData := vehicles;
      filteredVehicles := vehicles;
    }

    /** `applyFilters` */
    method ApplyFilters()
      modifies this
      ensures filteredVehicles == Keep(vehiclesData, PassesWith(currentFilters))
      ensures vehiclesData == old(vehiclesData) && currentFilters == old(currentFilters) && debugClient == old(debugClient)
    {
      filteredVehicles := Keep(vehiclesData, PassesWith(currentFilters));
    }

    /** `filterByCategory(category)` */
    method FilterByCategory(category: string)
      modifies this
      ensures currentFilters == old(currentFilters).(category := category)
      ensures filteredVehicles == Keep(vehiclesData, PassesWith(currentFilters))
      ensures vehiclesData == old(vehiclesData) && debugClient == old(debugClient)
    {
      currentFilters := currentFilters.(category := category);
      ApplyFilters();
    }

    /** The search box's handler: the typed text, lower-cased. */
    method Search(typed: string)
      modifies this
      ensures currentFilters == old(currentFilters).(search := ToLower(typed))
      ensures filteredVehicles == Keep(vehiclesData, PassesWith(currentFilters))
      ensures vehiclesData == old(vehiclesData) && debugClient == old(debugClient)
    {
      currentFilters := currentFilters.(search := ToLower(typed));
      ApplyFilters();
    }

    /** `checkURLFilters` with the `category` and `filter` parameters
      (`get(...)` is null when absent, and '' falls through `||`). */
    method CheckURLFilters(categoryParam: Option<string>, filterParam: Option<string>)
      modifies this
      ensures var c := if categoryParam.Some? && categoryParam.value != "" then categoryParam else filterParam;
        if c.Some? && c.value != "" && c.value != "all"
        then currentFilters == old(currentFilters).(category := c.value)
             && filteredVehicles == Keep(vehiclesData, PassesWith(currentFilters))
        else currentFilters == old(currentFilters) && filteredVehicles == old(filteredVehicles)
      ensures vehiclesData == old(vehiclesData) && debugClient == old(debugClient)
    {
      var category := if categoryParam.Some? && categoryParam.value != "" then categoryParam else filterParam;
      if category.Some? && category.value != "" && category.value != "all" {
        currentFilters := currentFilters.(category := category.value);
        ApplyFilters();
      }
    }

    /** `clearAllFilters`: back to `{category: 'all'}`, which shows every
      loaded vehicle. */
    method ClearAllFilters()
      modifies this
      ensures currentFilters == InitialFilters && filteredVehicles == vehiclesData
      ensures vehiclesData == old(vehiclesData) && debugClient == old(debugClient)
    {
      currentFilters := InitialFilters;
      ApplyFilters();
      InitialFiltersPassAll(vehiclesData);
    }

    /** `updateCategoryCounters`: 'all' starts at the number of vehicles,
      then each vehicle adds one under `type || 'varios'`. */
    method UpdateCategoryCounters() returns (counts: map<string, int>)
      ensures forall k :: k in counts <==> k == "all" || k in CounterKeys(vehiclesData)
      ensures counts["all"] == |vehiclesData| + Tally.Occurrences(CounterKeys(vehiclesData), "all")
      ensures forall k :: k in counts && k != "all" ==> counts[k] == Tally.Occurrences(CounterKeys(vehiclesData), k)
    {
      counts := Tally.CountInto(map["all" := |vehiclesData|], CounterKeys(vehiclesData));
    }

    /** The image a card shows: the first image through the client in use,
      or the placeholder when there is none. */
    function CardImage(v: Vehicle): (url: string)
      reads this
      ensures v.images == [] ==> url == Placeholder
      ensures v.images != [] ==> url == if debugClient then DebugImageUrl(v.images[0]) else FixedImageUrl(v.images[0])
    {
      if |v.images| > 0 then (if debugClient then DebugImageUrl(v.images[0]) else FixedImageUrl(v.images[0]))
      else Placeholder
    }

    /** `fixImageHandling`: the debug client replaces the fixed one, every
      vehicle's images are read again by `processImagesAdvanced`, and all
      vehicles are shown. The images were already a list, so they stay as
      they were. */
    method FixImageHandling()
      modifies this
      ensures debugClient && currentFilters == old(currentFilters)
      ensures vehiclesData == old(vehiclesData)
      ensures old(vehiclesData) != [] ==> filteredVehicles == vehiclesData
      ensures old(vehiclesData) == [] ==> filteredVehicles == old(filteredVehicles)
    {
      debugClient := true;
      if |vehiclesData| > 0 {
        var i := 0;
        var updated: seq<Vehicle> := [];
        while i < |vehiclesData|
          invariant 0 <= i <= |vehiclesData|
          invariant updated == vehiclesData[..i]
          invariant debugClient && vehiclesData == old(vehiclesData) && currentFilters == old(currentFilters)
        {
          var v := vehiclesData[i];
          var images := ProcessImagesAdvanced(Arr(v.images));
          ReadersKeepArrays(v.images);
          assert v.(images := images) == v;
          assert vehiclesData[..i + 1] == vehiclesData[..i] + [v];
          updated := updated + [v.(images := images)];
          i := i + 1;
        }
        assert vehiclesData[..i] == vehiclesData;
        vehiclesData := updated;
        filteredVehicles := vehiclesData;
      }
    }
  }
}
