/** The API-backed vehicle page of `scripts/detalleVehiculo-api.js`: where
    the shown vehicle comes from, its gallery, its registration date, and
    the related vehicles below it. The gallery steps are those of
    `scripts/detalleVehiculo.js`, so `VehicleDetail`'s index functions are
    used for both pages. */
module VehicleDetailApi {
  import opened Wrappers
  import opened JsText
  import opened JsValues
  import opened Listing
  import ApiClient
  import VehicleDetail

  /** The id of the fallback record when the URL has none. */
  const FallbackId: string := "fallback-1"
  const FrontImage: string := "../assets/imagenes/IMG_2278.HEIC"
  const SideImage: string := "../assets/imagenes/iveco-stralis-side.jpg"
  const BackImage: string := "../assets/imagenes/iveco-stralis-back.jpg"
  const FallbackImages: seq<JsValue> := [Str(FrontImage), Str(SideImage), Str(BackImage)]
  const FallbackDescription: string :=
    "Iveco Stralis 360 en excelente estado. Mantenimiento al día, documentación en regla. Ideal para trabajo pesado y larga distancia."
  /** What `formatVehicleDate` shows for a missing date. */
  const NoDate: string := "No especificada"

  /** `generateFallbackVehicleData()`: an Iveco record with the URL's id,
      or `FallbackId` when there is none. */
  function FallbackVehicle(urlId: string): (v: JsValue)
    ensures Get(v, "id") == Str(if urlId != "" then urlId else FallbackId)
  {
    var id := if urlId != "" then urlId else FallbackId;
    Obj([("id", Str(id)), ("brand", Str("Iveco")), ("model", Str("Stralis 360 AT")),
         ("full_name", Str("Iveco Stralis 360")), ("fullName", Str("Iveco Stralis 360")),
         ("type", Str("camion-tractor")), ("type_name", Str("Tractor")), ("typeName", Str("Tractor")),
         ("year", Num(2017)), ("kilometers", Num(770000)), ("power", Num(360)), ("traccion", Str("6x2")),
         ("transmission", Str("Automática")), ("color", Str("Blanco")), ("status", Str("Disponible")),
         ("location", Str("Villa María, Córdoba")), ("date_registered", Str("15/07/2025")),
         ("dateRegistered", Str("15/07/2025")), ("observations", Str("-")),
         ("images", Arr(FallbackImages)), ("description", Str(FallbackDescription))])
  }

  /** The fallback record has its three images. */
  lemma FallbackImagesRead(urlId: string)
    ensures Get(FallbackVehicle(urlId), "images") == Arr(FallbackImages)
  {
    var fields := FallbackVehicle(urlId).fields;
    assert fields[19] == ("images", Arr(FallbackImages));
    LookupAt(fields, "images", 19);
  }

  /** `vehicleData` after the session-storage step: the parsed item, or
      `null` when there is none (`None`, also for an empty item) or it does
      not parse (`Some(Err(_))`). */
  function StoredVehicle(stored: Option<Result<JsValue, string>>): JsValue {
    if stored.Some? && stored.value.Ok? then stored.value.value else Null
  }

  /** `loadVehicleData()`: a truthy stored vehicle; else, for an `id` URL
      parameter (`""` when absent), a truthy answer of the API (`fetched`,
      an error when the request failed); else the fallback record. */
  function LoadVehicle(stored: Option<Result<JsValue, string>>, urlId: string, fetched: Result<JsValue, string>): (v: JsValue)
    ensures Truthy(v)
    ensures Truthy(StoredVehicle(stored)) ==> v == StoredVehicle(stored)
    ensures !Truthy(StoredVehicle(stored)) && urlId != "" && fetched.Ok? && Truthy(fetched.value) ==> v == fetched.value
    ensures !Truthy(StoredVehicle(stored)) && (urlId == "" || fetched.Err? || !Truthy(fetched.value)) ==>
      Get(v, "id") == Str(if urlId != "" then urlId else FallbackId)
  {
    var first := StoredVehicle(stored);
    if Truthy(first) then first
    else if urlId != "" && fetched.Ok? && Truthy(fetched.value) then fetched.value
    else FallbackVehicle(urlId)
  }

  /** The vehicle is loaded without waiting for the API exactly when it was
      stored or there is no id to ask the API for. */
  predicate Deferred(stored: Option<Result<JsValue, string>>, urlId: string) {
    !Truthy(StoredVehicle(stored)) && urlId != ""
  }

  /** `images.map(img => apiClient.getImageUrl(img))`: fails when any image
      is a truthy value that is not a string. */
  function ImageUrls(images: seq<JsValue>): (r: Result<seq<string>, string>)
    ensures r.Ok? <==> forall k :: 0 <= k < |images| ==> ApiClient.GetImageUrl(images[k]).Ok?
    ensures r.Ok? ==> (|r.value| == |images| &&
      forall k :: 0 <= k < |images| ==> r.value[k] == ApiClient.GetImageUrl(images[k]).value)
  {
    if images == [] then Ok([])
    else
      var last := images[|images| - 1];
      match ImageUrls(images[..|images| - 1])
      case Err(e) => Err(e)
      case Ok(urls) =>
        match ApiClient.GetImageUrl(last)
        case Err(e) => Err(e)
        case Ok(url) => Ok(urls + [url])
  }

  /** The gallery `updateVehicleImages(images)` sets up: the URL of every
      image, or the placeholder alone for an empty list. A value without
      `map` (anything but an array) throws. */
  function GalleryImages(images: JsValue): (r: Result<seq<string>, string>)
    ensures r.Ok? ==> |r.value| >= 1
    ensures r.Ok? <==> images.Arr? && forall k :: 0 <= k < |images.items| ==> ApiClient.GetImageUrl(images.items[k]).Ok?
    ensures images == Arr([]) ==> r == Ok([ApiClient.Placeholder])
    ensures r.Ok? && images.items != [] ==> (|r.value| == |images.items| &&
      forall k :: 0 <= k < |images.items| ==> r.value[k] == ApiClient.GetImageUrl(images.items[k]).value)
  {
    if !images.Arr? then Err("images.map is not a function")
    else
      match ImageUrls(images.items)
      case Err(e) => Err(e)
      case Ok(urls) => Ok(if urls == [] then [ApiClient.Placeholder] else urls)
  }

  /** What `formatVehicleDate` shows: a value as it is, or the `es-AR`
      rendering of `new Date(value)`, which is not modelled. */
  datatype DateText = Text(value: JsValue) | Localized(date: JsValue)

  /** `formatVehicleDate(dateString)`: `NoDate` for a falsy value; a string
      (or an array) holding "/" as it is; another string or array through
      `Date`; anything else has no `includes`, and the error handler gives
      the value back as it is. */
  function FormatVehicleDate(d: JsValue): (r: DateText)
    ensures !Truthy(d) ==> r == Text(Str(NoDate))
    ensures r.Text? ==> Truthy(r.value)
    ensures r.Localized? ==> r.date == d && (d.Str? || d.Arr?)
  {
    if !Truthy(d) then Text(Str(NoDate))
    else match d
      case Str(s) => if Contains(s, "/") then Text(d) else Localized(d)
      case Arr(items) => if Str("/") in items then Text(d) else Localized(d)
      case _ => Text(d)
  }

  /** A date already written with slashes (as the API's DD/MM/YYYY) is
      shown unchanged, and a string without one goes through `Date`. */
  lemma SlashedDateUnchanged(s: string)
    ensures Contains(s, "/") ==> FormatVehicleDate(Str(s)) == Text(Str(s))
    ensures s != "" && !Contains(s, "/") ==> FormatVehicleDate(Str(s)) == Localized(Str(s))
  {
  }

  /** What the related-vehicles grid shows. */
  datatype RelatedView =
    | Untouched                   // the page's own markup
    | Cards(vehicles: seq<JsValue>)
    | NoneAvailable               // "No hay vehículos relacionados disponibles."
    | Failed                      // "Error cargando vehículos relacionados."

  predicate OtherAt(v: JsValue, id: JsValue) {
    Get(v, "id") != id
  }

  function Other(id: JsValue): JsValue -> bool {
    v => OtherAt(v, id)
  }

  /** The grid after `apiClient.getVehicles({limit: 4, type})` answers
      `response` (an error when the request failed): the first four
      vehicles of the answer that are not the shown one. A failed request,
      an answer without a `vehicles` array, or an entry whose `id` cannot
      be read (`null` or `undefined`) throws inside the `try`, and the
      grid shows the error message. */
  function Related(response: Result<JsValue, string>, currentId: JsValue): (r: RelatedView)
    ensures r.Cards? ==> (response.Ok? && Get(response.value, "vehicles").Arr? && 1 <= |r.vehicles| <= 4 &&
      forall k :: 0 <= k < |r.vehicles| ==> OtherAt(r.vehicles[k], currentId) && r.vehicles[k] in Get(response.value, "vehicles").items)
    ensures r == Failed <==> (response.Err? || !Get(response.value, "vehicles").Arr?
                              || !NoNullish(Get(response.value, "vehicles").items))
    ensures r == NoneAvailable <==> (response.Ok? && Get(response.value, "vehicles").Arr?
      && NoNullish(Get(response.value, "vehicles").items) &&
      forall k :: 0 <= k < |Get(response.value, "vehicles").items| ==> !OtherAt(Get(response.value, "vehicles").items[k], currentId))
    ensures r != Untouched
  {
    if response.Err? then Failed
    else
      var list := Get(response.value, "vehicles");
      if !list.Arr? then Failed
      else if !NoNullish(list.items) then Failed
      else
        var others := Keep(list.items, Other(currentId));
        var shown := Take(others, 4);
        if |shown| > 0 then
          assert forall k :: 0 <= k < |shown| ==> shown[k] == others[k] && shown[k] in multiset(others);
          Cards(shown)
        else
          assert forall k :: 0 <= k < |list.items| ==> !OtherAt(list.items[k], currentId) by {
            forall k | 0 <= k < |list.items| ensures !OtherAt(list.items[k], currentId) {
              if OtherAt(list.items[k], currentId) {
                KeepKeepsPassing(list.items, Other(currentId), k);
              }
            }
          }
          NoneAvailable
  }

  /** With every entry readable, the grid shows the other vehicles of the
      answer in answer order: the first four when there are at least four,
      and all of them otherwise; a `null` or `undefined` entry makes it
      show the error message. */
  lemma RelatedShowsOthers(response: JsValue, currentId: JsValue, v: JsValue)
    requires Get(response, "vehicles").Arr?
    ensures var items := Get(response, "vehicles").items;
      var others := Keep(items, Other(currentId));
      var r := Related(Ok(response), currentId);
      (!NoNullish(items) ==> r == Failed) &&
      (NoNullish(items) && |others| >= 4 ==> r == Cards(others[..4])) &&
      (NoNullish(items) && 1 <= |others| <= 4 ==> r == Cards(others)) &&
      (NoNullish(items) && |others| == 0 ==> r == NoneAvailable) &&
      (NoNullish(items) && |others| <= 4 && v in items && OtherAt(v, currentId) ==> r.Cards? && v in r.vehicles)
  {
    var items := Get(response, "vehicles").items;
    var others := Keep(items, Other(currentId));
    if v in items && OtherAt(v, currentId) {
      KeepMembership(items, Other(currentId), v);
    }
    if |others| == 0 {
      assert Take(others, 4) == [];
    } else if |others| <= 4 {
      assert Take(others, 4) == others;
    }
  }

  /** The page's globals, the error state and the related grid. */
  class Page {
    var currentVehicle: JsValue
    var currentImageIndex: VehicleDetail.Index
    var vehicleImages: seq<string>
    var errorShown: bool
    var related: RelatedView

    constructor ()
      ensures currentVehicle == Null && currentImageIndex == VehicleDetail.At(0) && vehicleImages == []
      ensures !errorShown && related == Untouched
    {
      currentVehicle := Null;
      currentImageIndex := VehicleDetail.At(0);
      vehicleImages := [];
      errorShown := false;
      related := Untouched;
    }

    /** `populateVehicleData(vehicle)`, its gallery part: a falsy vehicle
        or images that cannot be mapped show the error state and leave the
        gallery as it was. */
    method Populate(vehicle: JsValue)
      modifies this
      ensures currentVehicle == old(currentVehicle) && currentImageIndex == old(currentImageIndex) && related == old(related)
      ensures var g := GalleryImages(Or(Get(vehicle, "images"), Arr([])));
        if Truthy(vehicle) && g.Ok? then vehicleImages == g.value && errorShown == old(errorShown)
        else vehicleImages == old(vehicleImages) && errorShown
    {
      if !Truthy(vehicle) {
        errorShown := true;
        return;
      }
      var g := GalleryImages(Or(Get(vehicle, "images"), Arr([])));
      if g.Err? {
        errorShown := true;
        return;
      }
      vehicleImages := g.value;
    }

    /** `loadVehicleData()`, once every awaited answer has arrived. */
    method LoadVehicleData(stored: Option<Result<JsValue, string>>, urlId: string, fetched: Result<JsValue, string>)
      modifies this
      ensures currentVehicle == LoadVehicle(stored, urlId, fetched)
      ensures currentImageIndex == old(currentImageIndex) && related == old(related)
      ensures var g := GalleryImages(Or(Get(currentVehicle, "images"), Arr([])));
        if g.Ok? then vehicleImages == g.value && errorShown == old(errorShown)
        else vehicleImages == old(vehicleImages) && errorShown
    {
      var vehicleData := StoredVehicle(stored);
      if !Truthy(vehicleData) && urlId != "" && fetched.Ok? {
        vehicleData := fetched.value;
      }
      if !Truthy(vehicleData) {
        vehicleData := FallbackVehicle(urlId);
      }
      currentVehicle := vehicleData;
      Populate(currentVehicle);
    }

    /** `initializeImageGallery()` */
    method InitializeImageGallery()
      modifies this
      ensures currentImageIndex == VehicleDetail.At(0)
      ensures currentVehicle == old(currentVehicle) && vehicleImages == old(vehicleImages)
      ensures errorShown == old(errorShown) && related == old(related)
    {
      currentImageIndex := VehicleDetail.At(0);
    }

    /** `selectImage(index)` */
    method SelectImage(index: VehicleDetail.Index)
      modifies this
      ensures currentImageIndex == VehicleDetail.Selected(|vehicleImages|, old(currentImageIndex), index)
      ensures currentVehicle == old(currentVehicle) && vehicleImages == old(vehicleImages)
      ensures errorShown == old(errorShown) && related == old(related)
    {
      if index.At? && (index.n < 0 || index.n >= |vehicleImages|) {
        return;
      }
      currentImageIndex := index;
    }

    /** `nextImage()` */
    method NextImage()
      modifies this
      ensures currentImageIndex ==
        VehicleDetail.Selected(|vehicleImages|, old(currentImageIndex), VehicleDetail.NextOf(|vehicleImages|, old(currentImageIndex)))
      ensures currentVehicle == old(currentVehicle) && vehicleImages == old(vehicleImages)
      ensures errorShown == old(errorShown) && related == old(related)
    {
      var next := VehicleDetail.NotANumber;
      if currentImageIndex.At? && |vehicleImages| != 0 {
        next := VehicleDetail.At(VehicleDetail.JsRem(currentImageIndex.n + 1, |vehicleImages|));
      }
      SelectImage(next);
    }

    /** `previousImage()` */
    method PreviousImage()
      modifies this
      ensures currentImageIndex ==
        VehicleDetail.Selected(|vehicleImages|, old(currentImageIndex), VehicleDetail.PreviousOf(|vehicleImages|, old(currentImageIndex)))
      ensures currentVehicle == old(currentVehicle) && vehicleImages == old(vehicleImages)
      ensures errorShown == old(errorShown) && related == old(related)
    {
      var prev := VehicleDetail.NotANumber;
      if currentImageIndex == VehicleDetail.At(0) {
        prev := VehicleDetail.At(|vehicleImages| - 1);
      } else if currentImageIndex.At? {
        prev := VehicleDetail.At(currentImageIndex.n - 1);
      }
      SelectImage(prev);
    }

    /** The `keydown` listener of `initializeImageGallery`. */
    method KeyDown(key: string)
      modifies this
      ensures currentImageIndex == VehicleDetail.KeyStep(|vehicleImages|, old(currentImageIndex), key)
      ensures currentVehicle == old(currentVehicle) && vehicleImages == old(vehicleImages)
      ensures errorShown == old(errorShown) && related == old(related)
    {
      if |vehicleImages| == 0 {
        return;
      }
      if key == "ArrowLeft" {
        PreviousImage();
      } else if key == "ArrowRight" {
        NextImage();
      }
    }

    /** `loadRelatedVehicles()`, once `getVehicles` has answered: nothing
        without a current vehicle; otherwise the query asks for four
        vehicles of its type, and the grid shows the answer. */
    method LoadRelatedVehicles(response: Result<JsValue, string>) returns (queriedType: Option<JsValue>)
      modifies this
      ensures !Truthy(currentVehicle) ==> queriedType == None && related == old(related)
      ensures Truthy(currentVehicle) ==>
        queriedType == Some(Get(currentVehicle, "type")) && related == Related(response, Get(currentVehicle, "id"))
      ensures currentVehicle == old(currentVehicle) && currentImageIndex == old(currentImageIndex)
      ensures vehicleImages == old(vehicleImages) && errorShown == old(errorShown)
    {
      if !Truthy(currentVehicle) {
        return None;
      }
      queriedType := Some(Get(currentVehicle, "type"));
      related := Related(response, Get(currentVehicle, "id"));
    }
  }

  /** The `DOMContentLoaded` listener as written: `loadVehicleData()` is
      not awaited, so when it has to wait for the API the related vehicles
      are asked for while `currentVehicle` is still `null`, and the grid is
      never filled. */
  method OpenPageAsWritten(stored: Option<Result<JsValue, string>>, urlId: string, fetched: Result<JsValue, string>,
                           relatedResponse: Result<JsValue, string>)
    returns (page: Page)
    ensures page.currentVehicle == LoadVehicle(stored, urlId, fetched)
    ensures Deferred(stored, urlId) ==> page.related == Untouched
    ensures !Deferred(stored, urlId) ==> page.related == Related(relatedResponse, Get(page.currentVehicle, "id"))
  {
    page := new Page();
    var deferred := Deferred(stored, urlId);
    if !deferred {
      page.LoadVehicleData(stored, urlId, fetched);
    }
    page.InitializeImageGallery();
    var _ := page.LoadRelatedVehicles(relatedResponse);
    if deferred {
      page.LoadVehicleData(stored, urlId, fetched);
    }
  }

  /** A page opened with `?id=7` and nothing stored: the API gives the
      vehicle and a related one, yet the grid keeps its own markup. */
  method RelatedMissedForApiVehicle() returns (page: Page, shouldShow: RelatedView)
    ensures Truthy(page.currentVehicle) && shouldShow.Cards? && page.related == Untouched
  {
    var seven := Obj([("id", Str("7"))]);
    var answer := Obj([("vehicles", Arr([Obj([("id", Str("8"))])]))]);
    page := OpenPageAsWritten(None, "7", Ok(seven), Ok(answer));
    assert Get(page.currentVehicle, "id") == Str("7");
    assert Get(answer, "vehicles") == Arr([Obj([("id", Str("8"))])]);
    assert OtherAt(Obj([("id", Str("8"))]), Str("7"));
    assert NoNullish(Get(answer, "vehicles").items);
    shouldShow := Related(Ok(answer), Get(page.currentVehicle, "id"));
  }

  /** The listener with `loadVehicleData()` awaited before the related
      vehicles are asked for: the grid always answers for the shown
      vehicle, and never shows that vehicle itself. */
  method OpenPage(stored: Option<Result<JsValue, string>>, urlId: string, fetched: Result<JsValue, string>,
                  relatedResponse: Result<JsValue, string>)
    returns (page: Page)
    ensures page.currentVehicle == LoadVehicle(stored, urlId, fetched)
    ensures page.related == Related(relatedResponse, Get(page.currentVehicle, "id"))
    ensures page.related.Cards? ==>
      forall k :: 0 <= k < |page.related.vehicles| ==> Get(page.related.vehicles[k], "id") != Get(page.currentVehicle, "id")
    ensures page.currentImageIndex == VehicleDetail.At(0)
  {
    page := new Page();
    page.LoadVehicleData(stored, urlId, fetched);
    page.InitializeImageGallery();
    var _ := page.LoadRelatedVehicles(relatedResponse);
  }

  /** Once a vehicle has been shown without the error state, the gallery
      is never empty, so the arrows move within it and never reach `NaN`. */
  lemma ShownGalleryNavigates(vehicle: JsValue, n: int, key: string)
    requires GalleryImages(Or(Get(vehicle, "images"), Arr([]))).Ok?
    requires 0 <= n < |GalleryImages(Or(Get(vehicle, "images"), Arr([]))).value|
    ensures var count := |GalleryImages(Or(Get(vehicle, "images"), Arr([]))).value|;
      count >= 1 && var r := VehicleDetail.KeyStep(count, VehicleDetail.At(n), key); r.At? && 0 <= r.n < count
  {
    VehicleDetail.KeysStayInRange(|GalleryImages(Or(Get(vehicle, "images"), Arr([]))).value|, n, key);
  }

  /** Without a stored vehicle or an answer from the API, the fallback
      gallery is its three images. */
  lemma FallbackGallery(urlId: string)
    ensures var v := LoadVehicle(None, urlId, Err("offline"));
      GalleryImages(Or(Get(v, "images"), Arr([]))) == Ok([FrontImage, SideImage, BackImage])
  {
    FallbackImagesRead(urlId);
    RelativePathKept(FrontImage);
    RelativePathKept(SideImage);
    RelativePathKept(BackImage);
    var expected := [FrontImage, SideImage, BackImage];
    assert forall k :: 0 <= k < 3 ==> ApiClient.GetImageUrl(FallbackImages[k]) == Ok(expected[k]);
    var r := ImageUrls(FallbackImages);
    assert r.Ok? && |r.value| == 3;
    assert r.value == expected;
  }

  /** A relative asset path is used as it is. */
  lemma RelativePathKept(p: string)
    requires |p| > 0 && p[0] == '.'
    ensures ApiClient.GetImageUrl(Str(p)) == Ok(p)
  {
    assert "http"[0] == 'h' && "/static"[0] == '/' && "static"[0] == 's';
  }
}
