/** The vehicle page of `scripts/detalleVehiculo.js`: which vehicle it
    shows, and the image gallery with its `currentImageIndex`. */
module VehicleDetail {
  import opened Wrappers
  import opened JsValues

  /** The id `getDefaultVehicleData` gives the sample record. */
  const DefaultId: string := "default"
  const MainImage: string := "../assets/imagenes/iveco-stralis-main.jpg"
  const SideImage: string := "../assets/imagenes/iveco-stralis-side.jpg"
  const BackImage: string := "../assets/imagenes/iveco-stralis-back.jpg"
  const InteriorImage: string := "../assets/imagenes/iveco-stralis-interior.jpg"
  const SampleImages: seq<JsValue> := [Str(MainImage), Str(SideImage), Str(BackImage), Str(InteriorImage)]
  const SampleDescription: string :=
    "Iveco Stralis 360 en excelente estado. Mantenimiento al día, documentación en regla. Ideal para trabajo pesado y larga distancia."

  /** `generateSampleVehicleData(vehicleId)`: the same Iveco record whatever
      the id, carrying that id. */
  function SampleVehicle(id: string): (v: JsValue)
    ensures Get(v, "id") == Str(id)
  {
    Obj([("id", Str(id)), ("brand", Str("Iveco")), ("model", Str("Stralis 360 AT")),
         ("fullName", Str("Iveco Stralis 360")), ("type", Str("camion-tractor")), ("typeName", Str("Tractor")),
         ("year", Num(2017)), ("kilometers", Num(770000)), ("power", Num(360)), ("traccion", Str("6x2")),
         ("transmission", Str("Automática")), ("color", Str("Blanco")), ("status", Str("Entrega inmediata")),
         ("location", Str("Villa María, Córdoba")), ("dateRegistered", Str("15/07/2025")),
         ("observations", Str("-")), ("images", Arr(SampleImages)), ("description", Str(SampleDescription))])
  }

  /** The sample record has the four sample images. */
  lemma SampleImagesRead(id: string)
    ensures Get(SampleVehicle(id), "images") == Arr(SampleImages) && |SampleImages| == 4
  {
    var fields := SampleVehicle(id).fields;
    assert fields[16] == ("images", Arr(SampleImages));
    LookupAt(fields, "images", 16);
  }

  /** `loadVehicleData`: the vehicle stored for this page by the page that
      linked to it (`stored`, the parsed session item; `None` when there is
      no item or it is empty), else the sample record for the `id` URL
      parameter (`""` when absent or empty), else the default record. */
  function LoadVehicle(stored: Option<JsValue>, urlId: string): (v: JsValue)
    ensures stored.Some? ==> v == stored.value
    ensures stored.None? ==> Get(v, "id") == Str(if urlId != "" then urlId else DefaultId)
  {
    match stored
    case Some(parsed) => parsed
    case None => if urlId != "" then SampleVehicle(urlId) else SampleVehicle(DefaultId)
  }

  /** Without a stored vehicle the page always shows the four sample
      images, whatever the URL says. */
  lemma LoadedSampleImages(urlId: string)
    ensures Get(LoadVehicle(None, urlId), "images") == Arr(SampleImages)
  {
    SampleImagesRead(if urlId != "" then urlId else DefaultId);
  }

  /** `vehicle.images || []` as the gallery reads it: an array's items, a
      string's characters (a string has a length and indices as well), and
      nothing for a falsy value. */
  function ImagesOf(vehicle: JsValue): seq<JsValue> {
    match Get(vehicle, "images")
    case Arr(items) => items
    case Str(s) => seq(|s|, i requires 0 <= i < |s| => Str([s[i]]))
    case _ => []
  }

  /** `currentImageIndex`: a number, or `NaN` once `nextImage` has taken a
      remainder by the length of an empty gallery. */
  datatype Index = At(n: int) | NotANumber

  /** JavaScript's `a % b` for `b != 0`: the remainder has the sign of `a`. */
  function JsRem(a: int, b: int): (r: int)
    requires b != 0
    ensures a >= 0 && b > 0 ==> 0 <= r < b && r == a % b
  {
    if a >= 0 then a % b else -((-a) % b)
  }

  /** `selectImage(index)`: a number outside `[0, count)` is ignored; `NaN`
      fails both comparisons of the guard, so it is taken. */
  function Selected(count: int, current: Index, index: Index): (r: Index)
    ensures index.At? ==> (r == index <==> 0 <= index.n < count || index == current)
    ensures index.At? && r != index ==> r == current
    ensures index == NotANumber ==> r == NotANumber
  {
    match index
    case NotANumber => NotANumber
    case At(n) => if n < 0 || n >= count then current else index
  }

  /** The index `nextImage` asks for: one on, modulo the number of images;
      `NaN` on an empty gallery or from `NaN`. */
  function NextOf(count: int, current: Index): Index {
    match current
    case NotANumber => NotANumber
    case At(n) => if count == 0 then NotANumber else At(JsRem(n + 1, count))
  }

  /** The index `previousImage` asks for: the last from 0, else one back;
      `NaN` stays `NaN`. */
  function PreviousOf(count: int, current: Index): Index {
    match current
    case NotANumber => NotANumber
    case At(n) => if n == 0 then At(count - 1) else At(n - 1)
  }

  /** The shown index after an arrow key: nothing happens without images,
      "ArrowLeft" steps back, "ArrowRight" steps on, other keys leave the
      gallery alone. */
  function KeyStep(count: int, current: Index, key: string): Index {
    if count == 0 then current
    else if key == "ArrowLeft" then Selected(count, current, PreviousOf(count, current))
    else if key == "ArrowRight" then Selected(count, current, NextOf(count, current))
    else current
  }

  /** From a shown image, `nextImage` shows the following one and wraps
      from the last to the first. */
  lemma NextWraps(count: int, n: int)
    requires 0 <= n < count
    ensures var r := Selected(count, At(n), NextOf(count, At(n)));
      r.At? && 0 <= r.n < count && (n < count - 1 ==> r.n == n + 1) && (n == count - 1 ==> r.n == 0)
  {
  }

  /** From a shown image, `previousImage` shows the one before and wraps
      from the first to the last. */
  lemma PreviousWraps(count: int, n: int)
    requires 0 <= n < count
    ensures var r := Selected(count, At(n), PreviousOf(count, At(n)));
      r.At? && 0 <= r.n < count && (n > 0 ==> r.n == n - 1) && (n == 0 ==> r.n == count - 1)
  {
  }

  /** Within the gallery, a step back undoes a step on and the other way
      round. */
  lemma StepsInverse(count: int, n: int)
    requires 0 <= n < count
    ensures var next := Selected(count, At(n), NextOf(count, At(n)));
      Selected(count, next, PreviousOf(count, next)) == At(n)
    ensures var prev := Selected(count, At(n), PreviousOf(count, At(n)));
      Selected(count, prev, NextOf(count, prev)) == At(n)
  {
    NextWraps(count, n);
    PreviousWraps(count, n);
    var next := Selected(count, At(n), NextOf(count, At(n)));
    PreviousWraps(count, next.n);
    var prev := Selected(count, At(n), PreviousOf(count, At(n)));
    NextWraps(count, prev.n);
  }

  /** On an empty gallery `nextImage` leaves `NaN` as the index, and from
      then on neither button brings a number back. */
  lemma EmptyNextIsNaN(n: int, count: int)
    ensures Selected(0, At(n), NextOf(0, At(n))) == NotANumber
    ensures Selected(count, NotANumber, NextOf(count, NotANumber)) == NotANumber
    ensures Selected(count, NotANumber, PreviousOf(count, NotANumber)) == NotANumber
  {
  }

  /** The arrow keys keep a shown index among the images. */
  lemma KeysStayInRange(count: int, n: int, key: string)
    requires 0 <= n < count
    ensures var r := KeyStep(count, At(n), key); r.At? && 0 <= r.n < count
  {
    NextWraps(count, n);
    PreviousWraps(count, n);
  }

  /** The page's globals. */
  class Page {
    var currentVehicle: JsValue
    var currentImageIndex: Index
    var vehicleImages: seq<JsValue>

    constructor ()
      ensures currentVehicle == Null && currentImageIndex == At(0) && vehicleImages == []
    {
      currentVehicle := Null;
      currentImageIndex := At(0);
      vehicleImages := [];
    }

    /** `populateVehicleData(vehicle)`, its gallery part: reading the name
        of `null` or `undefined` throws before anything is set. */
    method Populate(vehicle: JsValue)
      modifies this
      ensures currentVehicle == old(currentVehicle) && currentImageIndex == old(currentImageIndex)
      ensures vehicleImages == if vehicle == Null || vehicle == Undefined then old(vehicleImages) else ImagesOf(vehicle)
    {
      if vehicle == Null || vehicle == Undefined {
        return;
      }
      vehicleImages := ImagesOf(vehicle);
    }

    /** `loadVehicleData()` */
    method LoadVehicleData(stored: Option<JsValue>, urlId: string)
      modifies this
      ensures currentVehicle == LoadVehicle(stored, urlId) && currentImageIndex == old(currentImageIndex)
      ensures vehicleImages == if currentVehicle == Null || currentVehicle == Undefined then old(vehicleImages)
                               else ImagesOf(currentVehicle)
    {
      if stored.Some? {
        currentVehicle := stored.value;
      } else if urlId != "" {
        currentVehicle := SampleVehicle(urlId);
      } else {
        currentVehicle := SampleVehicle(DefaultId);
      }
      Populate(currentVehicle);
    }

    /** `initializeImageGallery()` */
    method InitializeImageGallery()
      modifies this
      ensures currentImageIndex == At(0)
      ensures currentVehicle == old(currentVehicle) && vehicleImages == old(vehicleImages)
    {
      currentImageIndex := At(0);
    }

    /** `selectImage(index)` */
    method SelectImage(index: Index)
      modifies this
      ensures currentImageIndex == Selected(|vehicleImages|, old(currentImageIndex), index)
      ensures currentVehicle == old(currentVehicle) && vehicleImages == old(vehicleImages)
    {
      if index.At? && (index.n < 0 || index.n >= |vehicleImages|) {
        return;
      }
      currentImageIndex := index;
    }

    /** `nextImage()` */
    method NextImage()
      modifies this
      ensures currentImageIndex == Selected(|vehicleImages|, old(currentImageIndex), NextOf(|vehicleImages|, old(currentImageIndex)))
      ensures currentVehicle == old(currentVehicle) && vehicleImages == old(vehicleImages)
    {
      var next := NotANumber;
      if currentImageIndex.At? && |vehicleImages| != 0 {
        next := At(JsRem(currentImageIndex.n + 1, |vehicleImages|));
      }
      SelectImage(next);
    }

    /** `previousImage()` */
    method PreviousImage()
      modifies this
      ensures currentImageIndex == Selected(|vehicleImages|, old(currentImageIndex), PreviousOf(|vehicleImages|, old(currentImageIndex)))
      ensures currentVehicle == old(currentVehicle) && vehicleImages == old(vehicleImages)
    {
      var prev := NotANumber;
      if currentImageIndex == At(0) {
        prev := At(|vehicleImages| - 1);
      } else if currentImageIndex.At? {
        prev := At(currentImageIndex.n - 1);
      }
      SelectImage(prev);
    }

    /** The `keydown` listener. */
    method KeyDown(key: string)
      modifies this
      ensures currentImageIndex == KeyStep(|vehicleImages|, old(currentImageIndex), key)
      ensures currentVehicle == old(currentVehicle) && vehicleImages == old(vehicleImages)
    {
      if |vehicleImages| == 0 {
        return;
      }
      if key == "ArrowLeft" {
        PreviousImage();
      } else if key == "ArrowRight" {
        NextImage();
      }
    }
  }

  /** Opening the page without a stored vehicle shows the sample gallery
      from its first image, and the arrow keys then move within it. */
  method OpenSamplePage(urlId: string, key: string) returns (shown: Index, count: int)
    ensures count == 4 && shown.At? && 0 <= shown.n < count
  {
    var page := new Page();
    page.LoadVehicleData(None, urlId);
    page.InitializeImageGallery();
    LoadedSampleImages(urlId);
    assert page.vehicleImages == SampleImages;
    KeysStayInRange(4, 0, key);
    page.KeyDown(key);
    shown := page.currentImageIndex;
    count := |page.vehicleImages|;
  }
}
