/** `ImageService` of `app/services/image_service.py`: upload validation,
    stored-file naming, and the `vehicle_images` bookkeeping. The bytes,
    the disk and PIL are reduced to each upload's size and whether it can
    be written and decoded; `uuid4()` is a parameter. */
module ImageService {
  import opened Wrappers
  import opened JsText
  import opened Http
  import opened VehicleRecords

  const UploadDir: string := "static/uploads"
  const MaxFileSize: nat := 10 * 1024 * 1024
  /** `allowed_extensions`: jpg, jpeg, png and webp. */
  predicate AllowedExtension(ext: string) {
    ext == "jpg" || ext == "jpeg" || ext == "png" || ext == "webp"
  }

  /** One `UploadFile`: its name, MIME type, size in bytes, and whether
      writing it and building its thumbnail succeed. */
  datatype Upload = Upload(filename: string, contentType: Option<string>, size: nat, processable: bool)

  /** What `save_image` returns. */
  datatype SavedFile = SavedFile(
    filename: string,
    originalFilename: string,
    filePath: string,
    thumbnailPath: string,
    fileSize: nat,
    mimeType: Option<string>)

  /** `file.filename.split('.')[-1].lower()` */
  function Extension(filename: string): string {
    ToLower(AfterLastDot(filename))
  }

  /** `validate_image`: a name, an allowed extension and an `image/` MIME
      type, each refused with 400. */
  function ValidateImage(file: Upload): (r: Result<bool, HttpError>)
    ensures r.Ok? <==> (
      file.filename != "" && AllowedExtension(Extension(file.filename))
      && file.contentType.Some? && StartsWith(file.contentType.value, "image/"))
    ensures r.Ok? ==> r.value
    ensures r.Err? ==> r.error.status == BadRequest
  {
    if file.filename == "" then Err(HttpError(BadRequest, "No filename provided"))
    else if !AllowedExtension(Extension(file.filename)) then
      Err(HttpError(BadRequest, "Formato de archivo no permitido. Formatos válidos: jpg, jpeg, png, webp"))
    else if file.contentType.None? || !StartsWith(file.contentType.value, "image/") then
      Err(HttpError(BadRequest, "El archivo debe ser una imagen"))
    else Ok(true)
  }

  /** `save_image`. Validation runs before the `try`, so its errors keep
      status 400; the size check sits inside it and, like a write or
      thumbnail failure, reaches the caller as 500. */
  function SaveImage(file: Upload, uuid: string): (r: Result<SavedFile, HttpError>)
    ensures ValidateImage(file).Err? ==> r == Err(ValidateImage(file).error)
    ensures ValidateImage(file).Ok? && (file.size > MaxFileSize || !file.processable) ==>
      r.Err? && r.error.status == InternalError
    ensures r.Ok? <==> ValidateImage(file).Ok? && file.size <= MaxFileSize && file.processable
    ensures r.Ok? ==> (
      r.value.originalFilename == file.filename && r.value.fileSize == file.size
      && r.value.mimeType == file.contentType)
  {
    var _ :- ValidateImage(file);
    var name := uuid + "." + Extension(file.filename);
    if file.size > MaxFileSize || !file.processable then
      Err(HttpError(InternalError, "Error al procesar la imagen"))
    else
      // the returned paths spell out the upload directory, "static/uploads"
      Ok(SavedFile(name, file.filename, UploadDir + "/vehicles/" + name,
        UploadDir + "/vehicles/thumbnails/" + name, file.size, file.contentType))
  }

  /** `delete_image`'s thumbnail path: `/vehicles/` becomes
      `/vehicles/thumbnails/` wherever it occurs. */
  function ThumbnailPathFor(filePath: string): string {
    ReplaceAll(filePath, "/vehicles/", "/vehicles/thumbnails/")
  }

  /** A text without '/' holds no "/vehicles/". */
  lemma NoSlashNoVehicles(s: string)
    requires forall k :: 0 <= k < |s| ==> s[k] != '/'
    ensures !Contains(s, "/vehicles/")
  {
    forall i | 0 <= i <= |s| - 10
      ensures !OccursAt(s, "/vehicles/", i)
    {
      assert s[i..i + 10][0] == s[i];
    }
    ContainsAt(s, "/vehicles/");
  }

  /** No "/vehicles/" starts inside the upload directory's name. */
  lemma UploadDirHasNoOccurrence(rest: string)
    ensures forall i :: 0 <= i < |UploadDir| ==> !StartsWith((UploadDir + rest)[i..], "/vehicles/")
  {
    forall i | 0 <= i < |UploadDir|
      ensures !StartsWith((UploadDir + rest)[i..], "/vehicles/")
    {
      var t := (UploadDir + rest)[i..];
      if i != 6 {
        assert t[0] == UploadDir[i] != '/';
      } else {
        assert t[1] == 'u';
      }
    }
  }

  /** The replacement maps a stored file's path to its thumbnail's path. */
  lemma {:induction false} ThumbnailOfStoredPath(name: string)
    requires forall k :: 0 <= k < |name| ==> name[k] != '/'
    ensures ThumbnailPathFor(UploadDir + "/vehicles/" + name) == UploadDir + "/vehicles/thumbnails/" + name
  {
    var pat := "/vehicles/";
    var rep := "/vehicles/thumbnails/";
    var b := pat + name;
    assert UploadDir + pat + name == UploadDir + b;
    UploadDirHasNoOccurrence(b);
    ReplaceAllSkipsPrefix(UploadDir, b, pat, rep);
    assert b[..|pat|] == pat && b[|pat|..] == name;
    NoSlashNoVehicles(name);
    ReplaceAllAbsent(name, pat, rep);
    assert ReplaceAll(b, pat, rep) == rep + name;
    assert UploadDir + (rep + name) == UploadDir + rep + name;
  }

  /** The thumbnail `delete_image` derives from a stored file's path is the
      one `save_image` wrote, for any uuid text without '/' (as `uuid4`
      produces). */
  lemma DeletePathsMatchSavedPaths(file: Upload, uuid: string)
    requires forall k :: 0 <= k < |uuid| ==> uuid[k] != '/'
    requires SaveImage(file, uuid).Ok?
    ensures var saved := SaveImage(file, uuid).value;
      ThumbnailPathFor(saved.filePath) == saved.thumbnailPath
  {
    var ext := Extension(file.filename);
    var name := uuid + "." + ext;
    var saved := SaveImage(file, uuid).value;
    assert AllowedExtension(ext);
    ExtensionHasNoSlash(ext);
    assert forall k :: 0 <= k < |name| ==> name[k] != '/';
    ThumbnailOfStoredPath(name);
  }

  lemma ExtensionHasNoSlash(ext: string)
    requires AllowedExtension(ext)
    ensures forall k :: 0 <= k < |ext| ==> ext[k] != '/'
  {
  }

  /** A name without a dot is its own extension (lower-cased). */
  lemma ExtensionWithoutDot(filename: string)
    requires forall k :: 0 <= k < |filename| ==> filename[k] != '.'
    ensures Extension(filename) == ToLower(filename)
  {
    AfterLastDotHasNoDot(filename);
    assert AfterLastDot(filename) == filename;
  }

  /** What `save_vehicle_images` keeps of one file: nothing for a file
      without a name or whose `save_image` fails, else the stored file. */
  function Outcome(file: Upload, uuid: string): Option<SavedFile> {
    if file.filename == "" then None
    else match SaveImage(file, uuid)
      case Err(_) => None
      case Ok(saved) => Some(saved)
  }

  lemma OutcomeOfSave(file: Upload, uuid: string)
    ensures Outcome(file, uuid) ==
      if file.filename == "" || SaveImage(file, uuid).Err? then None else Some(SaveImage(file, uuid).value)
  {
  }

  /** The row `save_vehicle_images` adds for file `index`. */
  function ImageRow(id: int, vehicleId: int, index: nat, saved: SavedFile): (img: VehicleImage)
    ensures img.id == id && img.vehicleId == vehicleId && img.filePath == saved.filePath
    ensures img.isPrimary <==> index == 0
    ensures img.displayOrder == index
  {
    VehicleImage(id, vehicleId, saved.filename, saved.originalFilename, saved.filePath,
      Some(saved.fileSize), saved.mimeType, index == 0, None, index)
  }

  /** What the loop keeps of each file, file by file. */
  function Outcomes(files: seq<Upload>, uuids: seq<string>): (os: seq<Option<SavedFile>>)
    requires |uuids| == |files|
    ensures |os| == |files|
    ensures forall k :: 0 <= k < |files| ==> os[k] == Outcome(files[k], uuids[k])
  {
    seq(|files|, k requires 0 <= k < |files| => Outcome(files[k], uuids[k]))
  }

  /** The rows for a run of outcomes: one per stored file, in file order,
      with ids handed out from `firstId` on. */
  function Rows(vehicleId: int, os: seq<Option<SavedFile>>, firstId: int): (rows: seq<VehicleImage>)
    ensures |rows| <= |os|
  {
    if os == [] then []
    else
      var n := |os| - 1;
      var earlier := Rows(vehicleId, os[..n], firstId);
      match os[n]
      case None => earlier
      case Some(saved) => earlier + [ImageRow(firstId + |earlier|, vehicleId, n, saved)]
  }

  /** The rows `save_vehicle_images` adds for `files`. */
  function Collected(vehicleId: int, files: seq<Upload>, uuids: seq<string>, firstId: int): (rows: seq<VehicleImage>)
    requires |uuids| == |files|
    ensures |rows| <= |files|
  {
    Rows(vehicleId, Outcomes(files, uuids), firstId)
  }

  lemma RowsStep(vehicleId: int, os: seq<Option<SavedFile>>, firstId: int, i: nat)
    requires i < |os|
    ensures var earlier := Rows(vehicleId, os[..i], firstId);
      Rows(vehicleId, os[..i + 1], firstId)
      == if os[i].None? then earlier else earlier + [ImageRow(firstId + |earlier|, vehicleId, i, os[i].value)]
  {
    assert os[..i + 1][..i] == os[..i];
  }

  /** The rows for all the outcomes are the rows for all but the last, then
      at most one row for the last. */
  lemma RowsExtend(vehicleId: int, os: seq<Option<SavedFile>>, firstId: int)
    requires os != []
    ensures var n := |os| - 1;
      var earlier := Rows(vehicleId, os[..n], firstId);
      var rows := Rows(vehicleId, os, firstId);
      |earlier| <= |rows| <= |earlier| + 1
      && (forall j :: 0 <= j < |earlier| ==> rows[j] == earlier[j])
      && (os[n].Some? <==> |rows| > |earlier|)
      && (|rows| > |earlier| ==> rows[|earlier|] == ImageRow(firstId + |earlier|, vehicleId, n, os[n].value))
  {
  }

  /** Row `j` gets id `firstId + j` and is made from a stored file whose
      index is its display order. */
  lemma {:induction false} RowAt(vehicleId: int, os: seq<Option<SavedFile>>, firstId: int, j: nat)
    requires j < |Rows(vehicleId, os, firstId)|
    ensures var row := Rows(vehicleId, os, firstId)[j];
      var i := row.displayOrder;
      0 <= i < |os| && os[i].Some? && row == ImageRow(firstId + j, vehicleId, i, os[i].value)
    decreases |os|
  {
    var n := |os| - 1;
    var earlier := Rows(vehicleId, os[..n], firstId);
    RowsExtend(vehicleId, os, firstId);
    if j < |earlier| {
      RowAt(vehicleId, os[..n], firstId, j);
    }
  }

  /** Display orders strictly increase along the rows. */
  lemma {:induction false} RowsOrdered(vehicleId: int, os: seq<Option<SavedFile>>, firstId: int, j: nat, l: nat)
    requires j < l < |Rows(vehicleId, os, firstId)|
    ensures Rows(vehicleId, os, firstId)[j].displayOrder < Rows(vehicleId, os, firstId)[l].displayOrder
    decreases |os|
  {
    var n := |os| - 1;
    var earlier := Rows(vehicleId, os[..n], firstId);
    RowsExtend(vehicleId, os, firstId);
    if l < |earlier| {
      RowsOrdered(vehicleId, os[..n], firstId, j, l);
    } else {
      RowAt(vehicleId, os[..n], firstId, j);
    }
  }

  /** Every stored outcome has its row. */
  lemma {:induction false} RowsHaveRow(vehicleId: int, os: seq<Option<SavedFile>>, firstId: int, i: nat)
    requires i < |os| && os[i].Some?
    ensures var rows := Rows(vehicleId, os, firstId);
      exists j :: 0 <= j < |rows| && rows[j].displayOrder == i
    decreases |os|
  {
    var n := |os| - 1;
    var earlier := Rows(vehicleId, os[..n], firstId);
    var rows := Rows(vehicleId, os, firstId);
    RowsExtend(vehicleId, os, firstId);
    if i < n {
      assert os[..n][i] == os[i];
      RowsHaveRow(vehicleId, os[..n], firstId, i);
      var j :| 0 <= j < |earlier| && earlier[j].displayOrder == i;
      assert rows[j] == earlier[j];
    } else {
      assert rows[|earlier|].displayOrder == n;
    }
  }

  /** Row `j` gets id `firstId + j` and is made from a stored file whose
      index is its display order. */
  lemma CollectedRowAt(vehicleId: int, files: seq<Upload>, uuids: seq<string>, firstId: int, j: nat)
    requires |uuids| == |files| && j < |Collected(vehicleId, files, uuids, firstId)|
    ensures var row := Collected(vehicleId, files, uuids, firstId)[j];
      var i := row.displayOrder;
      0 <= i < |files| && Outcome(files[i], uuids[i]).Some?
      && row == ImageRow(firstId + j, vehicleId, i, Outcome(files[i], uuids[i]).value)
  {
    RowAt(vehicleId, Outcomes(files, uuids), firstId, j);
  }

  /** Display orders strictly increase along the rows. */
  lemma CollectedOrdered(vehicleId: int, files: seq<Upload>, uuids: seq<string>, firstId: int, j: nat, l: nat)
    requires |uuids| == |files| && j < l < |Collected(vehicleId, files, uuids, firstId)|
    ensures Collected(vehicleId, files, uuids, firstId)[j].displayOrder
      < Collected(vehicleId, files, uuids, firstId)[l].displayOrder
  {
    RowsOrdered(vehicleId, Outcomes(files, uuids), firstId, j, l);
  }

  /** Every file that is stored has its row. */
  lemma CollectedHasRow(vehicleId: int, files: seq<Upload>, uuids: seq<string>, firstId: int, i: nat)
    requires |uuids| == |files| && i < |files| && Outcome(files[i], uuids[i]).Some?
    ensures var rows := Collected(vehicleId, files, uuids, firstId);
      exists j :: 0 <= j < |rows| && rows[j].displayOrder == i
  {
    var os := Outcomes(files, uuids);
    assert os[i] == Outcome(files[i], uuids[i]);
    RowsHaveRow(vehicleId, os, firstId, i);
    assert Collected(vehicleId, files, uuids, firstId) == Rows(vehicleId, os, firstId);
  }

  /** Only the file at index 0 can become primary, so a call stores at most
      one primary image: the first row when file 0 is stored, and none at
      all when file 0 is skipped. */
  lemma SavedPrimaryIsFirstFile(vehicleId: int, files: seq<Upload>, uuids: seq<string>, firstId: int)
    requires |uuids| == |files|
    ensures var rows := Collected(vehicleId, files, uuids, firstId);
      (forall j :: 0 <= j < |rows| && rows[j].isPrimary ==> j == 0)
      && (|files| > 0 && Outcome(files[0], uuids[0]).Some? ==> |rows| > 0 && rows[0].isPrimary)
      && (|files| > 0 && Outcome(files[0], uuids[0]).None? ==> forall j :: 0 <= j < |rows| ==> !rows[j].isPrimary)
  {
    var os := Outcomes(files, uuids);
    RowsPrimaryFirst(vehicleId, os, firstId);
    assert Collected(vehicleId, files, uuids, firstId) == Rows(vehicleId, os, firstId);
    if |files| > 0 {
      assert os[0] == Outcome(files[0], uuids[0]);
    }
  }

  /** Display orders are indexes, so the first row's is the smallest. */
  lemma RowsPrimaryOnlyFirst(vehicleId: int, os: seq<Option<SavedFile>>, firstId: int, j: nat)
    requires j < |Rows(vehicleId, os, firstId)|
    ensures var rows := Rows(vehicleId, os, firstId);
      (rows[j].isPrimary ==> j == 0) && (rows[j].isPrimary ==> os[0].Some?)
  {
    var rows := Rows(vehicleId, os, firstId);
    RowAt(vehicleId, os, firstId, j);
    if j > 0 {
      RowAt(vehicleId, os, firstId, 0);
      RowsOrdered(vehicleId, os, firstId, 0, j);
      assert rows[j].displayOrder > 0;
    }
  }

  lemma RowsFirstPrimary(vehicleId: int, os: seq<Option<SavedFile>>, firstId: int)
    requires |os| > 0 && os[0].Some?
    ensures var rows := Rows(vehicleId, os, firstId);
      |rows| > 0 && rows[0].isPrimary
  {
    var rows := Rows(vehicleId, os, firstId);
    RowsHaveRow(vehicleId, os, firstId, 0);
    var j :| 0 <= j < |rows| && rows[j].displayOrder == 0;
    RowAt(vehicleId, os, firstId, 0);
    if j > 0 {
      RowsOrdered(vehicleId, os, firstId, 0, j);
      assert false;
    }
    RowAt(vehicleId, os, firstId, j);
  }

  lemma RowsPrimaryFirst(vehicleId: int, os: seq<Option<SavedFile>>, firstId: int)
    ensures var rows := Rows(vehicleId, os, firstId);
      (forall j :: 0 <= j < |rows| && rows[j].isPrimary ==> j == 0)
      && (|os| > 0 && os[0].Some? ==> |rows| > 0 && rows[0].isPrimary)
      && (|os| > 0 && os[0].None? ==> forall j :: 0 <= j < |rows| ==> !rows[j].isPrimary)
  {
    var rows := Rows(vehicleId, os, firstId);
    forall j | 0 <= j < |rows|
      ensures rows[j].isPrimary ==> j == 0 && os[0].Some?
    {
      RowsPrimaryOnlyFirst(vehicleId, os, firstId, j);
    }
    if |os| > 0 && os[0].Some? {
      RowsFirstPrimary(vehicleId, os, firstId);
    }
  }

  /** One entry of `reorder_images`' `image_orders`; a missing key is `None`. */
  datatype OrderItem = OrderItem(imageId: Option<int>, order: Option<int>)

  predicate WellFormed(item: OrderItem) {
    item.imageId.Some? && item.order.Some?
  }

  /** One `update({"display_order": ...})` on the rows with that id and
      vehicle. */
  function ApplyOrder(images: seq<VehicleImage>, vehicleId: int, item: OrderItem): (r: seq<VehicleImage>)
    requires WellFormed(item)
    ensures |r| == |images|
    ensures forall k :: 0 <= k < |r| ==> (
      r[k] == if images[k].id == item.imageId.value && images[k].vehicleId == vehicleId
        then images[k].(displayOrder := item.order.value) else images[k])
  {
    seq(|images|, k requires 0 <= k < |images| =>
      if images[k].id == item.imageId.value && images[k].vehicleId == vehicleId
      then images[k].(displayOrder := item.order.value) else images[k])
  }

  /** The updates of `reorder_images`, in list order. */
  function ApplyOrders(images: seq<VehicleImage>, vehicleId: int, items: seq<OrderItem>): seq<VehicleImage>
    requires forall j :: 0 <= j < |items| ==> WellFormed(items[j])
    decreases |items|
  {
    if items == [] then images
    else ApplyOrders(ApplyOrder(images, vehicleId, items[0]), vehicleId, items[1..])
  }

  lemma {:induction false} ApplyOrdersSnoc(images: seq<VehicleImage>, vehicleId: int, items: seq<OrderItem>, item: OrderItem)
    requires forall j :: 0 <= j < |items| ==> WellFormed(items[j])
    requires WellFormed(item)
    ensures forall j :: 0 <= j < |items + [item]| ==> WellFormed((items + [item])[j])
    ensures ApplyOrders(images, vehicleId, items + [item]) == ApplyOrder(ApplyOrders(images, vehicleId, items), vehicleId, item)
    decreases |items|
  {
    if items == [] {
      assert [item][1..] == [];
    } else {
      assert (items + [item])[1..] == items[1..] + [item];
      ApplyOrdersSnoc(ApplyOrder(images, vehicleId, items[0]), vehicleId, items[1..], item);
    }
  }

  /** `reorder_images` leaves every row's identity and primary flag alone;
      a row of another vehicle, or one no entry names, keeps its order;
      otherwise the last entry naming it decides its order. */
  lemma {:induction false} ReorderOutcome(images: seq<VehicleImage>, vehicleId: int, items: seq<OrderItem>, k: nat)
    requires forall j :: 0 <= j < |items| ==> WellFormed(items[j])
    requires k < |images|
    ensures var r := ApplyOrders(images, vehicleId, items);
      |r| == |images| && r[k] == images[k].(displayOrder := r[k].displayOrder)
      && (images[k].vehicleId != vehicleId || (forall j :: 0 <= j < |items| ==> items[j].imageId.value != images[k].id) ==>
            r[k] == images[k])
      && (images[k].vehicleId == vehicleId && |items| > 0 && items[|items| - 1].imageId.value == images[k].id ==>
            r[k].displayOrder == items[|items| - 1].order.value)
    decreases |items|
  {
    if items != [] {
      var init := items[..|items| - 1];
      var last := items[|items| - 1];
      assert items == init + [last];
      ApplyOrdersSnoc(images, vehicleId, init, last);
      ReorderOutcome(images, vehicleId, init, k);
    }
  }

  /** One turn of the loop: file `i` adds its row exactly when it has a
      name and `save_image` succeeds. */
  lemma CollectStep(vehicleId: int, files: seq<Upload>, uuids: seq<string>, os: seq<Option<SavedFile>>, firstId: int, i: nat,
                     earlier: seq<VehicleImage>)
    requires |uuids| == |files| && os == Outcomes(files, uuids) && i < |files|
    requires earlier == Rows(vehicleId, os[..i], firstId)
    ensures files[i].filename == "" || SaveImage(files[i], uuids[i]).Err? ==>
      Rows(vehicleId, os[..i + 1], firstId) == earlier
    ensures files[i].filename != "" && SaveImage(files[i], uuids[i]).Ok? ==>
      Rows(vehicleId, os[..i + 1], firstId)
      == earlier + [ImageRow(firstId + |earlier|, vehicleId, i, SaveImage(files[i], uuids[i]).value)]
  {
    RowsStep(vehicleId, os, firstId, i);
    OutcomeOfSave(files[i], uuids[i]);
    assert os[i] == Outcome(files[i], uuids[i]);
    if files[i].filename == "" || SaveImage(files[i], uuids[i]).Err? {
      assert os[i] == None;
    } else {
      var stored := SaveImage(files[i], uuids[i]).value;
      assert os[i] == Some(stored);
      assert Rows(vehicleId, os[..i + 1], firstId) == earlier + [ImageRow(firstId + |earlier|, vehicleId, i, stored)];
    }
  }

  /** The loop of `save_vehicle_images`: a file without a name is skipped,
      a file whose `save_image` fails is skipped, and every other file adds
      the row for its index, with ids handed out from `firstId` on. */
  method CollectImages(vehicleId: int, files: seq<Upload>, uuids: seq<string>, firstId: int) returns (saved: seq<VehicleImage>)
    requires |uuids| == |files|
    ensures saved == Collected(vehicleId, files, uuids, firstId)
  {
    saved := [];
    ghost var os := Outcomes(files, uuids);
    var i := 0;
    while i < |files|
      invariant 0 <= i <= |files|
      invariant saved == Rows(vehicleId, os[..i], firstId)
    {
      CollectStep(vehicleId, files, uuids, os, firstId, i, saved);
      ghost var next := Rows(vehicleId, os[..i + 1], firstId);
      if files[i].filename != "" {
        var result := SaveImage(files[i], uuids[i]);
        if result.Ok? {
          saved := saved + [ImageRow(firstId + |saved|, vehicleId, i, result.value)];
        }
      }
      assert saved == next;
      i := i + 1;
    }
    assert os[..i] == os;
    assert Collected(vehicleId, files, uuids, firstId) == Rows(vehicleId, os, firstId);
  }

  /** The vehicle has an image with that id. */
  predicate HasImage(images: seq<VehicleImage>, vehicleId: int, imageId: int) {
    exists k :: 0 <= k < |images| && images[k].id == imageId && images[k].vehicleId == vehicleId
  }

  /** Clearing the flags keeps every (id, vehicle) pair. */
  lemma ClearKeepsImages(images: seq<VehicleImage>, vehicleId: int, imageId: int)
    ensures HasImage(ClearPrimary(images, vehicleId), vehicleId, imageId) <==> HasImage(images, vehicleId, imageId)
  {
    var r := ClearPrimary(images, vehicleId);
    if HasImage(images, vehicleId, imageId) {
      var k :| 0 <= k < |images| && images[k].id == imageId && images[k].vehicleId == vehicleId;
      assert r[k].id == imageId && r[k].vehicleId == vehicleId;
    }
    if HasImage(r, vehicleId, imageId) {
      var k :| 0 <= k < |r| && r[k].id == imageId && r[k].vehicleId == vehicleId;
      assert images[k].id == imageId && images[k].vehicleId == vehicleId;
    }
  }

  /** `update({"is_primary": False})` on the vehicle's images. */
  function ClearPrimary(images: seq<VehicleImage>, vehicleId: int): (r: seq<VehicleImage>)
    ensures |r| == |images|
    ensures forall k :: 0 <= k < |r| ==>
      r[k].id == images[k].id && r[k].vehicleId == images[k].vehicleId
      && (r[k].vehicleId == vehicleId ==> !r[k].isPrimary)
      && (r[k].vehicleId != vehicleId ==> r[k] == images[k])
  {
    seq(|images|, k requires 0 <= k < |images| =>
      if images[k].vehicleId == vehicleId then images[k].(isPrimary := false) else images[k])
  }

  /** `update({"is_primary": True})` on the image with that id and vehicle. */
  function MarkPrimary(images: seq<VehicleImage>, vehicleId: int, imageId: int): (r: seq<VehicleImage>)
    ensures |r| == |images|
    ensures forall k :: 0 <= k < |r| ==>
      r[k].id == images[k].id && r[k].vehicleId == images[k].vehicleId
      && (r[k].id == imageId && r[k].vehicleId == vehicleId ==> r[k].isPrimary)
      && (r[k].id != imageId || r[k].vehicleId != vehicleId ==> r[k] == images[k])
  {
    seq(|images|, k requires 0 <= k < |images| =>
      if images[k].id == imageId && images[k].vehicleId == vehicleId then images[k].(isPrimary := true) else images[k])
  }

  /** The rows after `set_primary_image`: the vehicle's images are flagged
      primary exactly when they carry the id; ids, orders and other
      vehicles' images do not change. */
  function WithPrimary(images: seq<VehicleImage>, vehicleId: int, imageId: int): (r: seq<VehicleImage>)
    ensures |r| == |images|
    ensures forall k :: 0 <= k < |r| ==> (
      r[k] == if images[k].vehicleId == vehicleId
        then images[k].(isPrimary := images[k].id == imageId) else images[k])
  {
    MarkPrimary(ClearPrimary(images, vehicleId), vehicleId, imageId)
  }

  /** The `vehicle_images` table. */
  class ImageTable {
    var images: seq<VehicleImage>
    var nextId: int

    ghost predicate Valid()
      reads this
    {
      (forall k :: 0 <= k < |images| ==> images[k].id < nextId)
      && (forall i, j :: 0 <= i < j < |images| ==> images[i].id != images[j].id)
    }

    constructor ()
      ensures Valid() && images == [] && nextId == 1
    {
      images := [];
      nextId := 1;
    }

    /** `save_vehicle_images`: every file with a name whose `save_image`
      succeeds adds a row, primary iff it is file 0, ordered by its index;
      the others are skipped without error. `uuids[i]` is the `uuid4()`
      drawn for file `i`. */
    method SaveVehicleImages(vehicleId: int, files: seq<Upload>, uuids: seq<string>) returns (saved: seq<VehicleImage>)
      requires Valid() && |uuids| == |files|
      modifies this
      ensures Valid()
      ensures saved == Collected(vehicleId, files, uuids, old(nextId))
      ensures images == old(images) + saved && nextId == old(nextId) + |saved|
    {
      saved := CollectImages(vehicleId, files, uuids, nextId);
      forall j | 0 <= j < |saved|
        ensures saved[j].id == old(nextId) + j
      {
        CollectedRowAt(vehicleId, files, uuids, nextId, j);
      }
      images := images + saved;
      nextId := nextId + |saved|;
    }

    /** `delete_image`: drops the first row with the id and reports the
      stored file and the thumbnail path it removes; an unknown id gives
      `None` and changes nothing. */
    method DeleteImage(imageId: int) returns (removed: Option<(string, string)>)
      requires Valid()
      modifies this
      ensures Valid() && nextId == old(nextId)
      ensures removed.None? <==> forall k :: 0 <= k < |old(images)| ==> old(images)[k].id != imageId
      ensures removed.None? ==> images == old(images)
      ensures removed.Some? ==> exists k :: (
        0 <= k < |old(images)| && old(images)[k].id == imageId
        && images == old(images)[..k] + old(images)[k + 1..]
        && removed.value == (old(images)[k].filePath, ThumbnailPathFor(old(images)[k].filePath)))
      ensures forall k :: 0 <= k < |images| ==> images[k].id != imageId
    {
      var k := 0;
      while k < |images|
        invariant 0 <= k <= |images|
        invariant forall j :: 0 <= j < k ==> images[j].id != imageId
      {
        if images[k].id == imageId {
          var path := images[k].filePath;
          removed := Some((path, ThumbnailPathFor(path)));
          images := images[..k] + images[k + 1..];
          return;
        }
        k := k + 1;
      }
      removed := None;
    }

    /** `set_primary_image`: clears the flag on all of the vehicle's images,
      then sets it on the row with that id and vehicle; the result says
      whether such a row exists. */
    method SetPrimaryImage(vehicleId: int, imageId: int) returns (ok: bool)
      requires Valid()
      modifies this
      ensures Valid() && nextId == old(nextId)
      ensures ok <==> HasImage(old(images), vehicleId, imageId)
      ensures images == WithPrimary(old(images), vehicleId, imageId)
    {
      ClearKeepsImages(images, vehicleId, imageId);
      images := ClearPrimary(images, vehicleId);
      ok := HasImage(images, vehicleId, imageId);
      images := MarkPrimary(images, vehicleId, imageId);
    }

    /** `reorder_images`: applies the entries in order; an entry without
      `image_id` or `order` raises, and the rollback undoes every update
      made so far. */
    method ReorderImages(vehicleId: int, items: seq<OrderItem>) returns (ok: bool)
      requires Valid()
      modifies this
      ensures Valid() && nextId == old(nextId)
      ensures ok <==> forall j :: 0 <= j < |items| ==> WellFormed(items[j])
      ensures !ok ==> images == old(images)
      ensures ok ==> images == ApplyOrders(old(images), vehicleId, items)
    {
      var before := images;
      var k := 0;
      while k < |items|
        invariant 0 <= k <= |items|
        invariant forall j :: 0 <= j < k ==> WellFormed(items[j])
        invariant images == ApplyOrders(before, vehicleId, items[..k])
        invariant Valid() && nextId == old(nextId)
      {
        if !WellFormed(items[k]) {
          images := before;
          return false;
        }
        ApplyOrdersSnoc(before, vehicleId, items[..k], items[k]);
        assert items[..k + 1] == items[..k] + [items[k]];
        images := ApplyOrder(images, vehicleId, items[k]);
        k := k + 1;
      }
      assert items[..k] == items;
      ok := true;
    }
  }

  /** After `set_primary_image`, the vehicle has exactly one primary image
      when it has an image with that id and none otherwise. */
  lemma PrimaryAfterSetPrimary(images: seq<VehicleImage>, vehicleId: int, imageId: int)
    requires forall i, j :: 0 <= i < j < |images| ==> images[i].id != images[j].id
    ensures var after := WithPrimary(images, vehicleId, imageId);
      (!HasImage(images, vehicleId, imageId) ==>
        forall k :: 0 <= k < |after| && after[k].vehicleId == vehicleId ==> !after[k].isPrimary)
      && (HasImage(images, vehicleId, imageId) ==> exists k :: (
        0 <= k < |after| && after[k].vehicleId == vehicleId && after[k].isPrimary
        && forall j :: 0 <= j < |after| && j != k && after[j].vehicleId == vehicleId ==> !after[j].isPrimary))
  {
    var after := WithPrimary(images, vehicleId, imageId);
    if HasImage(images, vehicleId, imageId) {
      var k :| 0 <= k < |images| && images[k].id == imageId && images[k].vehicleId == vehicleId;
      forall j | 0 <= j < |after| && j != k && after[j].vehicleId == vehicleId
        ensures !after[j].isPrimary
      {
        assert images[j].id != images[k].id;
      }
      assert after[k].vehicleId == vehicleId && after[k].isPrimary;
    }
  }
}
