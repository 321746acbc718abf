/** The vehicle routes of `app/api/v1/vehicles.py`: query-parameter bounds,
    pagination arithmetic, the admin gate in front of every write, and the
    404s of the id-addressed routes. The admin dependency is passed in as
    its outcome (`RequireSuperuser` of `AuthGate`); FastAPI resolves it
    before it validates query parameters, so its error comes first. */
module VehiclesApi {
  import opened Wrappers
  import opened JsText
  import opened Http
  import opened Security
  import opened UserSchemas
  import opened AuthGate
  import opened VehicleRecords
  import opened VehicleCrud
  import opened ImageService

  /** Python's `a // b` (rounds toward negative infinity). */
  function FloorDiv(a: int, b: int): (r: int)
    requires b != 0
    ensures b > 0 ==> r * b <= a < r * b + b
    ensures b < 0 ==> r * b + b < a <= r * b
  {
    if b > 0 then a / b else (-a) / (-b)
  }

  /** What the database does with `LIMIT n` for a negative `n`; the
      engine behind `DATABASE_URL` is configuration. SQLite reads it as no
      limit, PostgreSQL refuses the statement. */
  datatype NegativeLimit = Unbounded | Refused

  /** `VehicleListResponse` (and the admin route's dict of the same keys). */
  datatype ListResponse = ListResponse(vehicles: seq<Vehicle>, total: nat, page: int, size: int, pages: int)

  /** The shared body of the two listing routes once the parameters are
      accepted: a page of `get_vehicles`, the `get_vehicles_count` total,
      `page = skip // limit + 1`, and `pages` rounded up (1 when `limit`
      is not positive). `limit == 0` divides by zero in the `page`
      expression; a negative `limit` fails or lists everything, as the
      engine decides. */
  function Paginate(rows: seq<Vehicle>, q: VehicleQuery, skip: nat, limit: int, engine: NegativeLimit): (r: Result<ListResponse, HttpError>)
    ensures r.Err? <==> limit == 0 || (limit < 0 && engine.Refused?)
    ensures r.Err? ==> r.error.status == InternalError
    ensures r.Ok? ==> r.value.total == |Filter(rows, q)| && r.value.size == limit
    ensures r.Ok? ==> forall k :: 0 <= k < |r.value.vehicles| ==>
      skip + k < |Filter(rows, q)| && r.value.vehicles[k] == Filter(rows, q)[skip + k]
    ensures r.Ok? && limit > 0 ==> |r.value.vehicles| == if skip >= r.value.total then 0
      else if limit <= r.value.total - skip then limit else r.value.total - skip
    ensures r.Ok? && limit < 0 ==>
      r.value.pages == 1 && |r.value.vehicles| == (if skip >= r.value.total then 0 else r.value.total - skip)
  {
    if limit == 0 then Err(HttpError(InternalError, "integer division or modulo by zero"))
    else if limit < 0 && engine.Refused? then Err(HttpError(InternalError, "LIMIT must not be negative"))
    else
      var page := GetVehicles(rows, q, skip, if limit > 0 then limit else |rows|);
      var total := GetVehiclesCount(rows, q);
      CountMatchesListing(rows, q, skip, if limit > 0 then limit else |rows|);
      Ok(ListResponse(page, total, FloorDiv(skip, limit) + 1, limit,
        if limit > 0 then FloorDiv(total + limit - 1, limit) else 1))
  }

  /** With a positive `limit`, `pages` is the least number of pages of
      `limit` rows that holds every match (none when nothing matches), and
      `page` is the page on which row `skip` falls. */
  lemma PagesCoverMatches(rows: seq<Vehicle>, q: VehicleQuery, skip: nat, limit: int, engine: NegativeLimit)
    requires limit > 0
    ensures var r := Paginate(rows, q, skip, limit, engine);
      r.Ok?
      && (r.value.total == 0 ==> r.value.pages == 0)
      && (r.value.total > 0 ==> r.value.pages >= 1 && (r.value.pages - 1) * limit < r.value.total <= r.value.pages * limit)
      && (r.value.page - 1) * limit <= skip < r.value.page * limit
  {
    PagesRoundUp(GetVehiclesCount(rows, q), limit);
    PageHoldsOffset(skip, limit);
  }

  lemma PagesRoundUp(total: nat, limit: int)
    requires limit > 0
    ensures var p := FloorDiv(total + limit - 1, limit);
      (total == 0 ==> p == 0) && (total > 0 ==> p >= 1 && (p - 1) * limit < total <= p * limit)
  {
    var p := FloorDiv(total + limit - 1, limit);
    assert (p - 1) * limit == p * limit - limit;
    assert (p + 1) * limit == p * limit + limit;
    if p > 0 {
      assert p * limit >= limit;
    }
  }

  lemma PageHoldsOffset(skip: nat, limit: int)
    requires limit > 0
    ensures var page := FloorDiv(skip, limit) + 1; (page - 1) * limit <= skip < page * limit
  {
    var d := FloorDiv(skip, limit);
    assert (d + 1) * limit == d * limit + limit;
  }

  /** `GET /api/v1/vehicles/`: `skip` below 0 or `limit` above 100 is
      refused with 422; otherwise the paginated listing for the filters. */
  function ListVehicles(rows: seq<Vehicle>, q: VehicleQuery, skip: int, limit: int, engine: NegativeLimit): (r: Result<ListResponse, HttpError>)
    ensures skip < 0 || limit > 100 ==> r.Err? && r.error.status == UnprocessableEntity
    ensures 0 <= skip && limit <= 100 ==> r == Paginate(rows, q, skip, limit, engine)
    ensures r.Ok? ==> 0 <= skip && 0 != limit <= 100 && r.value.total == |Filter(rows, q)|
  {
    if skip < 0 || limit > 100 then Err(HttpError(UnprocessableEntity, "query parameter out of range"))
    else Paginate(rows, q, skip, limit, engine)
  }

  /** `GET /api/v1/vehicles/admin/all`: the admin gate, then the same
      bounds and pagination over a query with only `search` and `status`
      (and, like the public listing, active rows only). */
  function AdminListVehicles(admin: Result<UserRow, HttpError>, rows: seq<Vehicle>, search: Option<string>, status: Option<string>,
      skip: int, limit: int, engine: NegativeLimit): (r: Result<ListResponse, HttpError>)
    ensures admin.Err? ==> r == Err(admin.error)
    ensures admin.Ok? ==> r == ListVehicles(rows, NoFilters.(search := search, status := status), skip, limit, engine)
    ensures r.Ok? ==> forall k :: 0 <= k < |r.value.vehicles| ==> r.value.vehicles[k].isActive
  {
    match admin
    case Err(e) => Err(e)
    case Ok(_) => ListVehicles(rows, NoFilters.(search := search, status := status), skip, limit, engine)
  }

  /** An active user without the superuser flag, holding a valid token,
      gets 403 from the admin listing whatever the query. */
  lemma AdminListForbidsOtherUsers(token: Jwt, users: seq<UserRow>, key: string, now: int, rows: seq<Vehicle>,
      search: Option<string>, status: Option<string>, skip: int, limit: int, engine: NegativeLimit)
    requires VerifyToken(token, key, now).Some?
    requires FindByUsername(users, token.claims.sub.value).Some?
    requires FindByUsername(users, token.claims.sub.value).value.isActive
    requires !FindByUsername(users, token.claims.sub.value).value.isSuperuser
    ensures var r := AdminListVehicles(RequireSuperuser(Some(token), users, key, now), rows, search, status, skip, limit, engine);
      r.Err? && r.error.status == Forbidden
  {
    InactiveBeforeForbidden(token, users, key, now);
  }

  /** `GET /api/v1/vehicles/featured`: `limit` above 10 is refused with
      422; otherwise up to `limit` active featured rows. */
  function FeaturedVehicles(rows: seq<Vehicle>, limit: int, engine: NegativeLimit): (r: Result<seq<Vehicle>, HttpError>)
    ensures r.Err? <==> limit > 10 || (limit < 0 && engine.Refused?)
    ensures limit > 10 ==> r.error.status == UnprocessableEntity
    ensures r.Ok? ==> forall k :: 0 <= k < |r.value| ==> r.value[k].isActive && r.value[k].isFeatured && r.value[k] in rows
    ensures r.Ok? && limit >= 0 ==> |r.value| <= limit
  {
    if limit > 10 then Err(HttpError(UnprocessableEntity, "query parameter out of range"))
    else if limit < 0 then
      if engine.Refused? then Err(HttpError(InternalError, "LIMIT must not be negative"))
      else Ok(GetFeaturedVehicles(rows, |rows|))
    else Ok(GetFeaturedVehicles(rows, limit))
  }

  /** `GET /api/v1/vehicles/{vehicle_id}`: the active row, or 404. */
  function GetVehicleRoute(rows: seq<Vehicle>, id: int): (r: Result<Vehicle, HttpError>)
    ensures r.Err? <==> forall v :: v in rows ==> !(v.id == id && v.isActive)
    ensures r.Err? ==> r.error == HttpError(NotFound, "Vehículo no encontrado")
    ensures r.Ok? ==> r.value in rows && r.value.id == id && r.value.isActive
  {
    match GetVehicle(rows, id)
    case None => Err(HttpError(NotFound, "Vehículo no encontrado"))
    case Some(v) => Ok(v)
  }

  datatype Dashboard = Dashboard(stats: VehicleStats, recentVehicles: seq<Vehicle>)

  /** `GET /api/v1/vehicles/admin/dashboard-stats`: the statistics and the
      first five active rows. */
  function DashboardStats(admin: Result<UserRow, HttpError>, rows: seq<Vehicle>): (r: Result<Dashboard, HttpError>)
    ensures admin.Err? ==> r == Err(admin.error)
    ensures admin.Ok? ==> r.Ok? && r.value.stats == GetVehicleStats(rows)
    ensures r.Ok? ==> |r.value.recentVehicles| == if |Filter(rows, NoFilters)| < 5 then |Filter(rows, NoFilters)| else 5
    ensures r.Ok? ==> forall k :: 0 <= k < |r.value.recentVehicles| ==> r.value.recentVehicles[k] == Filter(rows, NoFilters)[k]
  {
    match admin
    case Err(e) => Err(e)
    case Ok(_) =>
      CountMatchesListing(rows, NoFilters, 0, 5);
      Ok(Dashboard(GetVehicleStats(rows), GetVehicles(rows, NoFilters, 0, 5)))
  }

  /** `POST /api/v1/vehicles/`: the admin gate; `vehicleData` is `None`
      when the form field is not JSON (400), and a JSON object that does
      not parse as a `VehicleCreate` is also 400; otherwise the row is
      inserted with the admin as creator. The images are saved only when
      the first one has a file name, and their failures are not reported. */
  method CreateVehicleRoute(vehicles: VehicleTable, images: ImageTable, admin: Result<UserRow, HttpError>,
      vehicleData: Option<VehicleInput>, currentYear: int, now: int, files: seq<Upload>, uuids: seq<string>)
    returns (r: Result<Vehicle, HttpError>)
    requires vehicles.Valid() && images.Valid() && |uuids| == |files|
    modifies vehicles, images
    ensures vehicles.Valid() && images.Valid()
    ensures admin.Err? ==> r == Err(admin.error)
    ensures admin.Ok? && vehicleData.None? ==> r == Err(HttpError(BadRequest, "Datos de vehículo inválidos"))
    ensures admin.Ok? && vehicleData.Some? && ParseVehicleCreate(vehicleData.value, currentYear).Err? ==>
      r == Err(HttpError(BadRequest, "Error en validación: " + ParseVehicleCreate(vehicleData.value, currentYear).error))
    ensures r.Err? ==> vehicles.rows == old(vehicles.rows) && vehicles.nextId == old(vehicles.nextId)
    ensures r.Err? ==> images.images == old(images.images) && images.nextId == old(images.nextId)
    ensures r.Ok? <==> admin.Ok? && vehicleData.Some? && ParseVehicleCreate(vehicleData.value, currentYear).Ok?
    ensures r.Ok? ==>
      r.value == NewVehicleRow(old(vehicles.nextId), ParseVehicleCreate(vehicleData.value, currentYear).value, admin.value.id, now)
      && vehicles.rows == old(vehicles.rows) + [r.value] && vehicles.nextId == old(vehicles.nextId) + 1
      && GetVehicle(vehicles.rows, r.value.id) == Some(r.value)
    ensures r.Ok? && |files| > 0 && files[0].filename != "" ==>
      images.images == old(images.images) + Collected(r.value.id, files, uuids, old(images.nextId))
    ensures r.Ok? && !(|files| > 0 && files[0].filename != "") ==> images.images == old(images.images) && images.nextId == old(images.nextId)
  {
    if admin.Err? {
      return Err(admin.error);
    }
    if vehicleData.None? {
      return Err(HttpError(BadRequest, "Datos de vehículo inválidos"));
    }
    var parsed := ParseVehicleCreate(vehicleData.value, currentYear);
    if parsed.Err? {
      return Err(HttpError(BadRequest, "Error en validación: " + parsed.error));
    }
    var v := vehicles.CreateVehicle(parsed.value, admin.value.id, now);
    if |files| > 0 && files[0].filename != "" {
      var _ := images.SaveVehicleImages(v.id, files, uuids);
    }
    r := Ok(v);
  }

  /** `PUT /api/v1/vehicles/{vehicle_id}`: the admin gate, then the
      partial update of an active row, or 404. */
  method UpdateVehicleRoute(vehicles: VehicleTable, admin: Result<UserRow, HttpError>, id: int, u: VehicleUpdate)
    returns (r: Result<Vehicle, HttpError>)
    requires vehicles.Valid()
    modifies vehicles
    ensures vehicles.Valid()
    ensures admin.Err? ==> r == Err(admin.error)
    ensures admin.Ok? && GetVehicle(old(vehicles.rows), id).None? ==> r == Err(HttpError(NotFound, "Vehículo no encontrado"))
    ensures r.Err? ==> vehicles.rows == old(vehicles.rows) && vehicles.nextId == old(vehicles.nextId)
    ensures r.Ok? <==> admin.Ok? && GetVehicle(old(vehicles.rows), id).Some?
    ensures r.Ok? ==> var i := ActiveIndex(old(vehicles.rows), id).value;
      r.value == Patched(old(vehicles.rows)[i], u) && vehicles.rows == old(vehicles.rows)[i := r.value]
  {
    if admin.Err? {
      return Err(admin.error);
    }
    var updated := vehicles.UpdateVehicle(id, u);
    if updated.None? {
      return Err(HttpError(NotFound, "Vehículo no encontrado"));
    }
    r := Ok(updated.value);
  }

  /** `DELETE /api/v1/vehicles/{vehicle_id}`: the admin gate, then the soft
      delete of an active row, or 404. */
  method DeleteVehicleRoute(vehicles: VehicleTable, admin: Result<UserRow, HttpError>, id: int)
    returns (r: Result<string, HttpError>)
    requires vehicles.Valid()
    modifies vehicles
    ensures vehicles.Valid()
    ensures admin.Err? ==> r == Err(admin.error)
    ensures admin.Ok? && GetVehicle(old(vehicles.rows), id).None? ==> r == Err(HttpError(NotFound, "Vehículo no encontrado"))
    ensures r.Err? ==> vehicles.rows == old(vehicles.rows) && vehicles.nextId == old(vehicles.nextId)
    ensures r.Ok? <==> admin.Ok? && GetVehicle(old(vehicles.rows), id).Some?
    ensures r.Ok? ==>
      r.value == "Vehículo eliminado correctamente" && GetVehicle(vehicles.rows, id).None? && |vehicles.rows| == |old(vehicles.rows)|
  {
    if admin.Err? {
      return Err(admin.error);
    }
    var ok := vehicles.DeleteVehicle(id);
    if !ok {
      return Err(HttpError(NotFound, "Vehículo no encontrado"));
    }
    r := Ok("Vehículo eliminado correctamente");
  }

  /** The body of a successful upload. */
  datatype UploadReply = UploadReply(message: string, images: seq<VehicleImage>)

  /** `POST /api/v1/vehicles/{vehicle_id}/images`: the admin gate, 404 for
      a vehicle that is not active, otherwise `save_vehicle_images` and a
      message with the number of rows saved. */
  method UploadImagesRoute(vehicles: VehicleTable, images: ImageTable, admin: Result<UserRow, HttpError>,
      vehicleId: int, files: seq<Upload>, uuids: seq<string>)
    returns (r: Result<UploadReply, HttpError>)
    requires images.Valid() && |uuids| == |files|
    modifies images
    ensures images.Valid()
    ensures admin.Err? ==> r == Err(admin.error)
    ensures admin.Ok? && GetVehicle(vehicles.rows, vehicleId).None? ==> r == Err(HttpError(NotFound, "Vehículo no encontrado"))
    ensures r.Err? ==> images.images == old(images.images) && images.nextId == old(images.nextId)
    ensures r.Ok? <==> admin.Ok? && GetVehicle(vehicles.rows, vehicleId).Some?
    ensures r.Ok? ==> r.value.images == Collected(vehicleId, files, uuids, old(images.nextId))
    ensures r.Ok? ==> images.images == old(images.images) + r.value.images
    ensures r.Ok? ==> r.value.message == "Se subieron " + NatToString(|r.value.images|) + " imágenes correctamente"
  {
    if admin.Err? {
      return Err(admin.error);
    }
    if GetVehicle(vehicles.rows, vehicleId).None? {
      return Err(HttpError(NotFound, "Vehículo no encontrado"));
    }
    var saved := images.SaveVehicleImages(vehicleId, files, uuids);
    r := Ok(UploadReply("Se subieron " + NatToString(|saved|) + " imágenes correctamente", saved));
  }

  /** `DELETE /api/v1/vehicles/{vehicle_id}/images/{image_id}`: the admin
      gate, then `delete_image` by image id alone; the vehicle id in the
      path is not consulted. */
  method DeleteImageRoute(images: ImageTable, admin: Result<UserRow, HttpError>, vehicleId: int, imageId: int)
    returns (r: Result<string, HttpError>)
    requires images.Valid()
    modifies images
    ensures images.Valid()
    ensures admin.Err? ==> r == Err(admin.error) && images.images == old(images.images) && images.nextId == old(images.nextId)
    ensures admin.Ok? ==> (r.Err? <==> forall k :: 0 <= k < |old(images.images)| ==> old(images.images)[k].id != imageId)
    ensures admin.Ok? && r.Err? ==> r.error == HttpError(NotFound, "Imagen no encontrada") && images.images == old(images.images) && images.nextId == old(images.nextId)
    ensures r.Ok? ==> r.value == "Imagen eliminada correctamente"
    ensures r.Ok? ==> exists k :: (0 <= k < |old(images.images)| && old(images.images)[k].id == imageId
      && images.images == old(images.images)[..k] + old(images.images)[k + 1..])
  {
    if admin.Err? {
      return Err(admin.error);
    }
    var removed := images.DeleteImage(imageId);
    if removed.None? {
      return Err(HttpError(NotFound, "Imagen no encontrada"));
    }
    r := Ok("Imagen eliminada correctamente");
  }

  /** The body of `toggle-featured`. */
  datatype ToggleReply = ToggleReply(message: string, isFeatured: bool, vehicleId: int)

  function ToggleMessage(featured: bool): string {
    "Vehículo marcado como " + if featured then "destacado" else "normal"
  }

  /** `PATCH /api/v1/vehicles/{vehicle_id}/toggle-featured` as written: it
      hands `update_vehicle` a plain dict, whose missing `.dict` method
      raises once the row is found, so an existing vehicle always gets a
      500 and nothing is stored; a missing one gets 404. */
  function ToggleFeaturedAsWritten(admin: Result<UserRow, HttpError>, rows: seq<Vehicle>, id: int): (r: Result<ToggleReply, HttpError>)
    ensures r.Err?
    ensures admin.Err? ==> r.error == admin.error
    ensures admin.Ok? ==> (r.error.status == NotFound <==> GetVehicle(rows, id).None?)
    ensures admin.Ok? && GetVehicle(rows, id).Some? ==> r.error.status == InternalError
  {
    match admin
    case Err(e) => Err(e)
    case Ok(_) =>
      match GetVehicle(rows, id)
      case None => Err(HttpError(NotFound, "Vehículo no encontrado"))
      case Some(_) => Err(HttpError(InternalError, "'dict' object has no attribute 'dict'"))
  }

  /** The update the route means to send: only `is_featured` is set. */
  function FeaturedOnly(featured: bool): (u: VehicleUpdate)
    ensures u.isFeatured == Some(featured)
  {
    VehicleUpdate(None, None, None, None, None, None, None, None, None, None, None, None, None,
      Some(featured), None, None, None, None, None)
  }

  /** Patching with `FeaturedOnly` changes the flag and nothing else, so
      toggling twice gives the row back. */
  lemma FeaturedOnlyFlipsFlag(v: Vehicle)
    ensures Patched(v, FeaturedOnly(!v.isFeatured)) == v.(isFeatured := !v.isFeatured)
    ensures Patched(Patched(v, FeaturedOnly(!v.isFeatured)), FeaturedOnly(v.isFeatured)) == v
  {
  }

  /** `toggle-featured` as intended: the flag of an active row is negated
      through `update_vehicle` and the reply carries the new value. */
  method ToggleFeatured(vehicles: VehicleTable, admin: Result<UserRow, HttpError>, id: int)
    returns (r: Result<ToggleReply, HttpError>)
    requires vehicles.Valid()
    modifies vehicles
    ensures vehicles.Valid()
    ensures admin.Err? ==> r == Err(admin.error)
    ensures admin.Ok? && GetVehicle(old(vehicles.rows), id).None? ==> r == Err(HttpError(NotFound, "Vehículo no encontrado"))
    ensures r.Err? ==> vehicles.rows == old(vehicles.rows) && vehicles.nextId == old(vehicles.nextId)
    ensures r.Ok? <==> admin.Ok? && GetVehicle(old(vehicles.rows), id).Some?
    ensures r.Ok? ==> var i := ActiveIndex(old(vehicles.rows), id).value;
      var flipped := !old(vehicles.rows)[i].isFeatured;
      vehicles.rows == old(vehicles.rows)[i := old(vehicles.rows)[i].(isFeatured := flipped)]
      && r.value == ToggleReply(ToggleMessage(flipped), flipped, id)
  {
    if admin.Err? {
      return Err(admin.error);
    }
    var current := GetVehicle(vehicles.rows, id);
    if current.None? {
      return Err(HttpError(NotFound, "Vehículo no encontrado"));
    }
    var flipped := !current.value.isFeatured;
    FeaturedOnlyFlipsFlag(current.value);
    var updated := vehicles.UpdateVehicle(id, FeaturedOnly(flipped));
    r := Ok(ToggleReply(ToggleMessage(flipped), flipped, id));
  }
}
