/** `VehicleCRUD` of `app/crud/vehicle.py` over a `vehicles` table kept as
    a sequence of rows in insertion (primary-key) order. */
module VehicleCrud {
  import opened Wrappers
  import opened JsText
  import opened VehicleRecords

  /** The optional filters of `get_vehicles` and `get_vehicles_count`. */
  datatype VehicleQuery = VehicleQuery(
    search: Option<string>,
    vtype: Option<string>,
    brand: Option<string>,
    yearMin: Option<int>,
    yearMax: Option<int>,
    kmMin: Option<int>,
    kmMax: Option<int>,
    status: Option<string>,
    isFeatured: Option<bool>)

  /** A query with no filter at all. */
  const NoFilters: VehicleQuery := VehicleQuery(None, None, None, None, None, None, None, None, None)

  /** Python truthiness of an optional string / integer parameter. */
  predicate GivenText(p: Option<string>) { p.Some? && p.value != "" }
  predicate GivenNumber(p: Option<int>) { p.Some? && p.value != 0 }

  /** The row predicate both queries build: active, and every truthy filter
      holds (`is_featured` whenever it is not `None`). */
  predicate Matches(v: Vehicle, q: VehicleQuery) {
    v.isActive
    && (GivenText(q.search) ==>
          ContainsIgnoringCase(v.brand, q.search.value) || ContainsIgnoringCase(v.model, q.search.value)
          || ContainsIgnoringCase(v.fullName, q.search.value))
    && (GivenText(q.vtype) ==> v.vtype == q.vtype.value)
    && (GivenText(q.brand) ==> ContainsIgnoringCase(v.brand, q.brand.value))
    && (GivenNumber(q.yearMin) ==> v.year >= q.yearMin.value)
    && (GivenNumber(q.yearMax) ==> v.year <= q.yearMax.value)
    && (GivenNumber(q.kmMin) ==> v.kilometers >= q.kmMin.value)
    && (GivenNumber(q.kmMax) ==> v.kilometers <= q.kmMax.value)
    && (GivenText(q.status) ==> v.status == q.status.value)
    && (q.isFeatured.Some? ==> v.isFeatured == q.isFeatured.value)
  }

  /** The matching rows, in table order. */
  function Filter(rows: seq<Vehicle>, q: VehicleQuery): (r: seq<Vehicle>)
    ensures |r| <= |rows|
    ensures forall k :: 0 <= k < |r| ==> Matches(r[k], q) && r[k] in rows
    ensures forall v :: v in rows && Matches(v, q) ==> v in r
  {
    if rows == [] then [] else
    var rest := Filter(rows[1..], q);
    if Matches(rows[0], q) then [rows[0]] + rest else rest
  }

  /** `get_vehicles`: the matching rows after `offset(skip).limit(limit)`. */
  function GetVehicles(rows: seq<Vehicle>, q: VehicleQuery, skip: nat, limit: nat): (r: seq<Vehicle>)
    ensures forall k :: 0 <= k < |r| ==> r[k].isActive && Matches(r[k], q)
    ensures forall k :: 0 <= k < |r| ==> skip + k < |Filter(rows, q)| && r[k] == Filter(rows, q)[skip + k]
  {
    var all := Filter(rows, q);
    if skip >= |all| then [] else all[skip..if skip + limit <= |all| then skip + limit else |all|]
  }

  /** `get_vehicles_count`: counts matching rows one by one. */
  function GetVehiclesCount(rows: seq<Vehicle>, q: VehicleQuery): (n: nat)
    ensures n <= |rows|
  {
    if rows == [] then 0 else (if Matches(rows[0], q) then 1 else 0) + GetVehiclesCount(rows[1..], q)
  }

  /** The count agrees with the listing, so a page holds
      min(limit, max(0, count - skip)) rows. */
  lemma {:induction false} CountMatchesListing(rows: seq<Vehicle>, q: VehicleQuery, skip: nat, limit: nat)
    ensures GetVehiclesCount(rows, q) == |Filter(rows, q)|
    ensures var count := GetVehiclesCount(rows, q);
      |GetVehicles(rows, q, skip, limit)| == if skip >= count then 0 else if limit <= count - skip then limit else count - skip
    decreases |rows|
  {
    if rows != [] {
      CountMatchesListing(rows[1..], q, skip, limit);
    }
  }

  /** A zero bound is falsy and filters nothing out; `is_featured = false`
      does filter. */
  lemma ZeroBoundsIgnored(v: Vehicle, q: VehicleQuery)
    requires v.isActive
    ensures Matches(v, q.(yearMin := Some(0), kmMax := Some(0))) <==> Matches(v, q.(yearMin := None, kmMax := None))
    ensures v.isFeatured ==> !Matches(v, q.(isFeatured := Some(false)))
  {
  }

  /** The position of the first active row with the id. */
  function ActiveIndex(rows: seq<Vehicle>, id: int): (r: Option<nat>)
    ensures r.Some? ==> r.value < |rows| && rows[r.value].id == id && rows[r.value].isActive
    ensures r.Some? ==> forall k :: 0 <= k < r.value ==> !(rows[k].id == id && rows[k].isActive)
    ensures r.None? <==> forall k :: 0 <= k < |rows| ==> !(rows[k].id == id && rows[k].isActive)
  {
    if rows == [] then None
    else if rows[0].id == id && rows[0].isActive then Some(0)
    else match ActiveIndex(rows[1..], id)
      case None => None
      case Some(i) => Some(i + 1)
  }

  /** `get_vehicle`: an active row with the id, or nothing; a soft-deleted
      row is invisible. */
  function GetVehicle(rows: seq<Vehicle>, id: int): (r: Option<Vehicle>)
    ensures r.Some? ==> r.value in rows && r.value.id == id && r.value.isActive
    ensures r.None? <==> forall v :: v in rows ==> !(v.id == id && v.isActive)
  {
    match ActiveIndex(rows, id)
    case None => None
    case Some(i) => Some(rows[i])
  }

  /** `get_featured_vehicles`: at most `limit` active featured rows, in order. */
  function GetFeaturedVehicles(rows: seq<Vehicle>, limit: nat): (r: seq<Vehicle>)
    ensures |r| <= limit
    ensures forall k :: 0 <= k < |r| ==> r[k].isActive && r[k].isFeatured && r[k] in rows
  {
    GetVehicles(rows, NoFilters.(isFeatured := Some(true)), 0, limit)
  }

  /** `get_vehicle_stats`: five counts of active rows. */
  function GetVehicleStats(rows: seq<Vehicle>): (s: VehicleStats)
    ensures s.total <= |rows|
  {
    VehicleStats(
      GetVehiclesCount(rows, NoFilters),
      GetVehiclesCount(rows, NoFilters.(status := Some("Disponible"))),
      GetVehiclesCount(rows, NoFilters.(status := Some("Reservado"))),
      GetVehiclesCount(rows, NoFilters.(status := Some("Vendido"))),
      GetVehiclesCount(rows, NoFilters.(isFeatured := Some(true))))
  }

  /** The three status counters count disjoint sets of active rows, so
      they never add up to more than the total. */
  lemma {:induction false} StatusCountsWithinTotal(rows: seq<Vehicle>)
    ensures var s := GetVehicleStats(rows);
      s.available + s.reserved + s.sold <= s.total && s.featured <= s.total
    decreases |rows|
  {
    if rows != [] {
      StatusCountsWithinTotal(rows[1..]);
    }
  }

  /** One `setattr(db_vehicle, field, value)`. */
  datatype FieldAssignment =
    | SetBrand(brand: string)
    | SetModel(model: string)
    | SetFullName(fullName: string)
    | SetType(vtype: string)
    | SetTypeName(typeName: string)
    | SetYear(year: int)
    | SetKilometers(kilometers: int)
    | SetPower(power: Option<int>)
    | SetTraccion(traccion: Option<string>)
    | SetTransmission(transmission: Option<string>)
    | SetColor(color: Option<string>)
    | SetStatus(status: string)
    | SetPrice(price: Option<int>)
    | SetFeatured(isFeatured: bool)
    | SetLocation(location: string)
    | SetDescription(description: Option<string>)
    | SetObservations(observations: Option<string>)
    | SetDateRegistered(dateRegistered: Option<string>)
    | SetActive(isActive: bool)

  function SetAttr(v: Vehicle, a: FieldAssignment): Vehicle {
    match a
    case SetBrand(x) => v.(brand := x)
    case SetModel(x) => v.(model := x)
    case SetFullName(x) => v.(fullName := x)
    case SetType(x) => v.(vtype := x)
    case SetTypeName(x) => v.(typeName := x)
    case SetYear(x) => v.(year := x)
    case SetKilometers(x) => v.(kilometers := x)
    case SetPower(x) => v.(power := x)
    case SetTraccion(x) => v.(traccion := x)
    case SetTransmission(x) => v.(transmission := x)
    case SetColor(x) => v.(color := x)
    case SetStatus(x) => v.(status := x)
    case SetPrice(x) => v.(price := x)
    case SetFeatured(x) => v.(isFeatured := x)
    case SetLocation(x) => v.(location := x)
    case SetDescription(x) => v.(description := x)
    case SetObservations(x) => v.(observations := x)
    case SetDateRegistered(x) => v.(dateRegistered := x)
    case SetActive(x) => v.(isActive := x)
  }

  /** Number of `VehicleUpdate` fields. */
  const FieldCount: nat := 19

  /** The `items()` entry for the k-th declared field of `VehicleUpdate`:
      present iff the client set that field. The fields come in four
      groups, which keeps each proof about one slot small. */
  function Slot(u: VehicleUpdate, k: nat): seq<FieldAssignment>
    requires k < FieldCount
  {
    if k < 5 then NameSlot(u, k)
    else if k < 10 then FigureSlot(u, k)
    else if k < 15 then ListingSlot(u, k)
    else RestSlot(u, k)
  }

  /** Brand, model, full name, type and type name. */
  function NameSlot(u: VehicleUpdate, k: nat): seq<FieldAssignment>
    requires k < 5
  {
    if k == 0 then (if u.brand.Some? then [SetBrand(u.brand.value)] else [])
    else if k == 1 then (if u.model.Some? then [SetModel(u.model.value)] else [])
    else if k == 2 then (if u.fullName.Some? then [SetFullName(u.fullName.value)] else [])
    else if k == 3 then (if u.vtype.Some? then [SetType(u.vtype.value)] else [])
    else (if u.typeName.Some? then [SetTypeName(u.typeName.value)] else [])
  }

  /** Year, kilometers, power, traction and transmission. */
  function FigureSlot(u: VehicleUpdate, k: nat): seq<FieldAssignment>
    requires 5 <= k < 10
  {
    if k == 5 then (if u.year.Some? then [SetYear(u.year.value)] else [])
    else if k == 6 then (if u.kilometers.Some? then [SetKilometers(u.kilometers.value)] else [])
    else if k == 7 then (if u.power.Some? then [SetPower(u.power.value)] else [])
    else if k == 8 then (if u.traccion.Some? then [SetTraccion(u.traccion.value)] else [])
    else (if u.transmission.Some? then [SetTransmission(u.transmission.value)] else [])
  }

  /** Colour, status, price, featured flag and location. */
  function ListingSlot(u: VehicleUpdate, k: nat): seq<FieldAssignment>
    requires 10 <= k < 15
  {
    if k == 10 then (if u.color.Some? then [SetColor(u.color.value)] else [])
    else if k == 11 then (if u.status.Some? then [SetStatus(u.status.value)] else [])
    else if k == 12 then (if u.price.Some? then [SetPrice(u.price.value)] else [])
    else if k == 13 then (if u.isFeatured.Some? then [SetFeatured(u.isFeatured.value)] else [])
    else (if u.location.Some? then [SetLocation(u.location.value)] else [])
  }

  /** Description, observations, registration date and active flag. */
  function RestSlot(u: VehicleUpdate, k: nat): seq<FieldAssignment>
    requires 15 <= k < FieldCount
  {
    if k == 15 then (if u.description.Some? then [SetDescription(u.description.value)] else [])
    else if k == 16 then (if u.observations.Some? then [SetObservations(u.observations.value)] else [])
    else if k == 17 then (if u.dateRegistered.Some? then [SetDateRegistered(u.dateRegistered.value)] else [])
    else (if u.isActive.Some? then [SetActive(u.isActive.value)] else [])
  }

  function ItemsFrom(u: VehicleUpdate, k: nat): seq<FieldAssignment>
    decreases FieldCount - k
  {
    if k >= FieldCount then [] else Slot(u, k) + ItemsFrom(u, k + 1)
  }

  /** `vehicle.dict(exclude_unset=True).items()`: the fields the client
      set, in declaration order. */
  function UpdateItems(u: VehicleUpdate): seq<FieldAssignment> {
    ItemsFrom(u, 0)
  }

  /** The `setattr` loop, one assignment after another. */
  function ApplyAll(v: Vehicle, items: seq<FieldAssignment>): Vehicle
    decreases |items|
  {
    if items == [] then v else ApplyAll(SetAttr(v, items[0]), items[1..])
  }

  /** Field-wise meaning of a partial update: a set field takes the new
      value, every other field keeps the old one. */
  function Patched(v: Vehicle, u: VehicleUpdate): (w: Vehicle)
    ensures w.id == v.id && w.createdAt == v.createdAt && w.createdBy == v.createdBy
  {
    v.(brand := u.brand.GetOr(v.brand), model := u.model.GetOr(v.model),
       fullName := u.fullName.GetOr(v.fullName), vtype := u.vtype.GetOr(v.vtype),
       typeName := u.typeName.GetOr(v.typeName), year := u.year.GetOr(v.year),
       kilometers := u.kilometers.GetOr(v.kilometers), power := u.power.GetOr(v.power),
       traccion := u.traccion.GetOr(v.traccion), transmission := u.transmission.GetOr(v.transmission),
       color := u.color.GetOr(v.color), status := u.status.GetOr(v.status), price := u.price.GetOr(v.price),
       isFeatured := u.isFeatured.GetOr(v.isFeatured), location := u.location.GetOr(v.location),
       description := u.description.GetOr(v.description), observations := u.observations.GetOr(v.observations),
       dateRegistered := u.dateRegistered.GetOr(v.dateRegistered), isActive := u.isActive.GetOr(v.isActive))
  }

  /** The patch restricted to the k-th field, in the same four groups. */
  function PatchSlot(v: Vehicle, u: VehicleUpdate, k: nat): Vehicle
    requires k < FieldCount
  {
    if k < 5 then PatchName(v, u, k)
    else if k < 10 then PatchFigure(v, u, k)
    else if k < 15 then PatchListingField(v, u, k)
    else PatchRestField(v, u, k)
  }

  function PatchName(v: Vehicle, u: VehicleUpdate, k: nat): Vehicle
    requires k < 5
  {
    if k == 0 then v.(brand := u.brand.GetOr(v.brand))
    else if k == 1 then v.(model := u.model.GetOr(v.model))
    else if k == 2 then v.(fullName := u.fullName.GetOr(v.fullName))
    else if k == 3 then v.(vtype := u.vtype.GetOr(v.vtype))
    else v.(typeName := u.typeName.GetOr(v.typeName))
  }

  function PatchFigure(v: Vehicle, u: VehicleUpdate, k: nat): Vehicle
    requires 5 <= k < 10
  {
    if k == 5 then v.(year := u.year.GetOr(v.year))
    else if k == 6 then v.(kilometers := u.kilometers.GetOr(v.kilometers))
    else if k == 7 then v.(power := u.power.GetOr(v.power))
    else if k == 8 then v.(traccion := u.traccion.GetOr(v.traccion))
    else v.(transmission := u.transmission.GetOr(v.transmission))
  }

  function PatchListingField(v: Vehicle, u: VehicleUpdate, k: nat): Vehicle
    requires 10 <= k < 15
  {
    if k == 10 then v.(color := u.color.GetOr(v.color))
    else if k == 11 then v.(status := u.status.GetOr(v.status))
    else if k == 12 then v.(price := u.price.GetOr(v.price))
    else if k == 13 then v.(isFeatured := u.isFeatured.GetOr(v.isFeatured))
    else v.(location := u.location.GetOr(v.location))
  }

  function PatchRestField(v: Vehicle, u: VehicleUpdate, k: nat): Vehicle
    requires 15 <= k < FieldCount
  {
    if k == 15 then v.(description := u.description.GetOr(v.description))
    else if k == 16 then v.(observations := u.observations.GetOr(v.observations))
    else if k == 17 then v.(dateRegistered := u.dateRegistered.GetOr(v.dateRegistered))
    else v.(isActive := u.isActive.GetOr(v.isActive))
  }

  function PatchFrom(v: Vehicle, u: VehicleUpdate, k: nat): Vehicle
    decreases FieldCount - k
  {
    if k >= FieldCount then v else PatchFrom(PatchSlot(v, u, k), u, k + 1)
  }

  lemma {:induction false} ApplyAllAppend(v: Vehicle, a: seq<FieldAssignment>, b: seq<FieldAssignment>)
    ensures ApplyAll(v, a + b) == ApplyAll(ApplyAll(v, a), b)
    decreases |a|
  {
    if a != [] {
      assert (a + b)[0] == a[0];
      assert (a + b)[1..] == a[1..] + b;
      ApplyAllAppend(SetAttr(v, a[0]), a[1..], b);
    } else {
      assert a + b == b;
    }
  }

  lemma ApplyAtMostOne(v: Vehicle, items: seq<FieldAssignment>)
    requires |items| <= 1
    ensures ApplyAll(v, items) == if items == [] then v else SetAttr(v, items[0])
  {
    if items != [] {
      assert items[1..] == [];
    }
  }

  /** One more turn of the `setattr` loop. */
  lemma ApplyAllSnoc(v: Vehicle, items: seq<FieldAssignment>, k: nat)
    requires k < |items|
    ensures ApplyAll(v, items[..k + 1]) == SetAttr(ApplyAll(v, items[..k]), items[k])
  {
    ApplyAllAppend(v, items[..k], [items[k]]);
    ApplyAtMostOne(ApplyAll(v, items[..k]), [items[k]]);
    assert items[..k + 1] == items[..k] + [items[k]];
  }

  /** The `setattr` loop over one slot's entry is that slot's patch. */
  lemma ApplySlot(v: Vehicle, u: VehicleUpdate, k: nat)
    requires k < FieldCount
    ensures ApplyAll(v, Slot(u, k)) == PatchSlot(v, u, k)
  {
    ApplyAtMostOne(v, Slot(u, k));
    if k < 5 {
      ApplyNameSlot(v, u, k);
    } else if k < 10 {
      ApplyFigureSlot(v, u, k);
    } else if k < 15 {
      ApplyListingSlot(v, u, k);
    } else {
      ApplyRestSlot(v, u, k);
    }
  }

  // One lemma per group and one branch per field keep each proof
  // obligation small.

  lemma ApplyNameSlot(v: Vehicle, u: VehicleUpdate, k: nat)
    requires k < 5
    ensures NameSlot(u, k) == [] ==> v == PatchName(v, u, k)
    ensures NameSlot(u, k) != [] ==> SetAttr(v, NameSlot(u, k)[0]) == PatchName(v, u, k)
  {
    if k == 0 {} else if k == 1 {} else if k == 2 {} else if k == 3 {} else {}
  }

  lemma ApplyFigureSlot(v: Vehicle, u: VehicleUpdate, k: nat)
    requires 5 <= k < 10
    ensures FigureSlot(u, k) == [] ==> v == PatchFigure(v, u, k)
    ensures FigureSlot(u, k) != [] ==> SetAttr(v, FigureSlot(u, k)[0]) == PatchFigure(v, u, k)
  {
    if k == 5 {} else if k == 6 {} else if k == 7 {} else if k == 8 {} else {}
  }

  lemma ApplyListingSlot(v: Vehicle, u: VehicleUpdate, k: nat)
    requires 10 <= k < 15
    ensures ListingSlot(u, k) == [] ==> v == PatchListingField(v, u, k)
    ensures ListingSlot(u, k) != [] ==> SetAttr(v, ListingSlot(u, k)[0]) == PatchListingField(v, u, k)
  {
    if k == 10 {} else if k == 11 {} else if k == 12 {} else if k == 13 {} else {}
  }

  lemma ApplyRestSlot(v: Vehicle, u: VehicleUpdate, k: nat)
    requires 15 <= k < FieldCount
    ensures RestSlot(u, k) == [] ==> v == PatchRestField(v, u, k)
    ensures RestSlot(u, k) != [] ==> SetAttr(v, RestSlot(u, k)[0]) == PatchRestField(v, u, k)
  {
    if k == 15 {} else if k == 16 {} else if k == 17 {} else {}
  }

  /** The `setattr` loop from the k-th slot on is the patch from the k-th
      slot on. */
  lemma {:induction false} ApplyItemsFrom(v: Vehicle, u: VehicleUpdate, k: nat)
    ensures ApplyAll(v, ItemsFrom(u, k)) == PatchFrom(v, u, k)
    decreases FieldCount - k
  {
    if k < FieldCount {
      ApplyStep(v, u, k);
      PatchStep(v, u, k);
      ApplyItemsFrom(PatchSlot(v, u, k), u, k + 1);
    }
  }

  /** One slot of the loop, then the rest. */
  lemma ApplyStep(v: Vehicle, u: VehicleUpdate, k: nat)
    requires k < FieldCount
    ensures ApplyAll(v, ItemsFrom(u, k)) == ApplyAll(PatchSlot(v, u, k), ItemsFrom(u, k + 1))
  {
    var slot := Slot(u, k);
    var rest := ItemsFrom(u, k + 1);
    assert ItemsFrom(u, k) == slot + rest;
    ApplyAllAppend(v, slot, rest);
    ApplySlot(v, u, k);
  }

  /** One slot of the patch, then the rest. */
  lemma PatchStep(v: Vehicle, u: VehicleUpdate, k: nat)
    requires k < FieldCount
    ensures PatchFrom(v, u, k) == PatchFrom(PatchSlot(v, u, k), u, k + 1)
  {
  }

  /** The first five slots of the patch: the names and the type. */
  lemma PatchNames(v: Vehicle, u: VehicleUpdate)
    ensures PatchFrom(v, u, 0) == PatchFrom(v.(brand := u.brand.GetOr(v.brand), model := u.model.GetOr(v.model),
      fullName := u.fullName.GetOr(v.fullName), vtype := u.vtype.GetOr(v.vtype),
      typeName := u.typeName.GetOr(v.typeName)), u, 5)
  {
    var w1 := v.(brand := u.brand.GetOr(v.brand));
    var w2 := w1.(model := u.model.GetOr(v.model));
    var w3 := w2.(fullName := u.fullName.GetOr(v.fullName));
    var w4 := w3.(vtype := u.vtype.GetOr(v.vtype));
    PatchStep(v, u, 0);
    PatchStep(w1, u, 1);
    PatchStep(w2, u, 2);
    PatchStep(w3, u, 3);
    PatchStep(w4, u, 4);
  }

  /** Slots 5 to 9: the figures and the drive train. */
  lemma PatchFigures(v: Vehicle, u: VehicleUpdate)
    ensures PatchFrom(v, u, 5) == PatchFrom(v.(year := u.year.GetOr(v.year),
      kilometers := u.kilometers.GetOr(v.kilometers), power := u.power.GetOr(v.power),
      traccion := u.traccion.GetOr(v.traccion), transmission := u.transmission.GetOr(v.transmission)), u, 10)
  {
    var w1 := v.(year := u.year.GetOr(v.year));
    var w2 := w1.(kilometers := u.kilometers.GetOr(v.kilometers));
    var w3 := w2.(power := u.power.GetOr(v.power));
    var w4 := w3.(traccion := u.traccion.GetOr(v.traccion));
    PatchStep(v, u, 5);
    PatchStep(w1, u, 6);
    PatchStep(w2, u, 7);
    PatchStep(w3, u, 8);
    PatchStep(w4, u, 9);
  }

  /** Slots 10 to 12: colour, status and price. */
  lemma PatchListing(v: Vehicle, u: VehicleUpdate)
    ensures PatchFrom(v, u, 10) == PatchFrom(v.(color := u.color.GetOr(v.color),
      status := u.status.GetOr(v.status), price := u.price.GetOr(v.price)), u, 13)
  {
    var w1 := v.(color := u.color.GetOr(v.color));
    var w2 := w1.(status := u.status.GetOr(v.status));
    PatchStep(v, u, 10);
    PatchStep(w1, u, 11);
    PatchStep(w2, u, 12);
  }

  /** Slots 13 and 14: the featured flag and the location. */
  lemma PatchPlacement(v: Vehicle, u: VehicleUpdate)
    ensures PatchFrom(v, u, 13) == PatchFrom(v.(isFeatured := u.isFeatured.GetOr(v.isFeatured),
      location := u.location.GetOr(v.location)), u, 15)
  {
    var w1 := v.(isFeatured := u.isFeatured.GetOr(v.isFeatured));
    PatchStep(v, u, 13);
    PatchStep(w1, u, 14);
  }

  /** Slots 15 to 18: the texts, the date and the active flag. */
  lemma PatchRest(v: Vehicle, u: VehicleUpdate)
    ensures PatchFrom(v, u, 15) == v.(description := u.description.GetOr(v.description),
      observations := u.observations.GetOr(v.observations),
      dateRegistered := u.dateRegistered.GetOr(v.dateRegistered), isActive := u.isActive.GetOr(v.isActive))
  {
    var w1 := v.(description := u.description.GetOr(v.description));
    var w2 := w1.(observations := u.observations.GetOr(v.observations));
    var w3 := w2.(dateRegistered := u.dateRegistered.GetOr(v.dateRegistered));
    PatchStep(v, u, 15);
    PatchStep(w1, u, 16);
    PatchStep(w2, u, 17);
    PatchStep(w3, u, 18);
  }

  /** Running the `setattr` loop over the set fields is the field-wise
      patch: set fields are overwritten, the rest are left unchanged. */
  lemma ApplyAllIsPatch(v: Vehicle, u: VehicleUpdate)
    ensures ApplyAll(v, UpdateItems(u)) == Patched(v, u)
  {
    ApplyItemsFrom(v, u, 0);
    PatchNames(v, u);
    var a := v.(brand := u.brand.GetOr(v.brand), model := u.model.GetOr(v.model),
      fullName := u.fullName.GetOr(v.fullName), vtype := u.vtype.GetOr(v.vtype),
      typeName := u.typeName.GetOr(v.typeName));
    PatchFigures(a, u);
    var b := a.(year := u.year.GetOr(a.year),
      kilometers := u.kilometers.GetOr(a.kilometers), power := u.power.GetOr(a.power),
      traccion := u.traccion.GetOr(a.traccion), transmission := u.transmission.GetOr(a.transmission));
    PatchListing(b, u);
    var c := b.(color := u.color.GetOr(b.color),
      status := u.status.GetOr(b.status), price := u.price.GetOr(b.price));
    PatchPlacement(c, u);
    var d := c.(isFeatured := u.isFeatured.GetOr(c.isFeatured), location := u.location.GetOr(c.location));
    PatchRest(d, u);
  }

  /** Ids are distinct and below the next one the table hands out. */
  ghost predicate UniqueIds(rows: seq<Vehicle>, nextId: int) {
    (forall k :: 0 <= k < |rows| ==> rows[k].id < nextId)
    && (forall i, j :: 0 <= i < j < |rows| ==> rows[i].id != rows[j].id)
  }

  /** With distinct ids, a row that is not the first active match for its
      id is not active or has another id. */
  lemma OnlyActiveMatch(rows: seq<Vehicle>, nextId: int, id: int, i: nat)
    requires UniqueIds(rows, nextId) && i < |rows| && rows[i].id == id
    ensures forall k :: 0 <= k < |rows| && k != i ==> rows[k].id != id
  {
  }

  /** `for field, value in items: setattr(db_vehicle, field, value)` */
  method SetAttrs(v: Vehicle, items: seq<FieldAssignment>) returns (w: Vehicle)
    ensures w == ApplyAll(v, items)
  {
    w := v;
    var k := 0;
    while k < |items|
      invariant 0 <= k <= |items|
      invariant w == ApplyAll(v, items[..k])
    {
      ApplyAllSnoc(v, items, k);
      w := SetAttr(w, items[k]);
      k := k + 1;
    }
    assert items[..k] == items;
  }

  /** The `vehicles` table. */
  class VehicleTable {
    var rows: seq<Vehicle>
    var nextId: int

    ghost predicate Valid()
      reads this
    {
      UniqueIds(rows, nextId)
    }

    constructor ()
      ensures Valid() && rows == [] && nextId == 1
    {
      rows := [];
      nextId := 1;
    }

    /** `create_vehicle`: inserts an active row with the parsed data and the
      creating user, which `get_vehicle` then finds. */
    method CreateVehicle(data: VehicleCreate, createdBy: int, now: int) returns (v: Vehicle)
      requires Valid()
      modifies this
      ensures Valid()
      ensures v == NewVehicleRow(old(nextId), data, createdBy, now)
      ensures rows == old(rows) + [v] && nextId == old(nextId) + 1
      ensures GetVehicle(rows, v.id) == Some(v)
    {
      v := NewVehicleRow(nextId, data, createdBy, now);
      rows := rows + [v];
      nextId := nextId + 1;
      assert v in rows;
      assert forall w :: w in rows && w.id == v.id ==> w == v;
    }

    /** `update_vehicle`: for an active row, assigns every field the client
      set, one `setattr` at a time, and returns the row; a missing or
      soft-deleted id gives `None` and changes nothing. */
    method UpdateVehicle(id: int, u: VehicleUpdate) returns (r: Option<Vehicle>)
      requires Valid()
      modifies this
      ensures Valid() && nextId == old(nextId) && |rows| == |old(rows)|
      ensures r.None? <==> GetVehicle(old(rows), id).None?
      ensures r.None? ==> rows == old(rows)
      ensures r.Some? ==> var i := ActiveIndex(old(rows), id).value;
        r.value == Patched(old(rows)[i], u) && rows == old(rows)[i := r.value]
    {
      var found := ActiveIndex(rows, id);
      if found.None? {
        return None;
      }
      var i := found.value;
      var original := rows[i];
      var current := SetAttrs(original, UpdateItems(u));
      ApplyAllIsPatch(original, u);
      assert current.id == original.id;
      rows := rows[i := current];
      r := Some(current);
    }

    /** `delete_vehicle`: a soft delete. An active row is kept but marked
      inactive, after which `get_vehicle` no longer sees the id (so a
      second delete returns false); otherwise nothing changes. */
    method DeleteVehicle(id: int) returns (ok: bool)
      requires Valid()
      modifies this
      ensures Valid() && nextId == old(nextId) && |rows| == |old(rows)|
      ensures ok <==> GetVehicle(old(rows), id).Some?
      ensures !ok ==> rows == old(rows)
      ensures ok ==> var i := ActiveIndex(old(rows), id).value;
        rows == old(rows)[i := old(rows)[i].(isActive := false)]
      ensures GetVehicle(rows, id).None?
    {
      var found := ActiveIndex(rows, id);
      if found.None? {
        return false;
      }
      var i := found.value;
      OnlyActiveMatch(rows, nextId, id, i);
      rows := rows[i := rows[i].(isActive := false)];
      ok := true;
    }
  }
}
