/** Vehicle records of the backend: the `vehicles` and `vehicle_images`
    rows of `app/models/vehicle.py` with their column defaults, and the
    request shapes of `app/schemas/vehicle.py` with their defaults and field
    validators. Prices are whole numbers here. */
module VehicleRecords {
  import opened Wrappers

  const DefaultStatus: string := "Disponible"
  const DefaultLocation: string := "Villa María, Córdoba"
  const DefaultCreateColor: string := "Blanco"
  const MinYear: int := 1990

  /** A row of the `vehicles` table. */
  datatype Vehicle = Vehicle(
    id: int,
    brand: string,
    model: string,
    fullName: string,
    vtype: string,
    typeName: string,
    year: int,
    kilometers: int,
    power: Option<int>,
    traccion: Option<string>,
    transmission: Option<string>,
    color: Option<string>,
    status: string,
    price: Option<int>,
    isActive: bool,
    isFeatured: bool,
    location: string,
    description: Option<string>,
    observations: Option<string>,
    dateRegistered: Option<string>,
    createdAt: int,
    createdBy: Option<int>)

  /** A row of the `vehicle_images` table. */
  datatype VehicleImage = VehicleImage(
    id: int,
    vehicleId: int,
    filename: string,
    originalFilename: string,
    filePath: string,
    fileSize: Option<int>,
    mimeType: Option<string>,
    isPrimary: bool,
    altText: Option<string>,
    displayOrder: int)

  /** `VehicleCreate` once parsed: every default filled in. */
  datatype VehicleCreate = VehicleCreate(
    brand: string,
    model: string,
    fullName: string,
    vtype: string,
    typeName: string,
    year: int,
    kilometers: int,
    power: Option<int>,
    traccion: Option<string>,
    transmission: Option<string>,
    color: string,
    status: string,
    price: Option<int>,
    isFeatured: bool,
    location: string,
    description: Option<string>,
    observations: Option<string>,
    dateRegistered: Option<string>)

  /** The JSON object a client sends for a new vehicle; `None` marks a
      member that is absent (or, for the nullable ones, null). */
  datatype VehicleInput = VehicleInput(
    brand: Option<string>,
    model: Option<string>,
    fullName: Option<string>,
    vtype: Option<string>,
    typeName: Option<string>,
    year: Option<int>,
    kilometers: Option<int>,
    power: Option<int>,
    traccion: Option<string>,
    transmission: Option<string>,
    color: Option<string>,
    status: Option<string>,
    price: Option<int>,
    isFeatured: Option<bool>,
    location: Option<string>,
    description: Option<string>,
    observations: Option<string>,
    dateRegistered: Option<string>)

  /** `VehicleUpdate`: a member is `Some` when the client set it (the
      fields `dict(exclude_unset=True)` keeps); for nullable columns the
      value set may itself be null. */
  datatype VehicleUpdate = VehicleUpdate(
    brand: Option<string>,
    model: Option<string>,
    fullName: Option<string>,
    vtype: Option<string>,
    typeName: Option<string>,
    year: Option<int>,
    kilometers: Option<int>,
    power: Option<Option<int>>,
    traccion: Option<Option<string>>,
    transmission: Option<Option<string>>,
    color: Option<Option<string>>,
    status: Option<string>,
    price: Option<Option<int>>,
    isFeatured: Option<bool>,
    location: Option<string>,
    description: Option<Option<string>>,
    observations: Option<Option<string>>,
    dateRegistered: Option<Option<string>>,
    isActive: Option<bool>)

  /** `VehicleStats` */
  datatype VehicleStats = VehicleStats(total: nat, available: nat, reserved: nat, sold: nat, featured: nat)

  /** `validate_year`: accepted iff 1990 <= year <= current year + 1. */
  function ValidateYear(year: int, currentYear: int): (r: Result<int, string>)
    ensures r.Ok? <==> MinYear <= year <= currentYear + 1
    ensures r.Ok? ==> r.value == year
  {
    if year < 1990 || year > currentYear + 1 then Err("Año debe estar entre 1990 y current_year + 1") else Ok(year)
  }

  /** `validate_kilometers`: rejected iff negative. */
  function ValidateKilometers(km: int): (r: Result<int, string>)
    ensures r.Ok? <==> km >= 0
    ensures r.Ok? ==> r.value == km
  {
    if km < 0 then Err("Kilómetros no puede ser negativo") else Ok(km)
  }

  /** `validate_power` and `validate_price`: absent, or not negative. */
  function ValidateOptionalAmount(v: Option<int>, message: string): (r: Result<Option<int>, string>)
    ensures r.Ok? <==> v.None? || v.value >= 0
    ensures r.Ok? ==> r.value == v
  {
    if v.Some? && v.value < 0 then Err(message) else Ok(v)
  }

  /** Parsing a `VehicleCreate`: the required members must be present, the
      validators must pass, and absent members take their defaults. */
  function ParseVehicleCreate(input: VehicleInput, currentYear: int): (r: Result<VehicleCreate, string>)
    ensures r.Ok? <==> (
      input.brand.Some? && input.model.Some? && input.fullName.Some?
      && input.vtype.Some? && input.typeName.Some? && input.year.Some? && input.kilometers.Some?
      && MinYear <= input.year.value <= currentYear + 1 && input.kilometers.value >= 0
      && (input.power.None? || input.power.value >= 0) && (input.price.None? || input.price.value >= 0))
    ensures r.Ok? ==> (
      r.value.status == input.status.GetOr(DefaultStatus)
      && r.value.isFeatured == input.isFeatured.GetOr(false)
      && r.value.location == input.location.GetOr(DefaultLocation)
      && r.value.color == input.color.GetOr(DefaultCreateColor)
      && r.value.year == input.year.value && r.value.kilometers == input.kilometers.value
      && r.value.power == input.power && r.value.price == input.price)
    ensures r.Ok? ==> r.value.brand == input.brand.value
    ensures r.Ok? ==> r.value.model == input.model.value
    ensures r.Ok? ==> r.value.fullName == input.fullName.value
    ensures r.Ok? ==> r.value.vtype == input.vtype.value
    ensures r.Ok? ==> r.value.typeName == input.typeName.value
  {
    if input.brand.None? || input.model.None? || input.fullName.None? || input.vtype.None?
      || input.typeName.None? || input.year.None? || input.kilometers.None? then
      Err("field required")
    else
      var year :- ValidateYear(input.year.value, currentYear);
      var km :- ValidateKilometers(input.kilometers.value);
      var power :- ValidateOptionalAmount(input.power, "Potencia no puede ser negativa");
      var price :- ValidateOptionalAmount(input.price, "Precio no puede ser negativo");
      Ok(VehicleCreate(
        input.brand.value, input.model.value, input.fullName.value, input.vtype.value, input.typeName.value,
        year, km, power, input.traccion, input.transmission,
        input.color.GetOr(DefaultCreateColor), input.status.GetOr(DefaultStatus), price,
        input.isFeatured.GetOr(false), input.location.GetOr(DefaultLocation),
        input.description, input.observations, input.dateRegistered))
  }

  /** `Vehicle(**vehicle.dict(), created_by=...)`: the row a create
      inserts; `is_active` takes its column default. */
  function NewVehicleRow(id: int, data: VehicleCreate, createdBy: int, now: int): (v: Vehicle)
    ensures v.isActive && v.id == id && v.createdBy == Some(createdBy)
  {
    Vehicle(id, data.brand, data.model, data.fullName, data.vtype, data.typeName, data.year, data.kilometers,
      data.power, data.traccion, data.transmission, Some(data.color), data.status, data.price,
      true, data.isFeatured, data.location, data.description, data.observations, data.dateRegistered,
      now, Some(createdBy))
  }

  /** A new image row with the column defaults: not primary, order 0. */
  function NewVehicleImage(id: int, vehicleId: int, filename: string, originalFilename: string, filePath: string): (img: VehicleImage)
    ensures !img.isPrimary && img.displayOrder == 0 && img.vehicleId == vehicleId
  {
    VehicleImage(id, vehicleId, filename, originalFilename, filePath, None, None, false, None, 0)
  }

  /** A minimal creation request: only the required members. */
  function MinimalInput(brand: string, model: string, fullName: string, vtype: string, typeName: string, year: int, km: int): VehicleInput {
    VehicleInput(Some(brand), Some(model), Some(fullName), Some(vtype), Some(typeName), Some(year), Some(km),
      None, None, None, None, None, None, None, None, None, None, None)
  }

  /** The declared defaults: status "Disponible", not featured, located in
      Villa María, colour "Blanco" on create, and an active row. */
  lemma CreateDefaults(brand: string, model: string, fullName: string, vtype: string, typeName: string, year: int, km: int, currentYear: int, id: int, creator: int, now: int)
    requires MinYear <= year <= currentYear + 1 && km >= 0
    ensures var r := ParseVehicleCreate(MinimalInput(brand, model, fullName, vtype, typeName, year, km), currentYear);
      r.Ok? && r.value.status == "Disponible" && !r.value.isFeatured
      && r.value.location == "Villa María, Córdoba" && r.value.color == "Blanco"
      && r.value.power.None? && r.value.price.None?
      && NewVehicleRow(id, r.value, creator, now).isActive && !NewVehicleRow(id, r.value, creator, now).isFeatured
  {
  }
}
