/** The vehicle form of the admin dashboard: the payload built from the form
    (`collectVehicleData` over `FormData`, and the later
    `collectVehicleFormData` over the form's elements), the type label
    table, the whole-form validation that reports every failing rule, the
    per-field validation run on blur, and removal of one selected image. */
module AdminDashboard {
  import opened Wrappers
  import opened JsText
  import opened JsValues
  import opened Listing

  // ---------------------------------------------------------------------
  // Type labels
  // ---------------------------------------------------------------------

  const Slugs: seq<string> := ["camion-tractor", "camion-chasis", "remolques", "utilitarios", "varios"]
  const Labels: seq<string> := ["Camión Tractor", "Camión Chasis", "Remolques", "Utilitarios", "Varios"]

  /** `getTypeName(type)`: `types[type] || type`. The slug is used as a
      property name, so it is converted to a string first; every label is a
      non-empty string, so `||` only falls back on an unknown slug. */
  function TypeLabel(t: JsValue): (r: JsValue)
  {
    var key := ToStr(t);
    if key == Slugs[0] then Str(Labels[0])
    else if key == Slugs[1] then Str(Labels[1])
    else if key == Slugs[2] then Str(Labels[2])
    else if key == Slugs[3] then Str(Labels[3])
    else if key == Slugs[4] then Str(Labels[4])
    else t
  }

  /** Each of the five known slugs gets its own label, in table order. */
  lemma TypeLabelKnown(i: int)
    requires 0 <= i < |Slugs|
    ensures TypeLabel(Str(Slugs[i])) == Str(Labels[i])
    ensures Labels[i] != Slugs[i]
  {
  }

  /** Any other value comes back unchanged, `null` included. */
  lemma TypeLabelUnknown(t: JsValue)
    requires ToStr(t) !in Slugs
    ensures TypeLabel(t) == t
  {
  }

  // ---------------------------------------------------------------------
  // The payload
  // ---------------------------------------------------------------------

  const Location := "Villa María, Córdoba"

  /** The object both collectors return and the dashboard posts. */
  datatype Payload = Payload(
    brand: JsValue, model: JsValue, fullName: JsValue, vtype: JsValue,
    typeName: JsValue, year: JsValue, kilometers: JsValue, power: JsValue,
    traccion: JsValue, transmission: JsValue, color: JsValue, status: JsValue,
    price: JsValue, isFeatured: JsValue, location: JsValue,
    description: JsValue, observations: JsValue, dateRegistered: JsValue,
    isActive: JsValue)

  /** `formData.get(name)`: the submitted text, `null` when the form sent
      nothing under that name (an unchecked checkbox, a missing input). */
  function Field(form: map<string, string>, name: string): (r: JsValue)
    ensures r == Null || r.Str?
    ensures r.Str? <==> name in form
  {
    if name in form then Str(form[name]) else Null
  }

  /** `parseInt(x) || null`: `NaN` and 0 both become `null`. */
  function NumberOrNull(x: JsValue): (r: JsValue)
    ensures r == Null || (r.Num? && r.n != 0)
  {
    Or(ParseInt(x), Null)
  }

  /** `collectVehicleData(formData)`. `today` stands for
      `new Date().toLocaleDateString('es-AR')`. */
  function CollectVehicleData(form: map<string, string>, today: string): (r: Payload)
    ensures r.location == Str(Location) && r.isActive == Bool(true) && r.dateRegistered == Str(today)
    ensures r.power == Null || (r.power.Num? && r.power.n != 0)
    ensures r.price == Null || (r.price.Num? && r.price.n != 0)
  {
    var brand := Field(form, "brand");
    var model := Field(form, "model");
    Payload(
      brand, model, Str(ToStr(brand) + " " + ToStr(model)),
      Field(form, "type"), TypeLabel(Field(form, "type")),
      ParseInt(Field(form, "year")), ParseInt(Field(form, "kilometers")),
      NumberOrNull(Field(form, "power")),
      Or(Field(form, "traccion"), Null), Or(Field(form, "transmission"), Null),
      Or(Field(form, "color"), Null),
      Field(form, "status"),
      NumberOrNull(Field(form, "price")),
      Bool("is_featured" in form && form["is_featured"] == "on"),
      Str(Location),
      Or(Field(form, "description"), Null), Or(Field(form, "observations"), Null),
      Str(today), Bool(true))
  }

  /** The full name joins brand and model with one space; a brand or model
      the form did not send is rendered as the text 'null'. */
  lemma CollectedFullName(form: map<string, string>, today: string)
    ensures "brand" in form && "model" in form ==>
      CollectVehicleData(form, today).fullName == Str(form["brand"] + " " + form["model"])
    ensures "brand" !in form ==>
      StartsWith(CollectVehicleData(form, today).fullName.s, "null ")
  {
  }

  /** The featured flag is set exactly when the checkbox was sent as 'on'. */
  lemma CollectedFeatured(form: map<string, string>, today: string)
    ensures CollectVehicleData(form, today).isFeatured == Bool(true)
      <==> "is_featured" in form && form["is_featured"] == "on"
  {
  }

  /** Because of `|| null`, a power or price of 0 is posted as `null`,
      while any other whole number is posted as typed. */
  lemma CollectedDropsZero(form: map<string, string>, today: string, digits: string)
    requires |digits| > 0 && forall k :: 0 <= k < |digits| ==> IsDigit(digits[k])
    requires "power" in form && form["power"] == digits
    requires "price" in form && form["price"] == digits
    ensures DigitsValue(digits) == 0 ==>
      CollectVehicleData(form, today).power == Null && CollectVehicleData(form, today).price == Null
    ensures DigitsValue(digits) != 0 ==>
      CollectVehicleData(form, today).power == Num(DigitsValue(digits))
      && CollectVehicleData(form, today).price == Num(DigitsValue(digits))
  {
    CollectedNumbers(form, today);
    assert Field(form, "power") == Str(digits) && Field(form, "price") == Str(digits);
    ParseIntTextOfDigits(digits);
    var n := DigitsValue(digits) as int;
    assert ParseInt(Str(digits)) == Num(n);
    if n == 0 {
      assert NumberOrNull(Str(digits)) == Null;
    } else {
      assert NumberOrNull(Str(digits)) == Num(n);
    }
  }

  /** Where the power and the price of the payload come from. */
  lemma CollectedNumbers(form: map<string, string>, today: string)
    ensures CollectVehicleData(form, today).power == NumberOrNull(Field(form, "power"))
    ensures CollectVehicleData(form, today).price == NumberOrNull(Field(form, "price"))
  {
  }

  // ---------------------------------------------------------------------
  // collectVehicleFormData: reading the form's elements
  // ---------------------------------------------------------------------

  /** An input element: its `value`, and `checked` for the checkbox. */
  datatype Element = Element(value: string, checked: bool)

  /** What `form.querySelector('[name=...]')` finds for each of the
      fourteen names the collector looks up; `None` is `null`. */
  datatype Elements = Elements(
    brand: Option<Element>, model: Option<Element>, year: Option<Element>,
    kilometers: Option<Element>, vtype: Option<Element>, power: Option<Element>,
    traccion: Option<Element>, transmission: Option<Element>, color: Option<Element>,
    status: Option<Element>, price: Option<Element>, isFeatured: Option<Element>,
    description: Option<Element>, observations: Option<Element>)

  /** Why `collectVehicleFormData` throws: required elements are missing
      (listed in order), another element is missing so reading its `value`
      is a `TypeError`, or a mandatory value is empty. */
  datatype CollectError =
    | ElementsNotFound(names: seq<string>)
    | NullElement(name: string)
    | MissingData

  const NotFoundPrefix := "Elementos del formulario no encontrados: "
  const MissingDataMessage := "Faltan datos obligatorios del formulario"

  /** `names.join(sep)` */
  function JoinWith(names: seq<string>, sep: string): (r: string)
    ensures names == [] ==> r == ""
    ensures |names| == 1 ==> r == names[0]
  {
    if names == [] then ""
    else if |names| == 1 then names[0]
    else names[0] + sep + JoinWith(names[1..], sep)
  }

  /** The `message` of the two errors the function raises itself; a
      `TypeError` carries the engine's own text. */
  function CollectErrorMessage(e: CollectError): (r: Option<string>)
    ensures e.ElementsNotFound? ==> r.Some? && StartsWith(r.value, NotFoundPrefix)
    ensures e.MissingData? ==> r == Some(MissingDataMessage)
    ensures e.NullElement? ==> r.None?
  {
    match e
    case ElementsNotFound(names) => Some(NotFoundPrefix + JoinWith(names, ", "))
    case NullElement(_) => None
    case MissingData => Some(MissingDataMessage)
  }

  /** The six elements the collector checks for before reading anything. */
  predicate RequiredFound(e: Elements) {
    e.brand.Some? && e.model.Some? && e.year.Some? && e.kilometers.Some?
    && e.vtype.Some? && e.status.Some?
  }

  /** All fourteen elements are there. */
  predicate AllFound(e: Elements) {
    RequiredFound(e) && e.power.Some? && e.traccion.Some? && e.transmission.Some?
    && e.color.Some? && e.price.Some? && e.isFeatured.Some?
    && e.description.Some? && e.observations.Some?
  }

  /** `requiredElements.filter(key => !formElements[key])` */
  function MissingRequired(e: Elements): (r: seq<string>)
    ensures r == [] <==> RequiredFound(e)
    ensures |r| <= 6
  {
    (if e.brand.None? then ["brand"] else [])
    + (if e.model.None? then ["model"] else [])
    + (if e.year.None? then ["year"] else [])
    + (if e.kilometers.None? then ["kilometers"] else [])
    + (if e.vtype.None? then ["type"] else [])
    + (if e.status.None? then ["status"] else [])
  }

  /** The first element whose `value` the payload literal reads while it is
      `null`, when every required one is there. */
  function FirstNull(e: Elements): (r: string)
    requires RequiredFound(e) && !AllFound(e)
  {
    if e.power.None? then "power"
    else if e.traccion.None? then "traccion"
    else if e.transmission.None? then "transmission"
    else if e.color.None? then "color"
    else if e.price.None? then "price"
    else if e.isFeatured.None? then "is_featured"
    else if e.description.None? then "description"
    else "observations"
  }

  /** `value ? parseInt(value) : null`: an empty value is `null`, anything
      else is parsed, so '0' stays 0. */
  function ParsedOrNull(value: string): (r: JsValue)
    ensures value == "" <==> r == Null
  {
    if value == "" then Null else ParseIntText(value)
  }

  /** The payload literal of `collectVehicleFormData`. */
  function ReadPayload(e: Elements, today: string): (r: Payload)
    requires AllFound(e)
  {
    var brand := Trim(e.brand.value.value);
    var model := Trim(e.model.value.value);
    var vtype := e.vtype.value.value;
    Payload(
      Str(brand), Str(model), Str(brand + " " + model),
      Str(vtype), TypeLabel(Str(vtype)),
      ParseIntText(e.year.value.value), ParseIntText(e.kilometers.value.value),
      ParsedOrNull(e.power.value.value),
      Or(Str(e.traccion.value.value), Null), Or(Str(e.transmission.value.value), Null),
      Or(Str(e.color.value.value), Null),
      Str(e.status.value.value),
      ParsedOrNull(e.price.value.value),
      Bool(e.isFeatured.value.checked),
      Str(Location),
      Or(Str(e.description.value.value), Null), Or(Str(e.observations.value.value), Null),
      Str(today), Bool(true))
  }

  /** `collectVehicleFormData(form)`. `today` stands for the date string. */
  function CollectFormElements(e: Elements, today: string): (r: Result<Payload, CollectError>)
    ensures r.Err? && r.error.ElementsNotFound? <==> !RequiredFound(e)
    ensures r.Err? && r.error.ElementsNotFound? ==> r.error.names == MissingRequired(e)
    ensures r.Err? && r.error.NullElement? <==> RequiredFound(e) && !AllFound(e)
    ensures r.Ok? <==>
      AllFound(e) && Trim(e.brand.value.value) != "" && Trim(e.model.value.value) != ""
      && e.vtype.value.value != "" && e.status.value.value != ""
    ensures r.Ok? ==>
      r.value.brand == Str(Trim(e.brand.value.value))
      && r.value.model == Str(Trim(e.model.value.value))
      && r.value.fullName == Str(Trim(e.brand.value.value) + " " + Trim(e.model.value.value))
      && r.value.vtype == Str(e.vtype.value.value) && r.value.status == Str(e.status.value.value)
      && r.value.isFeatured == Bool(e.isFeatured.value.checked)
      && r.value.location == Str(Location) && r.value.isActive == Bool(true)
  {
    if !RequiredFound(e) then Err(ElementsNotFound(MissingRequired(e)))
    else if !AllFound(e) then Err(NullElement(FirstNull(e)))
    else
      var payload := ReadPayload(e, today);
      if payload.brand.s == "" || payload.model.s == "" || payload.vtype.s == "" || payload.status.s == "" then
        Err(MissingData)
      else Ok(payload)
  }

  /** The error names exactly the required elements the form lacks. */
  lemma MissingRequiredExact(e: Elements)
    ensures "brand" in MissingRequired(e) <==> e.brand.None?
    ensures "model" in MissingRequired(e) <==> e.model.None?
    ensures "year" in MissingRequired(e) <==> e.year.None?
    ensures "kilometers" in MissingRequired(e) <==> e.kilometers.None?
    ensures "type" in MissingRequired(e) <==> e.vtype.None?
    ensures "status" in MissingRequired(e) <==> e.status.None?
  {
    InMissing(e, "brand");
    InMissing(e, "model");
    InMissing(e, "year");
    InMissing(e, "kilometers");
    InMissing(e, "type");
    InMissing(e, "status");
    assert "brand"[0] == 'b' && "model"[0] == 'm' && "year"[0] == 'y';
    assert "kilometers"[0] == 'k' && "type"[0] == 't' && "status"[0] == 's';
  }

  /** Which names the error lists, for any name. */
  lemma InMissing(e: Elements, key: string)
    ensures key in MissingRequired(e) <==>
      (e.brand.None? && key == "brand") || (e.model.None? && key == "model")
      || (e.year.None? && key == "year") || (e.kilometers.None? && key == "kilometers")
      || (e.vtype.None? && key == "type") || (e.status.None? && key == "status")
  {
    var a := if e.brand.None? then ["brand"] else [];
    var b := if e.model.None? then ["model"] else [];
    var c := if e.year.None? then ["year"] else [];
    var d := if e.kilometers.None? then ["kilometers"] else [];
    var t := if e.vtype.None? then ["type"] else [];
    var u := if e.status.None? then ["status"] else [];
    assert MissingRequired(e) == a + b + c + d + t + u;
  }

  /** Unlike `collectVehicleData`, this collector keeps a power or price
      of 0: any whole number typed is posted as it is. */
  lemma CollectFormElementsKeepsZero(e: Elements, today: string, digits: string)
    requires CollectFormElements(e, today).Ok?
    requires |digits| > 0 && forall k :: 0 <= k < |digits| ==> IsDigit(digits[k])
    requires e.power.value.value == digits && e.price.value.value == digits
    ensures CollectFormElements(e, today).value.power == Num(DigitsValue(digits))
    ensures CollectFormElements(e, today).value.price == Num(DigitsValue(digits))
  {
    ParseIntTextOfDigits(digits);
  }

  // ---------------------------------------------------------------------
  // validateVehicleForm: every rule, without stopping
  // ---------------------------------------------------------------------

  const RequiredFields: seq<string> := ["brand", "model", "year", "kilometers", "type", "status"]

  const Required := "Este campo es requerido"
  const YearInvalid := "Año inválido"
  const KilometersNegative := "Los kilómetros no pueden ser negativos"
  const PowerNegative := "La potencia no puede ser negativa"
  const PriceNegative := "El precio no puede ser negativo"

  /** A failed rule: the field it is about and the message for it. */
  datatype FieldError = FieldError(field: string, message: string)

  /** The outcome of `validateVehicleForm`: the failed rules when it runs to
      the end, or the ones found before it throws on reading the value of a
      year, kilometers or power field the form does not have. */
  datatype Validation = Checked(errors: seq<FieldError>) | Threw(found: seq<FieldError>)

  /** `!field || !field.value.trim()` */
  predicate Blank(form: map<string, string>, name: string) {
    name !in form || Trim(form[name]) == ""
  }

  /** The 'required' failures of `names`, in order. */
  function RequiredErrors(form: map<string, string>, names: seq<string>): (r: seq<FieldError>)
    ensures |r| <= |names|
  {
    if names == [] then []
    else
      var last := names[|names| - 1];
      RequiredErrors(form, names[..|names| - 1])
      + (if Blank(form, last) then [FieldError(last, Required)] else [])
  }

  /** Every failure is a 'required' failure of a blank field, and every
      blank field fails. */
  lemma {:induction false} RequiredErrorsExact(form: map<string, string>, names: seq<string>, e: FieldError)
    ensures e in RequiredErrors(form, names) <==> e.message == Required && e.field in names && Blank(form, e.field)
    decreases |names|
  {
    if names != [] {
      var init := names[..|names| - 1];
      RequiredErrorsExact(form, init, e);
      assert names == init + [names[|names| - 1]];
    }
  }

  /** `year < 1990 || year > currentYear + 1` on a parsed value: `NaN`
      fails neither comparison. */
  predicate YearOutside(year: JsValue, currentYear: int) {
    year.Num? && (year.n < 1990 || year.n > currentYear + 1)
  }

  /** `x < 0` on a parsed value. */
  predicate BelowZero(x: JsValue) {
    x.Num? && x.n < 0
  }

  function YearErrors(form: map<string, string>, currentYear: int): seq<FieldError>
    requires "year" in form
  {
    if YearOutside(ParseIntText(form["year"]), currentYear) then [FieldError("year", YearInvalid)] else []
  }

  function KilometerErrors(form: map<string, string>): seq<FieldError>
    requires "kilometers" in form
  {
    if BelowZero(ParseIntText(form["kilometers"])) then [FieldError("kilometers", KilometersNegative)] else []
  }

  function PowerErrors(form: map<string, string>): seq<FieldError>
    requires "power" in form
  {
    if form["power"] != "" && BelowZero(ParseIntText(form["power"])) then [FieldError("power", PowerNegative)] else []
  }

  /** What `validateVehicleForm(form)` finds. */
  function VehicleFormCheck(form: map<string, string>, currentYear: int): (v: Validation)
    ensures v.Threw? <==> "year" !in form || "kilometers" !in form || "power" !in form
  {
    var required := RequiredErrors(form, RequiredFields);
    if "year" !in form then Threw(required)
    else if "kilometers" !in form then Threw(required + YearErrors(form, currentYear))
    else if "power" !in form then Threw(required + YearErrors(form, currentYear) + KilometerErrors(form))
    else Checked(required + YearErrors(form, currentYear) + KilometerErrors(form) + PowerErrors(form))
  }

  /** The form is valid exactly when every required field is filled in, the
      year is not a number outside [1990, currentYear + 1], the kilometers
      are not negative, and the power is empty or not negative. */
  lemma VehicleFormValidIff(form: map<string, string>, currentYear: int)
    requires "year" in form && "kilometers" in form && "power" in form
    ensures VehicleFormCheck(form, currentYear) == Checked([]) <==>
      (forall k :: 0 <= k < |RequiredFields| ==> !Blank(form, RequiredFields[k]))
      && !YearOutside(ParseIntText(form["year"]), currentYear)
      && !BelowZero(ParseIntText(form["kilometers"]))
      && (form["power"] == "" || !BelowZero(ParseIntText(form["power"])))
  {
    var required := RequiredErrors(form, RequiredFields);
    if required != [] {
      assert required[0] in required;
      RequiredErrorsExact(form, RequiredFields, required[0]);
    }
    if exists k :: 0 <= k < |RequiredFields| && Blank(form, RequiredFields[k]) {
      var k :| 0 <= k < |RequiredFields| && Blank(form, RequiredFields[k]);
      RequiredErrorsExact(form, RequiredFields, FieldError(RequiredFields[k], Required));
    }
  }

  /** Validation does not stop at the first failure: a bad year is
      reported even when required fields are blank too, and so is every
      blank required field. */
  lemma VehicleFormReportsAll(form: map<string, string>, currentYear: int, name: string)
    requires "year" in form && "kilometers" in form && "power" in form
    ensures YearOutside(ParseIntText(form["year"]), currentYear) ==>
      FieldError("year", YearInvalid) in VehicleFormCheck(form, currentYear).errors
    ensures name in RequiredFields && Blank(form, name) ==>
      FieldError(name, Required) in VehicleFormCheck(form, currentYear).errors
  {
    RequiredErrorsExact(form, RequiredFields, FieldError(name, Required));
  }

  /** The `forEach` over the required fields of `validateVehicleForm`. */
  method CheckRequiredFields(form: map<string, string>) returns (errors: seq<FieldError>)
    ensures errors == RequiredErrors(form, RequiredFields)
  {
    errors := [];
    var i := 0;
    while i < |RequiredFields|
      invariant 0 <= i <= |RequiredFields|
      invariant errors == RequiredErrors(form, RequiredFields[..i])
    {
      var name := RequiredFields[i];
      if name !in form || Trim(form[name]) == "" {
        errors := errors + [FieldError(name, Required)];
      }
      assert RequiredFields[..i + 1][..i] == RequiredFields[..i];
      i := i + 1;
    }
    assert RequiredFields[..i] == RequiredFields;
  }

  /** `validateVehicleForm(form)`; `isValid` is its result when it does
      not throw. */
  method ValidateVehicleForm(form: map<string, string>, currentYear: int) returns (v: Validation, isValid: bool)
    ensures v == VehicleFormCheck(form, currentYear)
    ensures isValid <==> v == Checked([])
  {
    var errors := CheckRequiredFields(form);
    ghost var required := errors;
    if "year" !in form {
      return Threw(errors), false;
    }
    var year := ParseIntText(form["year"]);
    if year.Num? && (year.n < 1990 || year.n > currentYear + 1) {
      errors := errors + [FieldError("year", YearInvalid)];
    }
    assert errors == required + YearErrors(form, currentYear);
    if "kilometers" !in form {
      return Threw(errors), false;
    }
    var kilometers := ParseIntText(form["kilometers"]);
    if kilometers.Num? && kilometers.n < 0 {
      errors := errors + [FieldError("kilometers", KilometersNegative)];
    }
    assert errors == required + YearErrors(form, currentYear) + KilometerErrors(form);
    if "power" !in form {
      return Threw(errors), false;
    }
    var power := form["power"];
    if power != "" {
      var parsed := ParseIntText(power);
      if parsed.Num? && parsed.n < 0 {
        errors := errors + [FieldError("power", PowerNegative)];
      }
    }
    assert errors == required + YearErrors(form, currentYear) + KilometerErrors(form) + PowerErrors(form);
    v := Checked(errors);
    isValid := errors == [];
  }

  // ---------------------------------------------------------------------
  // validateField: one field, on blur
  // ---------------------------------------------------------------------

  /** The year message names the last accepted year. */
  function YearRange(currentYear: int): string {
    "Año debe estar entre 1990 y " + IntToString(currentYear + 1)
  }

  /** The digits `parseFloat` reads after the sign: leading digits, then
      optionally a '.' and more digits. */
  function FloatDigits(body: string): (r: string)
    ensures forall k :: 0 <= k < |r| ==> IsDigit(r[k])
  {
    var whole := LeadingDigits(body);
    var rest := body[|whole|..];
    if |rest| > 0 && rest[0] == '.' then whole + LeadingDigits(rest[1..]) else whole
  }

  const Infinity := "Infinity"

  /** `parseFloat(text) < 0`: a minus sign followed by 'Infinity' or by a
      number with a non-zero digit (an exponent never changes the sign, and
      '-0' is not below zero). */
  predicate FloatBelowZero(text: string) {
    var t := TrimStart(text);
    |t| > 0 && t[0] == '-' &&
      (StartsWith(t[1..], Infinity)
       || exists k :: 0 <= k < |FloatDigits(t[1..])| && FloatDigits(t[1..])[k] != '0')
  }

  /** `validateField(field)`: `None` when the field passes, else the message
      it shows. The value is trimmed before any rule looks at it. */
  function CheckField(name: string, raw: string, currentYear: int): (r: Option<string>)
    ensures name !in ["brand", "model", "year", "kilometers", "power", "price"] ==> r.None?
    ensures r.Some? && (name == "brand" || name == "model") ==> r.value == Required
  {
    var value := Trim(raw);
    if name == "brand" || name == "model" then
      if value == "" then Some(Required) else None
    else if name == "year" then
      if value == "" || YearOutside(ParseIntText(value), currentYear) then Some(YearRange(currentYear)) else None
    else if name == "kilometers" then
      if value == "" || BelowZero(ParseIntText(value)) then Some(KilometersNegative) else None
    else if name == "power" then
      if value != "" && BelowZero(ParseIntText(value)) then Some(PowerNegative) else None
    else if name == "price" then
      if value != "" && FloatBelowZero(value) then Some(PriceNegative) else None
    else None
  }

  /** A string of digits is worth more than 0 exactly when one of them is
      not '0'. */
  lemma {:induction false} DigitsPositive(s: string)
    requires forall k :: 0 <= k < |s| ==> IsDigit(s[k])
    ensures DigitsValue(s) > 0 <==> exists k :: 0 <= k < |s| && s[k] != '0'
    decreases |s|
  {
    if s != [] {
      var init := s[..|s| - 1];
      DigitsPositive(init);
      if exists k :: 0 <= k < |init| && init[k] != '0' {
        var k :| 0 <= k < |init| && init[k] != '0';
        assert s[k] != '0';
      }
      if exists k :: 0 <= k < |s| && s[k] != '0' {
        var k :| 0 <= k < |s| && s[k] != '0';
        if k < |s| - 1 {
          assert init[k] != '0';
        }
      }
    }
  }

  /** The number a run of digits spells is all of it. */
  lemma FloatDigitsOfDigits(digits: string)
    requires forall k :: 0 <= k < |digits| ==> IsDigit(digits[k])
    ensures FloatDigits(digits) == digits
  {
    LeadingDigitsOfDigits(digits);
    assert digits[|digits|..] == [];
  }

  /** On a whole number the price test agrees with `parseInt`: a price of
      minus some digits is below zero exactly when it is not zero. */
  lemma FloatBelowZeroOnWholeNumbers(digits: string)
    requires |digits| > 0 && forall k :: 0 <= k < |digits| ==> IsDigit(digits[k])
    ensures FloatBelowZero("-" + digits) <==> BelowZero(ParseIntText("-" + digits))
  {
    var text := "-" + digits;
    assert TrimStart(text) == text;
    assert text[1..] == digits;
    FloatDigitsOfDigits(digits);
    DigitsPositive(digits);
    ParseIntTextOfNegated(digits);
    assert !StartsWith(digits, Infinity) by {
      assert IsDigit(digits[0]);
      if |Infinity| <= |digits| {
        assert digits[..|Infinity|][0] == digits[0];
      }
    }
  }

  /** The price is checked only when it is given: an empty or blank price
      passes, and a negative whole price is rejected. */
  lemma PriceCheckedWhenGiven(raw: string, digits: string, currentYear: int)
    requires Trim(raw) == ""
    requires |digits| > 0 && forall k :: 0 <= k < |digits| ==> IsDigit(digits[k])
    requires exists k :: 0 <= k < |digits| && digits[k] != '0'
    ensures CheckField("price", raw, currentYear).None?
    ensures CheckField("price", "-" + digits, currentYear) == Some(PriceNegative)
  {
    var text := "-" + digits;
    assert IsDigit(text[|text| - 1]);
    TrimKeeps(text);
    FloatBelowZeroOnWholeNumbers(digits);
    DigitsPositive(digits);
    ParseIntTextOfNegated(digits);
    PriceRule(raw, currentYear);
    PriceRule(text, currentYear);
  }

  /** The price field's rule on its own. */
  lemma PriceRule(raw: string, currentYear: int)
    ensures CheckField("price", raw, currentYear) ==
      if Trim(raw) != "" && FloatBelowZero(Trim(raw)) then Some(PriceNegative) else None
  {
    var name := "price";
    assert name[0] == 'p' && name[1] == 'r' && |name| == 5;
    assert name != "brand" && name != "model" && name != "year" && name != "kilometers" && name != "power";
  }

  /** The text of a whole number is its own trim and parses back to it. */
  lemma NumberTextTrimmed(n: int)
    ensures ToStr(Num(n)) != "" && Trim(ToStr(Num(n))) == ToStr(Num(n))
    ensures ParseIntText(ToStr(Num(n))) == Num(n)
  {
    var text := ToStr(Num(n));
    ParseIntRoundTrip(n);
    var m: nat := if n < 0 then -n else n;
    var digits := NatToString(m);
    assert IsDigit(digits[|digits| - 1]);
    assert text == (if n < 0 then "-" + digits else digits);
    assert text[|text| - 1] == digits[|digits| - 1];
    TrimKeeps(text);
  }

  /** A year typed as a whole number passes exactly when it lies in
      [1990, currentYear + 1]; an empty year fails. */
  lemma YearFieldRange(n: int, currentYear: int)
    ensures CheckField("year", ToStr(Num(n)), currentYear).None? <==> 1990 <= n <= currentYear + 1
    ensures CheckField("year", "", currentYear) == Some(YearRange(currentYear))
  {
    NumberTextTrimmed(n);
  }

  // ---------------------------------------------------------------------
  // removeSelectedImage
  // ---------------------------------------------------------------------

  /** The file input whose list of selected files the dashboard edits. */
  class ImageInput {
    var files: seq<string>

    constructor(selected: seq<string>)
      ensures files == selected
    {
      files := selected;
    }

    /** `removeSelectedImage(index)`: `files.splice(index, 1)` and the list
        is put back on the input. */
    method RemoveSelectedImage(index: int)
      modifies this
      ensures files == SpliceOne(old(files), index)
    {
      files := SpliceOne(files, index);
    }
  }
}
