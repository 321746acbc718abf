/** The `VehicleManager` of the admin dashboard: its own form validation,
    which stops at the first problem and checks only the required fields
    and the year, the list of images selected for upload, and where it
    reads the admin token from. Its `collectFormData` and `getTypeName` are
    the dashboard's `collectVehicleData` and `getTypeName` line for line,
    so the model uses `AdminDashboard.CollectVehicleData` and
    `AdminDashboard.TypeLabel` for them. */
module VehicleAdmin {
  import opened Wrappers
  import opened JsText
  import opened JsValues
  import opened Listing
  import opened AdminDashboard
  import AdminAuth

  // ---------------------------------------------------------------------
  // validateForm
  // ---------------------------------------------------------------------

  /** The position of the first blank field among `names`, -1 when none is
      blank. */
  function FirstBlank(form: map<string, string>, names: seq<string>): (r: int)
    ensures -1 <= r < |names|
    ensures r >= 0 ==> Blank(form, names[r])
    ensures forall k :: 0 <= k < (if r >= 0 then r else |names|) ==> !Blank(form, names[k])
  {
    if names == [] then -1
    else if Blank(form, names[0]) then 0
    else
      var rest := FirstBlank(form, names[1..]);
      if rest < 0 then -1 else rest + 1
  }

  /** A blank field with no blank field before it is the first blank one. */
  lemma {:induction false} FirstBlankAt(form: map<string, string>, names: seq<string>, i: int)
    requires 0 <= i < |names| && Blank(form, names[i])
    requires forall k :: 0 <= k < i ==> !Blank(form, names[k])
    ensures FirstBlank(form, names) == i
    decreases i
  {
    if i > 0 {
      assert !Blank(form, names[0]);
      FirstBlankAt(form, names[1..], i - 1);
    }
  }

  /** What `validateForm(form)` reports: the first required field left
      blank, else a year outside [1990, currentYear + 1], else nothing. The
      year field is required, so by the time the year is read it is there. */
  function FormFailure(form: map<string, string>, currentYear: int): (r: Option<FieldError>)
  {
    var i := FirstBlank(form, RequiredFields);
    if i >= 0 then Some(FieldError(RequiredFields[i], Required))
    else
      assert !Blank(form, RequiredFields[2]);
      if YearOutside(ParseIntText(form["year"]), currentYear) then Some(FieldError("year", YearInvalid))
      else None
  }

  /** `validateForm(form)`: the loop returns at the first blank required
      field; `failure` is the error it stops at. `showFieldError` puts it on
      the page when the input exists and returns at once for a missing
      one, so then nothing is shown. */
  method ValidateForm(form: map<string, string>, currentYear: int) returns (valid: bool, failure: Option<FieldError>)
    ensures failure == FormFailure(form, currentYear)
    ensures valid <==> failure.None?
  {
    var i := 0;
    while i < |RequiredFields|
      invariant 0 <= i <= |RequiredFields|
      invariant forall k :: 0 <= k < i ==> !Blank(form, RequiredFields[k])
    {
      var name := RequiredFields[i];
      if name !in form || Trim(form[name]) == "" {
        FirstBlankAt(form, RequiredFields, i);
        return false, Some(FieldError(name, Required));
      }
      i := i + 1;
    }
    YearOnceFilled(form, currentYear);
    var year := ParseIntText(form["year"]);
    if year.Num? && (year.n < 1990 || year.n > currentYear + 1) {
      return false, Some(FieldError("year", YearInvalid));
    }
    return true, None;
  }

  /** With every required field filled in, the year is there and only its
      value decides the outcome. */
  lemma YearOnceFilled(form: map<string, string>, currentYear: int)
    requires forall k :: 0 <= k < |RequiredFields| ==> !Blank(form, RequiredFields[k])
    ensures "year" in form
    ensures FormFailure(form, currentYear) ==
      if YearOutside(ParseIntText(form["year"]), currentYear) then Some(FieldError("year", YearInvalid)) else None
  {
    assert FirstBlank(form, RequiredFields) == -1;
    assert !Blank(form, RequiredFields[2]);
  }

  /** The form passes exactly when every required field is filled in and
      the year is not a number outside [1990, currentYear + 1]. */
  lemma {:induction false} FormFailureNoneIff(form: map<string, string>, currentYear: int)
    ensures FormFailure(form, currentYear).None? <==>
      (forall k :: 0 <= k < |RequiredFields| ==> !Blank(form, RequiredFields[k]))
      && "year" in form && !YearOutside(ParseIntText(form["year"]), currentYear)
  {
    var i := FirstBlank(form, RequiredFields);
    if i >= 0 {
      assert Blank(form, RequiredFields[i]);
      assert FormFailure(form, currentYear).Some?;
    } else {
      assert RequiredFields[2] == "year";
      assert !Blank(form, RequiredFields[2]);
      assert "year" in form;
    }
  }

  /** Two forms whose first blank required field is the same get the same
      verdict when they agree on the year: kilometers, power and every other
      value are not looked at. */
  lemma {:induction false} FirstBlankAgrees(f: map<string, string>, g: map<string, string>, names: seq<string>)
    requires forall k :: 0 <= k < |names| ==> Blank(f, names[k]) == Blank(g, names[k])
    ensures FirstBlank(f, names) == FirstBlank(g, names)
    decreases |names|
  {
    if names != [] {
      FirstBlankAgrees(f, g, names[1..]);
    }
  }

  /** Only blankness of the required fields and the year's value decide the
      outcome: a negative kilometer count or power passes here. */
  lemma FormFailureIgnoresOtherValues(f: map<string, string>, g: map<string, string>, currentYear: int)
    requires forall k :: 0 <= k < |RequiredFields| ==> Blank(f, RequiredFields[k]) == Blank(g, RequiredFields[k])
    requires "year" in f <==> "year" in g
    requires "year" in f ==> f["year"] == g["year"]
    ensures FormFailure(f, currentYear) == FormFailure(g, currentYear)
  {
    FirstBlankAgrees(f, g, RequiredFields);
    if FirstBlank(f, RequiredFields) < 0 {
      assert RequiredFields[2] == "year";
      assert !Blank(f, RequiredFields[2]);
    }
  }

  /** Whatever the dashboard's own full validation accepts, this one
      accepts too. */
  lemma AcceptsWhatDashboardAccepts(form: map<string, string>, currentYear: int)
    requires "year" in form && "kilometers" in form && "power" in form
    requires VehicleFormCheck(form, currentYear) == Checked([])
    ensures FormFailure(form, currentYear).None?
  {
    VehicleFormValidIff(form, currentYear);
    FormFailureNoneIff(form, currentYear);
  }

  // ---------------------------------------------------------------------
  // The admin token
  // ---------------------------------------------------------------------

  /** `getAuthToken()`: the token in `localStorage` when it is truthy, else
      whatever `sessionStorage` holds. */
  function AuthToken(local: map<string, JsValue>, session: map<string, JsValue>): (r: JsValue)
    ensures Truthy(AdminAuth.Item(local, AdminAuth.TokenKey)) ==> r == AdminAuth.Item(local, AdminAuth.TokenKey)
    ensures !Truthy(AdminAuth.Item(local, AdminAuth.TokenKey)) ==> r == AdminAuth.Item(session, AdminAuth.TokenKey)
  {
    Or(AdminAuth.Item(local, AdminAuth.TokenKey), AdminAuth.Item(session, AdminAuth.TokenKey))
  }

  /** The dashboard finds the same token the login page's manager finds. */
  lemma AuthTokenAsLoginPage(s: AdminAuth.Session)
    ensures AuthToken(s.local, s.session) == AdminAuth.StoredToken(s)
  {
  }

  // ---------------------------------------------------------------------
  // The selected images
  // ---------------------------------------------------------------------

  /** The manager's state: `selectedImages`, `undefined` until the first
      selection. */
  class VehicleManager {
    var selectedImages: Option<seq<string>>

    constructor()
      ensures selectedImages == None
    {
      selectedImages := None;
    }

    /** `handleImageSelection(files)`: without the preview container it
        returns before storing anything. */
    method HandleImageSelection(files: seq<string>, hasContainer: bool)
      modifies this
      ensures selectedImages == if hasContainer then Some(files) else old(selectedImages)
    {
      if hasContainer {
        selectedImages := Some(files);
      }
    }

    /** `removeImage(index)`: any array is truthy, so an empty selection is
        spliced too; before the first selection nothing happens. */
    method RemoveImage(index: int)
      modifies this
      ensures old(selectedImages).None? ==> selectedImages == None
      ensures old(selectedImages).Some? ==> selectedImages == Some(SpliceOne(old(selectedImages).value, index))
    {
      if selectedImages.Some? {
        selectedImages := Some(SpliceOne(selectedImages.value, index));
      }
    }

    /** `getSelectedImages()`: `this.selectedImages || []` */
    method GetSelectedImages() returns (images: seq<string>)
      ensures selectedImages.Some? ==> images == selectedImages.value
      ensures selectedImages.None? ==> images == []
    {
      images := if selectedImages.Some? then selectedImages.value else [];
    }

    /** `resetForm(form)`: the selection is emptied. */
    method ResetForm()
      modifies this
      ensures selectedImages == Some([])
    {
      selectedImages := Some([]);
    }
  }

  /** Selecting images, removing one and reading the selection back: a
      valid position loses exactly that image and keeps the others in
      order, a position past the end loses nothing. */
  method SelectThenRemove(files: seq<string>, index: int) returns (images: seq<string>)
    ensures 0 <= index < |files| ==>
      (|images| == |files| - 1
       && (forall k :: 0 <= k < index ==> images[k] == files[k])
       && (forall k :: index <= k < |images| ==> images[k] == files[k + 1]))
    ensures index >= |files| ==> images == files
  {
    var manager := new VehicleManager();
    manager.HandleImageSelection(files, true);
    manager.RemoveImage(index);
    images := manager.GetSelectedImages();
    if 0 <= index < |files| {
      SpliceOneRemovesAt(files, index);
    } else if index >= |files| {
      SpliceOnePastEnd(files, index);
    }
  }

  /** After a reset the upload carries no images. */
  method ResetThenUpload(files: seq<string>) returns (images: seq<string>)
    ensures images == []
  {
    var manager := new VehicleManager();
    manager.HandleImageSelection(files, true);
    manager.ResetForm();
    images := manager.GetSelectedImages();
  }
}
