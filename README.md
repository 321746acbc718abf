# Larrosa Camiones: a Dafny model of the dealership site's rules

This project models the rule logic of the Larrosa Camiones truck-dealership
site. The site has two parts. A FastAPI backend handles administrator
authentication and the vehicle catalogue. A set of browser scripts renders
the catalogue, the vehicle pages, the contact form and the admin dashboard.
The model keeps every decision those pieces make and proves what those
decisions guarantee. It drops the libraries, the database and the DOM.

One Dafny module stands for each source file:

| module | source |
|---|---|
| `Security` | `larrosa-backend/app/core/security.py`: token claims, expiry checks and the bcrypt wrappers, with JWT and bcrypt as abstract sign/verify and hash/verify |
| `AuthGate` | `larrosa-backend/app/core/auth.py`: the ordered 401 / 400 / 403 guard chain and the permission predicates |
| `AuthApi` | `larrosa-backend/app/api/v1/auth.py`: login, registration, refresh, logout and token-check routes, reduced to their outcomes |
| `AuthService` | `larrosa-backend/app/services/auth_service.py`: the user table as a class, with login checks, insertion and last-login update |
| `UserSchemas`, `VehicleRecords` | the record shapes and defaults of `app/schemas` and `app/models`, and the pydantic field validators |
| `VehicleCrud` | `larrosa-backend/app/crud/vehicle.py`: the vehicle table as a class, with the listing filter, the count, soft delete, partial update and the status statistics |
| `VehiclesApi` | `larrosa-backend/app/api/v1/vehicles.py`: query bounds, pagination arithmetic, the admin gate and the write routes |
| `ImageService` | `larrosa-backend/app/services/image_service.py`: upload validation, stored-file naming and the primary-image and display-order bookkeeping |
| `ApiClient`, `LarrosaUnified`, `UnidadesFix`, `UnidadesDisponibles`, `UnidadesFinal`, `UnidadesApi`, `FrontendApi` | the catalogue scripts: image URLs, record normalisation, filters, sorts, counters, load-more paging and the response cache |
| `MainPage`, `Carousel`, `VehicleDetail`, `VehicleDetailApi`, `CompanyPage` | the page scripts: current-page detection, carousels, galleries and their index arithmetic, the share links and the click counter |
| `ContactForm` | `scripts/contacto.js`: the validation rules, the phone formatter, input sanitising and the double-submit guard |
| `AdminAuth`, `AdminDashboard`, `VehicleAdmin` | `scripts/admin/`: the sign-in manager over the two browser stores, and the dashboard's collectors and validators |

The modules share a few helpers:
- `Wrappers` holds `Option` and `Result`.
- `Http` holds the backend's HTTP errors.
- `JsText` holds JavaScript's string operations over `seq<char>`.
- `JsValues` holds the JSON values, truthiness, `||`, `parseInt` and string conversion.
- `StableSort` holds `Array.prototype.sort` as a stable insertion sort.
- `Listing` holds `filter`, `slice` and `splice`.
- `Tally` holds the `counts[key] = (counts[key] || 0) + 1` idiom.

Where the source keeps state, the model keeps it in the same form:
- The backend's tables and the scripts' globals and objects become classes.
- Each method of those classes is proved against a specification function.
- The properties are proved about those functions.

Several scripts repeat the same routine with small differences. Each copy is modelled as written, and lemmas state where the copies agree and where they part:
- whether an unknown vehicle type is labelled 'Varios' or kept unchanged;
- whether a power or price of 0 becomes `null`;
- whether the search lower-cases the query.

Three routines are written twice in the source and modelled once:
- `FrontendAPI.getImageUrl` (`scripts/frontend-api-complete.js:379-389`) is the same branch chain as `APIClient.getImageUrl`, so `ApiClient.GetImageUrl` models both.
- `VehicleManager.collectFormData` (`scripts/admin/dashboard-vehicles.js:81-106`) is the same function as the dashboard's `collectVehicleData`, so `AdminDashboard.CollectVehicleData` models both.
- `VehicleManager.getTypeName` (`scripts/admin/dashboard-vehicles.js:445-454`) is the same table as the dashboard's `getTypeName`, so `AdminDashboard.TypeLabel` models both.

The model uses one integer clock in seconds. Times, dates, random ids and the answers of `fetch` are parameters of the operations that use them.

## Model

| member | source | states |
|---|---|---|
| Security.JoseDecode | larrosa-backend/app/core/security.py:64-68 | decoding succeeds exactly when the token was signed with the server key and, with the expiry check on, a present `exp` is not in the past; it then yields the signed claims |
| Security.AccessTokenClaims | larrosa-backend/app/core/security.py:12-43 | an access token carries the subject, the type `access_token`, the issue time, and expires after the given delta or after 30 minutes when the delta is absent or zero |
| Security.VerifyToken | larrosa-backend/app/core/security.py:61-90 | the payload is returned exactly when the token decodes, a truthy `exp` is not strictly in the past and `sub` is non-empty; it is returned unchanged |
| Security.IssuedTokenVerifiesUntilExpiry | larrosa-backend/app/core/security.py:12-90 | a token issued here for a non-empty subject verifies at every instant up to its expiry and at none after |
| Security.ForeignTokenRejected | larrosa-backend/app/core/security.py:61-104 | a token signed with another key neither verifies nor decodes |
| Security.DecodeToken | larrosa-backend/app/core/security.py:92-104 | decoding with the expiry check off succeeds exactly on the server's signature and returns the claims |
| Security.RefreshDiffersOnlyInType | larrosa-backend/app/core/security.py:106-126 | a refresh token is a 7-day access token whose type tag is `refresh_token` |
| Security.IsTokenExpired | larrosa-backend/app/core/security.py:128-141 | a token is not expired exactly when it decodes, has a truthy `exp` and that instant has not passed |
| Security.GetTokenRemainingTime | larrosa-backend/app/core/security.py:143-161 | a remaining time exists exactly when the token decodes with a truthy `exp`; it is `exp - now` while positive and 0 afterwards |
| Security.RemainingTimeAgreesWithExpiry | larrosa-backend/app/core/security.py:128-161 | time is left exactly when the token is not expired and its expiry instant is still ahead |
| Security.HashPassword | larrosa-backend/app/core/security.py:53-59 | hashing always yields a well-formed bcrypt hash |
| Security.VerifyPassword | larrosa-backend/app/core/security.py:45-51 | a malformed hash never verifies: the library error is caught and reported as a mismatch |
| Security.HashThenVerify | larrosa-backend/app/core/security.py:45-59 | a password verifies against the hash made from it, and no other password does |
| UserSchemas.NewUserBase | larrosa-backend/app/schemas/user.py:6-10 | a new `UserBase` is active and has no full name unless given |
| UserSchemas.EmptyUserUpdate | larrosa-backend/app/schemas/user.py:15-20 | an empty `UserUpdate` sets no field |
| UserSchemas.EmptyTokenPayload | larrosa-backend/app/schemas/user.py:41-42 | an empty token payload has no subject |
| UserSchemas.NewTokenResponse | larrosa-backend/app/schemas/user.py:36-39 | the token response's type defaults to `bearer` and carries the given token and user |
| UserSchemas.UserOutHidesSecrets | larrosa-backend/app/schemas/user.py:22-34 | the outward user schema does not depend on the password hash, the superuser flag or the update time; only `UserInDB` carries the hash |
| UserSchemas.UserOutKeepsDeclaredFields | larrosa-backend/app/schemas/user.py:22-30 | the outward view keeps id, username, email, full name, active flag and creation time |
| AuthGate.FindByUsername | larrosa-backend/app/core/auth.py:60 | the user found has the requested username; none is found exactly when no row has it |
| AuthGate.GetCurrentUser | larrosa-backend/app/core/auth.py:14-74 | a user is returned exactly when credentials are present, the token verifies, has a subject and names a known active user; an inactive user gives 400, every other failure 401 |
| AuthGate.GetCurrentActiveUser | larrosa-backend/app/core/auth.py:76-87 | an active user is passed through unchanged and an error is passed on |
| AuthGate.GetCurrentSuperuser | larrosa-backend/app/core/auth.py:89-101 | only a superuser passes, unchanged; any other user gets 403, and an earlier error is passed on |
| AuthGate.ActiveCheckIsRedundant | larrosa-backend/app/core/auth.py:68-87 | the active-user dependency never changes the outcome of the current-user dependency |
| AuthGate.InactiveBeforeForbidden | larrosa-backend/app/core/auth.py:68-99 | an inactive non-admin asking for an admin route gets 400 before any 403; an active non-admin gets 403 |
| AuthGate.OptionalAgreesWithMandatory | larrosa-backend/app/core/auth.py:103-130 | the optional dependency yields a user exactly when the mandatory one would, and the same user |
| AuthGate.PermissionsCharacterised | larrosa-backend/app/core/auth.py:132-155 | a superuser may act on anything; anyone else only on their own record or a vehicle they own, never on an unowned vehicle |
| AuthService.FindByLogin | larrosa-backend/app/services/auth_service.py:52-54 | the first user whose username or email equals the identifier; none exactly when no row matches either |
| AuthService.ServiceVerifyPassword | larrosa-backend/app/services/auth_service.py:18-20 | the service's check fails with an error exactly on a malformed hash and otherwise agrees with the module-level check |
| AuthService.AuthenticateUser | larrosa-backend/app/services/auth_service.py:50-65 | a user is returned exactly when the lookup finds one, the password verifies and the user is active; an error only comes from a malformed stored hash |
| AuthService.ServiceCreateAccessToken | larrosa-backend/app/services/auth_service.py:26-37 | the token holds a copy of the caller's claims with `exp` set to now plus the delta, or now plus the configured lifetime when the delta is missing or zero; it is unexpired at issue exactly when the delta is not negative |
| AuthService.ServiceVerifyToken | larrosa-backend/app/services/auth_service.py:39-48 | an identity is returned exactly when the token decodes and has a subject; it carries that subject and the `user_id` claim |
| AuthService.ServiceTokenRoundTrip | larrosa-backend/app/services/auth_service.py:26-48 | for any delta, a token the service makes from claims with a subject gives the subject and user id back at every instant up to its `exp` and nothing after |
| AuthService.FindById | larrosa-backend/app/services/auth_service.py:106-108 | the user found has the requested id; none exactly when no row has it |
| AuthService.NewUserRow | larrosa-backend/app/services/auth_service.py:85-94 | the new row stores a hash that verifies exactly the given password, copies username and email, and is never a superuser |
| AuthService.UserTable.Insert | larrosa-backend/app/services/auth_service.py:96-98 | the table gains exactly the new row, with a fresh id |
| AuthService.UserTable.CreateUser | larrosa-backend/app/services/auth_service.py:67-100 | a taken username, then a taken e-mail, gives 400 and writes nothing; otherwise one active, non-superuser row is appended |
| AuthService.UserTable.UpdateUserLastLogin | larrosa-backend/app/services/auth_service.py:110-115 | only `updated_at` of the rows with that id changes |
| AuthApi.LoginJson | larrosa-backend/app/api/v1/auth.py:83-145 | an unknown user and a wrong password both give 401, an inactive user with the right password 400, otherwise a 30-minute token whose subject is the stored username |
| AuthApi.LoginOAuth2 | larrosa-backend/app/api/v1/auth.py:17-81 | the form login gives exactly what the JSON login gives for the same username and password |
| AuthApi.LoginTokenPassesGate | larrosa-backend/app/api/v1/auth.py:83-145 | logging in with the e-mail still issues a token for the username, and that token passes the request gate as that user for 30 minutes |
| AuthApi.WrongPasswordBeatsInactive | larrosa-backend/app/api/v1/auth.py:105-119 | a wrong password on an inactive account is reported as bad credentials |
| AuthApi.CurrentUserInfo | larrosa-backend/app/api/v1/auth.py:147-162 | `/me` answers exactly for an active current user, with `ToUserOut` of that user (so `UserOutKeepsDeclaredFields` applies); gate errors pass through and an inactive user gets 400 |
| AuthApi.VerifyTokenRoute | larrosa-backend/app/api/v1/auth.py:164-178 | `/verify-token` answers `valid` with the current user's name exactly when the gate passes |
| AuthApi.RefreshToken | larrosa-backend/app/api/v1/auth.py:180-209 | `/refresh` gives a fresh 30-minute token for the current user exactly when the gate passes |
| AuthApi.Logout | larrosa-backend/app/api/v1/auth.py:211-223 | `/logout` answers exactly when the gate passes and changes nothing |
| AuthApi.TokenSurvivesLogout | larrosa-backend/app/api/v1/auth.py:211-223 | a token that passed the gate before logout passes it afterwards, since nothing is revoked |
| AuthApi.Register | larrosa-backend/app/api/v1/auth.py:253-301 | a taken username, then a taken e-mail, gives 400 and writes nothing; otherwise the row stores the password's hash and the requested active flag, never superuser |
| VehicleRecords.ValidateYear | larrosa-backend/app/schemas/vehicle.py:50-55 | a year is accepted, unchanged, exactly when 1990 ≤ year ≤ current year + 1 |
| VehicleRecords.ValidateKilometers | larrosa-backend/app/schemas/vehicle.py:57-61 | kilometres are accepted, unchanged, exactly when not negative |
| VehicleRecords.ValidateOptionalAmount | larrosa-backend/app/schemas/vehicle.py:63-73 | power and price are accepted, unchanged, exactly when absent or not negative |
| VehicleRecords.ParseVehicleCreate | larrosa-backend/app/schemas/vehicle.py:30-76 | a create body parses exactly when every required member is present and the four validators pass; absent members take the declared defaults |
| VehicleRecords.NewVehicleRow | larrosa-backend/app/crud/vehicle.py:120-129 | the inserted row is active, has the fresh id and records the creating user |
| VehicleRecords.NewVehicleImage | larrosa-backend/app/models/vehicle.py:56-69 | a new image row belongs to its vehicle, is not primary and has display order 0 |
| VehicleRecords.CreateDefaults | larrosa-backend/app/schemas/vehicle.py:42-76 | a minimal create gets status `Disponible`, not featured, location Villa María, colour `Blanco`, and an active row |
| VehicleCrud.Filter | larrosa-backend/app/crud/vehicle.py:29-64 | the rows kept are exactly the active rows that match every given filter, in table order |
| VehicleCrud.GetVehicles | larrosa-backend/app/crud/vehicle.py:13-66 | the page is the matching rows from position `skip` on, at most `limit` of them |
| VehicleCrud.GetVehiclesCount | larrosa-backend/app/crud/vehicle.py:68-118 | the count never exceeds the number of rows |
| VehicleCrud.CountMatchesListing | larrosa-backend/app/crud/vehicle.py:13-118 | the count equals the number of matching rows, so a page holds min(limit, max(0, count − skip)) rows |
| VehicleCrud.ZeroBoundsIgnored | larrosa-backend/app/crud/vehicle.py:48-64 | a zero year or kilometre bound is falsy and filters nothing, while `is_featured = false` does filter |
| VehicleCrud.GetVehicle | larrosa-backend/app/crud/vehicle.py:9-11 | the row found is active and has the id; nothing is found exactly when no active row has it |
| VehicleCrud.GetFeaturedVehicles | larrosa-backend/app/crud/vehicle.py:155-160 | at most `limit` rows, each active and featured |
| VehicleCrud.GetVehicleStats | larrosa-backend/app/crud/vehicle.py:162-188 | the total never exceeds the number of rows |
| VehicleCrud.StatusCountsWithinTotal | larrosa-backend/app/crud/vehicle.py:164-176 | available, reserved and sold count disjoint sets of active rows, so they add up to at most the total |
| VehicleCrud.Patched | larrosa-backend/app/schemas/vehicle.py:79-98 | a partial update overwrites exactly the fields the client set and never the id or creation data |
| VehicleCrud.ApplyAllIsPatch | larrosa-backend/app/crud/vehicle.py:137-139 | running `setattr` over the set fields gives the field-wise patch |
| VehicleCrud.SetAttrs | larrosa-backend/app/crud/vehicle.py:138-139 | the loop leaves the row equal to applying the set fields in order |
| VehicleCrud.VehicleTable.CreateVehicle | larrosa-backend/app/crud/vehicle.py:120-129 | the table gains exactly one active row with a fresh id, which `get_vehicle` then finds |
| VehicleCrud.VehicleTable.UpdateVehicle | larrosa-backend/app/crud/vehicle.py:131-143 | a missing or soft-deleted id gives `None` and changes nothing; otherwise only that row changes, to its patch |
| VehicleCrud.VehicleTable.DeleteVehicle | larrosa-backend/app/crud/vehicle.py:145-153 | an active row is kept but marked inactive and `true` returned; otherwise `false` and nothing changes |
| ImageService.ValidateImage | larrosa-backend/app/services/image_service.py:40-60 | a file is accepted exactly when it has a name, an allowed extension and an `image/` MIME type; every refusal is a 400 |
| ImageService.SaveImage | larrosa-backend/app/services/image_service.py:62-128 | validation errors keep their 400; an oversized or unprocessable file gives 500; otherwise the stored name is the uuid plus the extension under the vehicles directory, with its thumbnail beside it |
| ImageService.ThumbnailOfStoredPath | larrosa-backend/app/services/image_service.py:213 | replacing `/vehicles/` maps a stored file's path to its thumbnail's path |
| ImageService.DeletePathsMatchSavedPaths | larrosa-backend/app/services/image_service.py:62-128 | the thumbnail path `delete_image` derives from a saved file is the one `save_image` wrote, for any uuid without `/` |
| ImageService.ExtensionWithoutDot | larrosa-backend/app/services/image_service.py:46 | a name without a dot is its own extension, lower-cased |
| ImageService.ImageRow | larrosa-backend/app/services/image_service.py:155-166 | the row for file `index` points at the stored file, is primary exactly for index 0 and has display order `index` |
| ImageService.CollectedRowAt | larrosa-backend/app/services/image_service.py:142-170 | row `j` gets id `firstId + j` and comes from a stored file whose index is its display order |
| ImageService.CollectedOrdered | larrosa-backend/app/services/image_service.py:142-170 | display orders strictly increase along the saved rows |
| ImageService.CollectedHasRow | larrosa-backend/app/services/image_service.py:142-170 | every file with a name that stores successfully has its row |
| ImageService.SavedPrimaryIsFirstFile | larrosa-backend/app/services/image_service.py:164 | only file 0 can be primary: one primary row when file 0 is stored, none when it is skipped |
| ImageService.ApplyOrder | larrosa-backend/app/services/image_service.py:262-266 | one order update changes only the display order of the rows with that id and vehicle |
| ImageService.ReorderOutcome | larrosa-backend/app/services/image_service.py:259-275 | identities and primary flags stay; rows of other vehicles or not named keep their order; otherwise the last entry naming a row decides its order |
| ImageService.CollectImages | larrosa-backend/app/services/image_service.py:142-170 | the loop's rows are exactly the collected rows: nameless and failing files are skipped |
| ImageService.ClearPrimary | larrosa-backend/app/services/image_service.py:239-242 | the vehicle's rows lose the flag; ids, vehicles and other vehicles' rows are unchanged |
| ImageService.MarkPrimary | larrosa-backend/app/services/image_service.py:245-248 | the row with the id and vehicle gets the flag; every other row is unchanged |
| ImageService.WithPrimary | larrosa-backend/app/services/image_service.py:236-257 | the vehicle's images are primary exactly when they carry the id; ids, orders and other vehicles' rows are unchanged |
| ImageService.ImageTable.SaveVehicleImages | larrosa-backend/app/services/image_service.py:130-199 | the table gains exactly the collected rows, with ids handed out in order |
| ImageService.ImageTable.DeleteImage | larrosa-backend/app/services/image_service.py:201-234 | an unknown id changes nothing; otherwise the first row with the id is dropped and its file and thumbnail paths reported |
| ImageService.ImageTable.SetPrimaryImage | larrosa-backend/app/services/image_service.py:236-257 | the result says whether the vehicle has that image, and the rows become `WithPrimary` |
| ImageService.ImageTable.ReorderImages | larrosa-backend/app/services/image_service.py:259-275 | a malformed entry rolls every update back; otherwise the entries are applied in order |
| ImageService.PrimaryAfterSetPrimary | larrosa-backend/app/services/image_service.py:236-257 | afterwards the vehicle has exactly one primary image when it has that image, none otherwise |
| VehiclesApi.FloorDiv | larrosa-backend/app/api/v1/vehicles.py:74 | Python's floor division: the quotient rounds toward negative infinity |
| VehiclesApi.Paginate | larrosa-backend/app/api/v1/vehicles.py:40-77 | `limit = 0` (or a negative limit the database refuses) fails with 500; otherwise the page, the full match count, `page = skip // limit + 1` and `pages` rounded up (1 when `limit` is not positive) |
| VehiclesApi.PagesCoverMatches | larrosa-backend/app/api/v1/vehicles.py:74-76 | with a positive limit, `pages` is the least number of pages that holds every match, and `page` is the page on which row `skip` falls |
| VehiclesApi.ListVehicles | larrosa-backend/app/api/v1/vehicles.py:22-77 | a negative `skip` or `limit` above 100 gives 422; otherwise the paginated listing of active matching rows |
| VehiclesApi.AdminListVehicles | larrosa-backend/app/api/v1/vehicles.py:267-303 | the admin gate, then the same bounds and pagination over `search` and `status`, active rows only |
| VehiclesApi.AdminListForbidsOtherUsers | larrosa-backend/app/api/v1/vehicles.py:267-272 | an active non-superuser with a valid token gets 403 whatever the query |
| VehiclesApi.FeaturedVehicles | larrosa-backend/app/api/v1/vehicles.py:79-88 | `limit` above 10 gives 422; otherwise at most `limit` active featured rows |
| VehiclesApi.GetVehicleRoute | larrosa-backend/app/api/v1/vehicles.py:98-109 | the active row with the id, or 404 `Vehículo no encontrado` exactly when there is none |
| VehiclesApi.DashboardStats | larrosa-backend/app/api/v1/vehicles.py:305-327 | the admin gate, then the statistics and the first five active rows in order |
| VehiclesApi.CreateVehicleRoute | larrosa-backend/app/api/v1/vehicles.py:111-165 | the admin gate; non-JSON or invalid data gives 400 and writes nothing; otherwise the row is inserted with the admin as creator and the images are saved when the first has a name |
| VehiclesApi.UpdateVehicleRoute | larrosa-backend/app/api/v1/vehicles.py:167-189 | the admin gate, then the partial update of an active row, or 404 with nothing changed |
| VehiclesApi.DeleteVehicleRoute | larrosa-backend/app/api/v1/vehicles.py:191-210 | the admin gate, then the soft delete of an active row, or 404 with nothing changed |
| VehiclesApi.UploadImagesRoute | larrosa-backend/app/api/v1/vehicles.py:212-245 | the admin gate, 404 for a vehicle that is not active, otherwise the images are saved and their number reported |
| VehiclesApi.DeleteImageRoute | larrosa-backend/app/api/v1/vehicles.py:247-265 | the admin gate, then deletion by image id alone; an unknown id gives 404 and changes nothing |
| VehiclesApi.ToggleFeaturedAsWritten | larrosa-backend/app/api/v1/vehicles.py:329-360 | as written, an existing vehicle always gets 500 and a missing one 404; nothing is stored |
| VehiclesApi.FeaturedOnly | larrosa-backend/app/api/v1/vehicles.py:345-347 | the intended update sets only `is_featured` |
| VehiclesApi.FeaturedOnlyFlipsFlag | larrosa-backend/app/api/v1/vehicles.py:345-347 | the intended patch flips the flag and nothing else, so toggling twice restores the row |
| VehiclesApi.ToggleFeatured | larrosa-backend/app/api/v1/vehicles.py:329-360 | as intended: the flag of an active row is negated and the reply carries the new value; a missing row gives 404 |
| ApiClient.GetImageUrl | scripts/api.js:87-99 | a falsy path gives the placeholder, an `http` URL and any non-static string are kept, a static path is put under the backend origin with one leading slash dropped; a truthy non-string throws |
| ApiClient.GetImageUrlIdempotent | scripts/api.js:87-99 | feeding a returned URL back returns it unchanged |
| ApiClient.SavedImageUrl | scripts/api.js:93-95 | the `file_path` the backend stores for an uploaded image becomes the backend origin followed by that path |
| Tally.OccurrencesZero | scripts/larrosa-unified.js:538-540 | a key has no occurrences exactly when it is absent |
| Tally.CountInto | scripts/larrosa-unified.js:537-540 | each key ends with its starting count (0 when absent) plus its number of occurrences, and no other key appears |
| Tally.CountsAddUp | scripts/larrosa-unified.js:537-540 | when every key is one of a list of distinct categories, the per-category counts add up to the number of keys |
| Carousel.SimpleCarousel.constructor | scripts/carousel.js:13-65 | with at most four cards the arrows are hidden and the largest index is 0; otherwise it is the card count minus four; one dot per index |
| Carousel.SimpleCarousel.Render | scripts/carousel.js:67-95 | previous is disabled exactly at 0, next exactly at the largest index; the offset is within the track and one dot is active |
| Carousel.SimpleCarousel.Next | scripts/carousel.js:53-58 | one step right unless at the end; the bounds and the dots do not change |
| Carousel.SimpleCarousel.Previous | scripts/carousel.js:45-50 | one step left unless at 0; the bounds and the dots do not change |
| Carousel.SimpleCarousel.SelectIndicator | scripts/carousel.js:116-123 | a click on dot `i` moves straight to index `i` |
| Carousel.Step | scripts/carousel.js:138-150 | the index stays within [0, largest] and moves by one unless it is at the bound it moves toward |
| Carousel.DisabledMeansNoMove | scripts/carousel.js:84-90 | a button is disabled exactly when its click changes nothing, and a step back undoes a step forward that moved |
| MainPage.FileName | scripts/main.js:116 | the last segment of the path: a suffix with no '/' in it, preceded by '/' unless it is the whole path |
| MainPage.PageOfFile | scripts/main.js:119-127 | the three named files map to their pages; the root, `index.html` and any other file name map to the home page |
| MainPage.GetCurrentPageName | scripts/main.js:114-128 | the page is the page of the path's last segment; a path without '/' is looked up as a whole |
| MainPage.GetPageFromHref | scripts/main.js:131-147 | a missing or empty link, the home anchor, `index.html` and `/` mean the home page; otherwise the first page file the link mentions, in the order units, company, contact |
| MainPage.LinkMatchesPage | scripts/main.js:114-147 | a link whose `href` is a page's file name is the link highlighted on that page |
| MainPage.CardsPerView | scripts/main.js:615-629 | 1 card up to 480 pixels, 2 up to 768, 3 up to 1024 and 4 beyond |
| MainPage.CardsPerViewMonotone | scripts/main.js:615-629 | a wider window never shows fewer cards |
| MainPage.MaxSlide | scripts/main.js:697 | the largest slide is the smallest non-negative number at least the card count minus the cards in view |
| MainPage.HomeCarousel.constructor | scripts/main.js:540-543 | the carousel globals start at slide 0, no cards, four per view, not initialised |
| MainPage.HomeCarousel.Initialize | scripts/main.js:546-612 | a second call changes nothing; with no cards only the count is recorded; otherwise the view is sized, `MaxSlide + 1` dots are drawn and the carousel is initialised, the slide unchanged |
| MainPage.HomeCarousel.MoveToPrevious | scripts/main.js:632-641 | one slide left unless at 0; an in-bounds slide stays in bounds |
| MainPage.HomeCarousel.MoveToNext | scripts/main.js:643-654 | one slide right unless at the largest slide; an in-bounds slide stays in bounds |
| MainPage.HomeCarousel.SelectIndicator | scripts/main.js:703-706 | a click on dot `i` moves straight to slide `i` |
| MainPage.HomeCarousel.Resize | scripts/main.js:607-611 | the view and the dots follow the new width; the slide is left where it was |
| MainPage.HomeCarousel.Render | scripts/main.js:656-688 | the offset is one card step per slide; previous is disabled exactly at 0, next exactly at or past the largest slide |
| MainPage.IndicatorsCoverSlides | scripts/main.js:691-711 | every dot stands for a slide the arrows can reach |
| MainPage.NarrowingKeepsBound | scripts/main.js:607-629 | narrowing the window keeps the slide in range |
| MainPage.WideningBreaksBound | scripts/main.js:607-629 | widening can leave the slide past the new largest slide: eight cards reach slide 6 on a phone, only 4 on a desktop |
| MainPage.LastTestimonial | scripts/main.js:854 | the last testimonial index is the card count minus 2, or 0 |
| MainPage.TestimonialStep | scripts/main.js:845-881 | `next` and `previous` wrap around between 0 and the last index |
| MainPage.TestimonialStepsInverse | scripts/main.js:845-881 | `previous` undoes `next` and `next` undoes `previous` |
| MainPage.Testimonials.constructor | scripts/main.js:732-734 | slide 0, no cards, not ready |
| MainPage.Testimonials.Init | scripts/main.js:744-788 | the card count is recorded; it succeeds exactly when there are cards and then starts at slide 0, ready |
| MainPage.Testimonials.Next | scripts/main.js:863-881 | a no-op until ready, then one wrapping step forward |
| MainPage.Testimonials.Previous | scripts/main.js:845-861 | a no-op until ready, then one wrapping step back |
| MainPage.Testimonials.Reset | scripts/main.js:945-951 | back to the first card |
| MainPage.Testimonials.Repair | scripts/main.js:953-967 | the slider is not ready until it is initialised again; the slide is kept |
| MainPage.Testimonials.Offset | scripts/main.js:883-888 | the offset is a whole number of card widths within the track |
| LarrosaUnified.ImageUrl | scripts/larrosa-unified.js:56-75 | a falsy value gives the placeholder; an `http` string is kept, a `static/` or `/static/` string goes under the static origin, any other string is kept; an object resolves through its first truthy path field; anything else gives the placeholder |
| LarrosaUnified.ObjectImagePath | scripts/larrosa-unified.js:70 | the path taken from an object is one of its own field values (or undefined) |
| LarrosaUnified.ImageUrlIdempotent | scripts/larrosa-unified.js:56-75 | every URL handed out maps to itself when fed back |
| LarrosaUnified.ImageRowUrl | scripts/larrosa-unified.js:69-72 | an image row from the backend resolves through its `file_path` |
| LarrosaUnified.TypeName | scripts/larrosa-unified.js:176-186 | a label is never empty |
| LarrosaUnified.TypeNameIsLabel | scripts/larrosa-unified.js:176-186 | the label is one of the five in the table, and `Varios` exactly when the slug is not one of the four known ones |
| LarrosaUnified.ImageList | scripts/larrosa-unified.js:170 | an array is kept, a single truthy value is wrapped, anything else gives no images |
| LarrosaUnified.Pick | scripts/larrosa-unified.js:150-169 | `v.key || fallback`: the field when truthy, else the fallback |
| LarrosaUnified.Pick2 | scripts/larrosa-unified.js:153-163 | `v.first || v.second || fallback`, the first truthy of the three |
| LarrosaUnified.NormalizeVehicle | scripts/larrosa-unified.js:145-174 | the images follow `ImageList`, the featured flag keeps the row's truthiness, and a row without a type gets `varios` |
| LarrosaUnified.NormalizedIsWellFormed | scripts/larrosa-unified.js:145-174 | every normalised record has a truthy value in each defaulted field, a price that is truthy or null and a featured flag that is truthy or false |
| LarrosaUnified.NormalizeIdempotent | scripts/larrosa-unified.js:145-174 | normalising a normalised record changes nothing when its full name came out non-empty |
| LarrosaUnified.NormalizeNotIdempotentWithoutNames | scripts/larrosa-unified.js:153 | a row with neither brand nor model gets an empty full name, which a second pass replaces by the two default labels |
| LarrosaUnified.InitialFiltersPassAll | scripts/larrosa-unified.js:91-99 | with the initial filters every vehicle passes |
| LarrosaUnified.BoundsInclusive | scripts/larrosa-unified.js:366-380 | a vehicle passes the year and kilometre bounds exactly when each truthy bound holds inclusively |
| StableSort.SortStable | scripts/larrosa-unified.js:439 | the sort behind every catalogue `sort` call is stable: the vehicles of any one rank come out in their input order |
| LarrosaUnified.CompareMatchesRank | scripts/larrosa-unified.js:436-457 | the comparator says before or after exactly when the rank is smaller or larger, so the sort is the stable sort by rank |
| LarrosaUnified.SortOrders | scripts/larrosa-unified.js:436-457 | after `relevance` no plain vehicle precedes a featured one; after `km-asc` the kilometres never decrease |
| LarrosaUnified.ParsedOr | scripts/larrosa-unified.js:464-465 | `parseInt(text) || fallback`: the number when it parses to a non-zero value, else the fallback |
| LarrosaUnified.LoadedVehicles | scripts/larrosa-unified.js:130-147 | loading fails for a `null` or `undefined` answer, and otherwise succeeds exactly when `data.vehicles \|\| data \|\| []` is an array none of whose rows is `null` or `undefined`; the first such row fails with the `TypeError` of reading `full_name`; on success each row is normalised |
| LarrosaUnified.TypeKeys | scripts/larrosa-unified.js:539 | each vehicle is counted under its type converted to a property name |
| LarrosaUnified.Shown | scripts/larrosa-unified.js:546 | the count shown for a category: its counter, or 0 when the counter is missing or zero |
| LarrosaUnified.Catalogue.constructor | scripts/larrosa-unified.js:87-99 | no vehicles, the initial filters and the `relevance` order |
| LarrosaUnified.Catalogue.LoadVehicles | scripts/larrosa-unified.js:124-143 | on success every row is normalised and shown unfiltered and unsorted; on failure nothing changes |
| LarrosaUnified.Catalogue.ApplyFilters | scripts/larrosa-unified.js:346-400 | the shown list is the sorted list of the vehicles that pass the filters |
| LarrosaUnified.Catalogue.ApplySort | scripts/larrosa-unified.js:436-457 | the shown list is sorted in place by the current key |
| LarrosaUnified.Catalogue.ChooseSort | scripts/larrosa-unified.js:419-431 | a sort option becomes the current key and re-sorts the shown list |
| LarrosaUnified.Catalogue.FilterByCategory | scripts/larrosa-unified.js:340-344 | the category filter is set and the list recomputed |
| LarrosaUnified.Catalogue.UpdateYearFilter | scripts/larrosa-unified.js:463-470 | the bounds become the parsed inputs, unparsable or zero input falling back to 2000 and the current year |
| LarrosaUnified.Catalogue.UpdateKmFilter | scripts/larrosa-unified.js:485-492 | the bounds become the parsed inputs, with fallbacks 0 and 1000000 |
| LarrosaUnified.Catalogue.UpdateBrands | scripts/larrosa-unified.js:505-511 | the checked brands become the brand filter |
| LarrosaUnified.Catalogue.CheckURLFilters | scripts/larrosa-unified.js:519-534 | the `category` parameter, else `filter`, is applied when truthy and not `all`; otherwise nothing changes |
| LarrosaUnified.Catalogue.UpdateCategoryCounters | scripts/larrosa-unified.js:536-550 | `all` starts at the number of vehicles and each vehicle adds one under its type; no other key appears |
| LarrosaUnified.ExpectedIsFiltered | scripts/larrosa-unified.js:346-400 | a vehicle is shown exactly when it is loaded and passes, and no vehicle is shown more often than it was loaded |
| LarrosaUnified.CountersAddUp | scripts/larrosa-unified.js:536-540 | when no type is `all`, the `all` counter is the number of vehicles and the type counters add up to it |
| LarrosaUnified.NextIndex | scripts/larrosa-unified.js:808-813 | the next index wraps from the last image to 0 |
| LarrosaUnified.PreviousIndex | scripts/larrosa-unified.js:815-822 | the previous index wraps from 0 to the last image |
| LarrosaUnified.StepsInverse | scripts/larrosa-unified.js:808-822 | a step back undoes a step forward and the other way round |
| LarrosaUnified.Shows | scripts/larrosa-unified.js:719-729 | the main image moves only to an index holding a truthy image |
| LarrosaUnified.Detail.constructor | scripts/larrosa-unified.js:627-632 | no images, index 0 |
| LarrosaUnified.Detail.Populate | scripts/larrosa-unified.js:706-710 | the vehicle's images are taken and the first is shown when there is one |
| LarrosaUnified.Detail.UpdateMainImage | scripts/larrosa-unified.js:719-729 | the index moves to `index` exactly when that image exists and is truthy |
| LarrosaUnified.Detail.NextImage | scripts/larrosa-unified.js:808-813 | with no images nothing changes; otherwise the main image moves to the wrapping next index |
| LarrosaUnified.Detail.PreviousImage | scripts/larrosa-unified.js:815-822 | the main image moves to the wrapping previous index |
| LarrosaUnified.GalleryCycles | scripts/larrosa-unified.js:808-822 | with every image truthy, next then previous comes back to the same index |
| UnidadesFix.FixedImageUrl | scripts/unidades-fix.js:31-57 | a falsy value gives the placeholder; an `http` string is kept, a static path goes under the origin with one leading slash removed, any other string is kept; an object resolves through its first truthy path field |
| UnidadesFix.FixedImageUrlIdempotent | scripts/unidades-fix.js:31-57 | feeding a produced URL back changes nothing |
| UnidadesFix.FixedAgreesOnStaticPaths | scripts/unidades-fix.js:42-44 | on a path both clients treat as static, this client and the one in `larrosa-unified.js` build the same URL |
| UnidadesFix.StaticWithoutSlashDiffers | scripts/unidades-fix.js:42-44 | on `static` without a slash the two clients part: this one prefixes the origin, the other keeps the text |
| UnidadesFix.DebugImageUrl | scripts/unidades-fix.js:797-847 | as the fixed client, except that a plain string holding a '.' is put under `static/images/`, and an object is also searched for `image_url` and `src` |
| UnidadesFix.ContainsDot | scripts/unidades-fix.js:817 | `includes('.')` holds exactly when the text has a '.' |
| UnidadesFix.DebugImageUrlStable | scripts/unidades-fix.js:797-847 | every URL of the debug client other than the placeholder maps to itself when fed back |
| UnidadesFix.DebugPlaceholderMoves | scripts/unidades-fix.js:817-820 | the placeholder itself holds a '.', so fed back it is moved under `static/images/` |
| UnidadesFix.ProcessImages | scripts/unidades-fix.js:168-177 | a string becomes one image, an array is kept, an object gives its first truthy `images`, `urls` or `files` when that is an array, anything else none |
| UnidadesFix.Reads | scripts/unidades-fix.js:868-874 | the listed fields of the object, in order |
| UnidadesFix.ProcessImagesAdvanced | scripts/unidades-fix.js:850-909 | the two searching loops compute the advanced image list |
| UnidadesFix.FirstNonEmptyAt | scripts/unidades-fix.js:876-882 | the search takes the first non-empty array |
| UnidadesFix.FirstNonEmptyNone | scripts/unidades-fix.js:876-882 | with no non-empty array the search finds none |
| UnidadesFix.FirstTruthyListAt | scripts/unidades-fix.js:896-902 | the second search takes the first truthy value, or none |
| UnidadesFix.AdvancedImagesOfObject | scripts/unidades-fix.js:864-904 | for an object: the first non-empty array among `images`, `urls`, `files`, `photos` and `attachments`, else the first truthy single field, else nothing |
| UnidadesFix.ReadersKeepArrays | scripts/unidades-fix.js:912-927 | both readers keep an array as it is, so re-reading a normalised record's images changes nothing |
| UnidadesFix.TypeName | scripts/unidades-fix.js:179-188 | a label is never empty |
| UnidadesFix.TypeNameIsLabel | scripts/unidades-fix.js:179-188 | the label is `Varios` exactly when the slug is none of the four specific types, and agrees with `larrosa-unified.js` |
| UnidadesFix.Pick | scripts/unidades-fix.js:142-165 | `v.key || fallback` is truthy when the fallback is |
| UnidadesFix.Pick2 | scripts/unidades-fix.js:146-153 | `v.first || v.second || fallback` is truthy when the fallback is |
| UnidadesFix.NormalizeVehicle | scripts/unidades-fix.js:142-165 | a row is active unless `is_active` is `false`, and its images go through `processImages` |
| UnidadesFix.NormalizedLabels | scripts/unidades-fix.js:142-165 | every normalised record has a truthy id and truthy labels, and its type is `varios` when the row names none |
| UnidadesFix.InitialFiltersPassAll | scripts/unidades-fix.js:65 | the cleared filters let every vehicle through |
| UnidadesFix.FilteredMembers | scripts/unidades-fix.js:365-389 | a vehicle is shown exactly when it is loaded, of the chosen type unless `all`, and its lower-cased names hold the search text |
| UnidadesFix.UpperCaseSearchNeverMatches | scripts/unidades-fix.js:374-378 | under any category, a search holding an ASCII capital anywhere could never match the lower-cased text, which is why the input handler lower-cases it |
| UnidadesFix.ResponseList | scripts/unidades-fix.js:109-120 | the list is `vehicles`, the response itself or `data`, whichever is first an array; none when no one is |
| UnidadesFix.CounterKeys | scripts/unidades-fix.js:420-421 | each vehicle is counted under `type || 'varios'` |
| UnidadesFix.UntypedCountsAsVarios | scripts/unidades-fix.js:420-421 | a vehicle without a type is counted under `varios` |
| UnidadesFix.System.constructor | scripts/unidades-fix.js:61-67 | no vehicles, the filters `{category: 'all'}` and the fixed client |
| UnidadesFix.LoadOutcome | scripts/unidades-fix.js:108-144 | loading fails exactly when the response has no list or a row is `null` or `undefined`, the latter with the `TypeError` of reading `id` on the first such row; on success it reports the number of rows |
| UnidadesFix.NormalizedAll | scripts/unidades-fix.js:126 | one normalised record per row, in order |
| UnidadesFix.System.LoadVehicles | scripts/unidades-fix.js:100-139 | reports `LoadOutcome`; on a non-empty success every row is normalised and shown unfiltered, and a failure or an empty list keeps both lists |
| UnidadesFix.System.ApplyFilters | scripts/unidades-fix.js:365-389 | the shown list is the loaded vehicles that pass, in order |
| UnidadesFix.System.FilterByCategory | scripts/unidades-fix.js:359-363 | the category is set and the list recomputed |
| UnidadesFix.System.Search | scripts/unidades-fix.js:326-329 | the search becomes the lower-cased typed text and the list is recomputed |
| UnidadesFix.System.CheckURLFilters | scripts/unidades-fix.js:339-357 | the `category` parameter, else `filter`, is applied when truthy and not `all` |
| UnidadesFix.System.ClearAllFilters | scripts/unidades-fix.js:391-403 | back to `{category: 'all'}`, which shows every loaded vehicle |
| UnidadesFix.System.UpdateCategoryCounters | scripts/unidades-fix.js:417-434 | `all` starts at the number of vehicles and each vehicle adds one under its counter key; no other key appears |
| UnidadesFix.System.CardImage | scripts/unidades-fix.js:229-231 | the first image through the client in use, or the placeholder when there is none |
| UnidadesFix.System.FixImageHandling | scripts/unidades-fix.js:912-927 | the debug client replaces the fixed one; a non-empty list is re-read unchanged and shown in full |
| UnidadesDisponibles.Without | scripts/unidadesDisponibles.js:224 | the value is gone and every other value of the list is kept |
| UnidadesDisponibles.WithoutKeepsDistinct | scripts/unidadesDisponibles.js:224 | removing a value never creates a repeat |
| UnidadesDisponibles.Toggle | scripts/unidadesDisponibles.js:210-233 | other lists are untouched; a checked value is added unless present; an unchecked one is removed and an emptied list deleted |
| UnidadesDisponibles.ToggleKeepsLists | scripts/unidadesDisponibles.js:210-233 | the lists stay non-empty and free of repeats |
| UnidadesDisponibles.CheckTwiceIsOnce | scripts/unidadesDisponibles.js:218-222 | checking a box twice stores its value once, and unchecking after checking removes it |
| UnidadesDisponibles.TransmissionLabel | scripts/unidadesDisponibles.js:302 | only `manual` and `automatica` have a label |
| UnidadesDisponibles.TransmissionFilter | scripts/unidadesDisponibles.js:301-309 | the transmission filter passes a vehicle exactly when a checked value names its transmission |
| UnidadesDisponibles.NoFiltersPassAll | scripts/unidadesDisponibles.js:261-338 | with no filters and no category chosen every vehicle passes |
| UnidadesDisponibles.CompareMatchesRank | scripts/unidadesDisponibles.js:448-469 | the comparator orders two vehicles exactly as their ranks do, so the sort is the stable sort by rank |
| UnidadesDisponibles.SortOrders | scripts/unidadesDisponibles.js:448-469 | after `price-asc` prices never decrease; after `relevance` the dates never increase |
| UnidadesDisponibles.LoadMoreButton | scripts/unidadesDisponibles.js:570-584 | the button hides exactly when the shown pages cover the list, and otherwise counts the vehicles still hidden |
| UnidadesDisponibles.Page.constructor | scripts/unidadesDisponibles.js:4-10 | no vehicles, no filters, page 1, not loading, the `relevance` order |
| UnidadesDisponibles.Page.Visible | scripts/unidadesDisponibles.js:490-493 | the shown cards are the first `page × 24` of the list, or all of it |
| UnidadesDisponibles.Page.ApplyFilters | scripts/unidadesDisponibles.js:261-346 | the passing vehicles, sorted, from page 1 |
| UnidadesDisponibles.Page.ApplySorting | scripts/unidadesDisponibles.js:448-469 | the list is sorted in place by the current key |
| UnidadesDisponibles.Page.ChooseSort | scripts/unidadesDisponibles.js:416-435 | a sort option becomes the current key and re-sorts the list without going back to page 1 |
| UnidadesDisponibles.Page.HandleFilterChange | scripts/unidadesDisponibles.js:210-233 | a checkbox toggles its value in its list; any other input only filters again |
| JsValues.ParseIntTextOfHex | scripts/unidadesDisponibles.js:237 | `parseInt` without a radix reads a "0x" text in base 16, as every `parseInt` of a form or range input does |
| UnidadesDisponibles.Page.HandleRangeFilter | scripts/unidadesDisponibles.js:235-259 | input that parses to 0 or nothing changes nothing; otherwise the named bound is set and the list recomputed |
| UnidadesDisponibles.Page.HandleSearch | scripts/unidadesDisponibles.js:191-200 | the search becomes the trimmed, lower-cased text and the list is recomputed |
| UnidadesDisponibles.Page.ClearSearch | scripts/unidadesDisponibles.js:202-208 | the search is removed and the list recomputed |
| UnidadesDisponibles.Page.ClearAllFilters | scripts/unidadesDisponibles.js:348-382 | no filters and the `all` category, so every vehicle is shown in the current order, from page 1 |
| UnidadesDisponibles.Page.LoadMoreVehicles | scripts/unidadesDisponibles.js:586-596 | ignored while loading; otherwise one more page with the loading flag up |
| UnidadesDisponibles.Page.LoadingDone | scripts/unidadesDisponibles.js:592-595 | the timer ends the loading and changes nothing else |
| UnidadesDisponibles.SetBound | scripts/unidadesDisponibles.js:241-256 | an id holding `year` sets a year bound, else one holding `km` a kilometre bound; `min` picks the lower bound; other ids change nothing |
| UnidadesDisponibles.DoubleClickLoadsOnce | scripts/unidadesDisponibles.js:586-596 | two clicks before the timer runs load one page, not two |
| UnidadesDisponibles.ButtonMatchesVisible | scripts/unidadesDisponibles.js:490-493 | the button hides exactly when the shown prefix is the whole list, and otherwise counts what the prefix leaves out |
| UnidadesFinal.FirstImage | scripts/unidadesDisponibles-final.js:397-398 | `vehicle.images[0]` when the images are a non-empty array or string, and nothing otherwise |
| UnidadesFinal.VehicleImageUrl | scripts/unidadesDisponibles-final.js:395-416 | the placeholder without images; an `http` first image kept; a static one put on the backend origin without its leading slash; any other string kept; a non-string first image throws |
| UnidadesFinal.AgreesWithClient | scripts/unidadesDisponibles-final.js:405-407 | on a first image under `static/` the page and the shared client build the same URL |
| UnidadesFinal.OtherPathsKept | scripts/unidadesDisponibles-final.js:400-413 | an absolute URL or an unrecognised path is used as it is |
| UnidadesFinal.StatusClass | scripts/unidadesDisponibles-final.js:418-426 | `available` for a falsy status; otherwise one of `available`, `reserved` and `sold`; a truthy non-string throws |
| UnidadesFinal.StatusPrecedence | scripts/unidadesDisponibles-final.js:421-425 | `sold` exactly when the status mentions `vendido` in any case but neither `disponible` nor `reservado`; `reserved` exactly when it mentions `reservado` but not `disponible` |
| UnidadesFinal.InitialFiltersPassAll | scripts/unidadesDisponibles-final.js:14-23 | under the initial filters every vehicle passes |
| UnidadesFinal.CompareMatchesRank | scripts/unidadesDisponibles-final.js:369-393 | the comparator orders two vehicles exactly as their ranks do |
| UnidadesFinal.MissingYearIsZero | scripts/unidadesDisponibles-final.js:375-376 | a vehicle without a year sorts as year 0, after every vehicle of a positive year under `year-desc` |
| UnidadesFinal.FeaturedFirst | scripts/unidadesDisponibles-final.js:384-388 | after `relevance` no plain vehicle precedes a featured one |
| UnidadesFinal.TypeKeys | scripts/unidadesDisponibles-final.js:446-451 | at most one key per vehicle |
| UnidadesFinal.UntypedUncounted | scripts/unidadesDisponibles-final.js:448-450 | a vehicle with a falsy type adds to no type bucket |
| UnidadesFinal.TypeKeysCount | scripts/unidadesDisponibles-final.js:446-451 | one key per vehicle whose type is truthy |
| UnidadesFinal.Page.constructor | scripts/unidadesDisponibles-final.js:12-26 | no vehicles, the initial filters, page 1 |
| UnidadesFinal.Page.LoadVehicles | scripts/unidadesDisponibles-final.js:75-116 | a `vehicles` array replaces both lists; anything else leaves them as they were |
| UnidadesFinal.Page.ApplyFilters | scripts/unidadesDisponibles-final.js:314-341 | the shown list is the loaded vehicles that pass, in order, from page 1 |
| UnidadesFinal.Page.FilterByCategory | scripts/unidadesDisponibles-final.js:307-312 | the category is set and the list recomputed |
| UnidadesFinal.Page.Search | scripts/unidadesDisponibles-final.js:244-247 | the search becomes the lower-cased, untrimmed text and the list is recomputed |
| UnidadesFinal.Page.ClearAllFilters | scripts/unidadesDisponibles-final.js:343-367 | the initial filters again, and every vehicle shown |
| UnidadesFinal.Page.SortVehicles | scripts/unidadesDisponibles-final.js:369-393 | the shown list is sorted in place, a permutation of what it was; the page stays |
| UnidadesFinal.Page.Visible | scripts/unidadesDisponibles-final.js:136-139 | the drawn cards are the first `page × 24`, or all |
| UnidadesFinal.Page.UpdateCategoryCounters | scripts/unidadesDisponibles-final.js:440-452 | `all` starts at the number of vehicles and each truthy type adds one to its own key; no other key appears |
| UnidadesApi.URLFilters | scripts/unidadesDisponibles-api.js:101-132 | a category other than `all` becomes the one-element `type` list, and a non-empty search is copied; otherwise the filters are kept |
| UnidadesApi.URLActiveCategory | scripts/unidadesDisponibles-api.js:106-117 | the URL activates the category item whose `data-category` equals the parameter |
| UnidadesApi.TypeListUnread | scripts/unidadesDisponibles-api.js:134-177 | the `type` list the URL writes is never read by the filter; only the active category item narrows the list |
| UnidadesApi.SearchIgnoresCase | scripts/unidadesDisponibles-api.js:141-146 | searching for a vehicle's brand in any case keeps that vehicle |
| UnidadesApi.SearchTextStartsWithBrand | scripts/unidadesDisponibles-api.js:143 | the searchable text opens with the lower-cased brand |
| UnidadesApi.LowerKeepsPrefix | scripts/unidadesDisponibles-api.js:143-144 | lower-casing keeps a prefix a prefix |
| UnidadesApi.CompareMatchesRank | scripts/unidadesDisponibles-api.js:179-202 | the comparator orders two vehicles exactly as their ranks do |
| UnidadesApi.MissingPriceIsZero | scripts/unidadesDisponibles-api.js:182-183 | a vehicle without a price sorts as price 0, before every positive price under `price-asc` |
| UnidadesApi.SortOrders | scripts/unidadesDisponibles-api.js:179-202 | after `price-asc` prices, missing ones as 0, never decrease; after `relevance` no plain vehicle precedes a featured one |
| UnidadesApi.Catalogue.constructor | scripts/unidadesDisponibles-api.js:12-19 | no vehicles, no filters, page 1, the `relevance` order, a total of 0 |
| UnidadesApi.Catalogue.ApplyFilters | scripts/unidadesDisponibles-api.js:134-177 | the passing vehicles, sorted, from page 1 |
| UnidadesApi.Catalogue.LoadVehicles | scripts/unidadesDisponibles-api.js:53-99 | a `vehicles` array is kept with `total` or its length; any other response falls back to an empty list; the filters are applied either way |
| UnidadesApi.Catalogue.CheckURLFilters | scripts/unidadesDisponibles-api.js:101-132 | the filters become `URLFilters` of the parameters and nothing else changes |
| UnidadesApi.Catalogue.Visible | scripts/unidadesDisponibles-api.js:231-238 | the drawn cards are the first `page × 24`, or all |
| UnidadesApi.Catalogue.ShowingCount | scripts/unidadesDisponibles-api.js:214-215 | the count shown is the size of the drawn prefix |
| UnidadesApi.FilteredMembers | scripts/unidadesDisponibles-api.js:134-177 | a vehicle is listed exactly when it is loaded and passes |
| FrontendApi.CacheKey | scripts/frontend-api-complete.js:132 | the key is the URL, `_`, then the serialised options |
| FrontendApi.CacheKeyInjective | scripts/frontend-api-complete.js:132 | with the same serialised options, the same key means the same URL |
| FrontendApi.Request | scripts/frontend-api-complete.js:131-169 | a fresh entry answers without fetching; otherwise a success is stored with its arrival time and a failure changes nothing |
| FrontendApi.RequestNeverEvicts | scripts/frontend-api-complete.js:131-169 | every cached key stays, and only the requested key can change |
| FrontendApi.RepeatServedFromCache | scripts/frontend-api-complete.js:135-140 | a repeat within five minutes of a success is answered from the cache whatever the network says |
| FrontendApi.StaleRefetched | scripts/frontend-api-complete.js:156-161 | a stale entry is replaced by the fresh answer |
| FrontendApi.Client.constructor | scripts/frontend-api-complete.js:5-10 | the cache starts empty |
| FrontendApi.Client.MakeRequest | scripts/frontend-api-complete.js:131-169 | the answer and the new cache are those of `Request` |
| FrontendApi.CategoryCounts | scripts/frontend-api-complete.js:299-307 | the keys are `all` and the five type slugs; `all` is the number of vehicles and each slug the number of vehicles of exactly that type |
| FrontendApi.CountsAddUp | scripts/frontend-api-complete.js:299-307 | every vehicle is counted once besides `all`: in its type's bucket, or nowhere when its type is unknown |
| FrontendApi.BucketsAddUp | scripts/frontend-api-complete.js:299-307 | the five buckets and the vehicles of other types make up `all` |
| FrontendApi.UnknownCountsOnlyInAll | scripts/frontend-api-complete.js:299-307 | a vehicle of unknown type raises `all` and no bucket |
| ContactForm.RuleFor | scripts/contacto.js:152-186 | exactly the six fields `nombre`, `email`, `telefono`, `consulta-tipo`, `mensaje` and `privacy` have a rule, and every rule is required |
| ContactForm.EmailHasOneAt | scripts/contacto.js:166 | an address the pattern accepts has exactly one '@', with text on both sides |
| ContactForm.ValidateField | scripts/contacto.js:188-232 | a field without a rule is valid; otherwise the required test, the pattern, the minimum and the maximum length run on the trimmed value and the first failure decides |
| ContactForm.ValidIff | scripts/contacto.js:188-232 | a field with a rule that is not a checkbox passes exactly when its trimmed value is non-empty, matches the pattern and respects both lengths |
| ContactForm.MessageLength | scripts/contacto.js:176-181 | the message is valid exactly when its trimmed length is between 10 and 1000 |
| ContactForm.PhoneRule | scripts/contacto.js:169-174 | a phone number is valid exactly when its trimmed value holds only digits, white space and `-+()`, at least 8 of them |
| ContactForm.NameRule | scripts/contacto.js:154-159 | a name is valid exactly when it holds only letters (with the accented vowels and ñ) and white space, at least 2 characters once trimmed |
| ContactForm.EmailRule | scripts/contacto.js:164-168 | an address is valid exactly when its trimmed value matches the pattern |
| ContactForm.UncheckedPrivacyPasses | scripts/contacto.js:198-206 | the privacy checkbox's value is `on`, so the required test never runs and it passes unchecked |
| ContactForm.EmptyUncheckedFails | scripts/contacto.js:199-201 | an unchecked checkbox with an empty value fails with its message |
| ContactForm.ValidateForm | scripts/contacto.js:234-245 | every required field is validated without stopping early, and the form is valid exactly when all of them are |
| ContactForm.Digits | scripts/contacto.js:402 | the digits of the text, in order |
| ContactForm.DigitsOfDigits | scripts/contacto.js:402 | a string of digits is its own digits |
| ContactForm.DigitsAppend | scripts/contacto.js:402 | the digits of a concatenation are the concatenated digits |
| ContactForm.FormatPhoneInput | scripts/contacto.js:401-414 | the formatted input is at most 12 characters |
| ContactForm.FormatPhoneInputDigits | scripts/contacto.js:401-414 | removing the dashes gives the first ten (or fewer) digits typed |
| ContactForm.FormatPhoneInputIdempotent | scripts/contacto.js:401-414 | typing into an already formatted field changes nothing |
| ContactForm.FormatPhoneNumber | scripts/contacto.js:698-710 | a text without ten or eleven digits is returned as given |
| ContactForm.FormatPhoneNumberShape | scripts/contacto.js:698-710 | ten digits become 3-3-4 and eleven 1-3-3-4: every digit kept, in order, with one dash between groups |
| ContactForm.DropAngles | scripts/contacto.js:713 | no '<' or '>' remains |
| ContactForm.DropAnglesKeeps | scripts/contacto.js:713 | text without angle brackets is left as it is |
| ContactForm.SanitizeInput | scripts/contacto.js:712-714 | the result has no angle brackets and is no longer than the trimmed input |
| ContactForm.SanitizeKeepsPlainText | scripts/contacto.js:712-714 | text with no brackets and no outer white space is returned unchanged |
| ContactForm.Page.constructor | scripts/contacto.js:4 | no submission in progress |
| ContactForm.Page.HandleFormSubmit | scripts/contacto.js:70-87 | ignored while a submission is in progress, refused when the form is invalid, otherwise locked and sent |
| ContactForm.Page.Unlock | scripts/contacto.js:129-131 | the timer ends the lock |
| ContactForm.SubmitTwice | scripts/contacto.js:70-87 | the same form submitted twice before the lock ends is sent at most once |
| VehicleDetail.SampleVehicle | scripts/detalleVehiculo.js:49-75 | the same sample record whatever the id, carrying that id |
| VehicleDetail.SampleImagesRead | scripts/detalleVehiculo.js:66-71 | the sample record has the four sample images |
| VehicleDetail.LoadVehicle | scripts/detalleVehiculo.js:29-47 | a stored vehicle wins; otherwise the sample record for the `id` parameter, or for `default` when there is none |
| VehicleDetail.LoadedSampleImages | scripts/detalleVehiculo.js:29-75 | without a stored vehicle the page shows the four sample images whatever the URL says |
| VehicleDetail.JsRem | scripts/detalleVehiculo.js:174 | JavaScript's `%` agrees with the mathematical remainder on non-negative operands |
| VehicleDetail.Selected | scripts/detalleVehiculo.js:160-171 | an index outside the gallery is ignored; `NaN` slips through the guard and is taken |
| VehicleDetail.NextWraps | scripts/detalleVehiculo.js:173-176 | from a shown image, next shows the following one and wraps from the last to the first |
| VehicleDetail.PreviousWraps | scripts/detalleVehiculo.js:178-181 | from a shown image, previous shows the one before and wraps from the first to the last |
| VehicleDetail.StepsInverse | scripts/detalleVehiculo.js:173-181 | a step back undoes a step on and the other way round |
| VehicleDetail.EmptyNextIsNaN | scripts/detalleVehiculo.js:173-176 | on an empty gallery next leaves `NaN` as the index, and from then on neither button brings a number back |
| VehicleDetail.KeysStayInRange | scripts/detalleVehiculo.js:411-431 | the arrow keys keep a shown index among the images |
| VehicleDetail.Page.constructor | scripts/detalleVehiculo.js:4-6 | no vehicle, index 0, no images |
| VehicleDetail.Page.Populate | scripts/detalleVehiculo.js:81-117 | the images become the vehicle's (none when it has none); `null` or `undefined` throws before anything is set |
| VehicleDetail.Page.LoadVehicleData | scripts/detalleVehiculo.js:29-47 | the vehicle becomes `LoadVehicle` of the stored item and the URL, and its images are taken |
| VehicleDetail.Page.InitializeImageGallery | scripts/detalleVehiculo.js:127-130 | the index goes back to 0 |
| VehicleDetail.Page.SelectImage | scripts/detalleVehiculo.js:160-171 | the index becomes `Selected` of the click |
| VehicleDetail.Page.NextImage | scripts/detalleVehiculo.js:173-176 | the index moves to the wrapping next one |
| VehicleDetail.Page.PreviousImage | scripts/detalleVehiculo.js:178-181 | the index moves to the wrapping previous one |
| VehicleDetail.Page.KeyDown | scripts/detalleVehiculo.js:411-431 | an empty gallery ignores keys; the arrows move like the buttons and other keys leave the index |
| VehicleDetail.OpenSamplePage | scripts/detalleVehiculo.js:29-47 | opening the page without a stored vehicle shows the four sample images, and the arrows keep the index among them |
| VehicleDetailApi.FallbackVehicle | scripts/detalleVehiculo-api.js:206-237 | the fallback record carries the URL's id, or `fallback-1` when there is none |
| VehicleDetailApi.FallbackImagesRead | scripts/detalleVehiculo-api.js:229-233 | the fallback record has its three images |
| VehicleDetailApi.LoadVehicle | scripts/detalleVehiculo-api.js:29-77 | a truthy stored vehicle wins; else, for an `id` parameter, a truthy answer of the API; else the fallback record; the result is always truthy |
| VehicleDetailApi.ImageUrls | scripts/detalleVehiculo-api.js:171 | mapping succeeds exactly when every image has a URL, and then gives each image's URL in order |
| VehicleDetailApi.GalleryImages | scripts/detalleVehiculo-api.js:170-186 | the gallery is the URL of every image, or the placeholder alone for no images, so never empty; a value that is not an array throws |
| VehicleDetailApi.FormatVehicleDate | scripts/detalleVehiculo-api.js:188-204 | a falsy date gives `No especificada`; a value holding '/' is kept; another string goes through `Date` |
| VehicleDetailApi.SlashedDateUnchanged | scripts/detalleVehiculo-api.js:192-199 | a date already written with slashes is shown unchanged, and one without goes through `Date` |
| VehicleDetailApi.Related | scripts/detalleVehiculo-api.js:485-523 | a failed request, an answer without a `vehicles` array, or a `null`/`undefined` entry whose `id` cannot be read shows the error; otherwise up to four vehicles other than the shown one, or the none-available message |
| VehicleDetailApi.RelatedShowsOthers | scripts/detalleVehiculo-api.js:503-505 | a `null`/`undefined` entry makes the grid show the error; otherwise the grid is the other vehicles in answer order: exactly the first four when there are at least four, all of them when there are one to four, the none-available message when there are none |
| VehicleDetailApi.Page.constructor | scripts/detalleVehiculo-api.js:5-7 | no vehicle, index 0, no images, the related grid untouched |
| VehicleDetailApi.Page.Populate | scripts/detalleVehiculo-api.js:80-130 | a falsy vehicle or images that cannot be mapped show the error state and keep the gallery; otherwise the gallery is `GalleryImages` of the vehicle's images |
| VehicleDetailApi.Page.LoadVehicleData | scripts/detalleVehiculo-api.js:29-77 | the vehicle becomes `LoadVehicle` of the sources and is populated |
| VehicleDetailApi.Page.InitializeImageGallery | scripts/detalleVehiculo-api.js:240-258 | the index goes back to 0 and nothing else changes |
| VehicleDetailApi.Page.SelectImage | scripts/detalleVehiculo-api.js:313-326 | an index outside the gallery is ignored, one inside is shown |
| VehicleDetailApi.Page.NextImage | scripts/detalleVehiculo-api.js:328-331 | the index moves to the wrapping next one |
| VehicleDetailApi.Page.PreviousImage | scripts/detalleVehiculo-api.js:333-336 | the index moves to the wrapping previous one |
| VehicleDetailApi.Page.KeyDown | scripts/detalleVehiculo-api.js:244-257 | the arrows move like the buttons; other keys and an empty gallery leave the index |
| VehicleDetailApi.Page.LoadRelatedVehicles | scripts/detalleVehiculo-api.js:485-523 | nothing without a current vehicle; otherwise four vehicles of its type are asked for and the grid shows `Related` of the answer |
| VehicleDetailApi.OpenPageAsWritten | scripts/detalleVehiculo-api.js:10-26 | as written, when the vehicle has to come from the API the related vehicles are asked for while no vehicle is set, and the grid is never filled |
| VehicleDetailApi.RelatedMissedForApiVehicle | scripts/detalleVehiculo-api.js:10-26 | with `?id=7` and nothing stored, the API gives the vehicle and a related one, yet the grid stays untouched |
| VehicleDetailApi.OpenPage | scripts/detalleVehiculo-api.js:10-26 | with the load awaited, the grid always answers for the shown vehicle and never shows that vehicle itself |
| VehicleDetailApi.ShownGalleryNavigates | scripts/detalleVehiculo-api.js:170-186 | once a vehicle is shown without the error state the gallery is not empty, so the arrows never reach `NaN` |
| VehicleDetailApi.FallbackGallery | scripts/detalleVehiculo-api.js:62-66 | without a stored vehicle or an answer from the API the gallery is the three fallback images |
| VehicleDetailApi.RelativePathKept | scripts/detalleVehiculo-api.js:171 | a relative asset path is used as it is |
| CompanyPage.FindIndex | scripts/LarrosaCamiones.js:198 | the first position holding the source, or -1 exactly when it is absent |
| CompanyPage.Wrap | scripts/LarrosaCamiones.js:202-208 | an index in range is kept; past the end goes to 0 and before the start to the last |
| CompanyPage.AsWrittenWithoutDuplicates | scripts/LarrosaCamiones.js:183-211 | with no source twice in the gallery, the code as written moves exactly as intended |
| CompanyPage.StuckOnDuplicate | scripts/LarrosaCamiones.js:198-210 | with the main image repeated as the first thumbnail, the right arrow keeps the index at 0 however often it is pressed, and the third image is never shown |
| CompanyPage.RightPressesStep | scripts/LarrosaCamiones.js:201-211 | presses that stay before the end move one image each |
| CompanyPage.RightPressesAdd | scripts/LarrosaCamiones.js:201-211 | `a` presses then `b` more are `a + b` presses |
| CompanyPage.RightPressesReachEvery | scripts/LarrosaCamiones.js:201-211 | with the index kept, the right arrow reaches every image in fewer presses than there are images, whatever the sources |
| CompanyPage.ShareUrl | scripts/LarrosaCamiones.js:441-456 | only Facebook, Twitter, LinkedIn and WhatsApp have a share address |
| CompanyPage.ShareCarriesPage | scripts/LarrosaCamiones.js:445-450 | every share address is an https address that carries the page address |
| CompanyPage.EveryFifthClick | scripts/LarrosaCamiones.js:484-495 | `n` card clicks leave the counter at `(count + n) % 5` and show the message once per fifth click |
| CompanyPage.Page.constructor | scripts/LarrosaCamiones.js:4-5 | an empty gallery at index 0, no key listener, no clicks counted |
| CompanyPage.Page.InitializeGallery | scripts/LarrosaCamiones.js:146-181 | without a main image or thumbnails nothing is set up; otherwise the gallery is the main image then every thumbnail, and the arrow keys are listened to |
| CompanyPage.Page.ChangeGalleryImage | scripts/LarrosaCamiones.js:183-199 | the main image shows the source and the index is its first position in the gallery |
| CompanyPage.Page.ClickThumbnail | scripts/LarrosaCamiones.js:159-166 | the thumbnail's image is shown and the index is a position holding it, at or before the thumbnail's own |
| CompanyPage.Page.NavigateGalleryAsWritten | scripts/LarrosaCamiones.js:201-211 | as written: the wrapped image is shown, but the index becomes that image's first position |
| CompanyPage.Page.NavigateGallery | scripts/LarrosaCamiones.js:201-211 | as intended: the index wraps and the image at it is shown |
| CompanyPage.Page.KeyDown | scripts/LarrosaCamiones.js:174-180 | once listened to, the left and right arrows call `navigateGallery` as written: the wrapped image by -1 or +1 is shown and the index becomes its first position; other keys change nothing |
| CompanyPage.Page.KeyDownIntended | scripts/LarrosaCamiones.js:174-180 | the same listener over the corrected navigation: the index wraps by -1 or +1 and the image at it is shown |
| CompanyPage.Page.Click | scripts/LarrosaCamiones.js:485-495 | a click on a card counts; the fifth shows the message and resets the counter |
| AdminAuth.StoredTokenSources | scripts/admin/auth.js:44-47 | the token found on a visit comes from one of the two stores, from `localStorage` whenever that one holds a truthy token and from `sessionStorage` otherwise |
| AdminAuth.TokenStored | scripts/admin/auth.js:49-57 | a remembered token goes to `localStorage` with the remember flag, a tab-only one to `sessionStorage`; the other store, the user and the timer are untouched |
| AdminAuth.UserStored | scripts/admin/auth.js:59-67 | the user is kept in the store the remember choice names and nowhere else; token and timer are untouched |
| AdminAuth.Clear | scripts/admin/auth.js:69-78 | token, user and remember flag leave both stores, both fields are nulled, every other key stays and a pending refresh is kept |
| AdminAuth.ClearSignsOut | scripts/admin/auth.js:69-78 | after clearing no stored token is found and the manager is neither authenticated nor admin |
| AdminAuth.SetupRefresh | scripts/admin/auth.js:227-238 | any pending refresh is replaced by one due 25 minutes from now; nothing else changes |
| AdminAuth.IsAdminIff | scripts/admin/auth.js:253-259 | `isAdmin()` is truthy exactly when a user is present and is a superuser or an administrator |
| AdminAuth.LoginShape | scripts/admin/auth.js:129-159 | login succeeds exactly when the response carries both a token and a user; success leaves an authenticated manager holding both and a refresh due, failure changes nothing and reports a non-empty error; a `null`/`undefined` body fails with the TypeError's message |
| AdminAuth.LoginReadBack | scripts/admin/auth.js:44-57 | after a remembered login the next visit finds the new token; after a tab-only login a truthy `localStorage` token wins, so the new token is found exactly when `localStorage` holds no truthy token or the same one |
| AdminAuth.CurrentUser | scripts/admin/auth.js:190-203 | a successful `/auth/me` answer becomes the user, stored where the remember flag says, with the token kept; a failed request changes nothing |
| AdminAuth.VerifyOutcome | scripts/admin/auth.js:161-188 | verification answers true exactly when a token is held and the backend calls it valid; a false answer with a token clears the session, a true one keeps the token |
| AdminAuth.LoggedOut | scripts/admin/auth.js:240-251 | logging out cancels the pending refresh and leaves no token stored and nobody authenticated |
| AdminAuth.RefreshOutcome | scripts/admin/auth.js:205-225 | with a token, the refresh answers true exactly when a new `access_token` arrives; a failed request or a `null`/`undefined` body logs out; a body without a token leaves the session as it was |
| AdminAuth.RefreshKeepsChoice | scripts/admin/auth.js:205-225 | a refresh keeps the user and the remember choice: a remembered session gets its new token in `localStorage`, a tab-only one in `sessionStorage` |
| AdminAuth.Initialized | scripts/admin/auth.js:30-41 | with no truthy stored token start-up changes nothing; otherwise the token is taken up and verified |
| AdminAuth.SubmitNeedsBoth | scripts/admin/auth.js:333-381 | a blank user name or password stops the submit with the request to fill both fields and no change; otherwise the message is the acceptance on success and the login's own non-empty error on failure |
| AdminAuth.AuthManager.constructor | scripts/admin/auth.js:23-28 | a new manager holds no token, no user and no timer over the given stores |
| AdminAuth.AuthManager.GetStoredToken | scripts/admin/auth.js:44-47 | returns the stored token as `StoredToken` defines it, changing nothing |
| AdminAuth.AuthManager.StoreToken | scripts/admin/auth.js:49-57 | the new state is `TokenStored` of the old |
| AdminAuth.AuthManager.StoreUser | scripts/admin/auth.js:59-67 | the new state is `UserStored` of the old |
| AdminAuth.AuthManager.ClearStorage | scripts/admin/auth.js:69-78 | the new state is `Clear` of the old |
| AdminAuth.AuthManager.SetupTokenRefresh | scripts/admin/auth.js:227-238 | the new state is `SetupRefresh` of the old |
| AdminAuth.AuthManager.Login | scripts/admin/auth.js:129-159 | result and new state are the login outcome whose shape `LoginShape` states |
| AdminAuth.AuthManager.GetCurrentUser | scripts/admin/auth.js:190-203 | the new state is `CurrentUser` of the old |
| AdminAuth.AuthManager.VerifyToken | scripts/admin/auth.js:161-188 | answer and new state are the verification outcome `VerifyOutcome` describes |
| AdminAuth.AuthManager.Logout | scripts/admin/auth.js:240-251 | the new state is `LoggedOut` of the old |
| AdminAuth.AuthManager.RefreshToken | scripts/admin/auth.js:205-225 | answer and new state are the refresh outcome `RefreshKeepsChoice` describes |
| AdminAuth.AuthManager.Init | scripts/admin/auth.js:30-41 | the new state is `Initialized` of the old |
| AdminAuth.AuthManager.HandleLoginSubmit | scripts/admin/auth.js:333-381 | message and new state are those `SubmitNeedsBoth` describes |
| AdminDashboard.TypeLabelKnown | scripts/admin/dashboard-enhanced.js:161-170 | each of the five vehicle type slugs maps to its own label, distinct from the slug |
| AdminDashboard.TypeLabelUnknown | scripts/admin/dashboard-enhanced.js:161-170 | any other type value, `null` included, comes back unchanged |
| AdminDashboard.Field | scripts/admin/dashboard-enhanced.js:138-139 | a form field reads as its submitted text, and as `null` exactly when the form sent nothing under that name |
| AdminDashboard.NumberOrNull | scripts/admin/dashboard-enhanced.js:145 | a parsed number falling back to `null` is `null` or a non-zero number |
| AdminDashboard.CollectVehicleData | scripts/admin/dashboard-enhanced.js:136-158 | the payload always carries the fixed location, `is_active` true and today's date; power and price are `null` or non-zero numbers |
| AdminDashboard.CollectedFullName | scripts/admin/dashboard-enhanced.js:140 | the full name is brand, one space and model; a brand the form did not send shows up as the text 'null' |
| AdminDashboard.CollectedFeatured | scripts/admin/dashboard-enhanced.js:151 | the featured flag is set exactly when the checkbox was sent as 'on' |
| AdminDashboard.CollectedDropsZero | scripts/admin/dashboard-enhanced.js:145-150 | a power or price of 0 is posted as `null`, any other whole number as typed |
| AdminDashboard.CollectErrorMessage | scripts/admin/dashboard-enhanced.js:878-917 | the missing-elements error names them after its fixed prefix, the missing-data error has its fixed text, and a null element fails with the engine's own `TypeError` |
| AdminDashboard.MissingRequired | scripts/admin/dashboard-enhanced.js:876-877 | the list of missing required elements is empty exactly when all six were found |
| AdminDashboard.MissingRequiredExact | scripts/admin/dashboard-enhanced.js:876-877 | each required element is named in the error exactly when the form lacks it |
| AdminDashboard.ParsedOrNull | scripts/admin/dashboard-enhanced.js:892 | an empty value is `null` and only an empty value is |
| AdminDashboard.CollectFormElements | scripts/admin/dashboard-enhanced.js:848-921 | missing required elements fail with their names; a missing optional element fails with a `TypeError`; otherwise success exactly when trimmed brand and model, type and status are non-empty, and the payload holds the trimmed values, their joined full name, the checkbox state, the fixed location and `is_active` |
| AdminDashboard.CollectFormElementsKeepsZero | scripts/admin/dashboard-enhanced.js:892-897 | unlike the other collector, a power or price of 0 is posted as the number typed |
| AdminDashboard.RequiredErrorsExact | scripts/admin/dashboard-enhanced.js:181-187 | a 'required' error is raised for a field exactly when it is one of the listed fields and is blank |
| AdminDashboard.VehicleFormCheck | scripts/admin/dashboard-enhanced.js:173-209 | validation throws exactly when the year, kilometers or power input is missing from the form |
| AdminDashboard.VehicleFormValidIff | scripts/admin/dashboard-enhanced.js:173-209 | the form is valid exactly when every required field is filled in, the year is not a number outside [1990, current year + 1], the kilometers are not negative and the power is empty or not negative |
| AdminDashboard.VehicleFormReportsAll | scripts/admin/dashboard-enhanced.js:181-196 | validation does not stop early: a bad year is reported even beside blank fields, and every blank required field is reported |
| AdminDashboard.CheckRequiredFields | scripts/admin/dashboard-enhanced.js:181-187 | the loop collects exactly the 'required' errors `RequiredErrorsExact` describes |
| AdminDashboard.ValidateVehicleForm | scripts/admin/dashboard-enhanced.js:173-209 | the result is the check `VehicleFormValidIff` characterises, valid exactly when it found nothing |
| AdminDashboard.FloatDigits | scripts/admin/dashboard-enhanced.js:511 | the part `parseFloat` reads after the sign is made of digits |
| AdminDashboard.CheckField | scripts/admin/dashboard-enhanced.js:467-520 | fields other than the six checked ones always pass, and a brand or model fails only as 'required' |
| AdminDashboard.FloatBelowZeroOnWholeNumbers | scripts/admin/dashboard-enhanced.js:510-511 | on a whole number the price test agrees with `parseInt`: minus some digits is below zero exactly when it is not zero |
| AdminDashboard.PriceCheckedWhenGiven | scripts/admin/dashboard-enhanced.js:509-514 | an empty or blank price passes and a negative whole price is rejected |
| AdminDashboard.YearFieldRange | scripts/admin/dashboard-enhanced.js:486-493 | a whole-number year passes exactly when it lies in [1990, current year + 1]; an empty year fails |
| AdminDashboard.ImageInput.constructor | scripts/admin/dashboard-enhanced.js:375 | the input starts with the files the user selected |
| AdminDashboard.ImageInput.RemoveSelectedImage | scripts/admin/dashboard-enhanced.js:373-380 | the file list loses the file at the index and keeps the others in order |
| VehicleAdmin.FirstBlank | scripts/admin/dashboard-vehicles.js:366-372 | the index of the first blank required field, or -1 exactly when none is blank |
| VehicleAdmin.FirstBlankAt | scripts/admin/dashboard-vehicles.js:366-372 | a blank field with no blank field before it is the one the loop stops at |
| VehicleAdmin.ValidateForm | scripts/admin/dashboard-vehicles.js:363-381 | the loop's verdict is the first failure, valid exactly when there is none |
| VehicleAdmin.FormFailureNoneIff | scripts/admin/dashboard-vehicles.js:363-381 | the form passes exactly when every required field is filled in and the year is not a number outside [1990, current year + 1] |
| VehicleAdmin.FirstBlankAgrees | scripts/admin/dashboard-vehicles.js:366-372 | two forms with the same blank required fields stop at the same place |
| VehicleAdmin.FormFailureIgnoresOtherValues | scripts/admin/dashboard-vehicles.js:363-381 | only the blankness of the required fields and the year decide the outcome, so negative kilometers or power pass |
| VehicleAdmin.AcceptsWhatDashboardAccepts | scripts/admin/dashboard-vehicles.js:363-381 | whatever the dashboard's full validation accepts, this validation accepts too |
| VehicleAdmin.AuthToken | scripts/admin/dashboard-vehicles.js:468-470 | the token in `localStorage` when truthy, else whatever `sessionStorage` holds |
| VehicleAdmin.AuthTokenAsLoginPage | scripts/admin/dashboard-vehicles.js:468-470 | the dashboard finds the same token as the login page's manager |
| VehicleAdmin.VehicleManager.constructor | scripts/admin/dashboard-vehicles.js:5-8 | a new manager has no selection |
| VehicleAdmin.VehicleManager.HandleImageSelection | scripts/admin/dashboard-vehicles.js:177-183 | the files become the selection, except that without the preview container nothing is stored |
| VehicleAdmin.VehicleManager.RemoveImage | scripts/admin/dashboard-vehicles.js:216-221 | before any selection nothing happens; otherwise the image at the index is spliced out |
| VehicleAdmin.VehicleManager.GetSelectedImages | scripts/admin/dashboard-vehicles.js:223-225 | the selection, or the empty list before any |
| VehicleAdmin.VehicleManager.ResetForm | scripts/admin/dashboard-vehicles.js:404-406 | the selection becomes empty |
| VehicleAdmin.SelectThenRemove | scripts/admin/dashboard-vehicles.js:177-225 | after selecting and removing one, a valid index loses exactly that image and keeps the others in order; an index past the end loses nothing |
| VehicleAdmin.ResetThenUpload | scripts/admin/dashboard-vehicles.js:404-406 | after a reset the upload carries no images |

## Left out

Backend:
- Libraries: the JWT encoding and the bcrypt algorithm are abstract. A token is its claims plus its signing key, and a hash is verified exactly against the password it was made from.
- Wiring: the FastAPI routers, dependency injection, CORS, the debug middleware and the static-file mount are not modelled. Only the status each route ends with is kept.
- Database: sessions, commits, rollbacks and commit failures are not modelled. A write always succeeds.
- VehiclesApi.Paginate: with a negative `limit` the query goes to the database engine, whose answer is not modelled. The model reports 500 for it, like `limit = 0`.
- VehicleRecords.ParseVehicleCreate: a field sent as `null` and a field left out are treated alike, because the model has one `None` for both.
- Error texts: the exact messages pydantic produces are not modelled. Only the fact of a 422 is kept.
- Prices are integers. Floating-point prices and their rounding are not modelled.
- The search's SQL `LIKE`: wildcards typed by the user and Unicode case folding beyond ASCII are not modelled. The search is a plain case-insensitive substring test.
- Routes: `get_vehicle_images` and the testing and debug endpoints are outside the modelled core. The `/stats` route is modelled only through `VehicleCrud.GetVehicleStats`.
- Images: the file bytes, `aiofiles`, `os.remove`, PIL thumbnailing and the directory creation are file I/O. `uuid4()` is a parameter.
- The setup and seed command-line scripts and the integration tests are not part of this model.

Browser scripts:
- The DOM is not modelled: rendering, templates, notifications, modals, observers, animations and ripple effects. A value read from the page, such as the active category button, is a parameter.
- Asynchrony and timing: `fetch` answers are parameters, and handlers run as sequential steps. Timeouts, debounce, the 200 ms image fade and the 25-minute refresh timer are not modelled as time. `setupTokenRefresh` records only when the refresh is due.
- Randomness: the sample and related-vehicle generators and the contact submission depend on `Math.random`, so they are left out. The fixed sample record of `scripts/detalleVehiculo.js` is modelled.
- Floating point and locale: `formatFileSize`, `formatNumber`, `toLocaleDateString`, `Intl.NumberFormat` and the easing animations are not modelled. A date string the scripts build is a parameter.
- `JsValues.ToNumber`: `Number` of a text with a fraction or an exponent ("1.5", "1e3"), of "Infinity", or of a text starting with "." gives a floating-point number in JavaScript and `NaN` in the model, because numbers are integers here. Hexadecimal texts are modelled; binary and octal texts ("0b101", "0o17") are numbers in JavaScript and `NaN` in the model. Arrays are not converted as JavaScript does (`Number([])` is 0 and `Number([7])` is 7); the model gives `NaN` for every array.
- `JsValues.ParseIntText`: `parseInt` of a text whose value passes 2^53 loses precision in JavaScript; the model keeps the exact integer.
- `JsText.LowerChar`: `toLowerCase` maps every Unicode capital; the model maps ASCII and the Latin-1 capitals, which cover the Spanish letters, and leaves the rest unchanged.
- `ContactForm.ValidateField`, `ContactForm.MessageLength` and `ContactForm.NameRule`: `.length` counts UTF-16 code units, so a character outside the Basic Multilingual Plane (an emoji) counts twice in JavaScript and once in the model.
- Values of the wrong type: the `TypeError` a script would raise when it calls a string method on a non-string (a number, an object, `null`) is not modelled, except where a member returns the throw as a value: `UnidadesFinal.VehicleImageUrl` and `UnidadesFinal.StatusClass` give `None`, and `ApiClient.GetImageUrl` gives `Err`. Elsewhere the model's values at those places are strings.
- Objects are association lists keyed by text. Keys inherited from `Object.prototype`, such as `constructor` looked up in a type table, are not modelled.
- `LarrosaUnified.NormalizeVehicle` and `UnidadesFix.NormalizeVehicle`: on a `null` or `undefined` record they read every field as missing, where `normalizeVehicle` throws. The loaders `LarrosaUnified.LoadedVehicles` and `UnidadesFix.System.LoadVehicles` model that throw: they fail at the first such row and apply `NormalizeVehicle` only when every row can be read. A number or string record reads as missing fields in the script, as in the model.
- Sorting by a comparator that yields `NaN` (a price that is not a number) is not modelled. Every comparator is over integers.
- `VehicleDetailApi.FormatVehicleDate`: parsing and rendering with `new Date(value)` are not modelled. The model records which value would be handed to `Date`.
- `JSON.stringify` and `JSON.parse` are not modelled: storage keeps values as they are, and parse errors in stored data are left out.
- An empty string read from storage or a URL is treated as absent wherever the script's test is truthiness, which is the same outcome.
- `VehicleDetail.ImagesOf`: a truthy `images` value that is neither an array nor a string is read as no images. What the gallery would then do with it is not modelled.
- `UnidadesApi`: a truthy non-array `vehicles` field in the API answer is not modelled.
- `UnidadesApi` also ignores the top-level `return` at line 7 of `scripts/unidadesDisponibles-api.js`. A classic script rejects that `return`, so the file may never run. Its functions are modelled as written.
- The image `onerror` fallback to the placeholder is a DOM event and is not modelled.
- `updateVehicleStatus` in `scripts/detalleVehiculo-api.js` throws on a status that is not a string. Only string statuses are modelled.
- A page without the main image element is not modelled. The gallery handlers take it to exist.
- The redirects after logout and after a successful sign-in are navigation and are not modelled.
- `AdminDashboard.CollectVehicleData`, `AdminDashboard.ReadPayload` and `AdminDashboard.CollectFormElements`: the price is read with `parseInt` rather than `parseFloat`, because floats are not modelled. A price with decimals loses its fraction in the model.
- `AdminDashboard.CheckField`: a price whose `parseFloat` reading underflows to 0 is not modelled. An example is a long exponent such as `-1e-400`. The price test reads the leading decimal digits only.
- `AdminDashboard.VehicleFormCheck`: when a required input is missing entirely, `showFieldError(null, …)` returns at once, so no message appears, but the form is still marked invalid. The model lists a required error for that field. The throw comes from reading `.value` of a missing year, kilometers or power input (`scripts/admin/dashboard-enhanced.js` lines 189, 195 and 201). The model records that the check threw and which errors came before. It does not record where on the page a message would have gone.
- Form plumbing: `FileList`, the image previews and `createFileList` are DOM objects. The selection is a sequence of file names.
- `handleSubmit`, `handleVehicleFormSubmit(Fixed)`, `createVehicle`, `loadVehiclesList`, `toggleFeatured` and `deleteVehicle` of the dashboards only chain `fetch` calls and DOM updates. They are left out, and so is `createTestVehicle`.
- `FrontendAPI.makeRequest`: header merging and the error path of `fetch` are not modelled. The cache is modelled, with its timestamps.
- The scripts `scripts/index-dynamic.js`, `scripts/nav-session.js` and `scripts/test-vehicle-data.js` are DOM and `fetch` glue with no other logic, and are not part of this model.

## Findings

| source | as written | input that shows it | evidently intended | confidence | as-written member | corrected member |
|---|---|---|---|---|---|---|
| larrosa-backend/app/api/v1/vehicles.py:344-348 | `toggle_vehicle_featured` passes the plain dict `{"is_featured": ...}` to `update_vehicle`, which calls `.dict(exclude_unset=True)` on it; a dict has no such method, so every existing vehicle gets a 500 and the flag never changes | `PATCH /vehicles/1/toggle-featured` by an administrator, where vehicle 1 exists and is active | the featured flag is negated, the reply carries the new value, and a second toggle restores the row | not executed | VehiclesApi.ToggleFeaturedAsWritten | VehiclesApi.ToggleFeatured |
| scripts/LarrosaCamiones.js:198-210 | `navigateGallery` wraps the index correctly, but `changeGalleryImage` then resets it to the first position of the shown source (`findIndex`); the gallery list starts with the main image, so when a thumbnail repeats that source the index falls back to 0 and the right arrow never gets past the repeated image | a gallery whose main image source is also the first thumbnail's source, e.g. sources `[a, a, b]`: the right arrow shows `a` at index 0 forever and never reaches `b` | the index stays where navigation put it, so repeated right presses visit every image | not executed | CompanyPage.StuckOnDuplicate | CompanyPage.Page.NavigateGallery |
| scripts/detalleVehiculo-api.js:10-26 | the `DOMContentLoaded` handler calls the async `loadVehicleData()` without awaiting it, then calls `loadRelatedVehicles()`, which returns at once (line 487) while `currentVehicle` is still `null` | nothing in `sessionStorage`, URL `?id=7`, and the API answers vehicle 7 and a related vehicle 8 | the related grid is filled for the vehicle that was loaded, never listing that vehicle itself | not executed | VehicleDetailApi.RelatedMissedForApiVehicle | VehicleDetailApi.OpenPage |
