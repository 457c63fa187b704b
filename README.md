# Ayura screen logic in Dafny

Ayura is a React Native app for tracing medicinal crops from farm to manufacturer.
It is almost entirely screen layout. This project models the behaviour that lives in
the screens' handlers, and proves what those handlers promise.

## What the project models

- **Farmer dashboard** (`DateMask`, `HarvestDate`, `FarmerDashboard`):
  - The `DD-MM-YYYY` input mask.
  - The four ordered checks before a harvest is recorded: required fields, the date pattern, the calendar check, and the not-in-the-future check.
    - The calendar check builds a JavaScript `Date` and reads its fields back. `JsDate` models that constructor, including its mapping of years 0–99 into the 1900s.
  - New harvests are prepended to the list.
  - Listing a harvest for sale updates it by id.
  - The three counters.
  - The batch QR payload.
- **Record interchange** (`Scanner`, `DisplayHarvest`, `MediatorDashboard`, `Interchange`):
  - The scanner hands the raw payload on.
  - The detail screen parses it (falling back to `null`), decides whether the batch is purchased, and chooses the parameters a confirmed purchase returns with.
  - The mediator dashboard's two effects bump the counters and append a listing.
  - "View Details" forwards a fixed subset of fields.
- **Lab certification** (`LabDashboard`):
  - Attaching a certificate by id.
  - The action each card offers.
  - The QR payload.
- **Onboarding** (`FarmerOnboarding`, `MediatorOnboarding`, `LabOnboarding`, `ManufacturerOnboarding`):
  - Each form's guard and the parameters it sends on.
  - The land-area unit picker.
  - The state placeholder.
  - The lab's `loading` flag.
  - The manufacturer's category toggle and its unguarded submission.
- **Role dispatch** (`ChooseRole`) and **profile display** (`Profile`):
  - Role id to onboarding route.
  - The `loading` flag that is never reset.
  - `getParam`.
  - The picture precedence and the display fallbacks.

### How the model is set up

- Each screen's `useState` fields are the fields of a class, and each handler is a method of it.
- Computations that do not touch state are functions of the values involved.
- Navigation is a returned `Nav` value: push or replace, a path, and parameters.
- Device and library calls become inputs:
  - What a picker, a location request or the camera permission resolved to is passed in as a value.
  - `JSON.parse` is a function parameter `parse`, returning a syntax error or a top-level value.
    - Reading a property of a parsed `null` throws.
    - Reading a property of a falsy primitive yields `undefined`.
  - `JSON.stringify` is a parameter `stringify` over an object, with `undefined` members already left out.
  - `uuid.v4()` and `Date.now()` are parameters.
  - "Now" is a local wall-clock `Moment`.
- Route parameters are a map from names to a string, a repeated value (`string[]`) or `null`. A missing key is `undefined`.

### Interchange behaviour

- A scanned payload that does not parse shows the detail screen's error view.
- A payload that parses to an object missing fields still shows, with 'N/A' rows.
- A purchase is only a navigation parameter (`purchaseComplete=true`), which the mediator dashboard turns into a listing status.

## Model

| member | source | states |
|---|---|---|
| DateMask.Digits | app/app/farmerDashboard.tsx:78 | keeps only digits and is never longer than the input |
| DateMask.FormatDate | app/app/farmerDashboard.tsx:76-91 | the masked value has at most 10 characters, each a digit or '-' |
| DateMask.FormatKeepsDigits | app/app/farmerDashboard.tsx:78-88 | the digits of the masked value are the first min(8, n) digits typed; every other character is dropped |
| DateMask.FormatDashes | app/app/farmerDashboard.tsx:82-88 | exact length; a '-' sits at position 2 iff more than 2 digits were typed, and at 5 iff more than 4, nowhere else |
| DateMask.FormatIdempotent | app/app/farmerDashboard.tsx:78-88 | masking the masked value again changes nothing |
| HarvestDate.MatchShowDate | app/app/farmerDashboard.tsx:100-107 | the pattern accepts every zero-padded DD-MM-YYYY rendering and parses back the same day, month and year |
| HarvestDate.MatchDateShows | app/app/farmerDashboard.tsx:100-107 | every string the pattern accepts is the rendering of the numbers parsed from it |
| HarvestDate.MaskedDateMatches | app/app/farmerDashboard.tsx:76-101 | a masked input passes the pattern iff at least eight digits were typed |
| HarvestDate.RollForward | app/app/farmerDashboard.tsx:108 | an overflowing day carries into later months and yields a normal date; an in-range day is kept |
| HarvestDate.RollBack | app/app/farmerDashboard.tsx:108 | a day of 0 or below counts back into earlier months and yields a normal date |
| HarvestDate.JsDate | app/app/farmerDashboard.tsx:108 | `new Date(y, m-1, d)` always yields a normal calendar date |
| HarvestDate.JsDateRoundTrip | app/app/farmerDashboard.tsx:108-116 | the read-back check succeeds iff the year is at least 100 and the day exists in that month of that year |
| HarvestDate.CheckHarvestSpec | app/app/farmerDashboard.tsx:93-122 | the creation check in calendar terms, in order: missing field, malformed date, invalid date (years below 100 included), future date, else accepted |
| HarvestDate.TodayAccepted | app/app/farmerDashboard.tsx:118-122 | today's date, built at midnight, is accepted at any time of the day |
| HarvestDate.TomorrowRejected | app/app/farmerDashboard.tsx:118-122 | the day after today is rejected as a future date |
| HarvestDate.RejectsThirtiethOfFebruary | app/app/farmerDashboard.tsx:110-116 | 30-02-2025 is rejected as an invalid date |
| HarvestDate.RejectsLeapDayOfCommonYear | app/app/farmerDashboard.tsx:110-116 | 29-02-2023 is rejected as an invalid date |
| HarvestDate.RejectsTwoDigitYear | app/app/farmerDashboard.tsx:108-116 | 15-01-0050 is rejected, because year 50 becomes 1950 |
| HarvestDate.AcceptsLeapDay | app/app/farmerDashboard.tsx:108-122 | 29-02-2024 is accepted from March 2024 on |
| HarvestDate.PatternAndRequiredExamples | app/app/farmerDashboard.tsx:94-105 | a one-digit day is malformed; an empty field is reported before any date check |
| FarmerDashboard.HarvestObject | app/app/farmerDashboard.tsx:209 | the QR object holds the eight record fields, and each listing field exactly when the harvest has it |
| FarmerDashboard.CountsPartition | app/app/farmerDashboard.tsx:228-230 | active batches plus listed batches equals total harvests |
| FarmerDashboard.NewHarvest | app/app/farmerDashboard.tsx:124-128 | a new harvest carries the given id and is not listed, with no price and no image |
| FarmerDashboard.PrependFresh | app/app/farmerDashboard.tsx:129 | prepending a harvest with a fresh id keeps ids distinct, adds one active batch and leaves the listed count alone |
| FarmerDashboard.MarkListed | app/app/farmerDashboard.tsx:142-146 | same length and order; exactly the entries with the id get `isListed`, the price and the image uri; the rest are unchanged |
| FarmerDashboard.MarkListedKeepsIds | app/app/farmerDashboard.tsx:142-146 | listing keeps every id in place, so the ids stay distinct |
| FarmerDashboard.MarkListedCounts | app/app/farmerDashboard.tsx:142-146 | listing an unlisted harvest moves one batch from active to listed; re-listing a listed one changes neither count |
| FarmerDashboard.UnmatchedUnchanged | app/app/farmerDashboard.tsx:142-146 | listing under an id no harvest has changes nothing |
| FarmerDashboard.ProfileNav | app/app/farmerDashboard.tsx:224 | the profile button pushes /profile with exactly the parameters the dashboard received |
| FarmerDashboard.Dashboard.constructor | app/app/farmerDashboard.tsx:50-68 | no harvests, every modal closed, nothing selected or expanded, empty forms |
| FarmerDashboard.Dashboard.CountersAddUp | app/app/farmerDashboard.tsx:228-230 | the "Active Batches" and "Listed for Sale" counters add up to "Total Harvests" |
| FarmerDashboard.Dashboard.ResetAddHarvestForm | app/app/farmerDashboard.tsx:71-74 | all seven form fields become empty |
| FarmerDashboard.Dashboard.HandleDateChange | app/app/farmerDashboard.tsx:76-91 | the date field takes the masked text |
| FarmerDashboard.Dashboard.HandleCreateHarvest | app/app/farmerDashboard.tsx:93-133 | the error is the ordered check; on error nothing changes; on success the new harvest is prepended and expanded, the form is cleared, the add modal closes, and ids stay distinct |
| FarmerDashboard.Dashboard.OpenSellModal | app/app/farmerDashboard.tsx:265 | "Sell Crop" selects the harvest and opens the sell modal |
| FarmerDashboard.Dashboard.OpenQRModal | app/app/farmerDashboard.tsx:272 | "Generate QR" selects the harvest and opens the QR modal |
| FarmerDashboard.Dashboard.QRPayload | app/app/farmerDashboard.tsx:209 | a QR object exists iff a harvest is selected, and it is the whole selected harvest as `JSON.stringify` sees it |
| FarmerDashboard.Dashboard.ToggleExpanded | app/app/farmerDashboard.tsx:248 | tapping a card collapses it if expanded, else expands it |
| FarmerDashboard.Dashboard.HandlePickCropImage | app/app/farmerDashboard.tsx:153-165 | a picked result stores its first asset (none for an empty result); a refusal or cancel keeps the image |
| FarmerDashboard.Dashboard.HandleListForSale | app/app/farmerDashboard.tsx:135-151 | needs a price and an image, then a selection; on success the selected id is marked listed, the sell modal closes, and price and image are cleared; on failure nothing changes |
| MediatorDashboard.StatusText | app/app/mediatorDashboard.tsx:72 | a status is stored as 'purchased' or 'pending' |
| MediatorDashboard.SampleListings | app/app/mediatorDashboard.tsx:81-103 | two sample listings: sample-1 purchased, sample-2 pending |
| MediatorDashboard.SampleCounts | app/app/mediatorDashboard.tsx:81-103 | exactly one sample listing is purchased |
| MediatorDashboard.PurchasedAtMostTotal | app/app/mediatorDashboard.tsx:144-145 | "Purchased" never exceeds "Total Listings" |
| MediatorDashboard.PurchasedCountAppend | app/app/mediatorDashboard.tsx:127 | appending a listing raises "Purchased" by one iff that listing is purchased |
| MediatorDashboard.StatusFor | app/app/mediatorDashboard.tsx:125 | the status is purchased iff `purchaseComplete` is the string 'true' |
| MediatorDashboard.ParsedListing | app/app/mediatorDashboard.tsx:113-131 | a listing results iff `harvestData` is truthy and parses to a non-null value; its id is the timestamp, its six fields are those of the parsed value, and its status follows `purchaseComplete` |
| MediatorDashboard.DetailsObject | app/app/mediatorDashboard.tsx:45-52 | the forwarded record holds only the six fields, each exactly when the listing has it |
| MediatorDashboard.DetailsLeaveOutIdAndStatus | app/app/mediatorDashboard.tsx:45-52 | neither the id nor the status is part of the forwarded record |
| MediatorDashboard.ViewDetails | app/app/mediatorDashboard.tsx:42-55 | pushes /displayHarvest with exactly the stringified record and the status |
| MediatorDashboard.Dashboard.constructor | app/app/mediatorDashboard.tsx:79-103 | counters 5 and 2, the two sample listings, no effect run yet |
| MediatorDashboard.Dashboard.PurchasedListings | app/app/mediatorDashboard.tsx:144-145 | the "Purchased" counter is at most the listing count |
| MediatorDashboard.Dashboard.PurchaseCompleteEffect | app/app/mediatorDashboard.tsx:105-110 | both counters rise by exactly one iff `purchaseComplete` is 'true', else neither changes |
| MediatorDashboard.Dashboard.HarvestDataEffect | app/app/mediatorDashboard.tsx:113-131 | appends exactly the parsed listing at the end, or nothing when it is absent, unparseable or null |
| MediatorDashboard.Dashboard.Render | app/app/mediatorDashboard.tsx:105-132 | each effect runs only when its dependencies differ from its previous run, so a re-render with the same parameters changes nothing |
| DisplayHarvest.ParseOrNull | app/app/displayHarvest.tsx:18-23 | the record is null unless the parameter is a non-empty string that parses, and then it is the parsed value |
| DisplayHarvest.ConfirmPurchase | app/app/displayHarvest.tsx:36-50 | always pushes /mediatorDashboard with `purchaseComplete='true'`; the record string is added verbatim iff the screen came from the scanner |
| DisplayHarvest.InfoRowText | app/app/displayHarvest.tsx:11 | a row is never empty: a missing or empty value shows 'N/A' |
| DisplayHarvest.DetailRows | app/app/displayHarvest.tsx:11-95 | the six plain-value rows (Farmer, Quantity, Harvest Date, Fertilizers, Pesticides, Insecticides), each with its label; a row shows its field's text when that is a non-empty string, else 'N/A' |
| DisplayHarvest.Display | app/app/displayHarvest.tsx:18-106 | error view iff the record is not an object; else `purchased` iff the status parameter or the record's status is 'purchased', the rows are the detail rows of the record, and "Buy Crop" is offered iff not purchased, confirming with the purchase navigation for the received `returnTo` and record string |
| DisplayHarvest.PurchaseForwardsVerbatim | app/app/displayHarvest.tsx:37-44 | from the scanner, a confirmed purchase sends back exactly the parameter it received |
| DisplayHarvest.UnparseableShowsError | app/app/displayHarvest.tsx:18-23 | an empty or unparseable payload yields the error view, with no purchase action |
| Scanner.ScanTarget | app/app/scanner.tsx:23-29 | replaces to /displayHarvest with the payload verbatim and `returnTo='mediatorDashboard'`, nothing else |
| Scanner.QRScanner.constructor | app/app/scanner.tsx:8-9 | permission not yet known, nothing scanned |
| Scanner.QRScanner.PermissionResolved | app/app/scanner.tsx:11-17 | the permission becomes whether access was granted |
| Scanner.QRScanner.CurrentView | app/app/scanner.tsx:33-56 | null permission shows the request view, false the no-access view, true the camera; the camera listens iff nothing is scanned; "Scan Again" shows iff scanned |
| Scanner.QRScanner.BarcodeSeen | app/app/scanner.tsx:19-43 | a scan is handled iff the camera is shown, nothing is scanned yet and the payload is non-empty; then `scanned` is set and the scan target returned; otherwise nothing changes |
| Scanner.QRScanner.ScanAgain | app/app/scanner.tsx:56 | clears `scanned`, so the camera listens again |
| LabDashboard.ActionFor | app/app/labDashboard.tsx:99-120 | upload is offered iff `certificateUri` is falsy, "Generate QR" iff it is set |
| LabDashboard.MockListings | app/app/labDashboard.tsx:28-31 | two mock batches, both without certificate, both offering upload |
| LabDashboard.AttachCertificate | app/app/labDashboard.tsx:47-51 | same length and order; only entries with the id get the certificate uri |
| LabDashboard.AttachChangesActions | app/app/labDashboard.tsx:47-51 | after attaching, the batch with the id offers "Generate QR" and every other batch offers what it did before |
| LabDashboard.AttachIdempotent | app/app/labDashboard.tsx:47-51 | attaching the same certificate twice equals attaching it once |
| LabDashboard.PickedCertificate | app/app/labDashboard.tsx:43-44 | a certificate is taken iff the pick was not cancelled and has assets, and it is the first asset |
| LabDashboard.QRObject | app/app/labDashboard.tsx:66 | the QR object is the whole batch, with `certificateUri` present (null when unset) |
| LabDashboard.Dashboard.constructor | app/app/labDashboard.tsx:35-37 | starts with the mock batches, no modal, no selection |
| LabDashboard.Dashboard.HandlePickCertificate | app/app/labDashboard.tsx:39-58 | attaches the picked certificate by id; a cancel, an empty pick or a picker error leaves the batches unchanged |
| LabDashboard.Dashboard.OpenQR | app/app/labDashboard.tsx:114 | "Generate QR" on a certified batch selects it and opens the QR modal |
| LabDashboard.Dashboard.QRPayload | app/app/labDashboard.tsx:66 | a QR object exists iff a batch is selected, and it is the whole selected batch, `certificateUri` included |
| ManufacturerOnboarding.RemoveAll | app/app/manufacturerOnboarding.tsx:158 | removes every occurrence and keeps everything else |
| ManufacturerOnboarding.Toggle | app/app/manufacturerOnboarding.tsx:156-162 | an absent category is appended at the end; a present one is removed everywhere |
| ManufacturerOnboarding.RemoveAllAppend | app/app/manufacturerOnboarding.tsx:158 | removal distributes over concatenation, so the others keep their order |
| ManufacturerOnboarding.RemoveAbsent | app/app/manufacturerOnboarding.tsx:158 | removing an absent category changes nothing |
| ManufacturerOnboarding.RemoveAllNoDuplicates | app/app/manufacturerOnboarding.tsx:158 | removal keeps a duplicate-free list duplicate-free |
| ManufacturerOnboarding.ToggleTwiceRestores | app/app/manufacturerOnboarding.tsx:156-162 | toggling an absent category twice restores the list exactly |
| ManufacturerOnboarding.ToggleTwiceMovesToEnd | app/app/manufacturerOnboarding.tsx:156-162 | toggling a present category twice moves it to the end |
| ManufacturerOnboarding.ToggleNoDuplicates | app/app/manufacturerOnboarding.tsx:156-162 | toggling keeps the selection duplicate-free |
| ManufacturerOnboarding.LocationText | app/app/manufacturerOnboarding.tsx:285 | 'Not Set' without a location, else latitude, ', ', longitude |
| ManufacturerOnboarding.ManufacturerData | app/app/manufacturerOnboarding.tsx:271-287 | exactly the fifteen keys; the eleven text fields, product type and state passed through as entered; a null licence image uri when none is picked; 'Not Set' location; categories joined with ', ' |
| ManufacturerOnboarding.FssaiSubmittedWhenHidden | app/app/manufacturerOnboarding.tsx:212-279 | the FSSAI licence is submitted even under a product type other than 'Food Products', for which its field is hidden |
| ManufacturerOnboarding.Submit | app/app/manufacturerOnboarding.tsx:269-294 | no check at all: always replaces to /manufacturerDashboard with the built data |
| ManufacturerOnboarding.UntouchedFormSubmits | app/app/manufacturerOnboarding.tsx:279-286 | an untouched form submits its placeholders, a null licence image, 'Not Set' and no categories |
| ManufacturerOnboarding.Onboarding.constructor | app/app/manufacturerOnboarding.tsx:92-112 | empty fields, the two placeholders, no image, no location, no categories |
| ManufacturerOnboarding.Onboarding.HandleCategorySelect | app/app/manufacturerOnboarding.tsx:156-162 | the selection becomes its toggle and stays duplicate-free |
| ManufacturerOnboarding.Onboarding.SelectState | app/app/manufacturerOnboarding.tsx:305-308 | a chosen state replaces the placeholder and closes the picker |
| ManufacturerOnboarding.Onboarding.SelectProductType | app/app/manufacturerOnboarding.tsx:314-317 | a chosen product type replaces the placeholder and closes the picker |
| ManufacturerOnboarding.Onboarding.HandleGetLocation | app/app/manufacturerOnboarding.tsx:115-138 | only a position read replaces the location |
| ManufacturerOnboarding.Onboarding.HandlePickImage | app/app/manufacturerOnboarding.tsx:140-154 | only a non-cancelled pick with assets replaces the licence image |
| ManufacturerOnboarding.Onboarding.HandleSubmit | app/app/manufacturerOnboarding.tsx:269-294 | always navigates with the data built from the current form |
| FarmerOnboarding.UserId | app/app/farmerOnboarding.tsx:110 | the incoming uid when truthy, else 'mock-user-' followed by the timestamp |
| FarmerOnboarding.FarmerData | app/app/farmerOnboarding.tsx:109-117 | exactly the seven keys; land area is the number, a space, then the unit; the ID image uri |
| FarmerOnboarding.Submit | app/app/farmerOnboarding.tsx:103-120 | no navigation iff a field, the location or the ID image is missing; else replaces to /farmerDashboard with the built data |
| FarmerOnboarding.LandAreaEndsWithUnit | app/app/farmerOnboarding.tsx:114 | the land-area parameter splits back into the number entered, one space and the unit |
| FarmerOnboarding.Onboarding.constructor | app/app/farmerOnboarding.tsx:50-60 | empty form, unit 'acres', picker closed |
| FarmerOnboarding.Onboarding.SelectUnit | app/app/farmerOnboarding.tsx:187-192 | the unit becomes the chosen option, always one of the four, and the picker closes |
| FarmerOnboarding.Onboarding.HandleGetLocation | app/app/farmerOnboarding.tsx:62-85 | only a position read replaces the location |
| FarmerOnboarding.Onboarding.HandlePickImage | app/app/farmerOnboarding.tsx:87-101 | any non-cancelled pick replaces the ID image, with none for an empty result |
| FarmerOnboarding.Onboarding.HandleSubmit | app/app/farmerOnboarding.tsx:103-120 | the navigation is the submission of the current form |
| MediatorOnboarding.MediatorData | app/app/mediatorOnboarding.tsx:113-120 | exactly the six keys, location as 'latitude,longitude', and the permit's uri |
| MediatorOnboarding.Submit | app/app/mediatorOnboarding.tsx:107-127 | no navigation iff a field, the location or the permit is missing or the state is the placeholder; else replaces to /mediatorDashboard with the built data |
| MediatorOnboarding.PickerNeverOffersPlaceholder | app/app/mediatorOnboarding.tsx:23-29 | the state picker never offers the placeholder |
| MediatorOnboarding.PlaceholderBlocks | app/app/mediatorOnboarding.tsx:108 | with the placeholder state, submission never navigates |
| MediatorOnboarding.Onboarding.constructor | app/app/mediatorOnboarding.tsx:58-67 | empty form, the placeholder state, picker closed |
| MediatorOnboarding.Onboarding.SelectState | app/app/mediatorOnboarding.tsx:201-206 | choosing a state sets it, it is no longer the placeholder, and the picker closes |
| MediatorOnboarding.Onboarding.HandleGetLocation | app/app/mediatorOnboarding.tsx:70-93 | only a position read replaces the location |
| MediatorOnboarding.Onboarding.HandlePickImage | app/app/mediatorOnboarding.tsx:95-105 | only a non-cancelled pick with assets replaces the permit |
| MediatorOnboarding.Onboarding.HandleSubmit | app/app/mediatorOnboarding.tsx:107-127 | the navigation is the submission of the current form |
| LabOnboarding.DashboardNav | app/app/labOnboarding.tsx:84-87 | replaces to /labDashboard with only `labName`, equal to the contact's name |
| LabOnboarding.Submit | app/app/labOnboarding.tsx:68-90 | no navigation iff a field, the location or the certificate is missing |
| LabOnboarding.Onboarding.constructor | app/app/labOnboarding.tsx:21-27 | empty form, not loading |
| LabOnboarding.Onboarding.SetLoading | app/app/labOnboarding.tsx:26 | records each value given to `setLoading` |
| LabOnboarding.Onboarding.HandleGetLocation | app/app/labOnboarding.tsx:29-52 | only a position read replaces the location |
| LabOnboarding.Onboarding.HandlePickCertificate | app/app/labOnboarding.tsx:54-66 | a cancelled, empty or failed pick keeps the certificate; a good one stores the first asset |
| LabOnboarding.Onboarding.HandleSubmit | app/app/labOnboarding.tsx:68-90 | on failure `loading` is untouched; on success it is set true then false, and the dashboard navigation is offered |
| ChooseRole.OnboardingPath | app/app/chooseRole.tsx:57-65 | farmer, mediator, manufacturer and lab map to their onboarding routes; any other id maps to none |
| ChooseRole.RoutesDistinct | app/app/chooseRole.tsx:57-65 | different roles lead to different routes |
| ChooseRole.UidParams | app/app/chooseRole.tsx:58 | the uid is forwarded unchanged, and an undefined uid sends no parameter |
| ChooseRole.Dispatch | app/app/chooseRole.tsx:43-76 | navigation happens iff the id is a known role, as a replace to its route carrying the uid |
| ChooseRole.Chooser.constructor | app/app/chooseRole.tsx:39-40 | 'farmer' is selected and nothing is loading |
| ChooseRole.Chooser.TapCard | app/app/chooseRole.tsx:100-101 | a tap selects the role and never navigates; ignored while loading |
| ChooseRole.Chooser.PressCreateAccount | app/app/chooseRole.tsx:43-76 | ignored while loading; otherwise dispatches and leaves `loading` set |
| ChooseRole.PressThenRetry | app/app/chooseRole.tsx:73-75 | because the reset is commented out, after the first press a second press and a tap on another card are ignored |
| Profile.GetParam | app/app/profile.tsx:17-20 | an array gives its first element or ''; a string gives itself; anything missing gives ''; always a string |
| Profile.GetParamFirstValue | app/app/profile.tsx:17-20 | a single value and a repetition of one value normalise to that value |
| Profile.ProfilePicture | app/app/profile.tsx:70-78 | a picked image first, then the ID image if its parameter is truthy, else the placeholder |
| Profile.View | app/app/profile.tsx:83-105 | an empty name shows 'N/A', an empty revenue '0', the age is always 'Not Set', and the other fields go through `getParam` |
| Profile.ProfileScreen.constructor | app/app/profile.tsx:36 | no picked image |
| Profile.ProfileScreen.HandlePickImage | app/app/profile.tsx:38-49 | only a non-cancelled pick with assets replaces the picture |
| Interchange.ScanBuyAppend | app/app/displayHarvest.tsx:18-49 | a farmer's QR payload, once scanned and bought, becomes a purchased mediator listing with the batch's fields and no farmer name |
| Interchange.ViewDetailsShows | app/app/mediatorDashboard.tsx:42-55 | "View Details" shows exactly the forwarded record; "Buy Crop" is offered iff the listing is pending, and confirming sends only `purchaseComplete` |
| Interchange.RegistrationShownOnProfile | app/app/profile.tsx:83-96 | a completed farmer registration opened on the profile shows the entered name, state, village, land area with unit, revenue and ID image |

## Left out

- Layout, styling, modal animation, and the header greetings with their fallbacks ('Farmer', 'Mediator', 'Lab User'). These are rendering only.
- Device I/O is passed in as its resolved result. This covers camera permission, location requests, the image and document pickers, and alerts. The transient `locationLoading` flag is not modelled: it is true only while a request is pending.
- Floating-point formatting:
  - Coordinates are the text a screen renders, so `toFixed(4)` is not modelled.
  - JSON numbers are one opaque kind of value.
  - The detail screen's "Crop" and "Expected Price" rows are template strings over arbitrary JSON values and are not modelled.
- DisplayHarvest.DetailRows: shows only string-valued fields as text. Other JSON values count as missing.
- `JSON.parse`, `JSON.stringify`, `uuid.v4`, `Date.now` and the QR renderer are library calls, passed in as parameters. Key order of the produced JSON text is not modelled. The lemmas in `Interchange` assume `parse` reads back what `stringify` or the QR code carried.
- HarvestDate.Later: compares local wall-clock moments. Time zones and daylight-saving gaps are not modelled, and `CalDate` has no year limit.
- FarmerDashboard.Dashboard.HandleCreateHarvest: requires a fresh id, standing for the uniqueness `uuid.v4()` provides.
- Scanner.QRScanner.BarcodeSeen: treats `setScanned(true)` as applied before the next camera event. In the app the handler stays attached until the next render, so the camera could deliver the same code again and push the detail screen twice; that window is not modelled.
- MediatorDashboard.Dashboard.Render: models React's effect scheduling as "run after a render whose dependencies changed". Batching and the order of state updates within a render are not modelled.
- The farmer onboarding `loading` flag is never set by the code, so it is not modelled.
- The lab onboarding `labData` object is built but never used (only `labName` is sent). It is not modelled.
- Lab dashboard and onboarding screens copy shared helpers. The pages `harvestPurchaseDetails`, sign-in, sign-up, login, splash and index are not part of this model: they are timers, navigation and two-field checks.
  - The `getParam` copies in mediatorProfile and manufacturerProfile are identical to the one modelled under `Profile`.
- The manufacturer dashboard's network fetch, the Fabric gateway and the Gemini wrapper are network clients and are not part of this model.
