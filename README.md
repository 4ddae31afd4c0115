# Climate Health Insights: a Dafny model of the dashboard's core logic

This project models the non-visual logic of Climate Health Insights, a Next.js/React
dashboard. The dashboard shows climate-sensitive disease data (malaria, dengue, diarrhoea)
for the regions named in the loaded region metadata. It covers six pieces:

- **Dashboard context** (`DashboardContext.dfy`): the shared selection state (year, region,
  disease) and the loaded data sets. It also covers the post-processing of the forecast data,
  which copies each point's `confidence` pair into `confidenceLower`/`confidenceUpper`, and the
  effects that default the selected region and disease.
- **Interactive map** (`InteractiveMap.dfy`): the hotspot list. A hotspot is a region with a
  series for the selected disease that holds an anomaly whose date text ends with the
  selected year's digits, and that has metadata. Also covered: the `q=` query, the zoom
  ladder (2, 6, 8) and the Google Maps embed URL built from them.
- **Form schema** (`Schemas.dfy`): the four validation rules of the insights form, their
  messages, and the field errors that a failed `safeParse` yields.
- **Server action** (`Actions.dfy`): `handleGenerateInsights`. It validates the form, copies
  the fields into the text-generation flow's input, and turns the flow's return or throw into
  a result record.
- **Insights panel** (`InsightsGenerator.dfy`): the form's state as a class. Covered: the
  default values, the sync of the region field with the context, the climate-condition
  checkboxes (append on check, filter on uncheck), and the submit handler. The handler
  covers the loading flag, the summary, and the fan-out of field errors into the form.
- **Layer toggles** (`LayerToggles.dfy`): the five map layers and the dictionary of which
  are switched on.

Two supporting modules hold shared pieces:

- `Collections.dfy` models a JavaScript object as `Dict<V>`, an ordered list of
  `(key, value)` pairs in enumeration order. `Get` is a lookup among the object's own keys
  and `Keys` is `Object.keys`. The module also holds `Filter` with its lemmas.
- `Text.dfy` holds `startsWith`, `endsWith`, `includes` and `join`, and the decimal text of
  an integer.

JavaScript truthiness is written out where the code relies on it. The empty string is a
falsy region (`IsSet`) and year 0 is a falsy year (`IsYearSet`).

Two kinds of outside code appear as parameters. `encodeURIComponent` and the conversion of a
coordinate to text are function-valued fields of `Externals`. The text-generation flow is a
function from its input record to an outcome: a return value, or a thrown value.

The data-loading closure in `DashboardContext.tsx` tests a `selectedRegion` captured when the
component mounts, when it is still undefined. The model therefore has `LoadData` select the
first metadata region whenever there is one, as the code does.

## Model

| member | source | states |
|---|---|---|
| DashboardContext.WithConfidenceBounds | src/context/DashboardContext.tsx:101-105 | a point keeps date, actual, forecast and confidence; its lower/upper bounds are the pair's two components, or null when there is no pair |
| DashboardContext.WithConfidenceBoundsIdempotent | src/context/DashboardContext.tsx:101-105 | processing an already processed point changes nothing |
| DashboardContext.ProcessedSeries | src/context/DashboardContext.tsx:101-105 | the processed series has the original's length, and each point keeps its date and confidence pair |
| DashboardContext.ProcessedForecast | src/context/DashboardContext.tsx:97-107 | the processed data set has the fetched data's region keys, and each region keeps its disease keys |
| DashboardContext.ProcessedForecastShape | src/context/DashboardContext.tsx:97-107 | processing keeps the region keys, each region's disease keys, and each series' length and order; every point is the processed form of the original |
| DashboardContext.ProcessedForecastLookup | src/context/DashboardContext.tsx:97-107 | a region is found in the processed data exactly when it is found in the fetched data; a region/disease lookup yields the processed form of the fetched series |
| DashboardContext.ProcessedRegionLookup | src/context/DashboardContext.tsx:100-106 | a disease lookup in a processed region yields the processed form of the original series |
| DashboardContext.ProcessForecastData | src/context/DashboardContext.tsx:97-107 | the nested loops build exactly the processed data set |
| DashboardContext.DefaultRegion | src/context/DashboardContext.tsx:130-134 | a set selection is kept; with no selection and a non-empty list the first region is chosen; the result is the old selection or one of the regions |
| DashboardContext.DefaultDisease | src/context/DashboardContext.tsx:136-140 | the result is always a disease; a selection is kept, and no selection becomes Malaria, the first of the list |
| DashboardContext.DashboardProvider.constructor | src/context/DashboardContext.tsx:49-60 | the year starts at the current year; region, disease and all data start unset; the region list starts empty |
| DashboardContext.DashboardProvider.SetInitialYear | src/context/DashboardContext.tsx:64-67 | the year becomes 2023 and nothing else changes |
| DashboardContext.DashboardProvider.LoadData | src/context/DashboardContext.tsx:97-117 | stores the processed forecast, the anomaly data and the metadata; the region list is the metadata's keys; the first key is selected when there is one |
| DashboardContext.DashboardProvider.SyncSelectedRegion | src/context/DashboardContext.tsx:130-134 | the region becomes the default region of the list and the old selection; a set selection is kept; with metadata present and no selection, the region becomes the metadata's first key; without metadata the region is unchanged; nothing else changes |
| DashboardContext.DashboardProvider.SyncSelectedDisease | src/context/DashboardContext.tsx:136-140 | the disease becomes the default disease of the old selection; nothing else changes |
| DashboardContext.Startup | src/context/DashboardContext.tsx:49-140 | after mount, load and both selection effects, the year is 2023, the disease is Malaria, the region list is the metadata's keys, and the region is the first key, or unset when there is none |
| Text.DecimalRoundTrip | src/components/dashboard/InteractiveMap.tsx:30 | the decimal text of a number reads back as that number |
| Text.IntToDecimal | src/components/dashboard/InteractiveMap.tsx:30 | the text of a year is non-empty, starts with a minus sign exactly for a negative year, and is otherwise made of decimal digits |
| Text.IntDecimalRoundTrip | src/components/dashboard/InteractiveMap.tsx:30 | the text of any integer, negative ones included, reads back as that integer |
| Text.IntDecimalInjective | src/components/dashboard/InteractiveMap.tsx:30 | different years have different texts |
| InteractiveMap.HasAnomalyIn | src/components/dashboard/InteractiveMap.tsx:34-36 | a series has an anomaly in the year iff some entry is flagged as an anomaly and its date ends with the year's text |
| InteractiveMap.IsHotspot | src/components/dashboard/InteractiveMap.tsx:33-37 | a region is a hotspot iff it has a series for the disease, that series has an anomaly in the year, and the region has metadata; a hotspot is a key of both the anomaly data and the metadata |
| InteractiveMap.HotspotRegions | src/components/dashboard/InteractiveMap.tsx:24-43 | empty when anomaly data, disease, year or metadata is missing; a region is listed iff it has a series for the disease with an anomaly whose date ends with the year's text and has metadata; the list follows anomaly-data key order, each region at most once |
| InteractiveMap.ComputeHotspotRegions | src/components/dashboard/InteractiveMap.tsx:24-43 | the `for ... in` loop pushes exactly the hotspot list |
| InteractiveMap.LocationEntryShape | src/components/dashboard/InteractiveMap.tsx:61 | an entry starts with the latitude and longitude texts joined by a comma and an opening parenthesis, ends with the encoded name in parentheses, and contains the encoded name |
| InteractiveMap.HotspotQueries | src/components/dashboard/InteractiveMap.tsx:59-62 | one entry per hotspot, in order; a region with metadata gets its `lat,lon(name)` entry |
| InteractiveMap.QueriesMentionTheirRegion | src/components/dashboard/InteractiveMap.tsx:59-62 | each hotspot's entry contains that hotspot's encoded name |
| InteractiveMap.MapQuery | src/components/dashboard/InteractiveMap.tsx:53-90 | zoom is 2, 6 or 8; zoom 6 holds iff there are two or more hotspots and the selection is not one of them; zoom 2 holds iff nothing is shown, and then the query is `0,0`; the query for each remaining case |
| InteractiveMap.SelectedHotspotFirst | src/components/dashboard/InteractiveMap.tsx:66-70 | a selected hotspot's entry comes first, then a bar separator, then exactly the other entries that do not contain its encoded name, in order, each as often as among all entries, and without its own entry |
| InteractiveMap.SoleSelectedHotspotTrailingBar | src/components/dashboard/InteractiveMap.tsx:66-70 | when the selected region is the only hotspot the query is its entry plus a trailing bar separator, at zoom 8 |
| InteractiveMap.WithoutMentions | src/components/dashboard/InteractiveMap.tsx:68 | the kept entries are a subsequence of all entries, and an entry is kept exactly when it does not contain the encoded name |
| InteractiveMap.WithoutMentionsCounts | src/components/dashboard/InteractiveMap.tsx:68 | each entry that does not contain the encoded name is kept as often as it occurs; the others are all dropped |
| InteractiveMap.SubstringDropsOtherHotspot | src/components/dashboard/InteractiveMap.tsx:68 | with hotspots Sylhet and SylhetSadar and Sylhet selected, the SylhetSadar entry is dropped because it contains "Sylhet" |
| InteractiveMap.InitialUrlIsWorldView | src/components/dashboard/InteractiveMap.tsx:21 | the initial URL is the one the effect builds for query `0,0` at zoom 2 |
| InteractiveMap.MapUrlShape | src/components/dashboard/InteractiveMap.tsx:92 | the URL carries the query right after `q=` and the zoom's decimal text right after `z=`, and ends with the satellite-embed parameters |
| InteractiveMap.MapUrlInjective | src/components/dashboard/InteractiveMap.tsx:92 | for queries without `&`, equal URLs mean equal query and zoom |
| InteractiveMap.NextMapUrl | src/components/dashboard/InteractiveMap.tsx:45-92 | without metadata the URL is unchanged; otherwise it is the embed URL of the computed query and zoom |
| InteractiveMap.EffectZoom | src/components/dashboard/InteractiveMap.tsx:53-90 | when the effect runs, zoom 6 holds iff there are two or more hotspots and the selection is not one of them |
| InteractiveMap.MapState.constructor | src/components/dashboard/InteractiveMap.tsx:21-22 | the map starts at the world-view URL with no hotspots |
| InteractiveMap.MapState.Refresh | src/components/dashboard/InteractiveMap.tsx:45-92 | records the hotspot list; the URL becomes the next URL, so it is unchanged while metadata is missing |
| Schemas.RegionIssue | src/lib/schemas.ts:4 | a region passes iff it has at least 3 characters; otherwise the message is the region message |
| Schemas.TimePeriodIssue | src/lib/schemas.ts:5 | a time period passes iff it has at least 4 characters; otherwise the message is the time-period message |
| Schemas.DiseaseIssue | src/lib/schemas.ts:6 | a disease passes iff it is present and one of the three options; a missing one gets the required message and any other value the invalid-enum message |
| Schemas.ClimateConditionsIssue | src/lib/schemas.ts:7 | the list passes iff it is non-empty; otherwise the message is the climate-conditions message |
| Schemas.SafeParse | src/lib/schemas.ts:3-8 | parsing succeeds iff every field rule holds, and returns the form unchanged; a failure carries the non-empty field errors |
| Schemas.FieldErrors | src/app/actions.ts:20 | the field errors are empty iff the form is valid; each entry names a schema field and holds exactly one message, the one that field's rule reports |
| Schemas.FieldErrorFor | src/lib/schemas.ts:3-8 | a field appears in the field errors iff its rule fails, with that rule's message as its only entry |
| Schemas.FieldErrorsOrder | src/lib/schemas.ts:3-8 | the failing fields are listed in schema order, each once |
| Schemas.EmptyFormFailsEveryField | src/lib/schemas.ts:3-8 | the empty form fails on all four fields, each with its message |
| Schemas.LengthBoundaries | src/lib/schemas.ts:4-5 | the length bounds are inclusive: 3 and 4 characters pass, 2 and 3 fail |
| Actions.ValidateAndCopy | src/app/actions.ts:14-29 | an invalid form is answered with "Invalid form data." and its field errors; a valid one is copied field by field into the flow's input |
| Actions.ErrorMessage | src/app/actions.ts:36 | a thrown Error gives its own message; any other thrown value gives the fixed fallback text |
| Actions.ResultOf | src/app/actions.ts:31-38 | success iff the flow returned; the data is its output; a throw gives an Error's message or the fixed fallback; no field errors |
| Actions.HandleGenerateInsights | src/app/actions.ts:13-39 | an invalid form gives the validation failure; a valid one gives the flow's result on the copied input; field errors are present iff the form is invalid |
| Actions.InvalidFormSkipsFlow | src/app/actions.ts:16-22 | for an invalid form the result does not depend on the flow, and it fails |
| InsightsGenerator.DefaultValuesInvalid | src/components/dashboard/InsightsGenerator.tsx:37-42 | the default values fail validation, with an error for every field |
| InsightsGenerator.CheckCondition | src/components/dashboard/InsightsGenerator.tsx:202-203 | checking appends the id at the end of the list, or of [] when the value is missing, adding one more occurrence |
| InsightsGenerator.UncheckCondition | src/components/dashboard/InsightsGenerator.tsx:204-208 | unchecking removes every occurrence of the id and keeps the other ids, in order |
| InsightsGenerator.ToggleShowsChecked | src/components/dashboard/InsightsGenerator.tsx:200-208 | after checking, the box shows checked; after unchecking, unchecked; other boxes keep their state |
| InsightsGenerator.UncheckKeepsOthers | src/components/dashboard/InsightsGenerator.tsx:204-208 | unchecking keeps every other id as many times as it was listed |
| InsightsGenerator.UncheckUndoesCheck | src/components/dashboard/InsightsGenerator.tsx:201-208 | unchecking right after checking gives the same list as unchecking alone |
| InsightsGenerator.UncheckAbsent | src/components/dashboard/InsightsGenerator.tsx:204-208 | unchecking an id that is not listed leaves the list unchanged |
| InsightsGenerator.WithFieldErrors | src/components/dashboard/InsightsGenerator.tsx:64-69 | after the fan-out a field has an error iff it had one before or some entry names it with a non-empty list; a field no entry names keeps its earlier error |
| InsightsGenerator.FieldErrorFanOut | src/components/dashboard/InsightsGenerator.tsx:64-69 | with distinct fields, each field with a non-empty list gets exactly its first message, and every other field's error is unchanged |
| InsightsGenerator.InvalidSubmitErrors | src/components/dashboard/InsightsGenerator.tsx:64-69 | after a failed validation each failing field shows its rule's message, and each passing field keeps its earlier error |
| InsightsGenerator.InsightsForm.constructor | src/components/dashboard/InsightsGenerator.tsx:30-43 | the form starts at the default values with no errors, not loading and no summary |
| InsightsGenerator.InsightsForm.SyncRegion | src/components/dashboard/InsightsGenerator.tsx:45-49 | the region becomes the context region when that is non-empty; otherwise it is unchanged; nothing else changes |
| InsightsGenerator.InsightsForm.ToggleCondition | src/components/dashboard/InsightsGenerator.tsx:201-208 | the list becomes the checked or unchecked list; nothing else changes |
| InsightsGenerator.InsightsForm.BeginSubmit | src/components/dashboard/InsightsGenerator.tsx:52-53 | loading goes on and the summary is cleared; values and errors are kept |
| InsightsGenerator.InsightsForm.ApplyFieldErrors | src/components/dashboard/InsightsGenerator.tsx:64-69 | the `forEach` loop leaves the errors the fan-out defines |
| InsightsGenerator.InsightsForm.FinishSubmit | src/components/dashboard/InsightsGenerator.tsx:58-70 | loading goes off; on success with data the summary is set; otherwise any field errors are fanned out |
| InsightsGenerator.InsightsForm.Submit | src/components/dashboard/InsightsGenerator.tsx:51-77 | the result is the action's result on the current values; loading ends off; success sets the summary and leaves the errors; failure leaves no summary; an invalid form's field errors are fanned out |
| LayerToggles.LayerIdsDistinct | src/components/dashboard/LayerToggles.tsx:10-16 | there are five layers with pairwise distinct ids |
| LayerToggles.InitialLayersState | src/components/dashboard/LayerToggles.tsx:19-22 | at the start only temperature reads as on; the dictionary holds only temperature and rainfall |
| LayerToggles.IsOn | src/components/dashboard/LayerToggles.tsx:46 | a layer reads as its stored entry, and as off when it has no entry |
| LayerToggles.Toggled | src/components/dashboard/LayerToggles.tsx:24-26 | toggling flips the layer's effective value, gives it an entry, and leaves every other entry unchanged |
| LayerToggles.ToggleTwice | src/components/dashboard/LayerToggles.tsx:24-26 | toggling twice restores the effective value; a missing entry is left as an explicit false |
| LayerToggles.TogglesCommute | src/components/dashboard/LayerToggles.tsx:25 | toggling two different layers gives the same dictionary in either order |
| LayerToggles.LayerState.constructor | src/components/dashboard/LayerToggles.tsx:19-22 | the state starts as the initial dictionary |
| LayerToggles.LayerState.HandleLayerChange | src/components/dashboard/LayerToggles.tsx:24-26 | the dictionary becomes the toggled one, and the layer's checkbox flips |
| LayerToggles.LayerState.Checked | src/components/dashboard/LayerToggles.tsx:46 | a checkbox shows the layer's effective value in the current dictionary; a checked box has a stored true entry |

## Left out

- Fetching the five JSON files, `Promise.all`, HTTP status checks, JSON parsing, and the
  `dataLoading`/`dataError` flags are I/O. `LoadData` receives the parsed data.
- The STL decomposition and KPI data sets are stored and passed on, but no core logic
  computes with them, so they are not part of this model.
- The text-generation flow (its prompt, model and template) is an outside service. It is a
  function parameter from the input record to a returned output or a thrown value.
- The dummy time series in `RegionalInfoPanel.tsx` is not part of this model. It uses
  `Math.random`, trigonometry, floating-point rounding and date arithmetic.
- Rendering is left out: the panels, selectors, slider, charts, header and layout, and the
  loading and error views. Toasts are left out too, including the fallback text
  "An unexpected error occurred." in the submit handler's error toast.
- React's effect scheduling and re-render timing are left out. Each effect body is one state
  transition, and a memo is a function of its inputs.
- `encodeURIComponent` and the conversion of a latitude or longitude to text are parameters.
  So the `URIError` that `encodeURIComponent` throws on a lone surrogate is not modelled.
- Text.IntToDecimal: writes the year as plain decimal digits. It does not model the
  exponent form that `Number.prototype.toString` uses from 1e21 up, or fractional years.
- Schemas.RegionIssue: measures length in Dafny characters. zod counts UTF-16 code units,
  so strings with characters outside the Basic Multilingual Plane may measure differently.
- Schemas.TimePeriodIssue: measures length in Dafny characters, as above. A time period of
  two characters outside the Basic Multilingual Plane fails here, but zod counts four code
  units and accepts it.
- The schema's handling of values that are not strings or arrays (zod's type errors) is not
  modelled. The form's fields are typed.
- Null and undefined are one `None` throughout.
- Collections.Get: sees an object's own keys only. A JavaScript bracket lookup also finds
  members inherited from `Object.prototype`, so a region named `constructor` or `toString`
  has truthy "metadata" in the source and becomes a hotspot with an `undefined,undefined`
  entry. The model does not capture names of inherited members.
- JavaScript lists integer-like object keys first, in ascending order. A `Dict` keeps its
  given order, so key order is the order of the parsed JSON for non-numeric names.
- Extra JSON fields beyond those the code reads are not modelled.
- The `centerQueryDone` variable in the map effect is written but never read, so it is left
  out.
- InsightsGenerator.InsightsForm.ApplyFieldErrors: records only each field's message. The
  error `type` ("manual") that `setError` also stores is not modelled.
- The `react-hook-form` machinery is left out. This covers the resolver's own client-side
  validation before `onSubmit`, error clearing on edit, and the region `Select` versus
  free-text input; `Submit` starts from the form's current values.
- `InteractiveMap.tsx`'s loading and error views, and the hotspot list it renders under the
  map, are UI.
- `LayerToggles.tsx` keeps its layer state to itself. No other code reads it, so the model
  does not connect it to the map.
