# km-api query filters, pagination and id checks, in Dafny

km-api is a read-only REST API over a catalogue of keyboards, mice, switches,
keycap sets, layouts and vendors. Every list endpoint takes query-string
filters. The model reproduces what the API does with a request before it
reaches the database.

**Models.** Each list method of a model (`getVendors`, `getKeyboards`,
`findKeyboardByLayoutId`, `findSwitchesByVendorId`, `getMice`,
`findButtonsByMouseId`, `findKeycapSetByLayoutId`, `getLayouts`):

- rejects any key outside its allow-list (`array_diff`);
- walks its filters in a fixed order, treating a missing, `""` or `"0"` value
  as absent (`empty`);
- checks each value: an exact `in_array` match, `is_numeric`, both halves of a
  range, or `validateDate`/`validateYear`;
- appends an SQL fragment to `$sql` and a binding to `$args`;
- stops at the first exception.

Each by-id method builds a one-placeholder query.

**Controllers.** Each controller:

- defaults page to 1 and limit to 10;
- refuses a non-numeric page or limit;
- records them with `setPaginationOptions`;
- calls the model with the whole query map;
- turns a by-id lookup that finds nothing into a 404, checking the parent id
  before pagination on nested routes.

## How the model is organised

- **`Php`**: `empty`, `is_numeric` as a grammar over strings, and
  `filter_var(..., FILTER_VALIDATE_BOOLEAN)`, read as case-insensitive
  membership in {1, true, on, yes}.
- **`Errors`**: one `ErrorKind` per exception class, and the HTTP status each
  one passes to its parent constructor.
- **`Sql`**: a query is a list of fragments plus an argument map. A fragment
  is text with `:name` placeholders kept as separate pieces, so a query is
  *well bound* when its placeholders are exactly its bound names. PDO
  executes named placeholders only under that condition.
- **`FilterSteps`**: the reference semantics. A *step* is one guarded block,
  in one of these kinds:
  - a plain contains-filter;
  - an allow-list check;
  - a numeric check;
  - a boolean coercion;
  - a year check;
  - a paired range;
  - a mutual exclusion.

  `Spec(allow-list, steps, filters, validators, base)` runs a table of steps.
  The generic lemmas about `Spec` are proved once:
  - the outcome;
  - empty values are ignored;
  - unread keys are ignored;
  - well-boundness;
  - the later binding wins.
- **`Blocks`**: one method per kind of guarded block. Each performs the
  `$sql .=` / `$args[...] =` updates of that block and is proved equal to one
  step of the reference.
- **`*Model`**: one module per model file. Each list method is an imperative
  method built from those blocks, in source order, and is proved equal to its
  table. Lemmas then state the source's rules in the model's own terms: each
  check, the precedence of errors, the bindings, and the quirks.
- **`Paging`** and **`*Controller`**: the pagination defaulting and check,
  and the pagination options as a mutable `Pager` object per model. Each
  handler is a method against a response function. Lemmas give the order of
  the checks and what reaches the model.

`validateDate` and `validateYear` live in a base model that is not part of
this model. They are passed in as the two fields of `Validators`, so every
result holds for any implementation of them. `fetchSingle` is likewise a
parameter, `Fetch`, from a query to an optional row.

The code is followed as written, including its slips:

- The allow-lists of `getKeyboards`, `findKeyboardByLayoutId`, `getMice`,
  `findButtonsByMouseId` and `getLayouts` omit page and limit, so any request
  that names them fails with InvalidParameter. Those of `getVendors`,
  `findSwitchesByVendorId` and `findKeycapSetByLayoutId` include them, and
  there they change nothing.
- The accepted polling rates are '125', '500' and '100', so '1000' is refused.
- The `button_count` block tests `$filter`, which is never assigned, so it
  never fires.
- `founded_before` is validated with `founded_after`'s value.
- Both switch ranges bind `lower_limit`/`upper_limit`, so the travel values
  overwrite the force values.
- The keycap manufacturer fragment names `:kaycap_manufacturer` but binds
  `keycap_manufacturer`.
- `order_by` is bound as a parameter, not spliced into the SQL.
- `filter_var(..., FILTER_VALIDATE_BOOLEAN)` strips white space around the value
  before comparing, so `hotswappable= yes` binds 1 (`Php.FilterBoolIgnoresPadding`).

The pagination exception describes itself as "Pagination parameters must be
numeric and greater than zero" (app/Exceptions/HttpPaginationException.php:7),
but the controllers only test `is_numeric` (app/Controllers/VendorsController.php:33
and the same test in the other controllers). A page or limit of `"0"` counts as
empty and falls back to the default, and values such as `"-1"` or `"0.5"` are
numeric, so they pass too. The model follows the code (`Paging.BadPagingExactly`).

## Model

| member | source | states |
|---|---|---|
| Php.PresentMeansSuppliedAndNonEmpty | app/Domain/Models/KeyboardsModel.php:32 | `!empty($filters[k])` holds exactly when k is supplied with a value other than "" and "0" |
| Php.DigitStringIsNumeric | app/Domain/Models/KeyboardsModel.php:65 | every non-empty string of decimal digits passes `is_numeric` |
| Php.DigitlessIsNotNumeric | app/Domain/Models/KeyboardsModel.php:65 | a string with no decimal digit, "" included, fails `is_numeric` |
| Php.FilterBoolIgnoresCase | app/Domain/Models/KeyboardsModel.php:59 | `FILTER_VALIDATE_BOOLEAN` ignores letter case: two values equal up to case read the same |
| Php.FilterBoolIgnoresPadding | app/Domain/Models/ButtonsModel.php:49 | `FILTER_VALIDATE_BOOLEAN` strips space, tab, line feed, carriage return and vertical tab at both ends: a padded value reads as its core |
| Php.FilterBoolUnpadded | app/Domain/Models/KeyboardsModel.php:59 | a value without surrounding white space is true exactly when its lower-case form is "1", "true", "on" or "yes" |
| Php.FilterBoolOneExample | app/Domain/Models/KeyboardsModel.php:59 | "1" reads as true |
| Php.FilterBoolTrueExamples | app/Domain/Models/KeyboardsModel.php:59 | "YES" and "On" read as true |
| Php.FilterBoolFalseExamples | app/Domain/Models/KeyboardsModel.php:59 | "maybe" and "false" read as false |
| Errors.Status | app/Exceptions/CustomHttpException.php:13-18 | InvalidId is 404, RangeFilter 416, the four filter errors 400; Pagination has no fixed status |
| Sql.SelectById | app/Domain/Models/VendorsModel.php:110-115 | a by-id query renders as `SELECT * FROM t WHERE c = :c`, binds exactly c and is well bound |
| FilterSteps.RunIsThenAll | app/Domain/Models/KeyboardsModel.php:32-96 | running a table is composing its blocks one after another, an exception passing through unchanged |
| FilterSteps.SpecOutcome | app/Domain/Models/KeyboardsModel.php:23-99 | a list method: InvalidParameter exactly for a key off the allow-list; otherwise the first step's exception; otherwise the base query, then the firing steps' fragments in table order, then their bindings |
| FilterSteps.SpecFilterErrorsOnly | app/Domain/Models/KeyboardsModel.php:20-99 | a list method never throws InvalidId or Pagination |
| FilterSteps.SpecNoFilters | app/Domain/Models/KeyboardsModel.php:29-30 | with no filters a list method returns its base query unchanged |
| FilterSteps.SpecIgnoresEmpty | app/Domain/Models/KeyboardsModel.php:32 | an allowed key with an empty value that no other step reads is the same as that key left out |
| FilterSteps.SpecIgnoresUnread | app/Domain/Models/VendorsModel.php:33-37 | an allowed key that no step reads changes nothing, whatever its value |
| FilterSteps.SpecWellBound | app/Domain/Models/KeyboardsModel.php:30-96 | if the base query and every firing step bind what they mention, the whole query is well bound |
| FilterSteps.SpecBindingWins | app/Domain/Models/SwitchesModel.php:59-72 | a name a step binds and no later step binds keeps that step's value in `$args` |
| FilterSteps.SpecKeepsBase | app/Domain/Models/SwitchesModel.php:40-41 | a base binding no step rebinds keeps its value |
| FilterSteps.SpecMentions | app/Domain/Models/KeycapsModel.php:55-58 | every placeholder of a firing step appears in the final text |
| Blocks.PlainBlock | app/Domain/Models/KeyboardsModel.php:32-35 | a guarded contains-block appends its fragment and binding exactly when its value is non-empty |
| Blocks.OneOfBlock | app/Domain/Models/KeyboardsModel.php:36-45 | a strict `in_array` block throws InvalidParameterValue for an unlisted value, else appends |
| Blocks.NumericBlock | app/Domain/Models/KeyboardsModel.php:64-71 | an `is_numeric` block throws InvalidParameterValue for a non-numeric value, else appends |
| Blocks.FlagBlock | app/Domain/Models/KeyboardsModel.php:56-63 | a boolean block never throws and binds 1 or 0 |
| Blocks.YearBlock | app/Domain/Models/VendorsModel.php:50-65 | a `validateYear` block checks the value of the key it is given, which may be another filter's |
| Blocks.RangeBlock | app/Domain/Models/KeyboardsModel.php:72-87 | a paired range throws RangeFilter for one half alone, then checks both bounds, then binds both |
| Blocks.ExclusiveBlock | app/Domain/Models/ButtonsModel.php:35-37 | two non-empty exclusive filters throw TooManyParameters, else nothing changes |
| KeyboardsModel.GetKeyboards | app/Domain/Models/KeyboardsModel.php:20-99 | the straight-line method returns exactly the table's result |
| KeyboardsModel.KeyboardsOutcome | app/Domain/Models/KeyboardsModel.php:23-96 | InvalidParameter iff a key is off the 8-name list; else the first failing check; else base plus fragments in the order name, connectivity, switch_type, hotswappable, weight, release range, firmware |
| KeyboardsModel.KeyboardsFirstError | app/Domain/Models/KeyboardsModel.php:32-96 | the table throws what the written-out chain of checks says, in source order |
| KeyboardsModel.KeyboardsUnknownKey | app/Domain/Models/KeyboardsModel.php:23-27 | page, limit or order_by is an InvalidParameter |
| KeyboardsModel.NameNeverThrows | app/Domain/Models/KeyboardsModel.php:32-35 | name never throws |
| KeyboardsModel.ConnectivityError | app/Domain/Models/KeyboardsModel.php:36-45 | connectivity other than exactly wired, wireless or both is InvalidParameterValue |
| KeyboardsModel.SwitchTypeError | app/Domain/Models/KeyboardsModel.php:46-55 | switch_type other than exactly linear, tactile or clicky is InvalidParameterValue |
| KeyboardsModel.HotSwappableNeverThrows | app/Domain/Models/KeyboardsModel.php:56-63 | hotswappable never throws |
| KeyboardsModel.WeightError | app/Domain/Models/KeyboardsModel.php:64-71 | a non-numeric weight_maximum is InvalidParameterValue |
| KeyboardsModel.ReleasedError | app/Domain/Models/KeyboardsModel.php:72-87 | one release bound alone is RangeFilter; both with a failed date is InvalidDate; the pair check comes first |
| KeyboardsModel.FirmwareError | app/Domain/Models/KeyboardsModel.php:88-96 | firmware_type other than exactly QMK or proprietary is InvalidParameterValue |
| KeyboardsModel.KeyboardsReleased | app/Domain/Models/KeyboardsModel.php:72-87 | with the earlier checks passing, the whole method throws RangeFilter or InvalidDate as the release pair dictates |
| KeyboardsModel.KeyboardsHotSwappable | app/Domain/Models/KeyboardsModel.php:56-62 | hot_swappable is bound to 1 iff `filter_var` reads the value as true, else 0 |
| KeyboardsModel.KeyboardsWellBound | app/Domain/Models/KeyboardsModel.php:30-96 | every query `getKeyboards` returns is well bound |
| KeyboardsModel.KeyboardsNoFilters | app/Domain/Models/KeyboardsModel.php:29-30 | no filters: the base query, nothing bound |
| KeyboardsModel.KeyboardsIgnoresEmpty | app/Domain/Models/KeyboardsModel.php:32-96 | an allowed filter with an empty value adds no fragment and no binding |
| KeyboardsModel.KeyboardById | app/Domain/Models/KeyboardsModel.php:101-107 | binds exactly keyboard_id; well bound |
| KeyboardsModel.FindKeyboardByLayoutId | app/Domain/Models/KeyboardsModel.php:109-155 | the straight-line method returns exactly the table's result |
| KeyboardsModel.ByLayoutOutcome | app/Domain/Models/KeyboardsModel.php:112-152 | InvalidParameter iff a key is off the 4-name list; else the first failing check; else the layout query plus switch_type, price, connectivity fragments |
| KeyboardsModel.ByLayoutFirstError | app/Domain/Models/KeyboardsModel.php:121-152 | the table throws what the written-out chain of checks says |
| KeyboardsModel.ByLayoutUnknownKey | app/Domain/Models/KeyboardsModel.php:112-116 | page, limit or order_by is an InvalidParameter |
| KeyboardsModel.LayoutSwitchNeverThrows | app/Domain/Models/KeyboardsModel.php:121-124 | switch_type is not checked against any list here |
| KeyboardsModel.ByLayoutAnySwitchType | app/Domain/Models/KeyboardsModel.php:121-124 | with allowed keys and passing checks the method succeeds, whatever switch_type holds |
| KeyboardsModel.PriceError | app/Domain/Models/KeyboardsModel.php:125-140 | one price bound alone is RangeFilter; both with a non-numeric one is InvalidParameterValue |
| KeyboardsModel.ByLayoutBindsLayout | app/Domain/Models/KeyboardsModel.php:119-120 | layout_id is always bound to the path id |
| KeyboardsModel.ByLayoutWellBound | app/Domain/Models/KeyboardsModel.php:119-152 | every query returned is well bound |
| VendorsModel.GetVendors | app/Domain/Models/VendorsModel.php:30-103 | the straight-line method returns exactly the table's result |
| VendorsModel.VendorsOutcome | app/Domain/Models/VendorsModel.php:33-100 | InvalidParameter iff a key is off the 10-name list; else the first failing check; else base plus fragments in source order |
| VendorsModel.VendorsFirstError | app/Domain/Models/VendorsModel.php:42-100 | the table throws what the written-out chain of checks says |
| VendorsModel.PlainNeverThrows | app/Domain/Models/VendorsModel.php:42-49 | name and country never throw |
| VendorsModel.FoundedAfterError | app/Domain/Models/VendorsModel.php:50-57 | founded_after failing `validateYear` is InvalidParameterValue |
| VendorsModel.FoundedBeforeError | app/Domain/Models/VendorsModel.php:58-65 | founded_before is gated by `validateYear` of founded_after's value |
| VendorsModel.VendorsFoundedBeforeUnchecked | app/Domain/Models/VendorsModel.php:58-65 | changing founded_before to any other non-empty value changes no check |
| VendorsModel.VendorsFoundedBeforeAlone | app/Domain/Models/VendorsModel.php:58-65 | founded_before without founded_after throws whenever `validateYear(null)` fails |
| VendorsModel.CountError | app/Domain/Models/VendorsModel.php:66-73 | a non-numeric keyboards_count is InvalidParameterValue |
| VendorsModel.PriceError | app/Domain/Models/VendorsModel.php:74-90 | one price bound alone is RangeFilter; both with a non-numeric one is InvalidParameterValue |
| VendorsModel.VendorsRangeOnlyFromPrice | app/Domain/Models/VendorsModel.php:50-90 | RangeFilter comes only from the price pair; the founded filters never raise it |
| VendorsModel.OrderByError | app/Domain/Models/VendorsModel.php:91-96 | order_by outside the six vendor columns is InvalidParameterValue |
| VendorsModel.VendorsOrderBy | app/Domain/Models/VendorsModel.php:98-99 | an accepted order_by is bound as the parameter order_by_type |
| VendorsModel.VendorsIgnoresPaging | app/Domain/Models/VendorsModel.php:33-37 | page and limit pass the allow-list and change nothing |
| VendorsModel.VendorsWellBound | app/Domain/Models/VendorsModel.php:40-100 | every query returned is well bound |
| VendorsModel.VendorsNoFilters | app/Domain/Models/VendorsModel.php:39-40 | no filters: the base query, nothing bound |
| VendorsModel.VendorsIgnoresEmpty | app/Domain/Models/VendorsModel.php:42-100 | an allowed empty filter other than founded_after adds nothing; founded_after is excluded because founded_before reads it |
| VendorsModel.VendorById | app/Domain/Models/VendorsModel.php:110-116 | binds exactly vendor_id; well bound |
| SwitchesModel.SwitchesBase | app/Domain/Models/SwitchesModel.php:40-41 | the base query binds exactly vendor_id |
| SwitchesModel.FindSwitchesByVendorId | app/Domain/Models/SwitchesModel.php:30-102 | the straight-line method returns exactly the table's result |
| SwitchesModel.SwitchesOutcome | app/Domain/Models/SwitchesModel.php:33-99 | InvalidParameter iff a key is off the 10-name list; else the first failing check; else base first, then fragments in source order |
| SwitchesModel.SwitchesFirstError | app/Domain/Models/SwitchesModel.php:43-99 | the table throws what the written-out chain of checks says |
| SwitchesModel.TypeError | app/Domain/Models/SwitchesModel.php:43-52 | type other than exactly linear, tactile or clicky is InvalidParameterValue |
| SwitchesModel.UncheckedRangesError | app/Domain/Models/SwitchesModel.php:53-76 | force and travel ranges throw only RangeFilter for one half alone, with no numeric check |
| SwitchesModel.LifespanError | app/Domain/Models/SwitchesModel.php:77-84 | a non-numeric lifespan_minimum is InvalidParameterValue |
| SwitchesModel.ReleasedError | app/Domain/Models/SwitchesModel.php:85-99 | one release bound alone is RangeFilter, checked before the dates; a failed date is InvalidDate |
| SwitchesModel.SwitchesTravelWins | app/Domain/Models/SwitchesModel.php:53-76 | with a travel range, lower_limit and upper_limit hold the travel values, whether or not a force range was given |
| SwitchesModel.SwitchesBindsVendor | app/Domain/Models/SwitchesModel.php:40-41 | vendor_id stays bound to the path id |
| SwitchesModel.SwitchesIgnoresPaging | app/Domain/Models/SwitchesModel.php:33-37 | page and limit pass the allow-list and change nothing |
| SwitchesModel.SwitchesWellBound | app/Domain/Models/SwitchesModel.php:40-99 | every query returned is well bound |
| SwitchesModel.SwitchesNoFilters | app/Domain/Models/SwitchesModel.php:40-41 | no filters: the base query |
| SwitchesModel.SwitchesIgnoresEmpty | app/Domain/Models/SwitchesModel.php:43-99 | an allowed filter with an empty value adds nothing |
| MiceModel.GetMice | app/Domain/Models/MiceModel.php:20-108 | the straight-line method, dead button_count block included, returns exactly the table's result |
| MiceModel.UnsetArrayBlock | app/Domain/Models/MiceModel.php:88-96 | a numeric block guarded by an empty array does nothing |
| MiceModel.MiceOutcome | app/Domain/Models/MiceModel.php:23-105 | InvalidParameter iff a key is off the 9-name list; else the first failing check; else base plus fragments in source order |
| MiceModel.MiceFirstError | app/Domain/Models/MiceModel.php:32-105 | the table throws what the written-out chain of checks says |
| MiceModel.MiceUnknownKey | app/Domain/Models/MiceModel.php:23-27 | page, limit or order_by is an InvalidParameter |
| MiceModel.NameNeverThrows | app/Domain/Models/MiceModel.php:32-35 | name never throws |
| MiceModel.PollingError | app/Domain/Models/MiceModel.php:36-45 | polling_rate other than exactly '125', '500' or '100' is InvalidParameterValue |
| MiceModel.MicePolling1000 | app/Domain/Models/MiceModel.php:36-45 | polling_rate '1000' always ends in InvalidParameterValue |
| MiceModel.MicePolling100 | app/Domain/Models/MiceModel.php:36-45 | polling_rate '100' is accepted and bound as mice_polling_rate |
| MiceModel.PollingRateValues | app/Domain/Models/MiceModel.php:38 | the list holds '100' and not '1000' |
| MiceModel.ConnectionError | app/Domain/Models/MiceModel.php:46-55 | connection other than exactly wired, wireless or both is InvalidParameterValue |
| MiceModel.WeightError | app/Domain/Models/MiceModel.php:56-70 | one weight bound alone is RangeFilter; both with a non-numeric one is InvalidParameterValue |
| MiceModel.PriceError | app/Domain/Models/MiceModel.php:71-87 | the same rule for the price pair |
| MiceModel.MiceIgnoresButtonCount | app/Domain/Models/MiceModel.php:88-96 | button_count, whatever its value, changes nothing |
| MiceModel.RatingError | app/Domain/Models/MiceModel.php:97-105 | a non-numeric rating is InvalidParameterValue |
| MiceModel.MiceWellBound | app/Domain/Models/MiceModel.php:30-105 | every query returned is well bound |
| MiceModel.MiceNoFilters | app/Domain/Models/MiceModel.php:29-30 | no filters: the base query, nothing bound |
| MiceModel.MiceIgnoresEmpty | app/Domain/Models/MiceModel.php:32-105 | an allowed filter with an empty value adds nothing |
| MiceModel.MouseById | app/Domain/Models/MiceModel.php:110-116 | binds exactly mouse_id; well bound |
| ButtonsModel.ButtonsBase | app/Domain/Models/ButtonsModel.php:31-32 | the base query binds exactly mouse_id |
| ButtonsModel.FindButtonsByMouseId | app/Domain/Models/ButtonsModel.php:21-55 | the straight-line method returns exactly the table's result |
| ButtonsModel.ButtonsOutcome | app/Domain/Models/ButtonsModel.php:24-52 | InvalidParameter iff a key is off {name, programmable, name_contains}; else TooManyParameters iff both name filters are given; else base plus fragments |
| ButtonsModel.ButtonsFirstError | app/Domain/Models/ButtonsModel.php:35-52 | the only step exception is TooManyParameters, before any filter fragment |
| ButtonsModel.StepErrors | app/Domain/Models/ButtonsModel.php:35-52 | the exclusion throws TooManyParameters; the name, name_contains and programmable blocks never throw |
| ButtonsModel.ButtonsUnknownKey | app/Domain/Models/ButtonsModel.php:24-28 | page, limit or order_by is an InvalidParameter |
| ButtonsModel.ButtonsNameBinding | app/Domain/Models/ButtonsModel.php:38-45 | buttons_name holds whichever name filter was given |
| ButtonsModel.ButtonsProgrammable | app/Domain/Models/ButtonsModel.php:46-52 | programmable is bound to 1 iff `filter_var` reads it as true, else 0 |
| ButtonsModel.ButtonsBindsMouse | app/Domain/Models/ButtonsModel.php:31-32 | mouse_id stays bound to the path id |
| ButtonsModel.ButtonsWellBound | app/Domain/Models/ButtonsModel.php:31-52 | every query returned is well bound |
| ButtonsModel.ButtonsNoFilters | app/Domain/Models/ButtonsModel.php:31-32 | no filters: the base query |
| ButtonsModel.ButtonsIgnoresEmpty | app/Domain/Models/ButtonsModel.php:35-52 | an allowed filter with an empty value adds nothing |
| KeycapsModel.FindKeycapSetByLayoutId | app/Domain/Models/KeycapsModel.php:31-69 | the straight-line method returns exactly the table's result |
| KeycapsModel.KeycapsOutcome | app/Domain/Models/KeycapsModel.php:33-66 | InvalidParameter iff a key is off the 6-name list; else InvalidParameterValue iff price_maximum is not numeric; else the layout query plus fragments |
| KeycapsModel.KeycapsFirstError | app/Domain/Models/KeycapsModel.php:47-66 | the table throws what the written-out check says |
| KeycapsModel.StepErrors | app/Domain/Models/KeycapsModel.php:47-66 | material, profile and manufacturer never throw; price_maximum throws when not numeric |
| KeycapsModel.KeycapsManufacturerUnbound | app/Domain/Models/KeycapsModel.php:55-58 | with a manufacturer the text names kaycap_manufacturer, nothing binds it, and the query is not well bound |
| KeycapsModel.KeycapsWellBound | app/Domain/Models/KeycapsModel.php:40-66 | without a manufacturer every query returned is well bound |
| KeycapsModel.KeycapsBindsLayout | app/Domain/Models/KeycapsModel.php:40-44 | layout_id stays bound to the path id |
| KeycapsModel.KeycapsIgnoresPaging | app/Domain/Models/KeycapsModel.php:33-37 | page and limit pass the allow-list and change nothing |
| KeycapsModel.KeycapsNoFilters | app/Domain/Models/KeycapsModel.php:40-44 | no filters: the layout query |
| KeycapsModel.KeycapsIgnoresEmpty | app/Domain/Models/KeycapsModel.php:47-66 | an allowed filter with an empty value adds nothing |
| LayoutsModel.GetLayouts | app/Domain/Models/LayoutsModel.php:21-33 | any key at all is InvalidParameter and nothing else can fail; otherwise the fixed layouts query with no bindings |
| LayoutsModel.LayoutsQueryText | app/Domain/Models/LayoutsModel.php:30-31 | the query text is `SELECT * FROM layouts WHERE 1`, well bound with no arguments |
| LayoutsModel.LayoutsIsSpec | app/Domain/Models/LayoutsModel.php:24-32 | `getLayouts` is the table form with an empty allow-list and no steps |
| LayoutsModel.LayoutsRejectsPaging | app/Domain/Models/LayoutsModel.php:24-28 | page or limit is an InvalidParameter |
| LayoutsModel.LayoutById | app/Domain/Models/LayoutsModel.php:35-41 | binds exactly layout_id; well bound |
| Paging.BadPagingExactly | app/Controllers/VendorsController.php:30-35 | a Pagination error exactly when a supplied, non-empty page or limit is not numeric; empty ones default to 1 and 10 |
| Paging.NoParametersFirstPage | app/Controllers/KeyboardsController.php:27-32 | no parameters: page 1 of 10 and no error |
| Paging.Pager.SetPaginationOptions | app/Controllers/VendorsController.php:37 | records the page and limit the model will paginate with |
| Paging.FoundOr404 | app/Controllers/VendorsController.php:55-60 | no row is InvalidId, status 404; a row is the answer |
| VendorsController.VendorsResponseOutcome | app/Controllers/VendorsController.php:24-42 | Pagination iff page or limit is bad; otherwise the vendors query, which page and limit do not affect |
| VendorsController.SwitchesOfVendorOutcome | app/Controllers/VendorsController.php:75-100 | an unknown vendor is InvalidId whatever the page; Pagination only for a known vendor; otherwise the switches query without page and limit |
| VendorsController.Controller.HandleGetVendors | app/Controllers/VendorsController.php:24-42 | returns the response; sets the options only when page and limit pass |
| VendorsController.Controller.HandleGetVendorById | app/Controllers/VendorsController.php:52-63 | the vendor's row, or InvalidId |
| VendorsController.Controller.HandleGetSwitchVendorById | app/Controllers/VendorsController.php:75-100 | returns the response; sets the switches options only for a known vendor and a good page |
| KeyboardsController.KeyboardsResponseOutcome | app/Controllers/KeyboardsController.php:23-38 | Pagination iff page or limit is bad; a good page or limit still ends in InvalidParameter |
| KeyboardsController.Controller.HandleGetKeyboards | app/Controllers/KeyboardsController.php:23-38 | returns the response; sets the options only when page and limit pass |
| KeyboardsController.Controller.HandleGetKeyboardById | app/Controllers/KeyboardsController.php:46-56 | the keyboard's row, or InvalidId |
| MiceController.MiceResponseOutcome | app/Controllers/MiceController.php:23-38 | Pagination iff page or limit is bad; a good page or limit still ends in InvalidParameter |
| MiceController.ButtonsOfMouseOutcome | app/Controllers/MiceController.php:69-94 | an unknown mouse is InvalidId whatever the page; Pagination only for a known mouse; a good page or limit ends in InvalidParameter |
| MiceController.Controller.HandleGetMice | app/Controllers/MiceController.php:23-38 | returns the response; sets the options only when page and limit pass |
| MiceController.Controller.HandleGetMouseById | app/Controllers/MiceController.php:48-58 | the mouse's row, or InvalidId |
| MiceController.Controller.HandleGetButtonMouseById | app/Controllers/MiceController.php:69-94 | returns the response; sets the buttons options only for a known mouse and a good page |
| LayoutsController.LayoutsResponseOutcome | app/Controllers/LayoutsController.php:25-41 | Pagination iff page or limit is bad; success exactly for a request with no parameters at all |
| LayoutsController.KeyboardsOfLayoutOutcome | app/Controllers/LayoutsController.php:74-98 | an unknown layout is InvalidId whatever the page; Pagination only for a known layout; a good page or limit ends in InvalidParameter |
| LayoutsController.KeycapsOfLayoutOutcome | app/Controllers/LayoutsController.php:110-135 | an unknown layout is InvalidId whatever the page; Pagination only for a known layout; otherwise the keycap query without page and limit |
| LayoutsController.Controller.HandleGetLayouts | app/Controllers/LayoutsController.php:25-41 | returns the response; sets the options only when page and limit pass |
| LayoutsController.Controller.HandleGetLayoutsById | app/Controllers/LayoutsController.php:51-62 | the layout's row, or InvalidId |
| LayoutsController.Controller.HandleGetKeyboardLayoutById | app/Controllers/LayoutsController.php:74-98 | returns the response; sets the keyboards options only for a known layout and a good page |
| LayoutsController.Controller.HandleGetKeycapSetLayoutById | app/Controllers/LayoutsController.php:110-135 | returns the response; sets the keycaps options only for a known layout and a good page |

## Left out

- SQL execution, `paginate`, `fetchSingle` and the result rows are out of scope. The model stops at the query text and bindings handed to them, and a by-id lookup is a `Fetch` parameter.
- `validateDate` and `validateYear` are in a base model that is not part of this model. They are parameters, so no date or year format is modelled.
- `setPaginationOptions` is not visible. `Pager` records only the two values it is given, and whether `paginate` then checks them is not modelled.
- Paging.CurrentPage: the PHP default is the integer 1 and the integer 10, not the strings "1" and "10". They are modelled as strings because only their `is_numeric` outcome is used.
- Errors.Status: the pagination exception declares 422 but inherits a constructor that assigns the 400 default, and no status is pinned for it.
- Ids come from the URI as strings, and PHP coerces them through `int` parameter types. The model takes ids as integers and does not model a failed coercion. `findKeycapSetByLayoutId` has no type on its id, so PHP binds the URI text, while the model binds the integer.
- PHP arrays keep insertion order and the model's maps do not, so `$args` order is not modelled. PDO binds by name, so the order does not affect the query.
- PDO's handling of a placeholder used twice in one statement is not modelled. This arises when both switch ranges are given, since `:lower_limit` and `:upper_limit` then appear twice.
- Request and response objects, JSON rendering, routing, the About document and the exception classes' titles and descriptions are not modelled.
