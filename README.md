# Wisata Jawa Timur: search, filter and session state

This is a Dafny model of the client-side logic of a React application for browsing and managing the
tourist destinations (*wisata*) of East Java, grouped by province (*provinsi*) and region (*daerah*). It covers:

- **`App` (app.dfy, module `AppState`).** The root component's session state is a class whose fields are
  the component's state variables. It models:
  - the region-scoped loader and the bulk loader;
  - the best-effort fallback that asks the first ten regions one by one;
  - the cross-data search;
  - the province→region filter chain;
  - the create/delete refresh choreography, including the confirmation gate;
  - the clear-filters reset, the search-result click and the three-screen switch.

  Every network request is a parameter of type `Response` with three cases: `Ok(data)`, an error status
  with the server's optional `message`, or a thrown exception. The confirmation dialog is a `bool`.
  Each React effect is a method that the caller runs after the handler that triggers it. `ChangeProvince`
  and `ChangeRegion` compose a handler with the one effect it triggers. `ClickSearchResult` composes the
  click with both effects it can trigger, the province effect and the region effect.
- **Search engine (search.dfy).** The pool is the given data or the superset, followed by the region list.
  It is deduplicated by id, with the first occurrence winning, and then filtered by a case-insensitive
  substring match on the name. The module also has the in-region name filter of the browse screen.
- **The add/edit form (form.dfy).** A record of text fields, with:
  - the change handler, which resets the region when the province changes;
  - the submitted payload;
  - the form's own region filter and the edit-mode province back-fill;
  - the name lookups that fall back to `''`.
- **The searchable dropdown (dropdown.dfy).** The label filter, the display text of the current value,
  and the open/typed state changed by select, clear, header click and a press outside.
- **The destination grid (grid.dfy).** One card per destination, with region and province names that fall
  back to `"Unknown"`.
- **JavaScript semantics the logic relies on.** These are written out:
  - `trim` with the ECMAScript white-space set (strings.dfy);
  - ASCII `toLowerCase` and `includes` (strings.dfy);
  - `parseInt` on decimal text and `Number.prototype.toString` (decimal.dfy);
  - `filter` / `find` / `findIndex` (seqs.dfy).

  Selections stay strings, as in the source, and are compared through `ParseInt`. `Decimal.ParseIntToString`
  proves that an id written out by `toString()` parses back to itself.

## Model

| member | source | states |
|---|---|---|
| AppState.App.constructor | src/App.jsx:15-27 | Every state variable starts at its `useState` value: empty query and selections, empty lists, no error, the browse screen, not loading, no results shown. |
| AppState.App.FetchAllTourismData | src/App.jsx:30-48 | Success stores the body as the superset and returns it. Any failure returns `[]` and keeps the old superset. |
| AppState.App.FetchProvinces | src/App.jsx:51-66 | Success replaces the provinces. A failure is swallowed and keeps the old list. |
| AppState.App.FetchRegions | src/App.jsx:69-86 | Success replaces the regions and leaves the error alone. An error status keeps the list and reports the fixed message. An exception reports the fixed prefix plus its message. |
| AppState.App.Mount | src/App.jsx:276-280 | The three reference loads together: provinces, regions and superset each follow their own outcome. Only the region load can set an error. |
| AppState.App.FetchTourismData | src/App.jsx:88-110 | Success replaces the region list and clears the error. An error status empties the list and reports the server message or the default text. An exception reports its message and keeps the list. Loading is false on every path. |
| AppState.App.SearchAllTourismData | src/App.jsx:113-150 | A blank query (the ECMAScript white-space set) returns nothing, empties the results and hides them. Any other query shows the results even when empty. The results are the deduplicated, name-matched pool, and the class invariant that no id repeats in the results is preserved. |
| AppState.App.HandleSearchChange | src/App.jsx:283-287 | Stores the query and searches the superset followed by the region list, with the blank-query behaviour above. |
| AppState.App.CreateTourismDestination | src/App.jsx:153-203 | On success, all of the following hold. The screen is browse. The superset follows the bulk refetch. The region list and error follow the reload when a region is selected; otherwise the error is cleared. Results are shown iff the query is not blank. They are the search of the fresh superset plus the reloaded region list: this is the corrected re-search, and the source as written uses the region list from before the create (see "## Findings"). On failure only the error changes, to the server message or default (HTTP), or the prefixed exception message. Loading ends false. |
| AppState.App.DeleteTourismDestination | src/App.jsx:206-248 | A declined confirmation changes no state. On success the refresh is the same as after create, except that the screen is unchanged. A destination absent from the fresh data is then never among the results. On failure only the error changes, to the fixed message (HTTP) or the prefixed exception message. |
| AppState.App.ProvinceEffect | src/App.jsx:251-264 | The filtered regions become `RegionsForProvince` of the selection (none when unset). The selected region is always cleared and the region list emptied. |
| AppState.App.RegionEffect | src/App.jsx:267-273 | With a region selected, the list, error and loading follow the region load's outcome. Without one, the list is emptied and nothing else changes. |
| AppState.App.ChangeProvince | src/App.jsx:251-264 | A new province filters the regions and clears the region and its list. Re-choosing the same province changes nothing. |
| AppState.App.ChangeRegion | src/App.jsx:267-273 | A new non-empty region loads its list. Clearing the region empties the list. Re-choosing the same region changes nothing. |
| AppState.App.HandleSearchResultClick | src/App.jsx:290-296 | With both region and province known, selects them as their decimal ids. Otherwise the selections are kept. The results are hidden in both cases. |
| AppState.App.ClickSearchResult | src/App.jsx:251-296 | Within the current province, the clicked region stays selected and, when it is a new region, the list, error and loading follow its load. From another province, the province effect leaves the regions of the new province and no region selected. The load of the clicked region, started in the same commit, still lands afterwards: the list, error and loading follow it. If the clicked region was already the selected one, no load starts and the list ends empty. |
| AppState.App.HandleClearFilters | src/App.jsx:299-305 | Query, province and region become empty, and the results are emptied and hidden. |
| AppState.App.LoadMoreDataForSearch | src/App.jsx:308-347 | A non-empty bulk result becomes the superset. Otherwise, if the first ten regions' gathered data is non-empty, it replaces the superset. If not, a successful empty bulk result leaves the superset empty and a failed one keeps the old superset. |
| AppState.CollectRegionData | src/App.jsx:318-338 | The loop returns exactly `Gathered`: the bodies of the successful region requests, concatenated in region order. |
| AppState.GatheredMembers | src/App.jsx:319-331 | A destination is gathered iff some asked region's request succeeded and its body holds that destination. |
| AppState.FallbackTargets | src/App.jsx:319 | `slice(0, 10)`: a prefix of the regions: every region when there are fewer than ten, otherwise exactly the first ten. |
| AppState.App.LoadMoreEffect | src/App.jsx:350-354 | The superset loader runs only when regions are loaded and the superset is still empty. Otherwise the superset is unchanged. |
| AppState.App.ResearchEffect | src/App.jsx:357-362 | With an active query and a loaded superset, searches the superset plus the region list again. Otherwise the results are untouched. |
| AppState.App.ShowAddForm | src/App.jsx:426 | From browse to the add form. |
| AppState.App.ShowDeleteScreen | src/App.jsx:427 | From browse to the delete screen. |
| AppState.App.Back | src/App.jsx:374 | From the add form or the delete screen back to browse (the delete screen's own back button is at line 400). |
| Search.SearchMembers | src/App.jsx:125-144 | A destination is a result iff it is in the pool, is the first entry with its id, and its name contains the query ignoring case. The results are an in-order subsequence of the pool. |
| Search.SearchDistinct | src/App.jsx:135-137 | No id appears twice in the results, even when the pool repeats ids. |
| Search.DedupMembers | src/App.jsx:135-137 | Deduplication keeps exactly the first occurrence of each id. |
| Search.DedupKeepsEveryId | src/App.jsx:135-137 | Every id of the pool survives deduplication. |
| Search.DedupIdentityIffDistinct | src/App.jsx:135-137 | Deduplication is the identity iff the ids are already distinct. |
| Search.FoundByOwnName | src/App.jsx:142-144 | A first-with-its-id entry is always found by its own name, typed in any ASCII case. |
| Search.NameFilter | src/App.jsx:365-367 | The browse screen's list: the in-order subsequence of the region list whose names contain the query ignoring case, and all such entries. |
| Search.EmptyTermKeepsAll | src/App.jsx:365-367 | With an empty query the browse screen shows the whole region list. |
| Search.StaleResearchShowsDeleted | src/App.jsx:235-238 | As written, the delayed re-search sees the region list captured before the delete. A deleted, name-matching destination of the selected region is then a result, although the fresh superset no longer holds it. |
| Search.ResearchOmitsAbsentId | src/App.jsx:235-238 | Searching data that no longer holds an id never returns that id. |
| Entities.RegionsForProvince | src/App.jsx:252-256 | No province gives no regions. Otherwise the result is the in-order subsequence of exactly the regions whose province id equals the parsed selection. |
| Entities.ProvinceSelectionRoundTrip | src/App.jsx:252-256 | Selecting a province by its decimal id yields exactly the regions with that province id. |
| Strings.TrimEmptyIffBlank | src/App.jsx:116 | `trim()` is empty iff every character is ECMAScript white space. |
| Strings.ContainsIffOccurs | src/App.jsx:143 | `includes` holds iff the needle occurs at some position of the haystack. |
| Decimal.ParseInt | src/App.jsx:254 | `parseInt` of the empty string is NaN (`None`). |
| Decimal.ParseIntToString | src/App.jsx:292-293 | An id written with `toString()` parses back to itself, so a selection made by id compares equal to it. |
| Form.ApplyChange | src/components/TourismForm.jsx:97-113 | The changed field holds the new value. A province change also empties the region. Every other field is unchanged. |
| Form.TourismForm.HandleChange | src/components/TourismForm.jsx:97-113 | The form becomes `ApplyChange` of the old form. |
| Form.InitialForm | src/components/TourismForm.jsx:19-26 | Without initial data every field is `''`. With it, the text fields are copied. A region id of 0 gives `''`, and any other id is kept as text that parses back to it. |
| Form.TourismForm.constructor | src/components/TourismForm.jsx:15-26 | Empty lists, and the form is `InitialForm` of the initial data. |
| Form.SubmitPayload | src/components/TourismForm.jsx:115-128 | The payload drops the province, parses the region (NaN for `''`) and copies name, address, rating and map link verbatim. |
| Form.ChosenRegionSubmitted | src/components/TourismForm.jsx:119-120 | Choosing a region by its id text submits exactly that id. |
| Form.ProvinceChangeVoidsRegion | src/components/TourismForm.jsx:101-106 | A province change after choosing a region submits no region (NaN), and the name is kept. |
| Form.EditResubmitRoundTrip | src/components/TourismForm.jsx:19-26 | An untouched edit form submits the record's own region id and fields. |
| Form.TourismForm.FetchProvinces | src/components/TourismForm.jsx:29-44 | Success replaces the provinces. A failure is swallowed. |
| Form.TourismForm.FetchRegions | src/components/TourismForm.jsx:47-62 | Success replaces the regions. A failure is swallowed. |
| Form.TourismForm.FilterRegionsEffect | src/components/TourismForm.jsx:65-74 | The form's region list is `RegionsForProvince` of the form's province (none when unset). |
| Form.TourismForm.EditModeEffect | src/components/TourismForm.jsx:83-95 | When editing, with the record's region loaded, the province becomes exactly that region's province id as decimal text, which parses back to it, and nothing else changes. Otherwise the form is untouched. |
| Form.TourismForm.SelectedProvinceName | src/components/TourismForm.jsx:130-135 | The name of the first province whose id is the parsed selection, or `''` when none matches. |
| Form.TourismForm.SelectedRegionName | src/components/TourismForm.jsx:137-140 | The name of the first region whose id is the parsed selection, or `''` when none matches. |
| Dropdown.FilterOptions | src/components/SearchableDropdown.jsx:18-20 | The in-order subsequence of exactly the options whose label contains the typed text, ignoring case. Nothing typed gives every option. |
| Dropdown.SelectedOption | src/components/SearchableDropdown.jsx:23-25 | Some option iff one has the parsed value as its id, and then the first such option. |
| Dropdown.DisplayText | src/components/SearchableDropdown.jsx:26 | The selected option's label. `''` for an empty value or when no option's id matches. |
| Dropdown.SelectRoundTrip | src/components/SearchableDropdown.jsx:23-26 | The id text emitted by selecting an option selects an option with the same id. With distinct ids it displays that option's own label. |
| Dropdown.SearchableDropdown.constructor | src/components/SearchableDropdown.jsx:13-14 | Closed, nothing typed. |
| Dropdown.SearchableDropdown.Listed | src/components/SearchableDropdown.jsx:18-20 | Exactly the options whose label contains the typed text (ignoring case) are listed, in their order; every option when nothing is typed. |
| Dropdown.SearchableDropdown.HandleSelect | src/components/SearchableDropdown.jsx:41-45 | Emits exactly the option's id as decimal text (`toString()`), which parses back to that id, then closes and forgets the typed text. |
| Dropdown.SearchableDropdown.HandleClear | src/components/SearchableDropdown.jsx:47-51 | Emits `''` and forgets the typed text. The open state is kept. |
| Dropdown.SearchableDropdown.HeaderClick | src/components/SearchableDropdown.jsx:67 | Toggles the list unless disabled. When disabled, nothing changes. |
| Dropdown.SearchableDropdown.MouseDown | src/components/SearchableDropdown.jsx:30-35 | A press outside closes the list and forgets the typed text. A press inside changes nothing. |
| Dropdown.SearchableDropdown.SearchInput | src/components/SearchableDropdown.jsx:108 | The typed text is stored. |
| Grid.RegionName | src/components/TourismGrid.jsx:12-15 | The name of the first region with the id, or `"Unknown"` when none has it. |
| Grid.ProvinceName | src/components/TourismGrid.jsx:17-20 | The name of the first province with the id, or `"Unknown"` when none has it. |
| Grid.CardFor | src/components/TourismGrid.jsx:25-38 | The card carries the place and passes the delete-mode and loading flags through. Its region name is `RegionName`. When the region is found, its province name is `ProvinceName` of that region's province id. A place whose region is missing shows `"Unknown"` for both names. |
| Grid.Cards | src/components/TourismGrid.jsx:24-39 | Exactly one card per destination, in the same order. |
| Grid.CardShowsItsRegionAndProvince | src/components/TourismGrid.jsx:24-27 | With unique ids, a destination whose region and that region's province are loaded shows exactly their names. |

## Left out

- The HTTP transport is not modelled: URLs, headers, the bearer token, environment configuration and JSON decoding. Each request is reduced to its `Response` outcome, passed in by the caller.
- Timing is not modelled: the 200 ms delay before the re-search, React's render batching and the order in which concurrent requests complete. Effects run when the caller invokes them, after the handler that triggers them.
- A region load still in flight when the province changes can land after the list was cleared. That race is not modelled in general.
- AppState.App.ClickSearchResult: assumes the clicked region's load, started in the click's commit, completes after the next render's clear of the list. A load that completes before that render would leave the list empty.
- `window.confirm` is a `bool` parameter, and the document `mousedown` listener is the `MouseDown(inside)` method.
- Form.ApplyChange: the rating is stored as typed. `parseFloat(value) || value` at src/components/TourismForm.jsx:110 is not applied, because floating point is out of scope.
- Form.SubmitPayload: the rating is submitted as text. `parseFloat` at src/components/TourismForm.jsx:123 is not applied, for the same reason.
- `toLowerCase` is ASCII only and `trim` uses the ECMAScript white-space set. Unicode case mapping is not modelled.
- Decimal.ParseInt reads decimal digits only. The `0x` prefix and precision loss beyond 2^53 are not modelled.
- Form.InitialForm: the initial region id is a number. It is stored as its decimal text, which `Decimal.ParseIntToString` shows is equivalent for every use the form makes of it (parsing). Numeric `id_provinsi` initial values are taken as text.
- The dropdown works on options reduced to id and label. `searchKey` selects the label, which is fixed when the options are built.
- The grid's `onDelete` callback is passed to every card untouched and is not modelled.
- Rendering is not modelled: the browse and delete screens, the navigation bar, the cards (including star rounding of the rating), and the search-and-filter panel with its five-item preview.
- Debug logging is not modelled.

## Findings

| source | as written | input that shows it | evidently intended | confidence | as-written member | corrected member |
|---|---|---|---|---|---|---|
| src/App.jsx:235-238 (also 191-193) | The delayed re-search after a delete runs in the closure of the render that started the delete. It searches the fresh superset followed by the region list from BEFORE the delete. | A region is selected, the query is "pantai", and "Pantai Kuta" (id 7) of that region is deleted. The fresh superset lacks id 7, but the stale region list still holds it, so it is the first entry with id 7 and is shown as a result. | The re-search uses fresh data only, so a deleted destination never reappears among the results. | medium, not executed | Search.StaleResearchShowsDeleted | AppState.App.DeleteTourismDestination (with Search.ResearchOmitsAbsentId) |
