/**
 * The root component's session state and its transitions: the region filter
 * chain, the region-scoped loader, the best-effort superset loader, the search,
 * the create/delete choreography and the screen switch. Every `fetch` is a
 * parameter holding how that request ended; every effect is a method that the
 * caller runs after the handler whose state change triggers it.
 */
module AppState {
  import opened Wrappers
  import opened Strings
  import opened Decimal
  import opened Seqs
  import opened Entities
  import opened Search

  /** The screen shown: browse (`"main"`), the add form (`"add"`) or the delete screen (`"delete"`). */
  datatype View = Main | Add | Delete

  const FetchTourismFailed := "Terjadi kesalahan saat mengambil data."
  const FetchTourismThrew := "Gagal mengambil data wisata: "
  const FetchRegionsFailed := "Gagal mengambil data daerah."
  const FetchRegionsThrew := "Gagal mengambil data daerah: "
  const CreateFailed := "Gagal menambahkan destinasi wisata."
  const CreateThrew := "Gagal menambahkan destinasi wisata: "
  const DeleteFailed := "Gagal menghapus destinasi wisata."
  const DeleteThrew := "Gagal menghapus destinasi wisata: "

  /** How many regions the fallback of the superset loader asks one by one (`regions.slice(0, 10)`). */
  const FallbackRegionLimit := 10

  /** The regions the fallback asks, in order. */
  function FallbackTargets(regions: seq<Region>): (targets: seq<Region>)
    ensures |targets| <= FallbackRegionLimit
    ensures targets <= regions
    ensures |regions| >= FallbackRegionLimit ==> |targets| == FallbackRegionLimit
    ensures |regions| < FallbackRegionLimit ==> targets == regions
  {
    if |regions| <= FallbackRegionLimit then regions else regions[..FallbackRegionLimit]
  }

  /** The region-scoped list `fetchTourismData` leaves behind. */
  function LoadedTourism(response: Response<seq<Destination>>, previous: seq<Destination>): (loaded: seq<Destination>)
  {
    match response
    case Ok(data) => data
    case HttpError(_) => []
    case Thrown(_) => previous
  }

  /** The error `fetchTourismData` leaves behind (it sets one on every path). */
  function LoadError(response: Response<seq<Destination>>): (err: Option<string>)
  {
    match response
    case Ok(_) => None
    case HttpError(m) => Some(MessageOr(m, FetchTourismFailed))
    case Thrown(reason) => Some(FetchTourismThrew + reason)
  }

  /** What `fetchAllTourismData` returns: the body on success, `[]` otherwise. */
  function BulkData(response: Response<seq<Destination>>): (data: seq<Destination>)
  {
    if response.Ok? then response.data else []
  }

  /** The bodies of the successful region requests of the fallback, concatenated in region order. */
  function Gathered(targets: seq<Region>, fetchRegion: int -> Response<seq<Destination>>): (places: seq<Destination>)
  {
    if targets == [] then []
    else
      var last := fetchRegion(targets[|targets| - 1].id);
      Gathered(targets[..|targets| - 1], fetchRegion) + (if last.Ok? then last.data else [])
  }

  /**
   * The fallback keeps every destination of every successful region request and
   * nothing else; failed requests are skipped, and duplicates are not removed here.
   */
  lemma {:induction false} GatheredMembers(targets: seq<Region>, fetchRegion: int -> Response<seq<Destination>>)
    ensures forall x :: x in Gathered(targets, fetchRegion) <==>
      exists i :: 0 <= i < |targets| && fetchRegion(targets[i].id).Ok? && x in fetchRegion(targets[i].id).data
  {
    if targets != [] {
      var init := targets[..|targets| - 1];
      GatheredMembers(init, fetchRegion);
      forall x ensures x in Gathered(targets, fetchRegion) <==>
        exists i :: 0 <= i < |targets| && fetchRegion(targets[i].id).Ok? && x in fetchRegion(targets[i].id).data
      {
        if x in Gathered(init, fetchRegion) {
          var i :| 0 <= i < |init| && fetchRegion(init[i].id).Ok? && x in fetchRegion(init[i].id).data;
          assert targets[i] == init[i];
        }
        if i :| 0 <= i < |targets| && fetchRegion(targets[i].id).Ok? && x in fetchRegion(targets[i].id).data {
          if i < |init| {
            assert init[i] == targets[i];
          }
        }
      }
    }
  }

  /**
   * The fallback loop of `loadMoreDataForSearch`: one request per region, pushing
   * the body of each successful one; a failed request is skipped.
   */
  method CollectRegionData(targets: seq<Region>, fetchRegion: int -> Response<seq<Destination>>)
    returns (places: seq<Destination>)
    ensures places == Gathered(targets, fetchRegion)
  {
    places := [];
    var i := 0;
    while i < |targets|
      invariant 0 <= i <= |targets|
      invariant places == Gathered(targets[..i], fetchRegion)
    {
      var response := fetchRegion(targets[i].id);
      if response.Ok? {
        places := places + response.data;
      }
      i := i + 1;
      assert targets[..i][..i - 1] == targets[..i - 1];
    }
    assert targets[..|targets|] == targets;
  }

  class App {
    var searchTerm: string
    var selectedProvinsi: string
    var selectedDaerah: string
    var provinces: seq<Province>
    var regions: seq<Region>
    var filteredRegions: seq<Region>
    var tourismData: seq<Destination>
    var allTourismData: seq<Destination>
    var error: Option<string>
    var currentView: View
    var loading: bool
    var searchResults: seq<Destination>
    var showSearchResults: bool

    /** The shown search results never hold an id twice. */
    ghost predicate Valid()
      reads this`searchResults
    {
      DistinctIds(searchResults)
    }

    /** The initial `useState` values. */
    constructor ()
      ensures Valid()
      ensures searchTerm == "" && selectedProvinsi == "" && selectedDaerah == ""
      ensures provinces == [] && regions == [] && filteredRegions == []
      ensures tourismData == [] && allTourismData == [] && error == None
      ensures currentView == Main && !loading
      ensures searchResults == [] && !showSearchResults
    {
      searchTerm, selectedProvinsi, selectedDaerah := "", "", "";
      provinces, regions, filteredRegions := [], [], [];
      tourismData, allTourismData, error := [], [], None;
      currentView, loading := Main, false;
      searchResults, showSearchResults := [], false;
    }

    /** `fetchAllTourismData`: stores the superset on success and returns it; failures are swallowed. */
    method FetchAllTourismData(response: Response<seq<Destination>>) returns (data: seq<Destination>)
      modifies this`allTourismData
      ensures data == BulkData(response)
      ensures allTourismData == (if response.Ok? then response.data else old(allTourismData))
    {
      data := [];
      if response.Ok? {
        allTourismData := response.data;
        data := response.data;
      }
    }

    /** `fetchProvinces`: failures are swallowed. */
    method FetchProvinces(response: Response<seq<Province>>)
      modifies this`provinces
      ensures provinces == (if response.Ok? then response.data else old(provinces))
    {
      if response.Ok? {
        provinces := response.data;
      }
    }

    /** `fetchRegions`: a failure keeps the old list and reports an error. */
    method FetchRegions(response: Response<seq<Region>>)
      modifies this`regions, this`error
      ensures response.Ok? ==> regions == response.data && error == old(error)
      ensures response.HttpError? ==> regions == old(regions) && error == Some(FetchRegionsFailed)
      ensures response.Thrown? ==> regions == old(regions) && error == Some(FetchRegionsThrew + response.reason)
    {
      match response {
        case Ok(data) => regions := data;
        case HttpError(_) => error := Some(FetchRegionsFailed);
        case Thrown(reason) => error := Some(FetchRegionsThrew + reason);
      }
    }

    /** The mount effect: the three reference loads (they touch disjoint state, so their order is immaterial). */
    method Mount(provinceResponse: Response<seq<Province>>, regionResponse: Response<seq<Region>>,
                 bulkResponse: Response<seq<Destination>>)
      modifies this`provinces, this`regions, this`error, this`allTourismData
      ensures provinces == (if provinceResponse.Ok? then provinceResponse.data else old(provinces))
      ensures regions == (if regionResponse.Ok? then regionResponse.data else old(regions))
      ensures allTourismData == (if bulkResponse.Ok? then bulkResponse.data else old(allTourismData))
      ensures regionResponse.Ok? ==> error == old(error)
      ensures regionResponse.HttpError? ==> error == Some(FetchRegionsFailed)
      ensures regionResponse.Thrown? ==> error == Some(FetchRegionsThrew + regionResponse.reason)
    {
      FetchProvinces(provinceResponse);
      FetchRegions(regionResponse);
      var _ := FetchAllTourismData(bulkResponse);
    }

    /**
     * `fetchTourismData(selectedDaerah)`: success replaces the region list and clears
     * the error; an error status empties it and reports the server's message or the
     * default; an exception reports its message and keeps the list. Loading ends false.
     */
    method FetchTourismData(response: Response<seq<Destination>>)
      modifies this`loading, this`tourismData, this`error
      ensures !loading
      ensures tourismData == LoadedTourism(response, old(tourismData))
      ensures error == LoadError(response)
    {
      loading := true;
      match response {
        case Ok(data) =>
          tourismData := data;
          error := None;
        case HttpError(m) =>
          tourismData := [];
          error := Some(MessageOr(m, FetchTourismFailed));
        case Thrown(reason) =>
          error := Some(FetchTourismThrew + reason);
      }
      loading := false;
    }

    /**
     * `searchAllTourismData(term, dataToSearch)`: a blank query hides the results;
     * any other query shows the matches over `dataToSearch` (or else the superset)
     * followed by the region list, even when there are none.
     */
    method SearchAllTourismData(term: string, dataToSearch: Option<seq<Destination>>)
      returns (results: Option<seq<Destination>>)
      requires Valid()
      modifies this`searchResults, this`showSearchResults
      ensures Valid()
      ensures IsBlank(term) ==> results == None && searchResults == [] && !showSearchResults
      ensures !IsBlank(term) ==> results == Some(searchResults) && showSearchResults
      ensures !IsBlank(term) ==>
        searchResults == SearchMatches(term, SearchPool(dataToSearch, allTourismData, tourismData))
    {
      TrimEmptyIffBlank(term);
      if Trim(term) == [] {
        searchResults := [];
        showSearchResults := false;
        return None;
      }
      // appending an empty region list is a no-op, so the `length > 0` guard is implicit
      var pool := SearchPool(dataToSearch, allTourismData, tourismData);
      var matches := SearchMatches(term, pool);
      SearchDistinct(term, pool);
      searchResults := matches;
      showSearchResults := |matches| > 0 || |term| > 0;
      results := Some(matches);
    }

    /** `handleSearchChange`: store the query and search the loaded data. */
    method HandleSearchChange(value: string)
      requires Valid()
      modifies this`searchTerm, this`searchResults, this`showSearchResults
      ensures Valid() && searchTerm == value
      ensures showSearchResults == !IsBlank(value)
      ensures searchResults == if IsBlank(value) then [] else SearchMatches(value, allTourismData + tourismData)
    {
      searchTerm := value;
      var _ := SearchAllTourismData(value, None);
    }

    /**
     * `createTourismDestination`. On success: back to the browse screen, error
     * cleared, superset refetched, results cleared, the selected region reloaded,
     * and an active query searched again over the fresh superset. On failure only
     * the error changes. Loading ends false.
     */
    method CreateTourismDestination(created: Response<Destination>, bulkResponse: Response<seq<Destination>>,
                                    reload: Response<seq<Destination>>)
      requires Valid()
      modifies this`currentView, this`error, this`loading, this`allTourismData, this`tourismData,
               this`searchResults, this`showSearchResults
      ensures Valid() && !loading
      ensures created.Ok? ==> currentView == Main
      ensures created.Ok? ==> allTourismData == (if bulkResponse.Ok? then bulkResponse.data else old(allTourismData))
      ensures created.Ok? && selectedDaerah != "" ==>
        tourismData == LoadedTourism(reload, old(tourismData)) && error == LoadError(reload)
      ensures created.Ok? && selectedDaerah == "" ==> tourismData == old(tourismData) && error == None
      ensures created.Ok? ==> showSearchResults == !IsBlank(searchTerm)
      ensures created.Ok? ==>
        searchResults == if IsBlank(searchTerm) then [] else SearchMatches(searchTerm, BulkData(bulkResponse) + tourismData)
      ensures !created.Ok? ==>
        && currentView == old(currentView) && allTourismData == old(allTourismData)
        && tourismData == old(tourismData) && searchResults == old(searchResults)
        && showSearchResults == old(showSearchResults)
      ensures created.HttpError? ==> error == Some(MessageOr(created.serverMessage, CreateFailed))
      ensures created.Thrown? ==> error == Some(CreateThrew + created.reason)
    {
      loading := true;
      match created {
        case Ok(_) =>
          currentView := Main;
          error := None;
          var freshAll := FetchAllTourismData(bulkResponse);
          searchResults := [];
          showSearchResults := false;
          if selectedDaerah != "" {
            FetchTourismData(reload);
          }
          loading := false;
          if searchTerm != "" {
            var _ := SearchAllTourismData(searchTerm, Some(freshAll));
          }
        case HttpError(m) =>
          error := Some(MessageOr(m, CreateFailed));
          loading := false;
        case Thrown(reason) =>
          error := Some(CreateThrew + reason);
          loading := false;
      }
    }

    /**
     * `deleteTourismDestination(id)`. A declined confirmation returns before any
     * request and changes nothing. On success: superset refetched, error and results
     * cleared, the selected region reloaded, an active query searched again over the
     * fresh data; a destination no longer in that data is then not among the
     * results. On failure only the error changes. The screen never changes.
     */
    method DeleteTourismDestination(id: int, confirmed: bool, deleted: Response<()>,
                                    bulkResponse: Response<seq<Destination>>, reload: Response<seq<Destination>>)
      requires Valid()
      modifies this`error, this`loading, this`allTourismData, this`tourismData,
               this`searchResults, this`showSearchResults
      ensures Valid()
      ensures !confirmed ==> unchanged(this)
      ensures confirmed ==> !loading
      ensures confirmed && deleted.Ok? ==>
        allTourismData == (if bulkResponse.Ok? then bulkResponse.data else old(allTourismData))
      ensures confirmed && deleted.Ok? && selectedDaerah != "" ==>
        tourismData == LoadedTourism(reload, old(tourismData)) && error == LoadError(reload)
      ensures confirmed && deleted.Ok? && selectedDaerah == "" ==> tourismData == old(tourismData) && error == None
      ensures confirmed && deleted.Ok? ==> showSearchResults == !IsBlank(searchTerm)
      ensures confirmed && deleted.Ok? ==>
        searchResults == if IsBlank(searchTerm) then [] else SearchMatches(searchTerm, BulkData(bulkResponse) + tourismData)
      ensures confirmed && deleted.Ok? && (forall y <- BulkData(bulkResponse) + tourismData :: y.id != id) ==>
        forall x <- searchResults :: x.id != id
      ensures confirmed && !deleted.Ok? ==>
        && allTourismData == old(allTourismData) && tourismData == old(tourismData)
        && searchResults == old(searchResults) && showSearchResults == old(showSearchResults)
      ensures confirmed && deleted.HttpError? ==> error == Some(DeleteFailed)
      ensures confirmed && deleted.Thrown? ==> error == Some(DeleteThrew + deleted.reason)
    {
      if !confirmed {
        return;
      }
      loading := true;
      match deleted {
        case Ok(_) =>
          var freshAll := FetchAllTourismData(bulkResponse);
          error := None;
          searchResults := [];
          showSearchResults := false;
          if selectedDaerah != "" {
            FetchTourismData(reload);
          }
          loading := false;
          if searchTerm != "" {
            var _ := SearchAllTourismData(searchTerm, Some(freshAll));
          }
          if forall y <- freshAll + tourismData :: y.id != id {
            ResearchOmitsAbsentId(searchTerm, freshAll + tourismData, id);
          }
        case HttpError(_) =>
          error := Some(DeleteFailed);
          loading := false;
        case Thrown(reason) =>
          error := Some(DeleteThrew + reason);
          loading := false;
      }
    }

    /**
     * The effect on `[selectedProvinsi, regions]`: narrow the regions to the
     * selected province (none when unset) and always drop the selected region
     * and its destinations.
     */
    method ProvinceEffect()
      modifies this`filteredRegions, this`selectedDaerah, this`tourismData
      ensures filteredRegions == RegionsForProvince(regions, selectedProvinsi)
      ensures selectedDaerah == "" && tourismData == []
    {
      if selectedProvinsi != "" {
        filteredRegions := RegionsForProvince(regions, selectedProvinsi);
        selectedDaerah := "";
        tourismData := [];
      } else {
        filteredRegions := [];
        selectedDaerah := "";
        tourismData := [];
      }
    }

    /** The effect on `[selectedDaerah]`: load the selected region, or clear the list when none is selected. */
    method RegionEffect(response: Response<seq<Destination>>)
      modifies this`tourismData, this`loading, this`error
      ensures selectedDaerah != "" ==>
        !loading && tourismData == LoadedTourism(response, old(tourismData)) && error == LoadError(response)
      ensures selectedDaerah == "" ==> tourismData == [] && loading == old(loading) && error == old(error)
    {
      if selectedDaerah != "" {
        FetchTourismData(response);
      } else {
        tourismData := [];
      }
    }

    /**
     * The province dropdown's `onChange` (`setSelectedProvinsi`) followed by the
     * province effect, which runs when the value actually changed: a new province
     * always clears the selected region and its destinations.
     */
    method ChangeProvince(value: string)
      modifies this`selectedProvinsi, this`filteredRegions, this`selectedDaerah, this`tourismData
      ensures selectedProvinsi == value
      ensures value != old(selectedProvinsi) ==>
        filteredRegions == RegionsForProvince(regions, value) && selectedDaerah == "" && tourismData == []
      ensures value == old(selectedProvinsi) ==>
        filteredRegions == old(filteredRegions) && selectedDaerah == old(selectedDaerah)
        && tourismData == old(tourismData)
    {
      var previous := selectedProvinsi;
      selectedProvinsi := value;
      if value != previous {
        ProvinceEffect();
      }
    }

    /**
     * The region dropdown's `onChange` (`setSelectedDaerah`) followed by the region
     * effect, which runs when the value actually changed.
     */
    method ChangeRegion(value: string, response: Response<seq<Destination>>)
      modifies this`selectedDaerah, this`tourismData, this`loading, this`error
      ensures selectedDaerah == value
      ensures value != old(selectedDaerah) && value != "" ==>
        !loading && tourismData == LoadedTourism(response, old(tourismData)) && error == LoadError(response)
      ensures value != old(selectedDaerah) && value == "" ==>
        tourismData == [] && loading == old(loading) && error == old(error)
      ensures value == old(selectedDaerah) ==>
        tourismData == old(tourismData) && loading == old(loading) && error == old(error)
    {
      var previous := selectedDaerah;
      selectedDaerah := value;
      if value != previous {
        RegionEffect(response);
      }
    }

    /**
     * `handleSearchResultClick(place, region, province)`: with both the region and
     * the province known, select them (as their decimal ids); always hide the results.
     */
    method HandleSearchResultClick(region: Option<Region>, province: Option<Province>)
      modifies this`selectedProvinsi, this`selectedDaerah, this`showSearchResults
      ensures !showSearchResults
      ensures region.Some? && province.Some? ==>
        selectedProvinsi == IntToString(province.value.id) && selectedDaerah == IntToString(region.value.id)
      ensures region.None? || province.None? ==>
        selectedProvinsi == old(selectedProvinsi) && selectedDaerah == old(selectedDaerah)
    {
      if region.Some? && province.Some? {
        selectedProvinsi := IntToString(province.value.id);
        selectedDaerah := IntToString(region.value.id);
      }
      showSearchResults := false;
    }

    /**
     * A click on a search result followed by the effects of the commit it causes.
     * Within the current province, a newly selected region is loaded by the region
     * effect. From another province, the province effect clears the region just
     * selected, but the region effect of the same commit has already started the
     * clicked region's load; that load lands after the clear, so the list ends as
     * the clicked region's list while no region is selected.
     */
    method ClickSearchResult(region: Option<Region>, province: Option<Province>,
                             response: Response<seq<Destination>>)
      modifies this`selectedProvinsi, this`selectedDaerah, this`showSearchResults,
               this`filteredRegions, this`tourismData, this`loading, this`error
      ensures !showSearchResults
      ensures region.None? || province.None? ==>
        && selectedProvinsi == old(selectedProvinsi) && selectedDaerah == old(selectedDaerah)
        && filteredRegions == old(filteredRegions) && tourismData == old(tourismData)
        && loading == old(loading) && error == old(error)
      ensures region.Some? && province.Some? && IntToString(province.value.id) != old(selectedProvinsi) ==>
        && selectedProvinsi == IntToString(province.value.id)
        && filteredRegions == RegionsForProvince(regions, selectedProvinsi)
        && selectedDaerah == ""
      ensures region.Some? && province.Some? && IntToString(province.value.id) != old(selectedProvinsi)
              && IntToString(region.value.id) != old(selectedDaerah) ==>
        tourismData == LoadedTourism(response, []) && error == LoadError(response) && !loading
      ensures region.Some? && province.Some? && IntToString(province.value.id) != old(selectedProvinsi)
              && IntToString(region.value.id) == old(selectedDaerah) ==>
        tourismData == [] && error == old(error) && loading == old(loading)
      ensures region.Some? && province.Some? && IntToString(province.value.id) == old(selectedProvinsi) ==>
        && selectedProvinsi == old(selectedProvinsi) && selectedDaerah == IntToString(region.value.id)
        && filteredRegions == old(filteredRegions)
      ensures region.Some? && province.Some? && IntToString(province.value.id) == old(selectedProvinsi)
              && IntToString(region.value.id) != old(selectedDaerah) ==>
        && tourismData == LoadedTourism(response, old(tourismData)) && error == LoadError(response) && !loading
      ensures region.Some? && province.Some? && IntToString(province.value.id) == old(selectedProvinsi)
              && IntToString(region.value.id) == old(selectedDaerah) ==>
        tourismData == old(tourismData) && error == old(error) && loading == old(loading)
    {
      var previousProvince, previousRegion := selectedProvinsi, selectedDaerah;
      HandleSearchResultClick(region, province);
      var regionChanged := selectedDaerah != previousRegion;
      if selectedProvinsi != previousProvince {
        ProvinceEffect();
        if regionChanged {
          FetchTourismData(response);
        }
      } else if regionChanged {
        RegionEffect(response);
      }
    }

    /** `handleClearFilters`: no query, no province, no region, no results. */
    method HandleClearFilters()
      modifies this`searchTerm, this`selectedProvinsi, this`selectedDaerah,
               this`showSearchResults, this`searchResults
      ensures Valid()
      ensures searchTerm == "" && selectedProvinsi == "" && selectedDaerah == ""
      ensures searchResults == [] && !showSearchResults
    {
      searchTerm := "";
      selectedProvinsi := "";
      selectedDaerah := "";
      showSearchResults := false;
      searchResults := [];
    }

    /**
     * `loadMoreDataForSearch`: a non-empty bulk result is kept as the superset;
     * otherwise the first ten regions are asked one by one and the concatenation
     * of what they return, when non-empty, becomes the superset. A successful but
     * empty bulk result has already emptied the superset.
     */
    method LoadMoreDataForSearch(bulkResponse: Response<seq<Destination>>,
                                 fetchRegion: int -> Response<seq<Destination>>)
      modifies this`allTourismData
      ensures |BulkData(bulkResponse)| > 0 ==> allTourismData == bulkResponse.data
      ensures |BulkData(bulkResponse)| == 0 ==>
        var gathered := Gathered(FallbackTargets(regions), fetchRegion);
        allTourismData == if |gathered| > 0 then gathered else if bulkResponse.Ok? then [] else old(allTourismData)
    {
      var allData := FetchAllTourismData(bulkResponse);
      if |allData| > 0 {
        return;
      }
      var places := CollectRegionData(FallbackTargets(regions), fetchRegion);
      if |places| > 0 {
        allTourismData := places;
      }
    }

    /** The effect on `[regions]` that starts the superset loader while the superset is still empty. */
    method LoadMoreEffect(bulkResponse: Response<seq<Destination>>, fetchRegion: int -> Response<seq<Destination>>)
      modifies this`allTourismData
      ensures |regions| == 0 || |old(allTourismData)| > 0 ==> allTourismData == old(allTourismData)
      ensures |regions| > 0 && old(allTourismData) == [] && |BulkData(bulkResponse)| > 0 ==>
        allTourismData == bulkResponse.data
      ensures |regions| > 0 && old(allTourismData) == [] && |BulkData(bulkResponse)| == 0 ==>
        allTourismData == Gathered(FallbackTargets(regions), fetchRegion)
    {
      if |regions| > 0 && |allTourismData| == 0 {
        LoadMoreDataForSearch(bulkResponse, fetchRegion);
      }
    }

    /** The effect on `[allTourismData, regions, provinces]`: search again while a query is active and the superset is loaded. */
    method ResearchEffect()
      requires Valid()
      modifies this`searchResults, this`showSearchResults
      ensures Valid()
      ensures searchTerm == "" || allTourismData == [] ==>
        searchResults == old(searchResults) && showSearchResults == old(showSearchResults)
      ensures searchTerm != "" && allTourismData != [] ==>
        && showSearchResults == !IsBlank(searchTerm)
        && searchResults == if IsBlank(searchTerm) then [] else SearchMatches(searchTerm, allTourismData + tourismData)
    {
      if searchTerm != "" && |allTourismData| > 0 {
        var _ := SearchAllTourismData(searchTerm, None);
      }
    }

    /** The browse screen's add button (`onAddTourism`). */
    method ShowAddForm()
      requires currentView == Main
      modifies this`currentView
      ensures currentView == Add
    {
      currentView := Add;
    }

    /** The browse screen's delete button (`onDeleteTourism`). */
    method ShowDeleteScreen()
      requires currentView == Main
      modifies this`currentView
      ensures currentView == Delete
    {
      currentView := Delete;
    }

    /** The back button of the add form and of the delete screen (`onBack`). */
    method Back()
      requires currentView == Add || currentView == Delete
      modifies this`currentView
      ensures currentView == Main
    {
      currentView := Main;
    }
  }
}
