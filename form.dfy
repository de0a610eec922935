/**
 * The add/edit form: its record of text fields, the change handler that resets
 * the region when the province changes, the submitted payload, the form's own
 * province-to-region filter, the edit-mode province back-fill and the name
 * lookups that fall back to the empty string.
 */
module Form {
  import opened Wrappers
  import opened Decimal
  import opened Entities

  /** The named inputs of the form. */
  datatype Field = IdProvinsi | IdDaerah | Nama | Alamat | Rating | LinkGmaps

  /** `formData`: every field as the text its input holds. */
  datatype FormData = FormData(idProvinsi: string, idDaerah: string, nama: string, alamat: string,
                               rating: string, linkGmaps: string)

  /** The value of one named field. */
  function Get(f: FormData, field: Field): (value: string) {
    match field
    case IdProvinsi => f.idProvinsi
    case IdDaerah => f.idDaerah
    case Nama => f.nama
    case Alamat => f.alamat
    case Rating => f.rating
    case LinkGmaps => f.linkGmaps
  }

  /**
   * The record update of `handleChange`: a new province stores the value and
   * empties the region; any other field stores the value and nothing else changes.
   */
  function ApplyChange(f: FormData, field: Field, value: string): (g: FormData)
    ensures Get(g, field) == value
    ensures field == IdProvinsi ==> g.idDaerah == ""
    ensures forall other: Field :: other != field && !(field == IdProvinsi && other == IdDaerah) ==>
      Get(g, other) == Get(f, other)
  {
    match field
    case IdProvinsi => f.(idProvinsi := value, idDaerah := "")
    case IdDaerah => f.(idDaerah := value)
    case Nama => f.(nama := value)
    case Alamat => f.(alamat := value)
    case Rating => f.(rating := value)
    case LinkGmaps => f.(linkGmaps := value)
  }

  /** The record a form is opened with when editing: the region is a numeric id. */
  datatype InitialData = InitialData(idProvinsi: string, idDaerah: int, nama: string, alamat: string,
                                     rating: string, linkGmaps: string)

  /**
   * The initial `formData`: each field from the initial record when there is one,
   * `''` otherwise. A region id of 0 is falsy and gives `''`; any other id is kept
   * as its decimal text, which parses back to the same id.
   */
  function InitialForm(initial: Option<InitialData>): (f: FormData)
    ensures initial.None? ==> f == FormData("", "", "", "", "", "")
    ensures initial.Some? ==>
      && f.idProvinsi == initial.value.idProvinsi && f.nama == initial.value.nama
      && f.alamat == initial.value.alamat && f.rating == initial.value.rating
      && f.linkGmaps == initial.value.linkGmaps
    ensures initial.Some? && initial.value.idDaerah == 0 ==> f.idDaerah == ""
    ensures initial.Some? && initial.value.idDaerah != 0 ==> ParseInt(f.idDaerah) == Some(initial.value.idDaerah)
  {
    match initial
    case None => FormData("", "", "", "", "", "")
    case Some(d) =>
      var region := if d.idDaerah == 0 then "" else IntToString(d.idDaerah);
      ParseIntToString(d.idDaerah);
      FormData(d.idProvinsi, region, d.nama, d.alamat, d.rating, d.linkGmaps)
  }

  /** The object handed to `onSubmit`; `idDaerah` is `None` where `parseInt` gives NaN. */
  datatype Payload = Payload(idDaerah: Option<int>, nama: string, alamat: string, rating: string, linkGmaps: string)

  /**
   * `handleSubmit`'s payload: the province is dropped, the region is parsed and
   * the other fields are copied verbatim.
   */
  function SubmitPayload(f: FormData): (p: Payload)
    ensures p.idDaerah == ParseInt(f.idDaerah)
    ensures p.nama == f.nama && p.alamat == f.alamat && p.rating == f.rating && p.linkGmaps == f.linkGmaps
    ensures f.idDaerah == "" ==> p.idDaerah.None?
  {
    Payload(ParseInt(f.idDaerah), f.nama, f.alamat, f.rating, f.linkGmaps)
  }

  /** Choosing a region in the dropdown (which emits its id as text) submits exactly that region id. */
  lemma {:induction false} ChosenRegionSubmitted(f: FormData, r: Region)
    ensures SubmitPayload(ApplyChange(f, IdDaerah, IntToString(r.id))).idDaerah == Some(r.id)
  {
    ParseIntToString(r.id);
  }

  /** Changing the province after choosing a region leaves no region to submit until one is chosen again. */
  lemma {:induction false} ProvinceChangeVoidsRegion(f: FormData, value: string, r: Region)
    ensures SubmitPayload(ApplyChange(ApplyChange(f, IdDaerah, IntToString(r.id)), IdProvinsi, value)).idDaerah == None
    ensures SubmitPayload(ApplyChange(ApplyChange(f, IdDaerah, IntToString(r.id)), IdProvinsi, value)).nama == f.nama
  {
    var g := ApplyChange(f, IdDaerah, IntToString(r.id));
    assert Get(g, Nama) == Get(f, Nama);
    assert Get(ApplyChange(g, IdProvinsi, value), Nama) == Get(g, Nama);
  }

  /** Opening an edit form and submitting it untouched sends back the record's own region and fields. */
  lemma {:induction false} EditResubmitRoundTrip(d: InitialData)
    requires d.idDaerah != 0
    ensures SubmitPayload(InitialForm(Some(d))) == Payload(Some(d.idDaerah), d.nama, d.alamat, d.rating, d.linkGmaps)
  {
  }

  class TourismForm {
    const initialData: Option<InitialData>
    var provinces: seq<Province>
    var regions: seq<Region>
    var filteredRegions: seq<Region>
    var formData: FormData

    /** The initial `useState` values. */
    constructor (initialData: Option<InitialData>)
      ensures this.initialData == initialData
      ensures formData == InitialForm(initialData)
      ensures provinces == [] && regions == [] && filteredRegions == []
    {
      this.initialData := initialData;
      formData := InitialForm(initialData);
      provinces, regions, filteredRegions := [], [], [];
    }

    /** The form's `fetchProvinces`: failures are logged and swallowed. */
    method FetchProvinces(response: Response<seq<Province>>)
      modifies this`provinces
      ensures provinces == (if response.Ok? then response.data else old(provinces))
    {
      if response.Ok? {
        provinces := response.data;
      }
    }

    /** The form's `fetchRegions`: failures are logged and swallowed. */
    method FetchRegions(response: Response<seq<Region>>)
      modifies this`regions
      ensures regions == (if response.Ok? then response.data else old(regions))
    {
      if response.Ok? {
        regions := response.data;
      }
    }

    /** The effect on `[formData.id_provinsi, regions]`: the regions of the chosen province, none when unset. */
    method FilterRegionsEffect()
      modifies this`filteredRegions
      ensures filteredRegions == RegionsForProvince(regions, formData.idProvinsi)
    {
      if formData.idProvinsi != "" {
        filteredRegions := RegionsForProvince(regions, formData.idProvinsi);
      } else {
        filteredRegions := [];
      }
    }

    /**
     * The effect on `[initialData, regions]`: when editing and the record's region
     * is loaded, the province becomes that region's province (as text); nothing
     * else changes, and otherwise the form is untouched.
     */
    method EditModeEffect()
      modifies this`formData
      ensures initialData.Some? && |regions| > 0 && RegionIndex(regions, initialData.value.idDaerah) >= 0 ==>
        && formData.idProvinsi == IntToString(regions[RegionIndex(regions, initialData.value.idDaerah)].idProvinsi)
        && ParseInt(formData.idProvinsi) == Some(regions[RegionIndex(regions, initialData.value.idDaerah)].idProvinsi)
        && formData == old(formData).(idProvinsi := formData.idProvinsi)
      ensures initialData.None? || (forall j :: 0 <= j < |regions| ==> regions[j].id != initialData.value.idDaerah) ==>
        formData == old(formData)
    {
      if initialData.Some? && |regions| > 0 {
        var currentRegion := FindRegion(regions, initialData.value.idDaerah);
        if currentRegion.Some? {
          ParseIntToString(currentRegion.value.idProvinsi);
          formData := formData.(idProvinsi := IntToString(currentRegion.value.idProvinsi));
        }
      }
    }

    /** `handleChange` for one named input. */
    method HandleChange(field: Field, value: string)
      modifies this`formData
      ensures formData == ApplyChange(old(formData), field, value)
    {
      formData := ApplyChange(formData, field, value);
    }

    /** `getSelectedProvinceName`: the first province whose id is the parsed selection, or `''`. */
    function SelectedProvinceName(): (name: string)
      reads this`provinces, this`formData
      ensures || (exists i :: 0 <= i < |provinces| && ParseInt(formData.idProvinsi) == Some(provinces[i].id)
                   && name == provinces[i].namaProvinsi
                   && forall j :: 0 <= j < i ==> ParseInt(formData.idProvinsi) != Some(provinces[j].id))
              || (name == "" && forall j :: 0 <= j < |provinces| ==> ParseInt(formData.idProvinsi) != Some(provinces[j].id))
    {
      var selected := ParseInt(formData.idProvinsi);
      if selected.None? then ""
      else
        var p := FindProvince(provinces, selected.value);
        if p.Some? then p.value.namaProvinsi else ""
    }

    /** `getSelectedRegionName`: the first region whose id is the parsed selection, or `''`. */
    function SelectedRegionName(): (name: string)
      reads this`regions, this`formData
      ensures || (exists i :: 0 <= i < |regions| && ParseInt(formData.idDaerah) == Some(regions[i].id)
                   && name == regions[i].namaDaerah
                   && forall j :: 0 <= j < i ==> ParseInt(formData.idDaerah) != Some(regions[j].id))
              || (name == "" && forall j :: 0 <= j < |regions| ==> ParseInt(formData.idDaerah) != Some(regions[j].id))
    {
      var selected := ParseInt(formData.idDaerah);
      if selected.None? then ""
      else
        var r := FindRegion(regions, selected.value);
        if r.Some? then r.value.namaDaerah else ""
    }
  }
}
