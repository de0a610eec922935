/**
 * The destination grid: one card per destination, in order, each labelled with
 * its region's and its province's names, `"Unknown"` where a lookup fails.
 */
module Grid {
  import opened Wrappers
  import opened Entities

  const UnknownName := "Unknown"

  /** `getRegionName`: the first region with this id, or `"Unknown"`. */
  function RegionName(regions: seq<Region>, idDaerah: int): (name: string)
    ensures || (exists i :: && 0 <= i < |regions| && regions[i].id == idDaerah && name == regions[i].namaDaerah
                            && forall j :: 0 <= j < i ==> regions[j].id != idDaerah)
            || (name == UnknownName && forall j :: 0 <= j < |regions| ==> regions[j].id != idDaerah)
  {
    var region := FindRegion(regions, idDaerah);
    if region.Some? then region.value.namaDaerah else UnknownName
  }

  /** `getProvinceName`: the first province with this id, or `"Unknown"`. */
  function ProvinceName(provinces: seq<Province>, idProvinsi: int): (name: string)
    ensures || (exists i :: && 0 <= i < |provinces| && provinces[i].id == idProvinsi
                            && name == provinces[i].namaProvinsi
                            && forall j :: 0 <= j < i ==> provinces[j].id != idProvinsi)
            || (name == UnknownName && forall j :: 0 <= j < |provinces| ==> provinces[j].id != idProvinsi)
  {
    var province := FindProvince(provinces, idProvinsi);
    if province.Some? then province.value.namaProvinsi else UnknownName
  }

  /** The props of one `TourismCard` (the delete callback is passed through untouched and is not modelled). */
  datatype Card = Card(place: Destination, regionName: string, provinceName: string,
                       isDeleteMode: bool, loading: bool)

  /** The card of one destination: the province is looked up through the destination's region. */
  function CardFor(place: Destination, regions: seq<Region>, provinces: seq<Province>,
                   isDeleteMode: bool, loading: bool): (c: Card)
    ensures c.place == place && c.isDeleteMode == isDeleteMode && c.loading == loading
    ensures c.regionName == RegionName(regions, place.idDaerah)
    ensures (forall j :: 0 <= j < |regions| ==> regions[j].id != place.idDaerah) ==>
      c.regionName == UnknownName && c.provinceName == UnknownName
    ensures FindRegion(regions, place.idDaerah).Some? ==>
      c.provinceName == ProvinceName(provinces, FindRegion(regions, place.idDaerah).value.idProvinsi)
  {
    var region := FindRegion(regions, place.idDaerah);
    var provinceName := if region.Some? then ProvinceName(provinces, region.value.idProvinsi) else UnknownName;
    Card(place, RegionName(regions, place.idDaerah), provinceName, isDeleteMode, loading)
  }

  /** The grid: exactly one card per destination, in the same order. */
  function Cards(tourismData: seq<Destination>, regions: seq<Region>, provinces: seq<Province>,
                 isDeleteMode: bool, loading: bool): (cards: seq<Card>)
    ensures |cards| == |tourismData|
    ensures forall i :: 0 <= i < |cards| ==>
      cards[i] == CardFor(tourismData[i], regions, provinces, isDeleteMode, loading)
  {
    seq(|tourismData|, i requires 0 <= i < |tourismData| =>
      CardFor(tourismData[i], regions, provinces, isDeleteMode, loading))
  }

  /**
   * With unique region and province ids, a destination whose region and that
   * region's province are both loaded is shown with exactly their names.
   */
  lemma {:induction false} CardShowsItsRegionAndProvince(
    tourismData: seq<Destination>, regions: seq<Region>, provinces: seq<Province>,
    isDeleteMode: bool, loading: bool, k: nat, r: nat, p: nat)
    requires k < |tourismData| && r < |regions| && p < |provinces|
    requires forall i, j :: 0 <= i < j < |regions| ==> regions[i].id != regions[j].id
    requires forall i, j :: 0 <= i < j < |provinces| ==> provinces[i].id != provinces[j].id
    requires regions[r].id == tourismData[k].idDaerah && provinces[p].id == regions[r].idProvinsi
    ensures Cards(tourismData, regions, provinces, isDeleteMode, loading)[k].regionName == regions[r].namaDaerah
    ensures Cards(tourismData, regions, provinces, isDeleteMode, loading)[k].provinceName == provinces[p].namaProvinsi
  {
  }
}
