/**
 * The records the backend serves (provinsi, daerah, wisata), the outcome of one
 * request, and the reference-data lookups and region filter built on them.
 */
module Entities {
  import opened Wrappers
  import opened Decimal
  import opened Seqs

  /** A province (`provinsi`). */
  datatype Province = Province(id: int, namaProvinsi: string)

  /** A region (`daerah`) inside a province. */
  datatype Region = Region(id: int, idProvinsi: int, namaDaerah: string)

  /** A tourism destination (`wisata`) inside a region. */
  datatype Destination = Destination(
    id: int, idDaerah: int, nama: string, alamat: string, rating: real, linkGmaps: string)

  /**
   * How one `fetch` ended: a response with `response.ok` and its parsed body,
   * a response without `response.ok` (with the body's `message`, if any), or a
   * thrown exception (network failure or unparsable body) with its `message`.
   */
  datatype Response<T> = Ok(data: T) | HttpError(serverMessage: Option<string>) | Thrown(reason: string)

  /** `message || fallback`: the server's message unless it is missing or empty. */
  function MessageOr(message: Option<string>, fallback: string): (m: string)
    ensures message.Some? && message.value != "" ==> m == message.value
    ensures message.None? || message.value == "" ==> m == fallback
  {
    match message
    case Some(text) => if text != "" then text else fallback
    case None => fallback
  }

  /** `regions.findIndex((r) => r.id === id)` */
  function RegionIndex(regions: seq<Region>, id: int): (k: int)
    ensures -1 <= k < |regions|
    ensures k >= 0 ==> regions[k].id == id && forall j :: 0 <= j < k ==> regions[j].id != id
    ensures k < 0 ==> forall j :: 0 <= j < |regions| ==> regions[j].id != id
  {
    FindIndex(regions, (r: Region) => r.id == id)
  }

  /** `provinces.findIndex((p) => p.id === id)` */
  function ProvinceIndex(provinces: seq<Province>, id: int): (k: int)
    ensures -1 <= k < |provinces|
    ensures k >= 0 ==> provinces[k].id == id && forall j :: 0 <= j < k ==> provinces[j].id != id
    ensures k < 0 ==> forall j :: 0 <= j < |provinces| ==> provinces[j].id != id
  {
    FindIndex(provinces, (p: Province) => p.id == id)
  }

  /** `regions.find((r) => r.id === id)` */
  function FindRegion(regions: seq<Region>, id: int): (r: Option<Region>)
    ensures r.None? <==> forall j :: 0 <= j < |regions| ==> regions[j].id != id
    ensures r.Some? ==> r.value == regions[RegionIndex(regions, id)]
  {
    var k := RegionIndex(regions, id);
    if k < 0 then None else Some(regions[k])
  }

  /** `provinces.find((p) => p.id === id)` */
  function FindProvince(provinces: seq<Province>, id: int): (p: Option<Province>)
    ensures p.None? <==> forall j :: 0 <= j < |provinces| ==> provinces[j].id != id
    ensures p.Some? ==> p.value == provinces[ProvinceIndex(provinces, id)]
  {
    var k := ProvinceIndex(provinces, id);
    if k < 0 then None else Some(provinces[k])
  }

  /**
   * The region filter shared by the browse screen and the form: with a province
   * selected, `regions.filter((r) => r.id_provinsi === parseInt(selected))`;
   * with none (the empty string), nothing.
   */
  function RegionsForProvince(regions: seq<Region>, selected: string): (r: seq<Region>)
    ensures selected == "" ==> r == []
    ensures forall x <- r :: x in regions && ParseInt(selected) == Some(x.idProvinsi)
    ensures forall i :: 0 <= i < |regions| && ParseInt(selected) == Some(regions[i].idProvinsi) ==> regions[i] in r
    ensures IsSubsequence(r, regions)
  {
    if selected == "" then EmptyIsSubsequence(regions); []
    else
      var f := Filter(regions, (x: Region) => ParseInt(selected) == Some(x.idProvinsi));
      FilterIsSubsequence(regions, (x: Region) => ParseInt(selected) == Some(x.idProvinsi));
      f
  }

  /**
   * Selecting the province with id `p` (its value being `p.toString()`) narrows
   * the regions to exactly those whose `id_provinsi` is `p`, in their order.
   */
  lemma {:induction false} ProvinceSelectionRoundTrip(regions: seq<Region>, p: int)
    ensures RegionsForProvince(regions, IntToString(p)) == Filter(regions, (x: Region) => x.idProvinsi == p)
  {
    ParseIntToString(p);
    NatToStringDigits(if p < 0 then -p else p);
    FilterSameAs(regions, (x: Region) => ParseInt(IntToString(p)) == Some(x.idProvinsi),
                 (x: Region) => x.idProvinsi == p);
  }

  lemma {:induction false} FilterSameAs(regions: seq<Region>, p: Region -> bool, q: Region -> bool)
    requires forall x :: p(x) == q(x)
    ensures Filter(regions, p) == Filter(regions, q)
  {
    if regions != [] {
      FilterSameAs(regions[1..], p, q);
    }
  }
}
