/**
 * The filtered residential search: the request body the script posts on each
 * probe, the summaries the search answers with, and the membership signal
 * "is the target listing among the returned IDs" that drives both bound
 * searches. The search endpoint itself is a parameter `search`.
 */
module SearchQuery {
  import opened Wrappers
  import opened Listing

  /** The page size every probe asks for. */
  const PageSize: int := 100

  /** The only listing type searched. */
  const SaleListing: string := "Sale"

  datatype Location = Location(
    state: string,
    region: string,
    area: string,
    suburb: string,
    postCode: string,
    includeSurroundingSuburbs: bool)

  /**
   * The search request body. A price key the request does not carry is `None`;
   * every probe carries exactly one of `maxPrice` and `minPrice`.
   */
  datatype SearchFilter = SearchFilter(
    listingType: string,
    maxPrice: Option<int>,
    minPrice: Option<int>,
    pageSize: int,
    propertyTypes: seq<string>,
    minBedrooms: int,
    maxBedrooms: int,
    minBathrooms: int,
    maxBathrooms: int,
    locations: seq<Location>)

  /** One entry of a search response: the listing summary and its identifier. */
  datatype ListingSummary = ListingSummary(id: int)
  datatype SearchHit = SearchHit(listing: ListingSummary)

  /** The search endpoint: the listings one page of results holds for a request. */
  type SearchApi = SearchFilter -> seq<SearchHit>

  /**
   * Every field of a probe except its price bound: a sale in exactly the
   * listing's suburb and postcode, with exactly its bedroom and bathroom
   * counts and its property types, one page of 100.
   */
  predicate NarrowsTo(f: SearchFilter, info: ListingInfo)
  {
    && f.listingType == SaleListing
    && f.pageSize == PageSize
    && f.propertyTypes == info.propertyTypes
    && f.minBedrooms == info.bedrooms && f.maxBedrooms == info.bedrooms
    && f.minBathrooms == info.bathrooms && f.maxBathrooms == info.bathrooms
    && |f.locations| == 1
    && f.locations[0].suburb == info.suburb
    && f.locations[0].postCode == info.postcode
    && !f.locations[0].includeSurroundingSuburbs
    && f.locations[0].state == "" && f.locations[0].region == "" && f.locations[0].area == ""
  }

  /** The request of one lower-bound probe: listings priced at most `price`. */
  function MaxPriceFilter(info: ListingInfo, price: int): (f: SearchFilter)
    ensures NarrowsTo(f, info)
    ensures f.maxPrice == Some(price) && f.minPrice == None
  {
    SearchFilter(
      SaleListing, Some(price), None, PageSize, info.propertyTypes,
      info.bedrooms, info.bedrooms, info.bathrooms, info.bathrooms,
      [Location("", "", "", info.suburb, info.postcode, false)])
  }

  /** The request of one upper-bound probe: the lower-bound request with the price key swapped. */
  function MinPriceFilter(info: ListingInfo, price: int): (f: SearchFilter)
    ensures NarrowsTo(f, info)
    ensures f.minPrice == Some(price) && f.maxPrice == None
    ensures f == MaxPriceFilter(info, price).(maxPrice := None, minPrice := Some(price))
  {
    SearchFilter(
      SaleListing, None, Some(price), PageSize, info.propertyTypes,
      info.bedrooms, info.bedrooms, info.bathrooms, info.bathrooms,
      [Location("", "", "", info.suburb, info.postcode, false)])
  }

  /** The identifiers of a response, in response order. */
  function ListingIds(response: seq<SearchHit>): (ids: seq<int>)
    ensures |ids| == |response|
    ensures forall i :: 0 <= i < |response| ==> ids[i] == response[i].listing.id
  {
    if response == [] then []
    else ListingIds(response[..|response| - 1]) + [response[|response| - 1].listing.id]
  }

  /** The loop that collects the identifiers of a response by appending. */
  method ExtractIds(response: seq<SearchHit>) returns (listings: seq<int>)
    ensures listings == ListingIds(response)
  {
    listings := [];
    var i := 0;
    while i < |response|
      invariant 0 <= i <= |response|
      invariant listings == ListingIds(response[..i])
    {
      assert response[..i + 1][..i] == response[..i];
      listings := listings + [response[i].listing.id];
      i := i + 1;
    }
    assert response[..i] == response;
  }

  /** Is the target listed when the search asks for prices at most `price`? */
  function MaxPriceOracle(search: SearchApi, info: ListingInfo, propertyId: int): int -> bool
  {
    price => propertyId in ListingIds(search(MaxPriceFilter(info, price)))
  }

  /** Is the target listed when the search asks for prices at least `price`? */
  function MinPriceOracle(search: SearchApi, info: ListingInfo, propertyId: int): int -> bool
  {
    price => propertyId in ListingIds(search(MinPriceFilter(info, price)))
  }
}
