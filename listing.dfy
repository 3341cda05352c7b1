/**
 * The listing record returned by the listing lookup, the details the script
 * keeps from it, and the two small helpers it applies to them: the `-1`
 * fallback for optional numeric fields and the concatenation of the
 * property-type tags into one display string.
 */
module Listing {
  import opened Wrappers

  /** The value a missing car-space count or land area falls back to. */
  const Sentinel: int := -1

  /** The fields of the listing record the script reads; optional ones may be missing. */
  datatype ListingRecord = ListingRecord(
    postcode: string,
    suburb: string,
    bedrooms: int,
    bathrooms: int,
    carspaces: Option<int>,
    propertyTypes: seq<string>,
    landAreaSqm: Option<real>)

  /** The listing details once extracted: every field present, missing ones replaced by the sentinel. */
  datatype ListingInfo = ListingInfo(
    postcode: string,
    suburb: string,
    bedrooms: int,
    bathrooms: int,
    carspaces: int,
    propertyTypes: seq<string>,
    landAreaSqm: real)

  /** A car-space count, or the sentinel when the record has none. */
  function CarspacesOrSentinel(field: Option<int>): (c: int)
    ensures c != Sentinel ==> field == Some(c)
    ensures c == Sentinel <==> field == None || field == Some(Sentinel)
  {
    match field
    case Some(v) => v
    case None => Sentinel
  }

  /** A land area in square metres, or the sentinel when the record has none. */
  function LandAreaOrSentinel(field: Option<real>): (a: real)
    ensures a != Sentinel as real ==> field == Some(a)
    ensures a == Sentinel as real <==> field == None || field == Some(Sentinel as real)
  {
    match field
    case Some(v) => v
    case None => Sentinel as real
  }

  /** Extracts the details of a listing record; only the two optional fields can be missing. */
  function ReadListing(r: ListingRecord): (info: ListingInfo)
    ensures info.postcode == r.postcode && info.suburb == r.suburb
    ensures info.bedrooms == r.bedrooms && info.bathrooms == r.bathrooms
    ensures info.propertyTypes == r.propertyTypes
    ensures r.carspaces.Some? ==> info.carspaces == r.carspaces.value
    ensures r.carspaces.None? ==> info.carspaces == Sentinel
    ensures r.landAreaSqm.Some? ==> info.landAreaSqm == r.landAreaSqm.value
    ensures r.landAreaSqm.None? ==> info.landAreaSqm == Sentinel as real
  {
    ListingInfo(r.postcode, r.suburb, r.bedrooms, r.bathrooms,
                CarspacesOrSentinel(r.carspaces), r.propertyTypes,
                LandAreaOrSentinel(r.landAreaSqm))
  }

  /** The property-type tags joined in order with no separator. */
  function ConcatTypes(types: seq<string>): string
  {
    if types == [] then "" else types[0] + ConcatTypes(types[1..])
  }

  /** Joining two lists of tags is joining their joins. */
  lemma {:induction false} ConcatTypesAppend(a: seq<string>, b: seq<string>)
    ensures ConcatTypes(a + b) == ConcatTypes(a) + ConcatTypes(b)
  {
    if a == [] {
      assert a + b == b;
    } else {
      assert (a + b)[1..] == a[1..] + b;
      ConcatTypesAppend(a[1..], b);
    }
  }

  /** Tag `i` sits, unchanged, right after the joins of the tags before it. */
  lemma ConcatTypesSlice(types: seq<string>, i: nat)
    requires i < |types|
    ensures var offset := |ConcatTypes(types[..i])|;
      offset + |types[i]| <= |ConcatTypes(types)| &&
      ConcatTypes(types)[offset..offset + |types[i]|] == types[i]
  {
    var before, after := types[..i], types[i + 1..];
    assert types == before + ([types[i]] + after);
    ConcatTypesAppend(before, [types[i]] + after);
    ConcatTypesAppend([types[i]], after);
    assert ConcatTypes([types[i]]) == types[i] + ConcatTypes([]);
  }

  /** The loop that builds the property-type display string with a running counter. */
  method PropertyTypeString(propertyTypes: seq<string>) returns (s: string)
    ensures s == ConcatTypes(propertyTypes)
  {
    var n := 0;
    s := "";
    while n < |propertyTypes|
      invariant 0 <= n <= |propertyTypes|
      invariant s == ConcatTypes(propertyTypes[..n])
    {
      ConcatTypesAppend(propertyTypes[..n], [propertyTypes[n]]);
      assert propertyTypes[..n + 1] == propertyTypes[..n] + [propertyTypes[n]];
      assert ConcatTypes([propertyTypes[n]]) == propertyTypes[n] + ConcatTypes([]);
      s := s + propertyTypes[n];
      n := n + 1;
    }
    assert propertyTypes[..n] == propertyTypes;
  }
}
