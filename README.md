# Property price-guide bound search, modelled in Dafny

The script estimates the undisclosed price guide of one property listing.
It searches the listings of the property's suburb again and again, with the
same bedroom, bathroom and property-type filter each time and a moving price
bound. A probe is one such search. Each probe gives one bit: is the target
listing among the IDs returned?

- **Lower bound.** The probes use a `maxPrice` filter. The search starts at the
  starting max price and steps up by the increment after each miss. At the
  first hit it steps back one increment and stops. It gives up, with its
  `searching_for_price` flag still set, once the price climbs above 1,200,000.
  That ceiling is absolute, not relative to the starting price.
- **Upper bound.** The probes use a `minPrice` filter. The search starts at the
  starting min price when that is positive. Otherwise it starts at the lower
  search's final price plus 200,000. It steps down by the increment after each
  miss. At the first hit it steps forward one increment and stops. There is no
  floor.
- **Presentation.** When the lower result is under a million, both bounds are
  shown unchanged with unit `"k"`. Otherwise both are divided by a million
  with unit `"m"`. A single price is reported when the two results are equal;
  otherwise a range is reported.

The model has five modules:

- `Wrappers` holds `Option`.
- `Listing` covers the listing record, the `-1` fallbacks and the
  property-type string.
- `SearchQuery` covers the search request body, ID extraction and the
  membership signal.
- `BoundSearch` holds the two searches.
- `PriceGuide` covers the whole run and its presentation.

The search endpoint is a parameter, `search: SearchFilter -> seq<SearchHit>`.
The membership signal is derived from it:
`MaxPriceOracle` / `MinPriceOracle` build the request, run `search`, extract
the IDs and test membership, exactly as the loop body does. The two loops are
methods proved equal to recursive specification functions (`LowerSearch`,
`LowerProbes`, `UpperSearch`, `UpperProbes`). These functions are generic in
an oracle `present: int -> bool`, and lemmas characterise them for every
oracle.

Behaviour of the script worth noting. Where the code and its comments differ (the first two points), the model follows the code:

- The default upper start adds 200,000. The comments at
  `Property_Price_Checker_1_1.py:32` and `:51` say 400k.
- The unit `"k"` does not divide the bounds by a thousand, and the unit is
  never printed.
- When the lower search gives up, the script goes on with a price above the
  ceiling as its lower bound. The model returns the flag so that this case is
  visible (`LowerSearchCharacterized`, `LowerGivesUpIffNoHit`).
- The reported lower bound is one increment below the first hit. When the very
  first probe hits, that price was never probed (`LowerSearchCharacterized`
  gives it as `last - increment`). The same holds for the upper bound.
- Suppose the listing's hidden guide runs from `a` to `b`, the lower search
  starts below `a`, the upper search starts above `b`, and `a + increment` is at
  most 1,200,001, so that the lower search's first hit lies within the ceiling.
  Then the two results always differ, so the single-price branch is never
  taken (`ThresholdGuideGivesRange`).
- Without that ceiling condition the lower search can give up, and the script
  can then report a single price above the ceiling. Take a guide of exactly
  1,201,000, a start of 1,195,000, an increment of 10,000 and no starting min
  price. Both searches end at 1,205,000, so one price is printed
  (`GiveUpCanReportSinglePrice`).

## Model

| member | source | states |
|---|---|---|
| `Listing.CarspacesOrSentinel` | Property_Price_Checker_1_1.py:100-105 | a missing car-space count yields -1; any other result is the recorded count, so -1 is ambiguous only with a recorded -1 |
| `Listing.LandAreaOrSentinel` | Property_Price_Checker_1_1.py:108-113 | a missing land area yields -1; any other result is the recorded area |
| `Listing.ReadListing` | Property_Price_Checker_1_1.py:90-113 | the extracted details copy postcode, suburb, bedrooms, bathrooms and property types, and fall back to -1 exactly for a missing car-space count or land area |
| `Listing.ConcatTypesAppend` | Property_Price_Checker_1_1.py:120-124 | joining the tags of two lists is joining their joins (the join is a monoid homomorphism) |
| `Listing.ConcatTypesSlice` | Property_Price_Checker_1_1.py:120-124 | every tag appears unchanged, in order, with no separator, right after the tags before it |
| `Listing.PropertyTypeString` | Property_Price_Checker_1_1.py:119-124 | the counter loop builds exactly the in-order, separator-free join of all property-type tags |
| `SearchQuery.MaxPriceFilter` | Property_Price_Checker_1_1.py:150-169 | a lower probe sets `maxPrice` to the probe price and no `minPrice`, pins bedrooms and bathrooms to the listing's (min = max), asks for a sale, page size 100, the listing's types and exactly its suburb and postcode without surrounding suburbs |
| `SearchQuery.MinPriceFilter` | Property_Price_Checker_1_1.py:209-228 | an upper probe has the same narrowing, sets `minPrice` only, and is the lower probe's body with the price key swapped |
| `SearchQuery.ListingIds` | Property_Price_Checker_1_1.py:174-176 | the ID list has one entry per result, the i-th result's listing ID, in order |
| `SearchQuery.ExtractIds` | Property_Price_Checker_1_1.py:174-177 | the append loop builds exactly that ID list |
| `BoundSearch.LowerProbesShape` | Property_Price_Checker_1_1.py:147-188 | the probes rise from the start by exactly one increment each; every probe but the last misses and is followed by a price within 1,200,000 |
| `BoundSearch.LowerOutcomeOfLastProbe` | Property_Price_Checker_1_1.py:179-188 | the flag is cleared iff the last probe hits, leaving `max_price` one increment below it; otherwise `max_price` ends one increment above the last probe, above 1,200,000 |
| `BoundSearch.LowerSearchCharacterized` | Property_Price_Checker_1_1.py:139-188 | the probes are start, start + inc, ... rising by exactly inc; every probe but the last misses and is followed by a price within the ceiling, so only the first can lie above it; the search stops with the flag cleared iff its last probe hits, one increment below it, and otherwise gives up one increment above its last probe, above 1,200,000, with the flag set |
| `BoundSearch.LowerGivesUpIffNoHit` | Property_Price_Checker_1_1.py:183-188 | the flag is still set at the end iff no probe hit |
| `BoundSearch.LowerProbesBounded` | Property_Price_Checker_1_1.py:184-188 | the search terminates within (ceiling - start) / inc + 1 probes, and a start above 1,200,000 gets exactly one probe |
| `BoundSearch.LowerFirstHit` | Property_Price_Checker_1_1.py:179-185 | if probe k is the first hit and is reached within the ceiling, the search ends after k + 1 probes with `max_price` = that probe - inc and the flag cleared |
| `BoundSearch.LowerBracketsThreshold` | Property_Price_Checker_1_1.py:179-185 | for any oracle that hits exactly at prices `p >= a` (a listing matching `maxPrice = p` iff `a <= p`), starting below `a`, with `a + increment <= 1,200,001` so that the first hit lies within the ceiling: the search stops with the flag cleared, and the result lies below `a` and within one increment of it |
| `BoundSearch.FindLowerBound` | Property_Price_Checker_1_1.py:139-188 | the loop, whose probes build the request, run the search and extract the IDs, ends with exactly `LowerSearch`'s final `max_price` and `searching_for_price` and probes exactly the prices of `LowerProbes`, in order |
| `BoundSearch.UpperSearchCharacterized` | Property_Price_Checker_1_1.py:206-245 | the probes are start, start - inc, ... falling by exactly inc; every probe but the last misses, the last hits, and `min_price` ends one increment above it |
| `BoundSearch.UpperFirstHit` | Property_Price_Checker_1_1.py:238-245 | if probe j is the first hit, the search ends after j + 1 probes with `min_price` = that probe + inc |
| `BoundSearch.UpperWitnessIrrelevant` | Property_Price_Checker_1_1.py:206-245 | the result and the probes do not depend on the termination witness |
| `BoundSearch.UpperSearchUnbounded` | Property_Price_Checker_1_1.py:242-245 | no floor: for every n there is a listing the search reaches only after n + 1 probes, n - 1 steps below its start, through zero and negative prices |
| `BoundSearch.UpperBracketsThreshold` | Property_Price_Checker_1_1.py:238-245 | for any oracle that hits exactly at prices `p <= b` (a listing matching `minPrice = p` iff `p <= b`), starting above `b`: the result lies above `b` and within one increment of it |
| `BoundSearch.FindUpperBound` | Property_Price_Checker_1_1.py:206-245 | the loop ends with exactly `UpperSearch`'s final `min_price` and probes exactly the prices of `UpperProbes`, in order |
| `PriceGuide.UpperStart` | Property_Price_Checker_1_1.py:196-200 | the upper search starts at the starting min price when it is positive, else 200,000 above the lower search's final price |
| `PriceGuide.Denominate` | Property_Price_Checker_1_1.py:254-261 | the unit is "k" iff the lower result is under 1,000,000, and then both bounds are unchanged; otherwise "m"; scaling each shown value by its unit gives back its price |
| `PriceGuide.StatePrice` | Property_Price_Checker_1_1.py:275-280 | a single price iff `max_price == min_price`, equal to both shown bounds; otherwise a range of the two shown bounds, which then differ |
| `PriceGuide.EstimatePriceGuide` | Property_Price_Checker_1_1.py:139-261 | a run is the lower search, then the upper search from the derived start (even after the lower search gave up), then the presentation of the two results |
| `PriceGuide.ThresholdGuideGivesRange` | Property_Price_Checker_1_1.py:139-280 | for any search that lists the target under `maxPrice = p` iff `a <= p` and under `minPrice = p` iff `p <= b`, with `a <= b`, the lower start below `a`, `a + increment <= 1,200,001`, and the upper search's actual start (`UpperStart` of the starting min price and the lower search's result) above `b`: the lower search does not give up, its result brackets a from below, the upper result brackets b from above, and the report is a range. These are exactly the fields `EstimatePriceGuide` returns for that search |
| `PriceGuide.GiveUpCanReportSinglePrice` | Property_Price_Checker_1_1.py:184-200 | the ceiling condition is needed: for a guide of exactly 1,201,000, start 1,195,000, increment 10,000 and no starting min price, the lower search gives up at 1,205,000 with the flag set, the upper search starts at 1,405,000 and ends at 1,205,000 too, and the report is a single price |

## Left out

- Token exchange, the listing lookup and the search POST are network calls. The search is the parameter `search`, and the listing is a `ListingRecord` value.
- The 0.1 s pauses, every `print`, the CSV append and `datetime.today()` are timing, presentation and I/O.
- The fields read only for printing or the CSV are left out: address, headline, display price, URL, dates, status, agent identifiers and coordinates.
- The per-square-metre values `lower/size` and `upper/size` are floating-point divisions that are only printed or written. With `size == -1` they come out negative, and with `size == 0` they would raise an error.
- Denominate: divides by a million in exact `real` arithmetic, not in floating point.
- The conversion `int(property_id)` and its failure are left out: the target ID is an `int`.
- Missing required fields (postcode, bedrooms, ...) are left out. The script would raise an error there; the record type always carries them.
- Bedroom, bathroom and car-space counts are integers. The filter copies them unchanged, so its equalities hold for any numeric type.
- FindUpperBound: takes a ghost witness `hitSteps` whose probe is a hit, because the script's loop never ends when no probe hits. Such non-terminating runs are not modelled.
- FindLowerBound: requires `increment > 0`. The script does not check this; with `increment <= 0` its lower loop need not end.
- The truncation of results to one page of 100 is part of what `search` returns.
- The JSON encoding of the request body is left out: the request is a record value.
- ExtractIds / ListingIds: malformed search responses are not modelled. The script crashes mid-search with `KeyError` or `TypeError` on an entry without `["listing"]["id"]`, and on an error body that is not a list. A `seq<SearchHit>` cannot represent such a response.
