/**
 * The run of one price-guide estimate: the lower-bound search, the choice of
 * where the upper-bound search starts, the upper-bound search, and the
 * presentation of the two bounds (thousands or millions, a single price or a
 * range).
 */
module PriceGuide {
  import opened Listing
  import opened SearchQuery
  import opened BoundSearch

  /** How far above the lower search's final price the upper search starts by default. */
  const UpperStartGap: int := 200000

  /** Below this lower bound the bounds are shown as they are, else in millions. */
  const MillionThreshold: int := 1000000

  /**
   * Where the upper search starts: the operator's starting min price when it
   * is positive, otherwise the lower search's final max price plus the gap.
   */
  function UpperStart(startingMinPrice: int, lowerMaxPrice: int): (start: int)
    ensures startingMinPrice > 0 ==> start == startingMinPrice
    ensures startingMinPrice <= 0 ==> start - lowerMaxPrice == UpperStartGap
  {
    if startingMinPrice > 0 then startingMinPrice else lowerMaxPrice + UpperStartGap
  }

  /** The two bounds as shown, and the unit they are shown in. */
  datatype DisplayBounds = DisplayBounds(lower: real, upper: real, denom: string)

  /** The factor that turns a shown value back into a price. */
  function Scale(denom: string): real
  {
    if denom == "k" then 1.0 else MillionThreshold as real
  }

  /**
   * The unit is "k" exactly when the lower bound is under a million, and then
   * both bounds are shown unchanged; otherwise the unit is "m" and both are
   * divided by a million (in exact arithmetic). Either way, scaling a shown
   * value back by its unit gives the price it stands for.
   */
  function Denominate(maxPrice: int, minPrice: int): (d: DisplayBounds)
    ensures d.denom == "k" <==> maxPrice < MillionThreshold
    ensures d.denom == "k" || d.denom == "m"
    ensures d.denom == "k" ==> d.lower == maxPrice as real && d.upper == minPrice as real
    ensures d.lower * Scale(d.denom) == maxPrice as real
    ensures d.upper * Scale(d.denom) == minPrice as real
  {
    if maxPrice < MillionThreshold then
      DisplayBounds(maxPrice as real, minPrice as real, "k")
    else
      DisplayBounds(maxPrice as real / MillionThreshold as real, minPrice as real / MillionThreshold as real, "m")
  }

  /** The price guide as reported: a single price or a range. */
  datatype PriceStatement = SinglePrice(price: real) | PriceRange(low: real, high: real)

  /**
   * A single price is reported exactly when the two searches ended on the
   * same price, and it is then both shown bounds; otherwise the range runs
   * from the shown lower bound to the shown upper bound.
   */
  function StatePrice(maxPrice: int, minPrice: int): (s: PriceStatement)
    ensures s.SinglePrice? <==> maxPrice == minPrice
    ensures var d := Denominate(maxPrice, minPrice);
      s.SinglePrice? ==> s.price == d.lower == d.upper
    ensures var d := Denominate(maxPrice, minPrice);
      s.PriceRange? ==> s.low == d.lower && s.high == d.upper && s.low != s.high
  {
    var d := Denominate(maxPrice, minPrice);
    if maxPrice == minPrice then SinglePrice(d.lower) else PriceRange(d.lower, d.upper)
  }

  /**
   * What one run of the script computes. `lowerSearchingForPrice` is the
   * lower search's final flag; the script resets its flag before the upper
   * search, which always ends with it cleared.
   */
  datatype Estimate = Estimate(
    maxPrice: int,
    lowerSearchingForPrice: bool,
    minPrice: int,
    shown: DisplayBounds,
    statement: PriceStatement)

  /**
   * Whether the upper search ends: the probe `hitSteps` steps below its
   * start is a hit.
   */
  predicate UpperSearchEnds(search: SearchApi, info: ListingInfo, propertyId: int,
                            startingMaxPrice: int, startingMinPrice: int, increment: int, hitSteps: nat)
    requires increment > 0
  {
    var lower := LowerSearch(MaxPriceOracle(search, info, propertyId), startingMaxPrice, increment);
    MinPriceOracle(search, info, propertyId)(FallingProbe(UpperStart(startingMinPrice, lower.maxPrice), increment, hitSteps))
  }

  /**
   * One run: the lower search, then the upper search from the derived start
   * (whether or not the lower search gave up), then the presentation.
   */
  method EstimatePriceGuide(search: SearchApi, info: ListingInfo, propertyId: int,
                            startingMaxPrice: int, startingMinPrice: int, increment: int,
                            ghost hitSteps: nat)
    returns (e: Estimate)
    requires increment > 0
    requires UpperSearchEnds(search, info, propertyId, startingMaxPrice, startingMinPrice, increment, hitSteps)
    ensures var lower := LowerSearch(MaxPriceOracle(search, info, propertyId), startingMaxPrice, increment);
      e.maxPrice == lower.maxPrice && e.lowerSearchingForPrice == lower.searchingForPrice
    ensures e.minPrice == UpperSearch(MinPriceOracle(search, info, propertyId),
                                      UpperStart(startingMinPrice, e.maxPrice), increment, hitSteps)
    ensures e.shown == Denominate(e.maxPrice, e.minPrice)
    ensures e.statement == StatePrice(e.maxPrice, e.minPrice)
  {
    var maxPrice, searchingForPrice, _ := FindLowerBound(search, info, propertyId, startingMaxPrice, increment);
    var upperStart := UpperStart(startingMinPrice, maxPrice);
    var minPrice, _ := FindUpperBound(search, info, propertyId, upperStart, increment, hitSteps);
    e := Estimate(maxPrice, searchingForPrice, minPrice,
                  Denominate(maxPrice, minPrice), StatePrice(maxPrice, minPrice));
  }

  /**
   * Against a listing whose hidden guide runs from `a` to `b` (the search
   * lists it under `maxPrice = p` exactly when `a <= p`, and under
   * `minPrice = p` exactly when `p <= b`), with the lower search starting
   * below `a`, its first hit within the ceiling, and the upper search
   * starting above `b`, a run's lower bound lies below `a` and its upper
   * bound above `b`, each within one increment, and the report is a range,
   * never a single price. These are the fields `EstimatePriceGuide` returns.
   */
  lemma ThresholdGuideGivesRange(search: SearchApi, info: ListingInfo, propertyId: int,
                                 a: int, b: int, startingMaxPrice: int, startingMinPrice: int,
                                 increment: int, hitSteps: nat)
    requires increment > 0
    requires forall p :: MaxPriceOracle(search, info, propertyId)(p) <==> a <= p
    requires forall p :: MinPriceOracle(search, info, propertyId)(p) <==> p <= b
    requires a <= b
    requires startingMaxPrice < a && a + increment <= PriceCeiling + 1
    requires b < UpperStart(startingMinPrice,
                            LowerSearch(MaxPriceOracle(search, info, propertyId), startingMaxPrice, increment).maxPrice)
    requires UpperSearchEnds(search, info, propertyId, startingMaxPrice, startingMinPrice, increment, hitSteps)
    ensures var lower := LowerSearch(MaxPriceOracle(search, info, propertyId), startingMaxPrice, increment);
      var upper := UpperSearch(MinPriceOracle(search, info, propertyId),
                               UpperStart(startingMinPrice, lower.maxPrice), increment, hitSteps);
      && !lower.searchingForPrice
      && lower.maxPrice < a <= lower.maxPrice + increment
      && upper - increment <= b < upper
      && StatePrice(lower.maxPrice, upper).PriceRange?
  {
    var lowerOracle := MaxPriceOracle(search, info, propertyId);
    var upperOracle := MinPriceOracle(search, info, propertyId);
    LowerBracketsThreshold(lowerOracle, a, startingMaxPrice, increment);
    var lower := LowerSearch(lowerOracle, startingMaxPrice, increment);
    var start := UpperStart(startingMinPrice, lower.maxPrice);
    assert b < start;
    assert FallingProbe(start, increment, hitSteps) <= b by {
      assert upperOracle(FallingProbe(start, increment, hitSteps));
    }
    UpperBracketsThreshold(upperOracle, b, start, increment, hitSteps);
  }

  /**
   * The ceiling hypothesis above is needed: once the lower search gives up,
   * the script can report a single price above the ceiling. With a hidden
   * guide of exactly 1,201,000, a start of 1,195,000, an increment of 10,000
   * and no starting min price, the lower search misses once and gives up at
   * 1,205,000; the upper search starts 200,000 above that, first hits at
   * 1,195,000 and also ends at 1,205,000.
   */
  lemma GiveUpCanReportSinglePrice()
    ensures var guide := 1201000;
      var lower := LowerSearch(p => guide <= p, 1195000, 10000);
      var start := UpperStart(0, lower.maxPrice);
      && lower == LowerOutcome(1205000, true)
      && start == 1405000
      && (p => p <= guide)(FallingProbe(start, 10000, 21))
      && UpperSearch(p => p <= guide, start, 10000, 21) == 1205000
      && StatePrice(lower.maxPrice, UpperSearch(p => p <= guide, start, 10000, 21)) == SinglePrice(1205000 as real / MillionThreshold as real)
  {
    var upper := (p: int) => p <= 1201000;
    forall i | 0 <= i < 21
      ensures !upper(FallingProbe(1405000, 10000, i))
    {
    }
    UpperFirstHit(upper, 1405000, 10000, 21, 21);
  }
}
