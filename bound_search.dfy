/**
 * The two linear step searches over price. Each probe asks the search whether
 * the target listing appears under a price filter; `present(p)` is that answer
 * for probe price `p`.
 *
 * Lower bound: start at the starting max price and step up by the increment
 * on every miss; on the first hit step back one increment and stop; give up
 * (flag still set) once the price has climbed above the absolute ceiling.
 *
 * Upper bound: start high and step down by the increment on every miss; on the
 * first hit step forward one increment and stop. There is no floor, so the
 * search ends only if some probe hits: callers supply a ghost witness
 * `hitSteps` such that the probe `hitSteps` steps down is a hit.
 */
module BoundSearch {
  import opened Listing
  import opened SearchQuery

  /** Above this price the lower-bound search gives up. */
  const PriceCeiling: int := 1200000

  /** The lower search's final state: the last `max_price` and whether it is still searching. */
  datatype LowerOutcome = LowerOutcome(maxPrice: int, searchingForPrice: bool)

  /** The `j`-th price the lower search probes, counting from 0. */
  function RisingProbe(start: int, increment: int, j: nat): int
  {
    start + j * increment
  }

  /** The `j`-th price the upper search probes, counting from 0. */
  function FallingProbe(start: int, increment: int, j: nat): int
  {
    start - j * increment
  }

  function LowerMeasure(price: int): nat
  {
    if price > PriceCeiling then 0 else PriceCeiling + 1 - price
  }

  /** The prices the lower search probes from `price` on, in order. */
  function LowerProbes(present: int -> bool, price: int, increment: int): seq<int>
    requires increment > 0
    decreases LowerMeasure(price)
  {
    if present(price) || price + increment > PriceCeiling then [price]
    else [price] + LowerProbes(present, price + increment, increment)
  }

  /** The lower search's final state when it probes `price` next. */
  function LowerSearch(present: int -> bool, price: int, increment: int): LowerOutcome
    requires increment > 0
    decreases LowerMeasure(price)
  {
    if present(price) then LowerOutcome(price - increment, false)
    else if price + increment > PriceCeiling then LowerOutcome(price + increment, true)
    else LowerSearch(present, price + increment, increment)
  }

  /** One step up from the next start is the next probe from this start. */
  lemma RisingProbeStep(start: int, increment: int, j: nat)
    ensures RisingProbe(start + increment, increment, j) == RisingProbe(start, increment, j + 1)
  {
    assert (j + 1) * increment == j * increment + increment;
  }

  /** One step down from the next start is the next probe from this start. */
  lemma FallingProbeStep(start: int, increment: int, j: nat)
    ensures FallingProbe(start - increment, increment, j) == FallingProbe(start, increment, j + 1)
  {
    assert (j + 1) * increment == j * increment + increment;
  }

  /**
   * The lower search probes `start`, `start + increment`, ... in steps of
   * exactly `increment`; every probe but the last misses and is followed by
   * a price within the ceiling.
   */
  lemma {:induction false} LowerProbesShape(present: int -> bool, start: int, increment: int)
    requires increment > 0
    ensures var t := LowerProbes(present, start, increment);
      && |t| >= 1
      && (forall j :: 0 <= j < |t| ==> t[j] == RisingProbe(start, increment, j))
      && (forall j :: 0 <= j < |t| - 1 ==> !present(t[j]) && t[j] + increment <= PriceCeiling)
    decreases LowerMeasure(start)
  {
    if !present(start) && start + increment <= PriceCeiling {
      var next := start + increment;
      LowerProbesShape(present, next, increment);
      var t' := LowerProbes(present, next, increment);
      var t := LowerProbes(present, start, increment);
      assert t == [start] + t';
      forall j | 1 <= j < |t|
        ensures t[j] == RisingProbe(start, increment, j)
      {
        RisingProbeStep(start, increment, j - 1);
      }
    }
  }

  /**
   * The lower search stops searching exactly when its last probe hits, one
   * increment below that probe; otherwise it gives up one increment above its
   * last probe, above the ceiling, with the flag still set.
   */
  lemma {:induction false} LowerOutcomeOfLastProbe(present: int -> bool, start: int, increment: int)
    requires increment > 0
    ensures var t := LowerProbes(present, start, increment);
      var r := LowerSearch(present, start, increment);
      var last := t[|t| - 1];
      && |t| >= 1
      && (r.searchingForPrice <==> !present(last))
      && (!r.searchingForPrice ==> r.maxPrice == last - increment)
      && (r.searchingForPrice ==> r.maxPrice == last + increment && r.maxPrice > PriceCeiling)
    decreases LowerMeasure(start)
  {
    if !present(start) && start + increment <= PriceCeiling {
      var next := start + increment;
      LowerOutcomeOfLastProbe(present, next, increment);
      var t' := LowerProbes(present, next, increment);
      var t := LowerProbes(present, start, increment);
      assert t == [start] + t';
      assert t[|t| - 1] == t'[|t'| - 1];
      assert LowerSearch(present, start, increment) == LowerSearch(present, next, increment);
    }
  }

  /**
   * What the lower search does, whatever the oracle: the probes rise by
   * exactly `increment` from `start`; all but the last miss and only the
   * first can lie above the ceiling; the final state is fixed by the last
   * probe.
   */
  lemma LowerSearchCharacterized(present: int -> bool, start: int, increment: int)
    requires increment > 0
    ensures var t := LowerProbes(present, start, increment);
      var r := LowerSearch(present, start, increment);
      var last := t[|t| - 1];
      && |t| >= 1
      && (forall j :: 0 <= j < |t| ==> t[j] == RisingProbe(start, increment, j))
      && (forall j :: 0 <= j < |t| - 1 ==> !present(t[j]) && t[j] + increment <= PriceCeiling)
      && (forall j :: 1 <= j < |t| ==> t[j] <= PriceCeiling)
      && (r.searchingForPrice <==> !present(last))
      && (!r.searchingForPrice ==> r.maxPrice == last - increment)
      && (r.searchingForPrice ==> r.maxPrice == last + increment && r.maxPrice > PriceCeiling)
  {
    LowerProbesShape(present, start, increment);
    LowerOutcomeOfLastProbe(present, start, increment);
    var t := LowerProbes(present, start, increment);
    forall j | 1 <= j < |t|
      ensures t[j] <= PriceCeiling
    {
      RisingProbeStep(start, increment, j - 1);
      assert t[j] == t[j - 1] + increment;
    }
  }

  /** The lower search gives up exactly when no probe it makes hits. */
  lemma LowerGivesUpIffNoHit(present: int -> bool, start: int, increment: int)
    requires increment > 0
    ensures var t := LowerProbes(present, start, increment);
      LowerSearch(present, start, increment).searchingForPrice <==>
      forall j :: 0 <= j < |t| ==> !present(t[j])
  {
    LowerSearchCharacterized(present, start, increment);
  }

  /**
   * The lower search makes at most one probe more than there are steps from
   * `start` to the ceiling, and a start above the ceiling gets exactly one probe.
   */
  lemma LowerProbesBounded(present: int -> bool, start: int, increment: int)
    requires increment > 0
    ensures var t := LowerProbes(present, start, increment);
      (|t| - 1) * increment <= (if start > PriceCeiling then 0 else PriceCeiling - start)
    ensures start > PriceCeiling ==> |LowerProbes(present, start, increment)| == 1
  {
    LowerSearchCharacterized(present, start, increment);
    var t := LowerProbes(present, start, increment);
    if |t| > 1 {
      assert t[|t| - 2] + increment <= PriceCeiling;
      assert t[|t| - 2] == start + (|t| - 2) * increment;
      assert (|t| - 1) * increment == (|t| - 2) * increment + increment;
    }
  }

  /**
   * If the first hit is the `k`-th probe, reached without passing the
   * ceiling, the search stops after `k + 1` probes, one increment below that
   * probe, with the flag cleared.
   */
  lemma {:induction false} LowerFirstHit(present: int -> bool, start: int, increment: int, k: nat)
    requires increment > 0
    requires present(RisingProbe(start, increment, k))
    requires forall j :: 0 <= j < k ==> !present(RisingProbe(start, increment, j))
    requires k == 0 || RisingProbe(start, increment, k) <= PriceCeiling
    ensures LowerSearch(present, start, increment) ==
            LowerOutcome(RisingProbe(start, increment, k) - increment, false)
    ensures |LowerProbes(present, start, increment)| == k + 1
    decreases k
  {
    if k > 0 {
      var next := start + increment;
      assert !present(RisingProbe(start, increment, 0));
      assert k * increment >= increment;
      RisingProbeStep(start, increment, k - 1);
      forall j | 0 <= j < k - 1
        ensures !present(RisingProbe(next, increment, j))
      {
        RisingProbeStep(start, increment, j);
      }
      LowerFirstHit(present, next, increment, k - 1);
    }
  }

  /**
   * Against a listing that matches `maxPrice = p` exactly when `a <= p`
   * (its hidden lowest price), a search starting below `a` whose first hit
   * is within the ceiling brackets `a`: the reported bound is a price
   * below `a`, within one increment of it.
   */
  lemma {:induction false} LowerBracketsThreshold(present: int -> bool, a: int, start: int, increment: int)
    requires increment > 0
    requires forall p :: present(p) <==> a <= p
    requires start < a && a + increment <= PriceCeiling + 1
    ensures var r := LowerSearch(present, start, increment);
      !r.searchingForPrice && r.maxPrice < a <= r.maxPrice + increment
    decreases a - start
  {
    if start + increment < a {
      LowerBracketsThreshold(present, a, start + increment, increment);
    }
  }

  /** The lower-bound loop: probe, then step back on a hit or step up, giving up above the ceiling. */
  method FindLowerBound(search: SearchApi, info: ListingInfo, propertyId: int,
                        startingMaxPrice: int, increment: int)
    returns (maxPrice: int, searchingForPrice: bool, ghost probed: seq<int>)
    requires increment > 0
    ensures LowerOutcome(maxPrice, searchingForPrice) ==
            LowerSearch(MaxPriceOracle(search, info, propertyId), startingMaxPrice, increment)
    ensures probed == LowerProbes(MaxPriceOracle(search, info, propertyId), startingMaxPrice, increment)
  {
    ghost var present := MaxPriceOracle(search, info, propertyId);
    maxPrice := startingMaxPrice;
    searchingForPrice := true;
    probed := [];
    while searchingForPrice
      invariant searchingForPrice ==>
        LowerSearch(present, maxPrice, increment) == LowerSearch(present, startingMaxPrice, increment)
      invariant searchingForPrice ==>
        probed + LowerProbes(present, maxPrice, increment) == LowerProbes(present, startingMaxPrice, increment)
      invariant !searchingForPrice ==>
        LowerOutcome(maxPrice, false) == LowerSearch(present, startingMaxPrice, increment)
      invariant !searchingForPrice ==>
        probed == LowerProbes(present, startingMaxPrice, increment)
      decreases (if searchingForPrice then 1 else 0), LowerMeasure(maxPrice)
    {
      ghost var price := maxPrice;
      var response := search(MaxPriceFilter(info, maxPrice));
      var listings := ExtractIds(response);
      assert present(price) <==> propertyId in listings;
      probed := probed + [maxPrice];
      if propertyId in listings {
        assert LowerSearch(present, price, increment) == LowerOutcome(price - increment, false);
        assert LowerProbes(present, price, increment) == [price];
        maxPrice := maxPrice - increment;
        searchingForPrice := false;
      } else {
        maxPrice := maxPrice + increment;
        if maxPrice > PriceCeiling {
          assert LowerSearch(present, price, increment) == LowerOutcome(maxPrice, true);
          assert LowerProbes(present, price, increment) == [price];
          break;
        }
        assert LowerSearch(present, price, increment) == LowerSearch(present, maxPrice, increment);
        assert LowerProbes(present, price, increment) == [price] + LowerProbes(present, maxPrice, increment);
      }
    }
  }

  /** The prices the upper search probes from `price` on, in order. */
  function UpperProbes(present: int -> bool, price: int, increment: int, hitSteps: nat): seq<int>
    requires increment > 0
    requires present(FallingProbe(price, increment, hitSteps))
    decreases hitSteps
  {
    if present(price) then [price]
    else
      FallingProbeStep(price, increment, hitSteps - 1);
      [price] + UpperProbes(present, price - increment, increment, hitSteps - 1)
  }

  /** The upper search's final `min_price` when it probes `price` next. */
  function UpperSearch(present: int -> bool, price: int, increment: int, hitSteps: nat): int
    requires increment > 0
    requires present(FallingProbe(price, increment, hitSteps))
    decreases hitSteps
  {
    if present(price) then price + increment
    else
      FallingProbeStep(price, increment, hitSteps - 1);
      UpperSearch(present, price - increment, increment, hitSteps - 1)
  }

  /**
   * What the upper search does, whatever the oracle: it probes `start`,
   * `start - increment`, ... in steps of exactly `increment`, at most
   * `hitSteps + 1` times; every probe but the last misses, the last hits,
   * and the result is one increment above the last probe.
   */
  lemma {:induction false} UpperSearchCharacterized(present: int -> bool, start: int, increment: int, hitSteps: nat)
    requires increment > 0
    requires present(FallingProbe(start, increment, hitSteps))
    ensures var t := UpperProbes(present, start, increment, hitSteps);
      && 1 <= |t| <= hitSteps + 1
      && (forall j :: 0 <= j < |t| ==> t[j] == FallingProbe(start, increment, j))
      && (forall j :: 0 <= j < |t| - 1 ==> !present(t[j]))
      && present(t[|t| - 1])
      && UpperSearch(present, start, increment, hitSteps) == t[|t| - 1] + increment
    decreases hitSteps
  {
    if !present(start) {
      var next := start - increment;
      UpperSearchMiss(present, start, increment, hitSteps);
      UpperSearchCharacterized(present, next, increment, hitSteps - 1);
      var t' := UpperProbes(present, next, increment, hitSteps - 1);
      var t := UpperProbes(present, start, increment, hitSteps);
      assert t[|t| - 1] == t'[|t'| - 1];
      forall j | 1 <= j < |t|
        ensures t[j] == FallingProbe(start, increment, j)
      {
        FallingProbeStep(start, increment, j - 1);
      }
    }
  }

  /**
   * If the first hit is the `j`-th probe, the upper search ends one increment
   * above it, after `j + 1` probes, whichever witness shows it terminates.
   */
  lemma {:induction false} UpperFirstHit(present: int -> bool, start: int, increment: int, hitSteps: nat, j: nat)
    requires increment > 0
    requires present(FallingProbe(start, increment, hitSteps))
    requires present(FallingProbe(start, increment, j))
    requires forall i :: 0 <= i < j ==> !present(FallingProbe(start, increment, i))
    ensures UpperSearch(present, start, increment, hitSteps) == FallingProbe(start, increment, j) + increment
    ensures |UpperProbes(present, start, increment, hitSteps)| == j + 1
    decreases j
  {
    if j > 0 {
      var next := start - increment;
      assert !present(FallingProbe(start, increment, 0));
      assert hitSteps > 0;
      FallingProbeStep(start, increment, hitSteps - 1);
      FallingProbeStep(start, increment, j - 1);
      forall i | 0 <= i < j - 1
        ensures !present(FallingProbe(next, increment, i))
      {
        FallingProbeStep(start, increment, i);
      }
      UpperFirstHit(present, next, increment, hitSteps - 1, j - 1);
    }
  }

  /** The upper search's result does not depend on which witness shows that it ends. */
  lemma UpperWitnessIrrelevant(present: int -> bool, start: int, increment: int, k1: nat, k2: nat)
    requires increment > 0
    requires present(FallingProbe(start, increment, k1))
    requires present(FallingProbe(start, increment, k2))
    ensures UpperSearch(present, start, increment, k1) == UpperSearch(present, start, increment, k2)
    ensures UpperProbes(present, start, increment, k1) == UpperProbes(present, start, increment, k2)
  {
    UpperSearchCharacterized(present, start, increment, k1);
    UpperSearchCharacterized(present, start, increment, k2);
  }

  /** Later probes of the upper search are strictly lower. */
  lemma FallingProbeDecreases(start: int, increment: int, i: nat, j: nat)
    requires increment > 0 && i < j
    ensures FallingProbe(start, increment, j) < FallingProbe(start, increment, i)
  {
  }

  /**
   * No floor bounds the upper search: against a listing first found `n`
   * steps down, it makes `n + 1` probes and ends `n - 1` steps below its
   * start, however large `n` is, through zero and negative prices.
   */
  lemma UpperSearchUnbounded(start: int, increment: int, n: nat)
    requires increment > 0
    ensures var present := (p: int) => p <= FallingProbe(start, increment, n);
      UpperSearch(present, start, increment, n) == FallingProbe(start, increment, n) + increment &&
      |UpperProbes(present, start, increment, n)| == n + 1
  {
    var present := (p: int) => p <= FallingProbe(start, increment, n);
    forall i | 0 <= i < n
      ensures !present(FallingProbe(start, increment, i))
    {
      FallingProbeDecreases(start, increment, i, n);
    }
    UpperFirstHit(present, start, increment, n, n);
  }

  /**
   * Against a listing that matches `minPrice = p` exactly when `p <= b` (its
   * hidden highest price), a search starting above `b` brackets `b`: the
   * reported bound is a price above `b`, within one increment of it.
   */
  lemma {:induction false} UpperBracketsThreshold(present: int -> bool, b: int, start: int, increment: int,
                                                  hitSteps: nat)
    requires increment > 0
    requires forall p :: present(p) <==> p <= b
    requires b < start
    requires FallingProbe(start, increment, hitSteps) <= b
    ensures var r := UpperSearch(present, start, increment, hitSteps);
      r - increment <= b < r
    decreases hitSteps
  {
    var next := start - increment;
    UpperSearchMiss(present, start, increment, hitSteps);
    if b < next {
      UpperBracketsThreshold(present, b, next, increment, hitSteps - 1);
    }
  }

  /** A hit ends the upper search one increment above the probe. */
  lemma UpperSearchHit(present: int -> bool, price: int, increment: int, hitSteps: nat)
    requires increment > 0
    requires present(FallingProbe(price, increment, hitSteps))
    requires present(price)
    ensures UpperSearch(present, price, increment, hitSteps) == price + increment
    ensures UpperProbes(present, price, increment, hitSteps) == [price]
  {
  }

  /** A miss moves the upper search one increment down, one step closer to the witness. */
  lemma UpperSearchMiss(present: int -> bool, price: int, increment: int, hitSteps: nat)
    requires increment > 0
    requires present(FallingProbe(price, increment, hitSteps))
    requires !present(price)
    ensures hitSteps > 0
    ensures present(FallingProbe(price - increment, increment, hitSteps - 1))
    ensures UpperSearch(present, price, increment, hitSteps) ==
            UpperSearch(present, price - increment, increment, hitSteps - 1)
    ensures UpperProbes(present, price, increment, hitSteps) ==
            [price] + UpperProbes(present, price - increment, increment, hitSteps - 1)
  {
    assert FallingProbe(price, increment, 0) == price;
    FallingProbeStep(price, increment, hitSteps - 1);
  }

  /** The upper-bound loop: probe, then step forward on a hit or step down, with no floor. */
  method FindUpperBound(search: SearchApi, info: ListingInfo, propertyId: int,
                        start: int, increment: int, ghost hitSteps: nat)
    returns (minPrice: int, ghost probed: seq<int>)
    requires increment > 0
    requires MinPriceOracle(search, info, propertyId)(FallingProbe(start, increment, hitSteps))
    ensures minPrice == UpperSearch(MinPriceOracle(search, info, propertyId), start, increment, hitSteps)
    ensures probed == UpperProbes(MinPriceOracle(search, info, propertyId), start, increment, hitSteps)
  {
    ghost var present := MinPriceOracle(search, info, propertyId);
    ghost var stepsLeft := hitSteps;
    minPrice := start;
    var searchingForPrice := true;
    probed := [];
    while searchingForPrice
      invariant searchingForPrice ==> present(FallingProbe(minPrice, increment, stepsLeft))
      invariant searchingForPrice ==>
        UpperSearch(present, minPrice, increment, stepsLeft) == UpperSearch(present, start, increment, hitSteps)
      invariant searchingForPrice ==>
        probed + UpperProbes(present, minPrice, increment, stepsLeft) == UpperProbes(present, start, increment, hitSteps)
      invariant !searchingForPrice ==>
        minPrice == UpperSearch(present, start, increment, hitSteps)
      invariant !searchingForPrice ==>
        probed == UpperProbes(present, start, increment, hitSteps)
      decreases (if searchingForPrice then 1 else 0), stepsLeft
    {
      ghost var price := minPrice;
      var response := search(MinPriceFilter(info, minPrice));
      var listings := ExtractIds(response);
      assert present(price) <==> propertyId in listings;
      probed := probed + [minPrice];
      if propertyId in listings {
        UpperSearchHit(present, price, increment, stepsLeft);
        minPrice := minPrice + increment;
        searchingForPrice := false;
      } else {
        UpperSearchMiss(present, price, increment, stepsLeft);
        minPrice := minPrice - increment;
        stepsLeft := stepsLeft - 1;
      }
    }
  }
}
