/** The pricing catalog (`calculatorState.roomPricing`) and the estimate formula of
    `calculatePrice`: area from three walls at a fixed height, per-square-foot rates,
    a per-tier minimum job price, and rounding to the nearest hundred. */
module Pricing {

  /** The three catalog keys: 'screen', '3season' and 'glass'. */
  datatype RoomType = Screen | ThreeSeason | Glass

  datatype PricingTier = PricingTier(
    name: string,
    minTotal: int,
    maxTotal: int,
    minPerSqFt: int,
    maxPerSqFt: int)

  /** What the estimate relies on: floors in whole hundreds, low bounds below high bounds. */
  predicate WellFormedTier(tier: PricingTier) {
    && 0 < tier.minTotal <= tier.maxTotal
    && tier.minTotal % 100 == 0 && tier.maxTotal % 100 == 0
    && 0 <= tier.minPerSqFt <= tier.maxPerSqFt
  }

  /** The fixed catalog. Every tier is well formed, no floor is below 2800, and the
      display name identifies the tier. */
  function Catalog(room: RoomType): (tier: PricingTier)
    ensures WellFormedTier(tier)
    ensures 2800 <= tier.minTotal
    ensures room == Screen <==> tier.name == "Screen Only"
  {
    match room
    case Screen => PricingTier("Screen Only", 2800, 4000, 35, 50)
    case ThreeSeason => PricingTier("3-Season Eze Breeze", 6000, 10000, 50, 65)
    case Glass => PricingTier("Glass", 12000, 20000, 75, 100)
  }

  /** No two tiers share a display name, so the name shown identifies the tier. */
  lemma CatalogNamesDistinct(a: RoomType, b: RoomType)
    ensures Catalog(a).name == Catalog(b).name ==> a == b
  {
    assert "Screen Only"[0] == 'S' && "3-Season Eze Breeze"[0] == '3' && "Glass"[0] == 'G';
  }

  /** The tiers rise from screen to three-season to glass: both floors and both
      rates are strictly higher at each step. */
  lemma CatalogTiersRise()
    ensures Catalog(Screen).minTotal < Catalog(ThreeSeason).minTotal < Catalog(Glass).minTotal
    ensures Catalog(Screen).maxTotal < Catalog(ThreeSeason).maxTotal < Catalog(Glass).maxTotal
    ensures Catalog(Screen).minPerSqFt < Catalog(ThreeSeason).minPerSqFt < Catalog(Glass).minPerSqFt
    ensures Catalog(Screen).maxPerSqFt < Catalog(ThreeSeason).maxPerSqFt < Catalog(Glass).maxPerSqFt
  {
  }

  /** The three entered wall lengths, already parsed (an empty or unparsable field is 0). */
  datatype Dimensions = Dimensions(wall1: real, wall2: real, wall3: real)

  function LinearFeet(d: Dimensions): real {
    d.wall1 + d.wall2 + d.wall3
  }

  /** The wall area of a run of walls at the standard height of 8 feet
      (`dimensions.height`, which nothing edits). */
  function Area(linearFeet: real): real {
    linearFeet * 8.0
  }

  function SquareFeet(d: Dimensions): real {
    Area(LinearFeet(d))
  }

  function Max(a: real, b: real): (m: real)
    ensures a <= m && b <= m && (m == a || m == b)
  {
    if a < b then b else a
  }

  /** `Math.round(x / 100) * 100`: the multiple of 100 nearest to `x`, halves rounded up. */
  function Round100(x: real): (r: int)
    ensures r % 100 == 0
    ensures x - 50.0 < r as real <= x + 50.0
  {
    (x / 100.0 + 0.5).Floor * 100
  }

  /** Rounding never reverses the order of two amounts. */
  lemma Round100Monotone(x: real, y: real)
    requires x <= y
    ensures Round100(x) <= Round100(y)
  {
    var fx, fy := (x / 100.0 + 0.5).Floor, (y / 100.0 + 0.5).Floor;
    assert fx as real <= x / 100.0 + 0.5 <= y / 100.0 + 0.5 < fy as real + 1.0;
  }

  /** A whole number of hundreds is left as it is. */
  lemma Round100OfHundreds(x: real, k: int)
    requires x == (100 * k) as real
    ensures Round100(x) == 100 * k
  {
    assert x / 100.0 + 0.5 == k as real + 0.5;
  }

  datatype PriceRange = PriceRange(min: int, max: int)

  /** The price range quoted for an area: each bound is the rate price, raised to the
      tier's floor when below it, then rounded to the nearest hundred. */
  function Estimate(tier: PricingTier, squareFeet: real): (r: PriceRange)
    ensures r.min % 100 == 0 && r.max % 100 == 0
    ensures var floored := Max(RatePrice(squareFeet, tier.minPerSqFt), tier.minTotal as real);
      floored - 50.0 < r.min as real <= floored + 50.0
    ensures var floored := Max(RatePrice(squareFeet, tier.maxPerSqFt), tier.maxTotal as real);
      floored - 50.0 < r.max as real <= floored + 50.0
  {
    var minPrice := Max(RatePrice(squareFeet, tier.minPerSqFt), tier.minTotal as real);
    var maxPrice := Max(RatePrice(squareFeet, tier.maxPerSqFt), tier.maxTotal as real);
    PriceRange(Round100(minPrice), Round100(maxPrice))
  }

  /** The area price at a per-square-foot rate. */
  function RatePrice(squareFeet: real, rate: int): real {
    squareFeet * rate as real
  }

  /** On a non-negative area the higher rate gives the higher price. */
  lemma RatePriceMonotone(squareFeet: real, low: int, high: int)
    requires 0.0 <= squareFeet && low <= high
    ensures RatePrice(squareFeet, low) <= RatePrice(squareFeet, high)
  {
  }

  /** Raising two ordered amounts to two ordered floors in whole hundreds, then
      rounding, keeps them ordered and at or above their floors. */
  lemma FlooredRoundingOrdered(a: real, b: real, lo: int, hi: int)
    requires a <= b && lo <= hi && lo % 100 == 0 && hi % 100 == 0
    ensures lo <= Round100(Max(a, lo as real)) <= Round100(Max(b, hi as real))
    ensures hi <= Round100(Max(b, hi as real))
  {
    Round100OfHundreds(lo as real, lo / 100);
    Round100OfHundreds(hi as real, hi / 100);
    Round100Monotone(lo as real, Max(a, lo as real));
    Round100Monotone(hi as real, Max(b, hi as real));
    Round100Monotone(Max(a, lo as real), Max(b, hi as real));
  }

  /** For a well-formed tier and a non-negative area, the quote respects the tier's
      floors and its low bound never exceeds its high bound. */
  lemma EstimateBounds(tier: PricingTier, squareFeet: real)
    requires WellFormedTier(tier) && 0.0 <= squareFeet
    ensures tier.minTotal <= Estimate(tier, squareFeet).min <= Estimate(tier, squareFeet).max
    ensures tier.maxTotal <= Estimate(tier, squareFeet).max
  {
    RatePriceMonotone(squareFeet, tier.minPerSqFt, tier.maxPerSqFt);
    FlooredRoundingOrdered(RatePrice(squareFeet, tier.minPerSqFt), RatePrice(squareFeet, tier.maxPerSqFt),
                           tier.minTotal, tier.maxTotal);
  }

  /** Once the rate price passes the floor, the floor plays no part. */
  lemma EstimateAboveFloor(tier: PricingTier, squareFeet: real)
    requires tier.minTotal as real <= RatePrice(squareFeet, tier.minPerSqFt)
    requires tier.maxTotal as real <= RatePrice(squareFeet, tier.maxPerSqFt)
    ensures Estimate(tier, squareFeet)
         == PriceRange(Round100(RatePrice(squareFeet, tier.minPerSqFt)), Round100(RatePrice(squareFeet, tier.maxPerSqFt)))
  {
  }

  /** While both rate prices stay at or below their floors, the quote is the floors. */
  lemma EstimateAtFloor(tier: PricingTier, squareFeet: real)
    requires tier.minTotal % 100 == 0 && tier.maxTotal % 100 == 0
    requires RatePrice(squareFeet, tier.minPerSqFt) <= tier.minTotal as real
    requires RatePrice(squareFeet, tier.maxPerSqFt) <= tier.maxTotal as real
    ensures Estimate(tier, squareFeet) == PriceRange(tier.minTotal, tier.maxTotal)
  {
    Round100OfHundreds(tier.minTotal as real, tier.minTotal / 100);
    Round100OfHundreds(tier.maxTotal as real, tier.maxTotal / 100);
  }

  /** A screen room with walls of 10, 10 and 10 feet: 240 square feet, priced by rate. */
  lemma ScreenRoomByRate()
    ensures SquareFeet(Dimensions(10.0, 10.0, 10.0)) == 240.0
    ensures Estimate(Catalog(Screen), 240.0) == PriceRange(8400, 12000)
  {
    Round100OfHundreds(8400.0, 84);
    Round100OfHundreds(12000.0, 120);
  }

  /** A glass room with walls of 2, 2 and 2 feet: 48 square feet, priced at the floors. */
  lemma GlassRoomAtFloor()
    ensures SquareFeet(Dimensions(2.0, 2.0, 2.0)) == 48.0
    ensures Estimate(Catalog(Glass), 48.0) == PriceRange(12000, 20000)
  {
    Round100OfHundreds(12000.0, 120);
    Round100OfHundreds(20000.0, 200);
  }
}
