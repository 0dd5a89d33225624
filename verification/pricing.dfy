/** Seat prices: rounding, the allowed band, and prices per segment. Money in major units, as reals. */
module Pricing {

  /** Any strategy name but the two euro ones rounds to cents. */
  datatype Strategy = NearestEuro | NearestHalfEuro | NearestCent

  function Unit(s: Strategy): real {
    match s
    case NearestEuro => 1.0
    case NearestHalfEuro => 0.5
    case NearestCent => 0.01
  }

  /** `Math.round`: halves up. */
  function Round(x: real): int {
    (x + 0.5).Floor
  }

  function ApplyRounding(amount: real, s: Strategy): real {
    match s
    case NearestEuro => Round(amount) as real
    case NearestHalfEuro => Round(amount * 2.0) as real / 2.0
    case NearestCent => Round(amount * 100.0) as real / 100.0
  }

  function MaxReal(a: real, b: real): real {
    if a <= b then b else a
  }

  lemma RoundIsNearest(x: real)
    ensures x - 0.5 < Round(x) as real <= x + 0.5
  {
  }

  lemma RoundKeepsOrder(x: real, y: real)
    requires x <= y
    ensures Round(x) <= Round(y)
  {
  }

  /** Rounding moves an amount by at most half a unit. */
  lemma RoundingIsTight(x: real, s: Strategy)
    ensures x - Unit(s) / 2.0 < ApplyRounding(x, s) <= x + Unit(s) / 2.0
  {
    match s
    case NearestEuro => RoundIsNearest(x);
    case NearestHalfEuro => RoundIsNearest(x * 2.0);
    case NearestCent => RoundIsNearest(x * 100.0);
  }

  /** A whole number of rounding units. */
  function Units(n: int, s: Strategy): real {
    match s
    case NearestEuro => n as real
    case NearestHalfEuro => n as real / 2.0
    case NearestCent => n as real / 100.0
  }

  /** Rounding gives n units exactly for the amounts from half a unit below, included, to half a unit above. */
  lemma RoundingIsNearestIff(x: real, s: Strategy, n: int)
    ensures ApplyRounding(x, s) == Units(n, s)
       <==> Units(n, s) - Unit(s) / 2.0 <= x < Units(n, s) + Unit(s) / 2.0
  {
    match s
    case NearestEuro => RoundIsNearestIff(x, n);
    case NearestHalfEuro => RoundIsNearestIff(x * 2.0, n);
    case NearestCent => RoundIsNearestIff(x * 100.0, n);
  }

  lemma RoundIsNearestIff(x: real, n: int)
    ensures Round(x) == n <==> n as real - 0.5 <= x < n as real + 0.5
  {
  }

  lemma RoundingKeepsOrder(x: real, y: real, s: Strategy)
    requires x <= y
    ensures ApplyRounding(x, s) <= ApplyRounding(y, s)
  {
    match s
    case NearestEuro => RoundKeepsOrder(x, y);
    case NearestHalfEuro => RoundKeepsOrder(x * 2.0, y * 2.0);
    case NearestCent => RoundKeepsOrder(x * 100.0, y * 100.0);
  }

  // ---------------------------------------------------------------------------------------------
  // The band
  // ---------------------------------------------------------------------------------------------

  datatype Rates = Rates(
    minRate: real, recommendedRate: real, maxRate: real, minimumSeatPrice: real, strategy: Strategy)

  datatype Price = Price(minAllowed: real, recommended: real, maxAllowed: real)

  /** The rounded price of a distance at a rate, never below the minimum. */
  function SeatPrice(distance: real, rate: real, minimum: real, s: Strategy): real {
    MaxReal(minimum, ApplyRounding(distance * rate, s))
  }

  /** `calculatePrice`. */
  function CalculatePrice(distance: real, c: Rates): Price {
    Price(SeatPrice(distance, c.minRate, c.minimumSeatPrice, c.strategy),
          SeatPrice(distance, c.recommendedRate, c.minimumSeatPrice, c.strategy),
          SeatPrice(distance, c.maxRate, c.minimumSeatPrice, c.strategy))
  }

  /** `validateDriverPrice`. */
  predicate PriceIsValid(selected: real, p: Price) {
    !(selected < p.minAllowed)
  }

  predicate OrderedRates(c: Rates) {
    c.minRate <= c.recommendedRate <= c.maxRate
  }

  lemma ScaleReal(k: real, a: real, b: real)
    requires 0.0 <= k && a <= b
    ensures k * a <= k * b
  {
    assert k * b - k * a == k * (b - a);
  }

  lemma DearerRateNeverCheaper(distance: real, rate: real, dearer: real, minimum: real, s: Strategy)
    requires 0.0 <= distance && rate <= dearer
    ensures minimum <= SeatPrice(distance, rate, minimum, s) <= SeatPrice(distance, dearer, minimum, s)
  {
    ScaleReal(distance, rate, dearer);
    RoundingKeepsOrder(distance * rate, distance * dearer, s);
  }

  /** Ordered rates give an ordered band above the minimum seat price, whose recommendation is valid. */
  lemma BandIsOrdered(distance: real, c: Rates)
    requires 0.0 <= distance && OrderedRates(c)
    ensures
      var p := CalculatePrice(distance, c);
      && c.minimumSeatPrice <= p.minAllowed <= p.recommended <= p.maxAllowed
      && forall selected :: PriceIsValid(selected, p) <==> p.minAllowed <= selected
  {
    DearerRateNeverCheaper(distance, c.minRate, c.recommendedRate, c.minimumSeatPrice, c.strategy);
    DearerRateNeverCheaper(distance, c.recommendedRate, c.maxRate, c.minimumSeatPrice, c.strategy);
  }

  /** A price is the distance at a rate, to the nearest unit, unless that is below the minimum. */
  predicate Follows(price: real, distance: real, rate: real, c: Rates) {
    && c.minimumSeatPrice <= price
    && (|| Near(price, distance * rate, Unit(c.strategy) / 2.0, Unit(c.strategy) / 2.0)
        || (price == c.minimumSeatPrice && distance * rate <= price + Unit(c.strategy) / 2.0))
  }

  lemma SeatPriceFollows(distance: real, rate: real, c: Rates)
    ensures Follows(SeatPrice(distance, rate, c.minimumSeatPrice, c.strategy), distance, rate, c)
  {
    RoundingIsTight(distance * rate, c.strategy);
  }

  /** Each end of the band and the recommendation follow their own rate. */
  lemma BandFollowsRates(distance: real, c: Rates)
    ensures
      var p := CalculatePrice(distance, c);
      && Follows(p.minAllowed, distance, c.minRate, c) && Follows(p.recommended, distance, c.recommendedRate, c)
      && Follows(p.maxAllowed, distance, c.maxRate, c)
  {
    SeatPriceFollows(distance, c.minRate, c);
    SeatPriceFollows(distance, c.recommendedRate, c);
    SeatPriceFollows(distance, c.maxRate, c);
  }

  // ---------------------------------------------------------------------------------------------
  // Segments
  // ---------------------------------------------------------------------------------------------

  datatype Segment = Segment(fromPosition: int, toPosition: int, distance: real)

  datatype SegmentPrice = SegmentPrice(fromPosition: int, toPosition: int, distance: real, pricePerSeat: real)

  function PriceSegment(seg: Segment, rate: real, minimum: real, s: Strategy): SegmentPrice {
    SegmentPrice(seg.fromPosition, seg.toPosition, seg.distance,
                 SeatPrice(seg.distance, rate, minimum, s))
  }

  function PriceSegments(segments: seq<Segment>, rate: real, minimum: real, s: Strategy): seq<SegmentPrice> {
    seq(|segments|, i requires 0 <= i < |segments| => PriceSegment(segments[i], rate, minimum, s))
  }

  /** `calculateSegmentPrices`; over a zero distance the source divides by zero and prices are not numbers. */
  function CalculateSegmentPrices(
    totalDistance: real, selected: real, segments: seq<Segment>, minimum: real, s: Strategy): seq<SegmentPrice>
    requires totalDistance != 0.0
  {
    PriceSegments(segments, selected / totalDistance, minimum, s)
  }

  function TotalDistance(segments: seq<Segment>): real {
    if segments == [] then 0.0
    else TotalDistance(segments[..|segments| - 1]) + segments[|segments| - 1].distance
  }

  function TotalPrice(prices: seq<SegmentPrice>): real {
    if prices == [] then 0.0
    else TotalPrice(prices[..|prices| - 1]) + prices[|prices| - 1].pricePerSeat
  }

  predicate Near(price: real, share: real, below: real, above: real) {
    share - below <= price <= share + above
  }

  /** The segments' shares of the price, before rounding. */
  function TotalShare(segments: seq<Segment>, rate: real): real {
    if segments == [] then 0.0
    else TotalShare(segments[..|segments| - 1], rate) + segments[|segments| - 1].distance * rate
  }

  function Times(n: nat, x: real): real {
    if n == 0 then 0.0 else Times(n - 1, x) + x
  }

  /** Bounds on each price add up. */
  lemma {:induction false} PricesAddUp(
    segments: seq<Segment>, prices: seq<SegmentPrice>, rate: real, below: real, above: real)
    requires |prices| == |segments|
    requires forall i | 0 <= i < |segments| ::
      Near(prices[i].pricePerSeat, segments[i].distance * rate, below, above)
    ensures Near(TotalPrice(prices), TotalShare(segments, rate), Times(|segments|, below), Times(|segments|, above))
  {
    if segments != [] {
      var k := |segments| - 1;
      PricesAddUp(segments[..k], prices[..k], rate, below, above);
    }
  }

  lemma Distribute(a: real, b: real, k: real)
    ensures (a + b) * k == a * k + b * k
  {
  }

  lemma {:induction false} SharesCoverThePrice(segments: seq<Segment>, rate: real)
    ensures TotalShare(segments, rate) == TotalDistance(segments) * rate
  {
    if segments != [] {
      var k := |segments| - 1;
      SharesCoverThePrice(segments[..k], rate);
      Distribute(TotalDistance(segments[..k]), segments[k].distance, rate);
    }
  }

  lemma {:induction false} TimesIsProduct(n: nat, x: real)
    ensures Times(n, x) == n as real * x
  {
    if n > 0 {
      TimesIsProduct(n - 1, x);
      Distribute((n - 1) as real, 1.0, x);
    }
  }

  lemma NearTimes(price: real, share: real, n: nat, below: real, above: real)
    requires Near(price, share, Times(n, below), Times(n, above))
    ensures Near(price, share, n as real * below, n as real * above)
  {
    TimesIsProduct(n, below);
    TimesIsProduct(n, above);
  }

  lemma RoundingStaysNear(raw: real, minimum: real, s: Strategy)
    requires 0.0 <= raw && 0.0 <= minimum
    ensures Near(MaxReal(minimum, ApplyRounding(raw, s)), raw, Unit(s) / 2.0, Unit(s) / 2.0 + minimum)
  {
    RoundingIsTight(raw, s);
    RoundingKeepsOrder(0.0, raw, s);
  }

  /** One price is within half a unit of its share below, and within that plus the minimum above. */
  lemma PriceIsNearItsShare(distance: real, rate: real, minimum: real, s: Strategy)
    requires 0.0 <= distance && 0.0 <= rate && 0.0 <= minimum
    ensures Near(SeatPrice(distance, rate, minimum, s), distance * rate, Unit(s) / 2.0, Unit(s) / 2.0 + minimum)
  {
    ScaleReal(rate, 0.0, distance);
    RoundingStaysNear(distance * rate, minimum, s);
  }

  lemma {:induction false} PricesNearShares(
    segments: seq<Segment>, rate: real, minimum: real, s: Strategy, below: real, above: real)
    requires 0.0 <= rate && 0.0 <= minimum
    requires forall i | 0 <= i < |segments| :: 0.0 <= segments[i].distance
    requires below == Unit(s) / 2.0 && above == Unit(s) / 2.0 + minimum
    ensures Near(TotalPrice(PriceSegments(segments, rate, minimum, s)), TotalShare(segments, rate),
                 Times(|segments|, below), Times(|segments|, above))
  {
    var prices := PriceSegments(segments, rate, minimum, s);
    forall i | 0 <= i < |segments|
      ensures Near(prices[i].pricePerSeat, segments[i].distance * rate, below, above)
    {
      PriceIsNearItsShare(segments[i].distance, rate, minimum, s);
    }
    PricesAddUp(segments, prices, rate, below, above);
  }

  lemma RateIsPositive(selected: real, totalDistance: real)
    requires 0.0 <= selected && 0.0 < totalDistance
    ensures 0.0 <= selected / totalDistance
  {
  }

  lemma RateTimesDistance(selected: real, totalDistance: real)
    requires 0.0 < totalDistance
    ensures totalDistance * (selected / totalDistance) == selected
  {
  }

  lemma SharesAreThePrice(totalDistance: real, selected: real, segments: seq<Segment>)
    requires 0.0 < totalDistance == TotalDistance(segments)
    ensures TotalShare(segments, selected / totalDistance) == selected
  {
    RateTimesDistance(selected, totalDistance);
    SharesCoverThePrice(segments, selected / totalDistance);
  }

  lemma {:induction false} PricesNearThePrice(
    totalDistance: real, selected: real, segments: seq<Segment>, minimum: real, s: Strategy, below: real, above: real)
    requires 0.0 < totalDistance == TotalDistance(segments)
    requires 0.0 <= selected && 0.0 <= minimum
    requires forall i | 0 <= i < |segments| :: 0.0 <= segments[i].distance
    requires below == Unit(s) / 2.0 && above == Unit(s) / 2.0 + minimum
    ensures Near(TotalPrice(CalculateSegmentPrices(totalDistance, selected, segments, minimum, s)), selected,
                 Times(|segments|, below), Times(|segments|, above))
  {
    RateIsPositive(selected, totalDistance);
    SharesAreThePrice(totalDistance, selected, segments);
    PricesNearShares(segments, selected / totalDistance, minimum, s, below, above);
  }

  /**
   * When the segments cover the whole distance their prices add up to the selected price within half
   * a rounding unit a segment below, and within that plus the minimum seat price above.
   */
  lemma {:induction false} SegmentPricesAddUp(
    totalDistance: real, selected: real, segments: seq<Segment>, minimum: real, s: Strategy, below: real, above: real)
    requires 0.0 < totalDistance == TotalDistance(segments)
    requires 0.0 <= selected && 0.0 <= minimum
    requires forall i | 0 <= i < |segments| :: 0.0 <= segments[i].distance
    requires below == Unit(s) / 2.0 && above == Unit(s) / 2.0 + minimum
    ensures Near(TotalPrice(CalculateSegmentPrices(totalDistance, selected, segments, minimum, s)), selected,
                 |segments| as real * below, |segments| as real * above)
  {
    PricesNearThePrice(totalDistance, selected, segments, minimum, s, below, above);
    NearTimes(TotalPrice(CalculateSegmentPrices(totalDistance, selected, segments, minimum, s)), selected,
              |segments|, below, above);
  }

  lemma LongerIsDearer(short: real, long: real, rate: real, minimum: real, s: Strategy)
    requires short <= long && 0.0 <= rate
    ensures minimum <= SeatPrice(short, rate, minimum, s) <= SeatPrice(long, rate, minimum, s)
  {
    ScaleReal(rate, short, long);
    RoundingKeepsOrder(short * rate, long * rate, s);
  }

  /** Every segment is priced, in place. */
  lemma SegmentsStayInPlace(
    totalDistance: real, selected: real, segments: seq<Segment>, minimum: real, s: Strategy, i: nat)
    requires 0.0 < totalDistance && i < |segments|
    ensures
      var prices := CalculateSegmentPrices(totalDistance, selected, segments, minimum, s);
      && |prices| == |segments|
      && Segment(prices[i].fromPosition, prices[i].toPosition, prices[i].distance) == segments[i]
  {
  }

  /** A longer segment never costs less than a shorter one. */
  lemma LongerNeverCheaper(
    totalDistance: real, selected: real, segments: seq<Segment>, minimum: real, s: Strategy, i: nat, j: nat)
    requires 0.0 < totalDistance && 0.0 <= selected
    requires i < |segments| && j < |segments| && segments[i].distance <= segments[j].distance
    ensures
      var prices := CalculateSegmentPrices(totalDistance, selected, segments, minimum, s);
      minimum <= prices[i].pricePerSeat <= prices[j].pricePerSeat
  {
    RateIsPositive(selected, totalDistance);
    LongerIsDearer(segments[i].distance, segments[j].distance, selected / totalDistance, minimum, s);
  }
}
