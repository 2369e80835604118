/** The yearly growth model: congestion and operating-cost quality feedback on
    passenger traffic, and the two cargo growth models. */
module Growth {
  import opened Tables

  const PaxPerMovement: real := 150.0
  const PeakHourFactor: real := 0.15
  /** Runway capacity in movements per peak hour. */
  const RunwayCapacityMovements: real := 38.0
  /** Above this utilisation, terminal or runway congestion lowers quality. */
  const CongestionThreshold: real := 0.8
  /** Passenger traffic may not exceed this multiple of terminal capacity. */
  const TrafficCeiling: real := 1.5
  /** Passengers counted per cargo tonne at a cargo-only airport. */
  const PaxPerCargoTonne: real := 0.001

  /** Peak-hour runway movements generated by a yearly passenger volume. */
  function PeakMovements(traffic: real): real
  {
    (traffic / PaxPerMovement / 365.0) * PeakHourFactor
  }

  /** Quality multiplier for one utilisation ratio: it falls by twice the excess over
      80%, never below one half, and is 1 up to 80%. */
  function CongestionFactor(utilisation: real): (f: real)
    ensures 0.5 <= f <= 1.0
    ensures f == 1.0 <==> utilisation <= CongestionThreshold
  {
    if utilisation > CongestionThreshold then Max(0.5, 1.0 - (utilisation - CongestionThreshold) * 2.0) else 1.0
  }

  /** The quality factor after the terminal and runway utilisation penalties and the
      clamp to [0.5, 1.5]: congestion can only lower quality, and quality is unharmed
      exactly when neither terminal nor runway is above 80% utilisation. */
  function UtilisationQuality(traffic: real, capacity: real): (q: real)
    requires capacity > 0.0
    ensures 0.5 <= q <= 1.5
    ensures q <= 1.0
    ensures q == 1.0 <==> traffic / capacity <= CongestionThreshold && PeakMovements(traffic) / RunwayCapacityMovements <= CongestionThreshold
  {
    var terminal := CongestionFactor(traffic / capacity);
    var runway := CongestionFactor(PeakMovements(traffic) / RunwayCapacityMovements);
    var q := 1.0 * terminal * runway;
    ScaledDown(terminal, runway);
    ScaledDown(runway, terminal);
    Max(0.5, Min(1.5, q))
  }

  lemma ScaledDown(x: real, f: real)
    requires x >= 0.0 && 0.5 <= f <= 1.0
    ensures 0.5 * x <= x * f <= x
    ensures f < 1.0 && x > 0.0 ==> x * f < x
  {
    assert x * (f - 0.5) >= 0.0;
    assert x * (1.0 - f) >= 0.0;
    if f < 1.0 && x > 0.0 { assert x * (1.0 - f) > 0.0; }
  }

  lemma PositiveProduct(a: real, b: real)
    requires a > 0.0 && b > 0.0
    ensures a * b > 0.0
  {
  }

  /** The factor applied when opex falls short of the benchmark by the given gap: one
      less the gap times the boost multiplier, but never below one half. */
  function ShortfallFactor(gap: real, multiplier: real): (f: real)
    requires gap > 0.0 && multiplier > 0.0
    ensures 0.5 <= f < 1.0
  {
    PositiveProduct(gap, multiplier);
    Max(0.5, 1.0 - gap * multiplier)
  }

  /** A quantity scaled by a factor between one half and one: a non-negative quantity
      keeps at least half its value and does not grow. */
  function Scaled(x: real, f: real): (y: real)
    requires 0.5 <= f <= 1.0
    ensures x >= 0.0 ==> 0.5 * x <= y <= x
  {
    if x >= 0.0 then ScaledDown(x, f); x * f else x * f
  }

  /** What opex above the benchmark by the given gap yields under one multiplier: a
      quality boost or a growth penalty, positive either way. */
  function ExcessEffect(gap: real, multiplier: real): (e: real)
    requires gap > 0.0 && multiplier > 0.0
    ensures e > 0.0
  {
    PositiveProduct(gap, multiplier);
    gap * multiplier
  }

  /** The quality factor after the operating-cost adjustment, and the two impacts it reports. */
  datatype OpexEffect = OpexEffect(quality: real, opexQualityImpact: real, costImpact: real)

  /** Opex below the strategy's benchmark share of asset value lowers quality (by at
      most half); opex above it raises quality but also costs growth; opex exactly at
      the benchmark changes nothing. The adjustment multiplies the quality factor. */
  function OpexAdjusted(q: real, opexRatio: real, s: Option<Strategy>): (r: OpexEffect)
    ensures opexRatio < Params(s).opexQualityBenchmark ==>
              r.costImpact == 0.0 && r.opexQualityImpact == r.quality - 1.0 &&
              (q >= 0.0 ==> 0.5 * q <= r.quality <= q)
    ensures opexRatio > Params(s).opexQualityBenchmark ==>
              r.costImpact > 0.0 && r.opexQualityImpact > 0.0 && r.quality == q * (1.0 + r.opexQualityImpact) &&
              (q > 0.0 ==> r.quality > q)
    ensures opexRatio == Params(s).opexQualityBenchmark ==> r == OpexEffect(q, 0.0, 0.0)
  {
    var p := Params(s);
    if opexRatio < p.opexQualityBenchmark then
      var adjusted := Scaled(q, ShortfallFactor(p.opexQualityBenchmark - opexRatio, p.qualityBoostMultiplier));
      OpexEffect(adjusted, adjusted - 1.0, 0.0)
    else if opexRatio > p.opexQualityBenchmark then
      var boost := ExcessEffect(opexRatio - p.opexQualityBenchmark, p.qualityBoostMultiplier);
      var costPenalty := ExcessEffect(opexRatio - p.opexQualityBenchmark, p.costPenaltyMultiplier);
      OpexEffect(Grown(q, boost), boost, costPenalty)
    else
      OpexEffect(q, 0.0, 0.0)
  }

  /** Result of the passenger growth model. */
  datatype PaxGrowth = PaxGrowth(
    movements: real, quality: real, opexQualityImpact: real, costImpact: real,
    chargeImpact: real, growthRate: real, traffic: real)

  /** Passenger growth: quality from utilisation and opex, a price effect from the
      charge change, and new traffic capped at 1.5 times terminal capacity. The
      growth rate is the sum of the reported impacts. */
  function PassengerGrowth(s: Option<Strategy>, traffic: real, capacity: real, opex: real, assetValue: real,
                           gdpFactor: real, marketingImpact: real, chargeChangePct: real): (r: PaxGrowth)
    requires capacity > 0.0 && assetValue > 0.0
    ensures r.traffic <= TrafficCeiling * capacity
    ensures r.traffic == Min(traffic * (1.0 + r.growthRate), TrafficCeiling * capacity)
    ensures r.growthRate == (gdpFactor - 1.0) + (r.quality - 1.0) + marketingImpact + r.chargeImpact - r.costImpact
    ensures chargeChangePct > 0.0 ==> r.chargeImpact < 0.0
    ensures chargeChangePct < 0.0 ==> r.chargeImpact > 0.0
  {
    var utilised := UtilisationQuality(traffic, capacity);
    var adjusted := OpexAdjusted(utilised, opex / assetValue, s);
    var chargeImpact := -(chargeChangePct / 100.0) * Params(s).priceElasticity;
    var rate := (gdpFactor - 1.0) + (adjusted.quality - 1.0) + marketingImpact + chargeImpact - adjusted.costImpact;
    PaxGrowth(PeakMovements(traffic), adjusted.quality, adjusted.opexQualityImpact, adjusted.costImpact,
              chargeImpact, rate, Min(traffic * (1.0 + rate), TrafficCeiling * capacity))
  }

  /** Cargo growth at a cargo-only airport before marketing: the opex adjustment of
      the raw rate (half the GDP growth plus the hangar bonus). Unlike the passenger
      model the adjustment is additive above the benchmark, and below it scales the
      rate down to no less than half. */
  function CargoOnlyRate(s: Option<Strategy>, raw: real, opexRatio: real): (rate: real)
    ensures opexRatio == Params(s).opexQualityBenchmark ==> rate == raw
    ensures opexRatio < Params(s).opexQualityBenchmark && raw >= 0.0 ==> 0.5 * raw <= rate <= raw
    ensures opexRatio > Params(s).opexQualityBenchmark ==>
              rate == raw + (opexRatio - Params(s).opexQualityBenchmark) * (Params(s).qualityBoostMultiplier - Params(s).costPenaltyMultiplier)
  {
    var p := Params(s);
    if opexRatio < p.opexQualityBenchmark then
      Scaled(raw, ShortfallFactor(p.opexQualityBenchmark - opexRatio, p.qualityBoostMultiplier))
    else if opexRatio > p.opexQualityBenchmark then
      var boost := (opexRatio - p.opexQualityBenchmark) * p.qualityBoostMultiplier;
      var costPenalty := (opexRatio - p.opexQualityBenchmark) * p.costPenaltyMultiplier;
      raw + boost - costPenalty
    else
      raw
  }

  /** A quantity after a year's growth at the given rate. */
  function Grown(x: real, rate: real): (y: real)
    ensures x > 0.0 && rate > 0.0 ==> y > x
  {
    assert x > 0.0 && rate > 0.0 ==> x * rate > 0.0 by {
      if x > 0.0 && rate > 0.0 { PositiveProduct(x, rate); }
    }
    x * (1.0 + rate)
  }

  /** A quantity after a change by the given percentage. */
  function PercentChanged(x: real, pct: real): real { x * (1.0 + pct / 100.0) }

  /** The passengers a cargo-only airport counts for its cargo tonnes. */
  function CargoPassengers(tonnes: real): real { tonnes * PaxPerCargoTonne }

  /** Extra cargo growth for every hangar still under construction. */
  const HangarGrowthBonus: real := 0.05

  /** Cargo growth before any adjustment: half the GDP growth and the hangar bonus.
      Without hangars it is half the GDP growth; every pending hangar raises it; it is
      never negative while the economy grows. */
  function RawCargoRate(gdpFactor: real, hangars: nat): (r: real)
    ensures hangars == 0 ==> r == (gdpFactor - 1.0) * 0.5
    ensures hangars > 0 ==> r > (gdpFactor - 1.0) * 0.5
    ensures gdpFactor >= 1.0 ==> r >= 0.0
  {
    (gdpFactor - 1.0) * 0.5 + HangarGrowthBonus * hangars as real
  }
}
