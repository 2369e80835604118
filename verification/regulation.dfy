/** Economic regulation: the year's profit is split pro rata into a regulated and an
    unregulated business, and regulated profit above a 10% return on the equity
    allocated to it is clawed back as compensation. */
module Regulation {
  import opened Tables

  /** The allowed return on regulated equity. */
  const AllowedReturn: real := 0.10

  /** The revenue lines under price regulation: cargo at a cargo-only airport, aero
      and cargo at the passenger-and-cargo hub, aero everywhere else (also before a
      strategy is chosen). */
  function RegulatedRevenue(s: Option<Strategy>, aero: real, cargo: real): (r: real)
    ensures r == (if s == Some(CargoAirport) then 0.0 else aero)
                 + (if s == Some(CargoAirport) || s == Some(PassengerAndCargoHub) then cargo else 0.0)
    ensures aero >= 0.0 && cargo >= 0.0 ==> 0.0 <= r <= aero + cargo
  {
    match s
    case Some(CargoAirport) => cargo
    case Some(PassengerAndCargoHub) => aero + cargo
    case _ => aero
  }

  datatype Allocation = Allocation(
    share: real,             // regulated share of total revenue
    allocatedEquity: real,
    regulatedProfit: real,
    unregulatedProfit: real,
    compensation: real)

  /** Costs, interest and equity are allocated to the regulated business by its share
      of revenue (zero when there is no positive revenue). The two profits add up to
      the whole profit. Compensation is never negative; it is positive exactly when
      the allocated equity is positive and the regulated return exceeds 10%, and then
      it brings the regulated return down to exactly 10%. */
  function Allocate(regulatedRevenue: real, totalRevenue: real, opex: real, depreciation: real,
                    interest: real, equity: real): (r: Allocation)
    ensures r.regulatedProfit + r.unregulatedProfit == totalRevenue - opex - depreciation - interest
    ensures totalRevenue <= 0.0 ==> r.share == 0.0
    ensures totalRevenue > 0.0 ==> r.share * totalRevenue == regulatedRevenue
    ensures r.allocatedEquity == equity * r.share
    ensures r.regulatedProfit == regulatedRevenue - (opex + depreciation + interest) * r.share
    ensures r.compensation >= 0.0
    ensures r.compensation > 0.0 <==> r.allocatedEquity > 0.0 && r.regulatedProfit > AllowedReturn * r.allocatedEquity
    ensures r.compensation > 0.0 ==> r.regulatedProfit - r.compensation == AllowedReturn * r.allocatedEquity
  {
    var share := if totalRevenue > 0.0 then regulatedRevenue / totalRevenue else 0.0;
    var allocatedOpex := opex * share;
    var allocatedDepreciation := depreciation * share;
    var allocatedInterest := interest * share;
    var allocatedEquity := equity * share;
    var regulatedProfit := regulatedRevenue - allocatedOpex - allocatedDepreciation - allocatedInterest;
    var unregulatedProfit := (totalRevenue - regulatedRevenue) - (opex - allocatedOpex)
                             - (depreciation - allocatedDepreciation) - (interest - allocatedInterest);
    var compensation :=
      if allocatedEquity > 0.0 then
        var roe := regulatedProfit / allocatedEquity;
        assert roe * allocatedEquity == regulatedProfit;
        if roe > AllowedReturn then regulatedProfit - allocatedEquity * AllowedReturn else 0.0
      else 0.0;
    Allocation(share, allocatedEquity, regulatedProfit, unregulatedProfit, compensation)
  }
}
