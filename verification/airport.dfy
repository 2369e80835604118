/** The airport of the simulation game: its state, the three decisions a player takes
    during a year (a loan, a capital project, a marketing campaign) and the year
    transition. Every method names in its modifies clause exactly the fields it may
    change; everything else is left as it was. */
module Simulation {
  import opened Tables
  import opened Loans
  import opened Projects
  import opened Growth
  import opened Regulation

  const InitialCapacityPax: real := 15_000_000.0
  const InitialCash: real := 50_000_000.0
  const InitialAeroCharge: real := 15.0
  const InitialNonAeroSpend: real := 10.0
  /** Retail floor space at the start; non-aero revenue scales with space relative to it. */
  const BaseNonAeroSqm: real := 5000.0
  const CargoChargePerTonne: real := 100.0
  /** Shares of non-aero revenue reported as concession and ancillary revenue. */
  const ConcessionShare: real := 0.8
  const AncillaryShare: real := 0.2

  /** Aeronautical revenue: every passenger pays the charge. */
  function AeroRevenue(traffic: real, charge: real): real { traffic * charge }

  /** Non-aero revenue: spend per passenger, scaled by retail space relative to the
      space at the start. */
  function NonAeroRevenue(traffic: real, spendPerPax: real, sqm: real): real
  {
    traffic * spendPerPax * (sqm / BaseNonAeroSqm)
  }

  /** Cargo revenue: a fixed charge per tonne. */
  function CargoRevenue(tonnes: real): real { tonnes * CargoChargePerTonne }

  /** A project other than the Cargo Hangar is refused when the cash balance does not
      cover its equity portion, the cost less the loan that finances it. */
  predicate ProjectAccepted(name: string, cash: real, cost: real, loanAmount: real)
  {
    name == CargoHangar || cash >= cost - loanAmount
  }

  /** Whether the loan financing an accepted project is granted. The retail expansion
      deducts its equity portion before borrowing, so its loan is checked against the
      reduced equity; every other project borrows first. The retail expansion's check is
      therefore the stricter one unless the loan covers its whole cost. */
  function ProjectLoanGranted(name: string, equity: real, debt: real, cost: real, loanAmount: real): (granted: bool)
    ensures name != RetailExpansion ==> (granted <==> loanAmount > 0.0 && Approved(equity, debt, loanAmount))
    ensures name == RetailExpansion && loanAmount == cost ==>
              (granted <==> loanAmount > 0.0 && Approved(equity, debt, loanAmount))
    ensures name == RetailExpansion && loanAmount <= cost && granted ==> Approved(equity, debt, loanAmount)
  {
    var equityAtCheck := if name == RetailExpansion then equity - (cost - loanAmount) else equity;
    loanAmount > 0.0 && Approved(equityAtCheck, debt, loanAmount)
  }

  lemma LoanAppended(ls: seq<Loan>, l: Loan)
    ensures AllOnSchedule(ls) && OnSchedule(l) ==> AllOnSchedule(ls + [l])
    ensures SumAmounts(ls + [l]) == SumAmounts(ls) + l.amount
  {
    assert (ls + [l])[..|ls|] == ls;
  }

  lemma ProjectAppended(ps: seq<Project>, p: Project)
    ensures AllNonnegative(ps) && Nonnegative(p) ==> AllNonnegative(ps + [p])
  {
    if AllNonnegative(ps) && Nonnegative(p) {
      forall i | 0 <= i < |ps + [p]| ensures Nonnegative((ps + [p])[i]) {
        if i < |ps| { assert (ps + [p])[i] == ps[i]; }
      }
    }
  }

  /** The loans and the book figures of an airport, as one value. */
  datatype Books = Books(loans: seq<Loan>, debt: real, equity: real, retainedEarnings: real, cashBalance: real,
                         capexCashOutflow: real, newLoansThisYear: real, opex: real, marketingImpact: real,
                         aeronauticalCharge: real)

  class Airport {
    var strategy: Option<Strategy>
    var traffic: real
    var cargoTonnes: real
    var capacityPax: real
    var currentMovements: real
    var equity: real
    var debt: real
    var loans: seq<Loan>
    var assetReplacementValue: real
    var marketingBudgetLeft: real
    var capexProjects: seq<Project>
    var capexCashOutflow: real
    var depreciation: real
    var aeronauticalCharge: real
    var nonAeroSpendPerPax: real
    var nonAeroSqm: real
    var revenueAero: real
    var revenueNonAero: real
    var revenueCargo: real
    var opex: real
    var interestPaid: real
    var profitBeforeComp: real
    var profitAfterComp: real
    var retainedEarnings: real
    var compensation: real
    var gdpGrowthFactor: real
    var qualityFactor: real
    var marketingImpact: real
    var chargeImpact: real
    var opexQualityImpact: real
    var costImpact: real
    var trafficGrowthRate: real
    var ebitda: real
    var ebitdar: real
    var concessionRevenues: real
    var ancillaryRevenues: real
    var totalOpex: real
    var cashBalance: real
    var cfo: real
    var cfi: real
    var cff: real
    var unregulatedProfit: real
    var regulatedProfit: real
    var cargoGrowthRate: real
    var newLoansThisYear: real
    /** Book assets and the opex ratio the game started with; never read again. */
    const assets: real
    const opexRatio: real

    /** What every operation keeps: terminal capacity and asset value stay positive
        (both are divisors in the growth model), every loan is on its ten-year schedule, the debt is the sum of the
        loan balances, and no pending project has a negative cost or effect. */
    predicate Valid()
      reads this`capacityPax, this`assetReplacementValue, this`loans, this`debt, this`capexProjects
    {
      && capacityPax > 0.0
      && assetReplacementValue > 0.0
      && AllOnSchedule(loans)
      && debt == SumAmounts(loans)
      && AllNonnegative(capexProjects)
    }

    function TotalRevenue(): real
      reads this`revenueAero, this`revenueNonAero, this`revenueCargo
    {
      revenueAero + revenueNonAero + revenueCargo
    }

    /** The five quantities that opening a project adds to. */
    function Infrastructure(): Effects
      reads this`cargoTonnes, this`nonAeroSqm, this`capacityPax, this`assetReplacementValue, this`depreciation
    {
      Effects(cargoTonnes, nonAeroSqm, capacityPax, assetReplacementValue, depreciation)
    }

    /** The figures the first half of the year leaves alone: the loans and the
        books, opex, the marketing impact and the charge. */
    function Ledger(): Books
      reads this`loans, this`debt, this`equity, this`retainedEarnings, this`cashBalance, this`capexCashOutflow,
            this`newLoansThisYear, this`opex, this`marketingImpact, this`aeronauticalCharge
    {
      Books(loans, debt, equity, retainedEarnings, cashBalance, capexCashOutflow, newLoansThisYear, opex,
            marketingImpact, aeronauticalCharge)
    }

    /** The regulatory split of this year's figures, with the equity it starts from. */
    function Settlement(equityBefore: real): Allocation
      reads this`strategy, this`revenueAero, this`revenueNonAero, this`revenueCargo, this`opex, this`depreciation,
            this`interestPaid
    {
      Allocate(RegulatedRevenue(strategy, revenueAero, revenueCargo), TotalRevenue(),
               opex, depreciation, interestPaid, equityBefore)
    }

    constructor (initialTraffic: real, initialEquity: real, initialAssets: real, initialOpexRatio: real,
                 initialAssetValue: real, initialCargoTonnes: real)
      requires initialAssetValue > 0.0
      ensures Valid()
      ensures strategy.None? && traffic == initialTraffic && cargoTonnes == initialCargoTonnes
      ensures equity == initialEquity && debt == 0.0 && loans == [] && capexProjects == []
      ensures capacityPax == InitialCapacityPax && assetReplacementValue == initialAssetValue
      ensures opex == initialAssetValue * initialOpexRatio && cashBalance == InitialCash
      ensures marketingBudgetLeft == MarketingBudget && marketingImpact == 0.0
      ensures aeronauticalCharge == InitialAeroCharge && nonAeroSpendPerPax == InitialNonAeroSpend
      ensures nonAeroSqm == BaseNonAeroSqm && retainedEarnings == 0.0
      ensures capexCashOutflow == 0.0 && newLoansThisYear == 0.0
      ensures assets == initialAssets && opexRatio == initialOpexRatio
    {
      strategy := None;
      traffic := initialTraffic;
      cargoTonnes := initialCargoTonnes;
      capacityPax := InitialCapacityPax;
      currentMovements := (initialTraffic / PaxPerMovement / 365.0) * PeakHourFactor;
      equity := initialEquity;
      assets := initialAssets;
      debt := 0.0;
      loans := [];
      opexRatio := initialOpexRatio;
      assetReplacementValue := initialAssetValue;
      marketingBudgetLeft := MarketingBudget;
      capexProjects := [];
      capexCashOutflow := 0.0;
      depreciation := 0.0;
      aeronauticalCharge := InitialAeroCharge;
      nonAeroSpendPerPax := InitialNonAeroSpend;
      nonAeroSqm := BaseNonAeroSqm;
      revenueAero := 0.0;
      revenueNonAero := 0.0;
      revenueCargo := 0.0;
      opex := initialAssetValue * initialOpexRatio;
      interestPaid := 0.0;
      profitBeforeComp := 0.0;
      profitAfterComp := 0.0;
      retainedEarnings := 0.0;
      compensation := 0.0;
      gdpGrowthFactor := 1.0;
      qualityFactor := 1.0;
      marketingImpact := 0.0;
      chargeImpact := 0.0;
      opexQualityImpact := 0.0;
      costImpact := 0.0;
      trafficGrowthRate := 0.0;
      ebitda := 0.0;
      ebitdar := 0.0;
      concessionRevenues := 0.0;
      ancillaryRevenues := 0.0;
      totalOpex := 0.0;
      cashBalance := InitialCash;
      cfo := 0.0;
      cfi := 0.0;
      cff := 0.0;
      unregulatedProfit := 0.0;
      regulatedProfit := 0.0;
      cargoGrowthRate := 0.0;
      newLoansThisYear := 0.0;
    }

    /** get_gearing: debt over equity, infinite when equity is zero. */
    function Gearing(): (g: GearingValue)
      reads this
      ensures g.Infinite? <==> equity == 0.0
      ensures g.Ratio? ==> g.value * equity == debt
    {
      if equity == 0.0 then Infinite else Ratio(debt / equity)
    }

    /** take_loan: refused, with nothing changed, when equity is not positive or the new
        gearing would exceed 60%; otherwise debt and this year's new borrowing grow by
        the amount, a fresh ten-year loan at 4.5% is appended, and gearing stays within
        the cap. */
    method TakeLoan(amount: real) returns (ok: bool)
      requires Valid()
      modifies this`debt, this`newLoansThisYear, this`loans
      ensures Valid()
      ensures ok <==> Approved(equity, old(debt), amount)
      ensures !ok ==> debt == old(debt) && newLoansThisYear == old(newLoansThisYear) && loans == old(loans)
      ensures ok ==> && debt == old(debt) + amount
                     && newLoansThisYear == old(newLoansThisYear) + amount
                     && loans == old(loans) + [NewLoan(amount)]
                     && Gearing().Ratio? && Gearing().value <= GearingCap
    {
      if equity <= 0.0 || (debt + amount) / equity > GearingCap {
        return false;
      }
      ApprovedGearing(equity, debt, amount);
      NewLoanOnSchedule(amount);
      LoanAppended(loans, NewLoan(amount));
      debt := debt + amount;
      newLoansThisYear := newLoansThisYear + amount;
      loans := loans + [NewLoan(amount)];
      return true;
    }

    /** add_capex_project. The Cargo Hangar is built by a third party: it is always
        accepted and only joins the pending projects. Any other project is refused with
        nothing changed when the cash balance does not cover its equity portion;
        otherwise it joins the pending projects (the retail expansion always with 1000
        square metres), equity drops by the equity portion, the year's capital outflow
        grows by the full cost, the cash balance waits for the year end, and the loan is
        taken if it passes the gearing rule. A refused loan does not undo the project. */
    method AddCapexProject(name: string, cost: real, capacityIncrease: real, leadTime: int, loanAmount: real)
      returns (ok: bool)
      requires Valid()
      requires cost >= 0.0 && capacityIncrease >= 0.0
      modifies this`capexProjects, this`equity, this`capexCashOutflow, this`debt, this`newLoansThisYear, this`loans
      ensures Valid()
      ensures ok <==> ProjectAccepted(name, cashBalance, cost, loanAmount)
      ensures !ok ==> && capexProjects == old(capexProjects) && equity == old(equity)
                      && capexCashOutflow == old(capexCashOutflow) && loans == old(loans) && debt == old(debt)
                      && newLoansThisYear == old(newLoansThisYear)
      ensures name == CargoHangar ==>
                && capexProjects == old(capexProjects) + [Project(name, cost, capacityIncrease, leadTime)]
                && equity == old(equity) && capexCashOutflow == old(capexCashOutflow)
                && loans == old(loans) && debt == old(debt) && newLoansThisYear == old(newLoansThisYear)
      ensures name != CargoHangar && ok ==>
                var granted := ProjectLoanGranted(name, old(equity), old(debt), cost, loanAmount);
                && capexProjects == old(capexProjects) +
                     [Project(name, cost, if name == RetailExpansion then RetailFloorSpace else capacityIncrease, leadTime)]
                && equity == old(equity) - (cost - loanAmount)
                && capexCashOutflow == old(capexCashOutflow) + cost
                && loans == old(loans) + (if granted then [NewLoan(loanAmount)] else [])
                && debt == old(debt) + (if granted then loanAmount else 0.0)
                && newLoansThisYear == old(newLoansThisYear) + (if granted then loanAmount else 0.0)
    {
      if name == CargoHangar {
        ProjectAppended(capexProjects, Project(name, cost, capacityIncrease, leadTime));
        capexProjects := capexProjects + [Project(name, cost, capacityIncrease, leadTime)];
        return true;
      } else if name == RetailExpansion {
        var equityPortion := cost - loanAmount;
        if cashBalance < equityPortion {
          return false;
        }
        ProjectAppended(capexProjects, Project(name, cost, RetailFloorSpace, leadTime));
        capexProjects := capexProjects + [Project(name, cost, RetailFloorSpace, leadTime)];
        equity := equity - equityPortion;
        capexCashOutflow := capexCashOutflow + cost;
        if loanAmount > 0.0 {
          var _ := TakeLoan(loanAmount);
        }
        return true;
      } else {
        var equityPortion := cost - loanAmount;
        if cashBalance < equityPortion {
          return false;
        }
        ProjectAppended(capexProjects, Project(name, cost, capacityIncrease, leadTime));
        capexProjects := capexProjects + [Project(name, cost, capacityIncrease, leadTime)];
        if loanAmount > 0.0 {
          var _ := TakeLoan(loanAmount);
        }
        equity := equity - equityPortion;
        capexCashOutflow := capexCashOutflow + cost;
        return true;
      }
    }

    /** apply_marketing_impact: refused, with nothing changed, when the campaign costs
        more than the budget left; otherwise the budget drops by the cost (never below
        zero), and an aero campaign adds its strategy-weighted impact to this year's
        marketing impact while a non-aero campaign raises the spend per passenger by it. */
    method ApplyMarketingImpact(c: Campaign) returns (ok: bool)
      modifies this`marketingBudgetLeft, this`marketingImpact, this`nonAeroSpendPerPax
      ensures ok <==> old(marketingBudgetLeft) >= Terms(c).cost
      ensures !ok ==> && marketingBudgetLeft == old(marketingBudgetLeft) && marketingImpact == old(marketingImpact)
                      && nonAeroSpendPerPax == old(nonAeroSpendPerPax)
      ensures ok ==> marketingBudgetLeft == old(marketingBudgetLeft) - Terms(c).cost && marketingBudgetLeft >= 0.0
      ensures ok && Terms(c).kind == Aero ==>
                && marketingImpact == old(marketingImpact) + CampaignImpact(c, strategy)
                && nonAeroSpendPerPax == old(nonAeroSpendPerPax)
      ensures ok && Terms(c).kind == NonAero ==>
                && nonAeroSpendPerPax == Grown(old(nonAeroSpendPerPax), CampaignImpact(c, strategy))
                && marketingImpact == old(marketingImpact)
    {
      var terms := Terms(c);
      if marketingBudgetLeft >= terms.cost {
        marketingBudgetLeft := marketingBudgetLeft - terms.cost;
        var impact := CampaignImpact(c, strategy);
        if terms.kind == Aero {
          marketingImpact := marketingImpact + impact;
        } else {
          nonAeroSpendPerPax := Grown(nonAeroSpendPerPax, impact);
        }
        return true;
      } else {
        return false;
      }
    }

    /** Steps 1 and 2 on the infrastructure: the pending projects are one maturation
        round further, and capacity and asset value grow by exactly what opened, whose
        depreciation is this year's depreciation. */
    predicate Matured(projects0: seq<Project>, sqm0: real, capacity0: real, assetValue0: real)
      reads this`capexProjects, this`nonAeroSqm, this`capacityPax, this`assetReplacementValue, this`depreciation
    {
      var m := Mature(projects0);
      && capexProjects == m.pending
      && nonAeroSqm == sqm0 + m.gained.nonAeroSqm
      && capacityPax == capacity0 + m.gained.capacityPax
      && assetReplacementValue == assetValue0 + m.gained.assetValue
      && depreciation == m.gained.depreciation
    }

    /** Step 2 on the traffic: a cargo-only airport counts a thousandth of its cargo
        tonnes; any other airport has the traffic of the passenger growth model, from
        last year's traffic, with the opex, GDP factor and marketing impact given. */
    predicate TrafficGrown(traffic0: real, opex0: real, gdpFactor: real, marketing: real, chargeChange: real)
      reads this`strategy, this`traffic, this`cargoTonnes, this`capacityPax, this`assetReplacementValue,
            this`qualityFactor, this`opexQualityImpact, this`costImpact
    {
      && (strategy == Some(CargoAirport) ==> traffic == CargoPassengers(cargoTonnes))
      && (strategy != Some(CargoAirport) ==>
            && capacityPax > 0.0 && assetReplacementValue > 0.0
            && var g := PassengerGrowth(strategy, traffic0, capacityPax, opex0, assetReplacementValue,
                                        gdpFactor, marketing, chargeChange);
               traffic == g.traffic && qualityFactor == g.quality
               && opexQualityImpact == g.opexQualityImpact && costImpact == g.costImpact)
    }

    /** Step 2 on the cargo, from the tonnes after the projects opened: a cargo-only
        airport grows them by its own rate on the opex to asset-value ratio; the
        passenger-and-cargo hub by the raw cargo rate plus half its quality change; both
        add the marketing impact; any other airport keeps its tonnes. */
    predicate CargoGrown(tonnes0: real, gdpFactor: real, opex0: real, marketing: real)
      reads this`strategy, this`cargoTonnes, this`capexProjects, this`assetReplacementValue, this`qualityFactor
    {
      var raw := RawCargoRate(gdpFactor, CountHangars(capexProjects));
      && (strategy == Some(CargoAirport) ==>
            && assetReplacementValue > 0.0
            && cargoTonnes == Grown(tonnes0, CargoOnlyRate(strategy, raw, opex0 / assetReplacementValue) + marketing))
      && (strategy == Some(PassengerAndCargoHub) ==>
            cargoTonnes == Grown(tonnes0, raw + (qualityFactor - 1.0) * 0.5 + marketing))
      && (strategy != Some(CargoAirport) && strategy != Some(PassengerAndCargoHub) ==> cargoTonnes == tonnes0)
    }

    /** Step 4: the loans are one amortisation step further, the debt has fallen by a
        tenth of all that was borrowed, and the interest is 4.5% of the debt before. */
    predicate Serviced(loans0: seq<Loan>, debt0: real)
      reads this`loans, this`debt, this`interestPaid
    {
      && loans == Amortise(loans0).kept
      && debt == debt0 - SumOriginal(loans0) / 10.0
      && interestPaid == InterestRate * debt0
    }

    /** Step 3: the charge and opex move by their percentage changes from the figures
        given, the three revenue lines are those of this year's traffic, charge, retail
        space and cargo, and EBITDA is all revenue, cargo included, less opex. */
    predicate Earned(charge0: real, opex0: real, chargeChange: real, opexChange: real)
      reads this`aeronauticalCharge, this`opex, this`revenueAero, this`revenueNonAero, this`revenueCargo,
            this`traffic, this`nonAeroSpendPerPax, this`nonAeroSqm, this`cargoTonnes, this`ebitda
    {
      && aeronauticalCharge == PercentChanged(charge0, chargeChange)
      && opex == PercentChanged(opex0, opexChange)
      && revenueAero == AeroRevenue(traffic, aeronauticalCharge)
      && revenueNonAero == NonAeroRevenue(traffic, nonAeroSpendPerPax, nonAeroSqm)
      && revenueCargo == CargoRevenue(cargoTonnes)
      && ebitda == TotalRevenue() - opex
    }

    /** Step 5: the regulated and unregulated profits and the compensation are those of
        the regulatory split on the equity given, and profit before compensation is
        their sum. */
    predicate Settled(equity0: real)
      reads this`strategy, this`revenueAero, this`revenueNonAero, this`revenueCargo, this`opex, this`depreciation,
            this`interestPaid, this`regulatedProfit, this`unregulatedProfit, this`compensation, this`profitBeforeComp
    {
      var a := Settlement(equity0);
      && regulatedProfit == a.regulatedProfit && unregulatedProfit == a.unregulatedProfit
      && compensation == a.compensation
      && profitBeforeComp == regulatedProfit + unregulatedProfit
    }

    /** Steps 5 to 8 once the compensation is settled: profit after it is revenue less
        opex, depreciation, interest and compensation, and is added to equity; the cash flow is EBITDA less compensation,
        less the capital outflow, plus the new loans less the principal repaid, and is
        added to cash; the period accumulators start again. */
    predicate Closed(retained0: real, equity0: real, cash0: real, outflow0: real, newLoans0: real, principal: real)
      reads this`strategy, this`revenueAero, this`revenueNonAero, this`revenueCargo, this`opex, this`depreciation,
            this`interestPaid, this`ebitda, this`compensation, this`profitAfterComp, this`equity, this`cfo,
            this`cfi, this`cff, this`cashBalance, this`capexCashOutflow, this`newLoansThisYear,
            this`marketingBudgetLeft, this`marketingImpact, this`retainedEarnings
    {
      && profitAfterComp == TotalRevenue() - opex - depreciation - interestPaid - compensation
      && retainedEarnings == retained0 + profitAfterComp
      && equity == equity0 + profitAfterComp
      && cfo == ebitda - compensation && cfi == -outflow0 && cff == newLoans0 - principal
      && cashBalance == cash0 + cfo + cfi + cff
      && capexCashOutflow == 0.0 && newLoansThisYear == 0.0
      && marketingBudgetLeft == MarketingBudget && marketingImpact == 0.0
    }

    /** update_for_new_year: the eight steps in order. Across the whole year: the
        invariant holds again (loans on schedule, debt their sum); projects mature and
        retail space, capacity, asset value and depreciation change by exactly what
        opened; traffic and cargo are those of the growth models on last year's figures,
        opex and marketing impact, traffic within 1.5 times capacity except at a
        cargo-only airport; the loans are one amortisation step further; EBITDA includes
        cargo; the compensation is the regulatory claw-back on the equity the year
        started from; equity and cash roll forward by the year's profit and cash flow,
        operating flow EBITDA less compensation, investing flow minus the year's capital
        outflow, financing flow the year's new loans less a tenth of all that was
        borrowed; and the period accumulators start again. */
    method UpdateForNewYear(gdpGrowth: real, opexChange: real, aeroChargeChange: real)
      requires Valid()
      modifies this`gdpGrowthFactor, this`qualityFactor, this`opexQualityImpact, this`costImpact, this`cargoGrowthRate,
               this`depreciation, this`capexProjects, this`cargoTonnes, this`nonAeroSqm, this`capacityPax,
               this`assetReplacementValue, this`traffic, this`currentMovements, this`chargeImpact, this`trafficGrowthRate,
               this`aeronauticalCharge, this`revenueNonAero, this`revenueAero, this`revenueCargo, this`opex,
               this`totalOpex, this`concessionRevenues, this`ancillaryRevenues, this`ebitda, this`ebitdar,
               this`interestPaid, this`loans, this`debt, this`regulatedProfit, this`unregulatedProfit,
               this`compensation, this`profitBeforeComp, this`profitAfterComp, this`retainedEarnings, this`equity,
               this`cfo, this`cfi, this`cff, this`cashBalance, this`capexCashOutflow,
               this`newLoansThisYear, this`marketingBudgetLeft, this`marketingImpact
      ensures Valid()
      ensures gdpGrowthFactor == 1.0 + gdpGrowth / 100.0
      ensures Matured(old(capexProjects), old(nonAeroSqm), old(capacityPax), old(assetReplacementValue))
      ensures TrafficGrown(old(traffic), old(opex), gdpGrowthFactor, old(marketingImpact), aeroChargeChange)
      ensures CargoGrown(old(cargoTonnes) + Mature(old(capexProjects)).gained.cargoTonnes, gdpGrowthFactor,
                         old(opex), old(marketingImpact))
      ensures strategy != Some(CargoAirport) ==> traffic <= TrafficCeiling * capacityPax
      ensures strategy == Some(CargoAirport) ==> qualityFactor == 1.0 && opexQualityImpact == 0.0 && costImpact == 0.0
      ensures Serviced(old(loans), old(debt))
      ensures Earned(old(aeronauticalCharge), old(opex), aeroChargeChange, opexChange)
      ensures Settled(old(equity))
      ensures Closed(old(retainedEarnings), old(equity), old(cashBalance), old(capexCashOutflow), old(newLoansThisYear),
                     SumOriginal(old(loans)) / 10.0)
    {
      OpenAndGrow(gdpGrowth, aeroChargeChange);
      CloseYear(opexChange, aeroChargeChange);
    }

    /** Steps 1 and 2: the projects whose lead time runs out open, then traffic and
        cargo grow from the tonnes the year opened with plus what opened. The books,
        the loans, opex and the marketing impact are left as they were. */
    method OpenAndGrow(gdpGrowth: real, aeroChargeChange: real)
      requires Valid()
      modifies this`gdpGrowthFactor, this`qualityFactor, this`opexQualityImpact, this`costImpact,
               this`cargoGrowthRate, this`depreciation, this`capexProjects, this`cargoTonnes, this`nonAeroSqm,
               this`capacityPax, this`assetReplacementValue, this`traffic, this`currentMovements,
               this`chargeImpact, this`trafficGrowthRate
      ensures Valid()
      ensures gdpGrowthFactor == 1.0 + gdpGrowth / 100.0
      ensures Matured(old(capexProjects), old(nonAeroSqm), old(capacityPax), old(assetReplacementValue))
      ensures capacityPax >= old(capacityPax) && assetReplacementValue >= old(assetReplacementValue)
      ensures TrafficGrown(old(traffic), opex, gdpGrowthFactor, marketingImpact, aeroChargeChange)
      ensures CargoGrown(old(cargoTonnes) + Mature(old(capexProjects)).gained.cargoTonnes, gdpGrowthFactor,
                         opex, marketingImpact)
      ensures strategy != Some(CargoAirport) ==> traffic <= TrafficCeiling * capacityPax
      ensures strategy == Some(CargoAirport) ==> qualityFactor == 1.0 && opexQualityImpact == 0.0 && costImpact == 0.0
      ensures Ledger() == old(Ledger())
    {
      OpenProjects(gdpGrowth);
      Grow(aeroChargeChange);
    }

    /** Step 1: the year starts afresh and the projects whose lead time runs out open. */
    method OpenProjects(gdpGrowth: real)
      requires Valid()
      modifies this`gdpGrowthFactor, this`qualityFactor, this`opexQualityImpact, this`costImpact,
               this`cargoGrowthRate, this`depreciation, this`capexProjects, this`cargoTonnes, this`nonAeroSqm,
               this`capacityPax, this`assetReplacementValue
      ensures Valid()
      ensures Matured(old(capexProjects), old(nonAeroSqm), old(capacityPax), old(assetReplacementValue))
      ensures cargoTonnes == old(cargoTonnes) + Mature(old(capexProjects)).gained.cargoTonnes
      ensures capacityPax >= old(capacityPax) && assetReplacementValue >= old(assetReplacementValue)
      ensures gdpGrowthFactor == 1.0 + gdpGrowth / 100.0 && cargoGrowthRate == 0.0
      ensures qualityFactor == 1.0 && opexQualityImpact == 0.0 && costImpact == 0.0
      ensures unchanged(this`traffic)
      ensures Ledger() == old(Ledger())
    {
      BeginYear(gdpGrowth);
      MatureProjects();
    }

    /** Steps 3 to 8: revenue and EBITDA, debt service, the regulatory settlement, the
        cash flow and the reset of the period accumulators; the financing flow repays a
        tenth of all that was borrowed. The infrastructure and traffic are left as they
        were. */
    method CloseYear(opexChange: real, aeroChargeChange: real)
      requires Valid()
      modifies this`aeronauticalCharge, this`revenueNonAero, this`revenueAero, this`revenueCargo, this`opex,
               this`totalOpex, this`concessionRevenues, this`ancillaryRevenues, this`ebitda, this`ebitdar,
               this`interestPaid, this`loans, this`debt, this`regulatedProfit, this`unregulatedProfit,
               this`compensation, this`profitBeforeComp, this`profitAfterComp, this`retainedEarnings, this`equity,
               this`cfo, this`cfi, this`cff, this`cashBalance, this`capexCashOutflow, this`newLoansThisYear,
               this`marketingBudgetLeft, this`marketingImpact
      ensures Valid()
      ensures unchanged(this`capexProjects, this`nonAeroSqm, this`capacityPax, this`assetReplacementValue,
                        this`depreciation, this`traffic, this`cargoTonnes, this`qualityFactor,
                        this`opexQualityImpact, this`costImpact, this`gdpGrowthFactor)
      ensures Serviced(old(loans), old(debt))
      ensures Earned(old(aeronauticalCharge), old(opex), aeroChargeChange, opexChange)
      ensures Settled(old(equity))
      ensures Closed(old(retainedEarnings), old(equity), old(cashBalance), old(capexCashOutflow), old(newLoansThisYear),
                     SumOriginal(old(loans)) / 10.0)
    {
      var principal := EarnAndServe(opexChange, aeroChargeChange);
      SettleAndClose(principal);
    }

    /** Steps 3 and 4: revenue and EBITDA, then debt service. Returns the principal
        repaid, a tenth of all that was borrowed; the books and the infrastructure are
        left as they were. */
    method EarnAndServe(opexChange: real, aeroChargeChange: real) returns (principal: real)
      requires Valid()
      modifies this`aeronauticalCharge, this`revenueNonAero, this`revenueAero, this`revenueCargo, this`opex,
               this`totalOpex, this`concessionRevenues, this`ancillaryRevenues, this`ebitda, this`ebitdar,
               this`interestPaid, this`loans, this`debt
      ensures Valid()
      ensures Serviced(old(loans), old(debt))
      ensures principal == SumOriginal(old(loans)) / 10.0
      ensures Earned(old(aeronauticalCharge), old(opex), aeroChargeChange, opexChange)
      ensures unchanged(this`capexProjects, this`nonAeroSqm, this`capacityPax, this`assetReplacementValue,
                        this`depreciation, this`traffic, this`cargoTonnes, this`qualityFactor,
                        this`opexQualityImpact, this`costImpact, this`gdpGrowthFactor)
      ensures unchanged(this`equity, this`retainedEarnings, this`cashBalance, this`capexCashOutflow, this`newLoansThisYear)
    {
      ComputeFinancials(opexChange, aeroChargeChange);
      principal := ServiceLoans();
    }

    /** Steps 5 to 8: the regulatory settlement on the equity before it, the cash flow
        with the principal given, and the reset of the period accumulators. */
    method SettleAndClose(principal: real)
      modifies this`regulatedProfit, this`unregulatedProfit, this`compensation, this`profitBeforeComp,
               this`profitAfterComp, this`retainedEarnings, this`equity,
               this`cfo, this`cfi, this`cff, this`cashBalance, this`capexCashOutflow, this`newLoansThisYear,
               this`marketingBudgetLeft, this`marketingImpact
      ensures Settled(old(equity))
      ensures Closed(old(retainedEarnings), old(equity), old(cashBalance), old(capexCashOutflow), old(newLoansThisYear),
                     principal)
      ensures unchanged(this`aeronauticalCharge, this`opex, this`revenueAero, this`revenueNonAero, this`revenueCargo,
                        this`ebitda, this`loans, this`debt, this`interestPaid)
      ensures unchanged(this`capexProjects, this`nonAeroSqm, this`capacityPax, this`assetReplacementValue,
                        this`depreciation, this`traffic, this`cargoTonnes, this`qualityFactor,
                        this`opexQualityImpact, this`costImpact, this`gdpGrowthFactor)
    {
      SettleRegulation();
      CloseBooks(principal);
    }

    /** Step 1 starts afresh: the GDP factor of the year, and quality, its two impacts,
        the cargo growth rate and depreciation back to neutral. */
    method BeginYear(gdpGrowth: real)
      modifies this`gdpGrowthFactor, this`qualityFactor, this`opexQualityImpact, this`costImpact,
               this`cargoGrowthRate, this`depreciation
      ensures gdpGrowthFactor == 1.0 + gdpGrowth / 100.0
      ensures qualityFactor == 1.0 && opexQualityImpact == 0.0 && costImpact == 0.0
      ensures cargoGrowthRate == 0.0 && depreciation == 0.0
      ensures unchanged(this`capexProjects, this`cargoTonnes, this`nonAeroSqm, this`capacityPax, this`assetReplacementValue)
      ensures unchanged(this`traffic)
      ensures Ledger() == old(Ledger())
    {
      gdpGrowthFactor := 1.0 + gdpGrowth / 100.0;
      qualityFactor := 1.0;
      opexQualityImpact := 0.0;
      costImpact := 0.0;
      cargoGrowthRate := 0.0;
      depreciation := 0.0;
    }

    /** The maturation loop: one pass over a copy of the pending projects, in order;
        each project's lead time drops by one, and one whose lead time runs out takes
        effect and is removed from the list in place. */
    method MatureProjects()
      requires AllNonnegative(capexProjects)
      modifies this`capexProjects, this`cargoTonnes, this`nonAeroSqm, this`capacityPax,
               this`assetReplacementValue, this`depreciation
      ensures AllNonnegative(capexProjects)
      ensures capexProjects == Mature(old(capexProjects)).pending
      ensures Infrastructure() == old(Infrastructure()).Plus(Mature(old(capexProjects)).gained)
      ensures capacityPax >= old(capacityPax) && assetReplacementValue >= old(assetReplacementValue)
      ensures unchanged(this`gdpGrowthFactor, this`cargoGrowthRate, this`qualityFactor, this`opexQualityImpact,
                        this`costImpact)
      ensures unchanged(this`traffic)
      ensures Ledger() == old(Ledger())
    {
      var ps := capexProjects;
      ghost var start := Infrastructure();
      var i, j := 0, 0;
      assert ps[..0] == [] && ps[0..] == ps;
      while i < |ps|
        invariant 0 <= i <= |ps|
        invariant j == |Mature(ps[..i]).pending|
        invariant capexProjects == Mature(ps[..i]).pending + ps[i..]
        invariant Infrastructure() == start.Plus(Mature(ps[..i]).gained)
      {
        j := AgeProject(ps, start, i, j);
        i := i + 1;
      }
      assert ps[..i] == ps && ps[i..] == [];
      MatureNonnegative(ps);
    }

    /** One turn of the maturation loop: the next project of the copy ages by a year,
        and opens and leaves the list, or stays in its place with its new lead time.
        Returns the position of the project after it in the list. */
    method AgeProject(ps: seq<Project>, ghost start: Effects, i: nat, j: nat) returns (next: nat)
      requires i < |ps|
      requires j == |Mature(ps[..i]).pending| && capexProjects == Mature(ps[..i]).pending + ps[i..]
      requires Infrastructure() == start.Plus(Mature(ps[..i]).gained)
      modifies this`capexProjects, this`cargoTonnes, this`nonAeroSqm, this`capacityPax,
               this`assetReplacementValue, this`depreciation
      ensures next == |Mature(ps[..i + 1]).pending| && capexProjects == Mature(ps[..i + 1]).pending + ps[i + 1..]
      ensures Infrastructure() == start.Plus(Mature(ps[..i + 1]).gained)
    {
      ghost var m := Mature(ps[..i]);
      MatureSnoc(ps, i);
      RemoveNext(m.pending, ps, i);
      var project := Tick(capexProjects[j]);
      if project.leadTime <= 0 {
        Open(project);
        PlusSwap(start, m.gained, EffectOf(project));
        capexProjects := capexProjects[..j] + capexProjects[j + 1..];
        next := j;
      } else {
        ReplaceNext(m.pending, ps, i, project);
        capexProjects := capexProjects[j := project];
        next := j + 1;
      }
    }

    /** A project opens: the Cargo Hangar adds cargo tonnes, the retail expansion adds
        retail space, any other project adds passenger capacity; all but the hangar add
        their cost to the asset value and a 25th of it to this year's depreciation. */
    method Open(p: Project)
      modifies this`cargoTonnes, this`nonAeroSqm, this`capacityPax, this`assetReplacementValue, this`depreciation
      ensures Infrastructure() == old(Infrastructure()).Plus(EffectOf(p))
    {
      if p.name == CargoHangar {
        cargoTonnes := cargoTonnes + p.increase;
      } else if p.name == RetailExpansion {
        nonAeroSqm := nonAeroSqm + p.increase;
        assetReplacementValue := assetReplacementValue + p.cost;
        depreciation := depreciation + p.cost / DepreciationYears;
      } else {
        capacityPax := capacityPax + p.increase;
        assetReplacementValue := assetReplacementValue + p.cost;
        depreciation := depreciation + p.cost / DepreciationYears;
      }
    }

    /** Adds the growth bonus for each Cargo Hangar still pending to a cargo growth rate. */
    method AddHangarBonus(rate: real) returns (r: real)
      ensures r == rate + HangarGrowthBonus * (CountHangars(capexProjects) as real)
    {
      r := rate;
      var i := 0;
      while i < |capexProjects|
        invariant 0 <= i <= |capexProjects|
        invariant r == rate + HangarGrowthBonus * (CountHangars(capexProjects[..i]) as real)
      {
        assert capexProjects[..i + 1][..i] == capexProjects[..i];
        if capexProjects[i].name == CargoHangar {
          r := r + HangarGrowthBonus;
        }
        i := i + 1;
      }
      assert capexProjects[..i] == capexProjects;
    }

    /** Step 2, growth by strategy. A cargo-only airport grows cargo by its own model and
        counts a thousandth of its cargo tonnes as passengers, leaving the passenger
        figures of the last growth step as they were; every other strategy grows
        passengers from the neutral quality set at the start of the year, and the
        passenger-and-cargo hub grows cargo as well, by half its quality change. */
    method Grow(aeroChargeChange: real)
      requires capacityPax > 0.0 && assetReplacementValue > 0.0 && cargoGrowthRate == 0.0
      modifies this`traffic, this`cargoTonnes, this`cargoGrowthRate, this`currentMovements, this`qualityFactor,
               this`opexQualityImpact, this`costImpact, this`chargeImpact, this`trafficGrowthRate
      ensures strategy == Some(CargoAirport) ==>
                && cargoGrowthRate == CargoOnlyRate(strategy, RawCargoRate(gdpGrowthFactor, CountHangars(capexProjects)),
                                                    opex / assetReplacementValue) + marketingImpact
                && cargoTonnes == Grown(old(cargoTonnes), cargoGrowthRate)
                && traffic == CargoPassengers(cargoTonnes)
                && currentMovements == old(currentMovements) && qualityFactor == old(qualityFactor)
                && opexQualityImpact == old(opexQualityImpact) && costImpact == old(costImpact)
                && chargeImpact == old(chargeImpact) && trafficGrowthRate == old(trafficGrowthRate)
      ensures strategy != Some(CargoAirport) ==>
                var g := PassengerGrowth(strategy, old(traffic), capacityPax, opex, assetReplacementValue,
                                         gdpGrowthFactor, marketingImpact, aeroChargeChange);
                && traffic == g.traffic && currentMovements == g.movements && qualityFactor == g.quality
                && opexQualityImpact == g.opexQualityImpact && costImpact == g.costImpact
                && chargeImpact == g.chargeImpact && trafficGrowthRate == g.growthRate
      ensures strategy == Some(PassengerAndCargoHub) ==>
                && cargoGrowthRate == RawCargoRate(gdpGrowthFactor, CountHangars(capexProjects))
                                      + (qualityFactor - 1.0) * 0.5 + marketingImpact
                && cargoTonnes == Grown(old(cargoTonnes), cargoGrowthRate)
      ensures strategy != Some(CargoAirport) && strategy != Some(PassengerAndCargoHub) ==>
                cargoTonnes == old(cargoTonnes) && cargoGrowthRate == 0.0
      ensures TrafficGrown(old(traffic), opex, gdpGrowthFactor, marketingImpact, aeroChargeChange)
      ensures CargoGrown(old(cargoTonnes), gdpGrowthFactor, opex, marketingImpact)
      ensures unchanged(this`capexProjects, this`nonAeroSqm, this`capacityPax, this`assetReplacementValue,
                        this`depreciation, this`gdpGrowthFactor)
      ensures Ledger() == old(Ledger())
    {
      if strategy == Some(CargoAirport) {
        GrowCargoOnly();
      } else {
        GrowPassengers(aeroChargeChange);
        if strategy == Some(PassengerAndCargoHub) {
          GrowHubCargo();
        }
      }
    }

    /** Cargo growth at a cargo-only airport; its passenger count follows its tonnes. */
    method GrowCargoOnly()
      requires assetReplacementValue > 0.0
      modifies this`traffic, this`cargoTonnes, this`cargoGrowthRate
      ensures cargoGrowthRate == CargoOnlyRate(strategy, RawCargoRate(gdpGrowthFactor, CountHangars(capexProjects)),
                                               opex / assetReplacementValue) + marketingImpact
      ensures cargoTonnes == Grown(old(cargoTonnes), cargoGrowthRate)
      ensures traffic == CargoPassengers(cargoTonnes)
      ensures unchanged(this`capexProjects, this`nonAeroSqm, this`capacityPax, this`assetReplacementValue,
                        this`depreciation, this`gdpGrowthFactor)
      ensures Ledger() == old(Ledger())
    {
      var rate := AddHangarBonus((gdpGrowthFactor - 1.0) * 0.5);
      cargoGrowthRate := CargoOnlyRate(strategy, rate, opex / assetReplacementValue) + marketingImpact;
      cargoTonnes := Grown(cargoTonnes, cargoGrowthRate);
      traffic := CargoPassengers(cargoTonnes);
    }

    /** Passenger growth with congestion and opex quality feedback, capped by capacity. */
    method GrowPassengers(aeroChargeChange: real)
      requires capacityPax > 0.0 && assetReplacementValue > 0.0
      modifies this`traffic, this`currentMovements, this`qualityFactor, this`opexQualityImpact,
               this`costImpact, this`chargeImpact, this`trafficGrowthRate
      ensures var g := PassengerGrowth(strategy, old(traffic), capacityPax, opex, assetReplacementValue,
                                       gdpGrowthFactor, marketingImpact, aeroChargeChange);
              && traffic == g.traffic && currentMovements == g.movements && qualityFactor == g.quality
              && opexQualityImpact == g.opexQualityImpact && costImpact == g.costImpact
              && chargeImpact == g.chargeImpact && trafficGrowthRate == g.growthRate
      ensures unchanged(this`capexProjects, this`nonAeroSqm, this`capacityPax, this`assetReplacementValue,
                        this`depreciation, this`gdpGrowthFactor)
      ensures Ledger() == old(Ledger())
    {
      var g := PassengerGrowth(strategy, traffic, capacityPax, opex, assetReplacementValue,
                               gdpGrowthFactor, marketingImpact, aeroChargeChange);
      currentMovements := g.movements;
      qualityFactor := g.quality;
      opexQualityImpact := g.opexQualityImpact;
      costImpact := g.costImpact;
      chargeImpact := g.chargeImpact;
      trafficGrowthRate := g.growthRate;
      traffic := g.traffic;
    }

    /** Cargo growth at the passenger-and-cargo hub: the raw cargo rate plus half the
        quality change of this year's passenger growth. */
    method GrowHubCargo()
      modifies this`cargoTonnes, this`cargoGrowthRate
      ensures cargoGrowthRate == RawCargoRate(gdpGrowthFactor, CountHangars(capexProjects))
                                 + (qualityFactor - 1.0) * 0.5 + marketingImpact
      ensures cargoTonnes == Grown(old(cargoTonnes), cargoGrowthRate)
      ensures unchanged(this`capexProjects, this`nonAeroSqm, this`capacityPax, this`assetReplacementValue,
                        this`depreciation, this`gdpGrowthFactor)
      ensures Ledger() == old(Ledger())
    {
      var base := AddHangarBonus((gdpGrowthFactor - 1.0) * 0.5);
      cargoGrowthRate := base + (qualityFactor - 1.0) * 0.5 + marketingImpact;
      cargoTonnes := Grown(cargoTonnes, cargoGrowthRate);
    }

    /** Step 3: the new charge, the three revenue lines, the changed opex, EBITDA (cargo
        included) and EBITDAR (the ancillary share of non-aero revenue added back). */
    method ComputeFinancials(opexChange: real, aeroChargeChange: real)
      modifies this`aeronauticalCharge, this`revenueNonAero, this`revenueAero, this`revenueCargo, this`opex,
               this`totalOpex, this`concessionRevenues, this`ancillaryRevenues, this`ebitda, this`ebitdar
      ensures aeronauticalCharge == PercentChanged(old(aeronauticalCharge), aeroChargeChange)
      ensures revenueAero == AeroRevenue(traffic, aeronauticalCharge)
      ensures revenueNonAero == NonAeroRevenue(traffic, nonAeroSpendPerPax, nonAeroSqm)
      ensures revenueCargo == CargoRevenue(cargoTonnes)
      ensures opex == PercentChanged(old(opex), opexChange) && totalOpex == opex
      ensures concessionRevenues == ConcessionShare * revenueNonAero && ancillaryRevenues == AncillaryShare * revenueNonAero
      ensures ebitda == TotalRevenue() - opex && ebitdar == ebitda + ancillaryRevenues
    {
      aeronauticalCharge := PercentChanged(aeronauticalCharge, aeroChargeChange);
      revenueNonAero := NonAeroRevenue(traffic, nonAeroSpendPerPax, nonAeroSqm);
      revenueAero := AeroRevenue(traffic, aeronauticalCharge);
      revenueCargo := CargoRevenue(cargoTonnes);
      var totalRevenue := revenueAero + revenueNonAero + revenueCargo;
      opex := PercentChanged(opex, opexChange);
      totalOpex := opex;
      concessionRevenues := revenueNonAero * ConcessionShare;
      ancillaryRevenues := revenueNonAero * AncillaryShare;
      ebitda := totalRevenue - totalOpex;
      ebitdar := ebitda + ancillaryRevenues;
    }

    /** Step 4, the loan loop: interest and principal accumulated loan by loan, and the
        list of loans still running rebuilt. Returns the principal repaid. */
    method ServiceLoans() returns (principal: real)
      requires Valid()
      modifies this`interestPaid, this`loans, this`debt
      ensures Valid()
      ensures interestPaid == Amortise(old(loans)).interest
      ensures loans == Amortise(old(loans)).kept
      ensures principal == Amortise(old(loans)).principal
      ensures interestPaid == InterestRate * old(debt)
      ensures principal == SumOriginal(old(loans)) / 10.0
      ensures debt == old(debt) - principal
    {
      AmortiseOnSchedule(loans);
      var kept, interest;
      kept, interest, principal := AmortiseLoop(loans);
      interestPaid := interest;
      loans := kept;
      debt := SumAmounts(loans);
    }

    /** Steps 5 and 6: the regulated and unregulated profit, the compensation, and the
        roll-forward of retained earnings and equity. */
    method SettleRegulation()
      modifies this`regulatedProfit, this`unregulatedProfit, this`compensation, this`profitBeforeComp,
               this`profitAfterComp, this`retainedEarnings, this`equity
      ensures var a := Settlement(old(equity));
              && regulatedProfit == a.regulatedProfit && unregulatedProfit == a.unregulatedProfit
              && compensation == a.compensation
      ensures profitBeforeComp == regulatedProfit + unregulatedProfit
      ensures profitAfterComp == profitBeforeComp - compensation
      ensures retainedEarnings == old(retainedEarnings) + profitAfterComp
      ensures equity == old(equity) + profitAfterComp
    {
      var a := Allocate(RegulatedRevenue(strategy, revenueAero, revenueCargo), TotalRevenue(),
                        opex, depreciation, interestPaid, equity);
      regulatedProfit := a.regulatedProfit;
      unregulatedProfit := a.unregulatedProfit;
      compensation := a.compensation;
      profitBeforeComp := regulatedProfit + unregulatedProfit;
      profitAfterComp := profitBeforeComp - compensation;
      retainedEarnings := retainedEarnings + profitAfterComp;
      equity := equity + profitAfterComp;
    }

    /** Steps 7 and 8: the year's cash flow moves the cash balance, and the period
        accumulators are reset, the marketing budget to its full 5 million. */
    method CloseBooks(principal: real)
      modifies this`cfo, this`cfi, this`cff, this`cashBalance, this`capexCashOutflow, this`newLoansThisYear,
               this`marketingBudgetLeft, this`marketingImpact
      ensures cfo == ebitda - compensation
      ensures cfi == -old(capexCashOutflow)
      ensures cff == old(newLoansThisYear) - principal
      ensures cashBalance == old(cashBalance) + cfo + cfi + cff
      ensures capexCashOutflow == 0.0 && newLoansThisYear == 0.0
      ensures marketingBudgetLeft == MarketingBudget && marketingImpact == 0.0
    {
      cfo := ebitda - compensation;
      cfi := -capexCashOutflow;
      cff := newLoansThisYear - principal;
      cashBalance := cashBalance + cfo + cfi + cff;
      capexCashOutflow := 0.0;
      newLoansThisYear := 0.0;
      marketingBudgetLeft := MarketingBudget;
      marketingImpact := 0.0;
    }
  }
}
