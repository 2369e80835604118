/** Concrete plays of the game, with the starting airport the application creates
    (10 million passengers, 500 million equity and book assets, a 10% opex ratio,
    a 1 billion asset replacement value, 500,000 cargo tonnes) and the project
    catalogue the player picks from. */
module Scenarios {
  import opened Tables
  import opened Projects
  import opened Growth
  import opened Simulation

  const StartTraffic: real := 10_000_000.0
  const StartEquity: real := 500_000_000.0
  const StartAssets: real := 500_000_000.0
  const StartOpexRatio: real := 0.1
  const StartAssetValue: real := 1_000_000_000.0
  const StartCargoTonnes: real := 500_000.0

  /** The New Terminal of the catalogue: 150 million, 2 million more passengers, ready
      after three years. */
  const NewTerminal: Project := Project("New Terminal", 150_000_000.0, 2_000_000.0, 3)

  /** On the starting airport a loan of 100 million is granted (gearing 0.2), after
      which a further 300 million is refused (gearing would be 0.8) and the debt stays
      at 100 million. */
  method BorrowTwice() returns (first: bool, second: bool, debt: real)
    ensures first && !second && debt == 100_000_000.0
  {
    var a := new Airport(StartTraffic, StartEquity, StartAssets, StartOpexRatio, StartAssetValue, StartCargoTonnes);
    first := a.TakeLoan(100_000_000.0);
    second := a.TakeLoan(300_000_000.0);
    debt := a.debt;
  }

  /** A New Terminal financed with a 100 million loan: the 50 million equity portion
      is covered by the 50 million of cash, equity drops by it, the loan is granted,
      the full cost is this year's capital outflow and the cash balance is untouched
      until the year closes. */
  method FinanceNewTerminal() returns (ok: bool, equity: real, debt: real, outflow: real, cash: real)
    ensures ok && equity == 450_000_000.0 && debt == 100_000_000.0
    ensures outflow == 150_000_000.0 && cash == InitialCash
  {
    var a := new Airport(StartTraffic, StartEquity, StartAssets, StartOpexRatio, StartAssetValue, StartCargoTonnes);
    ok := a.AddCapexProject(NewTerminal.name, NewTerminal.cost, NewTerminal.increase, NewTerminal.leadTime, 100_000_000.0);
    equity, debt, outflow, cash := a.equity, a.debt, a.capexCashOutflow, a.cashBalance;
  }

  /** A New Terminal adds its 2 million passengers of capacity in the third maturation
      round and in no other: nothing before, all of it from then on. */
  lemma NewTerminalOpensInThirdYear(n: nat)
    ensures Rounds([NewTerminal], n).capacityPax == if n >= 3 then 2_000_000.0 else 0.0
  {
    AppliedExactlyOnce([NewTerminal], n);
    assert [NewTerminal][..0] == [];
  }

  /** One year transition while a New Terminal with the given lead time is the only
      pending project: the terminal opens, adding its capacity, exactly when its lead
      time runs out. */
  method TerminalYear(a: Airport, lead: int, gdpGrowth: real)
    requires a.Valid() && a.capexProjects == [NewTerminal.(leadTime := lead)]
    modifies a
    ensures a.Valid()
    ensures lead > 1 ==> a.capexProjects == [NewTerminal.(leadTime := lead - 1)] && a.capacityPax == old(a.capacityPax)
    ensures lead <= 1 ==> a.capexProjects == [] && a.capacityPax == old(a.capacityPax) + NewTerminal.increase
  {
    assert [NewTerminal.(leadTime := lead)][..0] == [];
    var ticked := NewTerminal.(leadTime := lead - 1);
    assert Mature(a.capexProjects) == if lead <= 1 then Maturation([], NoEffect.Plus(EffectOf(ticked)))
                                      else Maturation([ticked], NoEffect);
    a.UpdateForNewYear(gdpGrowth, 0.0, 0.0);
  }

  /** Three year transitions after ordering a New Terminal in year 0, with the GDP
      growth of the first three years: capacity stays at 15 million after the first
      two and reaches 17 million after the third, when the project has left the
      pending list. */
  method NewTerminalYears() returns (capacities: seq<real>, pending: seq<Project>)
    ensures capacities == [15_000_000.0, 15_000_000.0, 17_000_000.0]
    ensures pending == []
  {
    var a := new Airport(StartTraffic, StartEquity, StartAssets, StartOpexRatio, StartAssetValue, StartCargoTonnes);
    var ok := a.AddCapexProject(NewTerminal.name, NewTerminal.cost, NewTerminal.increase, NewTerminal.leadTime, 100_000_000.0);
    assert a.capexProjects == [NewTerminal.(leadTime := 3)];
    TerminalYear(a, 3, 2.0);
    capacities := [a.capacityPax];
    TerminalYear(a, 2, 2.5);
    capacities := capacities + [a.capacityPax];
    TerminalYear(a, 1, 1.8);
    capacities := capacities + [a.capacityPax];
    pending := a.capexProjects;
  }

  /** The first year of a Regional Hub on the starting airport with 2% GDP growth and
      no other change: neither terminal (67%) nor runway (72%) is congested, opex at
      10% of asset value is above the 8.13% benchmark, so quality rises by 9.35% and
      1.87 points of growth are lost to cost; traffic grows by 7.61% to 10,761,000
      passengers, and EBITDA is the aero, non-aero and cargo revenue less 100 million
      of opex: 219,025,000. */
  lemma RegionalHubFirstYear()
    ensures var g := PassengerGrowth(Some(RegionalHub), StartTraffic, InitialCapacityPax,
                                     StartAssetValue * StartOpexRatio, StartAssetValue, 1.02, 0.0, 0.0);
            && g.quality == 1.0935 && g.costImpact == 0.0374 && g.growthRate == 0.0761
            && g.traffic == 10_761_000.0
            && AeroRevenue(g.traffic, InitialAeroCharge) + NonAeroRevenue(g.traffic, InitialNonAeroSpend, BaseNonAeroSqm)
               + CargoRevenue(StartCargoTonnes) - StartAssetValue * StartOpexRatio == 219_025_000.0
  {
    assert UtilisationQuality(StartTraffic, InitialCapacityPax) == 1.0;
  }

  /** The clamp to [0.5, 1.5] comes before the opex adjustment, so the quality factor
      the growth model uses can leave that range: opex at half the asset value lifts a
      Regional Hub's quality above 1.5 ... */
  lemma QualityAboveClampAfterOpex()
    ensures OpexAdjusted(1.0, 0.5, Some(RegionalHub)).quality > 1.5
  {
  }

  /** ... and a Regional Hub with no opex at all and congested facilities ends below 0.5. */
  lemma QualityBelowClampAfterOpex()
    ensures OpexAdjusted(0.5, 0.0, Some(RegionalHub)).quality < 0.5
  {
  }
}
