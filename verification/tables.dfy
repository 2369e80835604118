/** Fixed business tables of the airport simulation: the seven airport strategies
    with their growth parameters, and the seven marketing campaigns with their
    costs, impacts and per-strategy multipliers. */
module Tables {

  datatype Option<+T> = None | Some(value: T)

  function Min(a: real, b: real): real { if a <= b then a else b }
  function Max(a: real, b: real): real { if a >= b then a else b }

  /** The yearly marketing budget, restored at every year transition. */
  const MarketingBudget: real := 5_000_000.0

  /** The seven strategies a player can choose once, at the start of a session. */
  datatype Strategy =
    | LongHaulHub
    | RegionalHub
    | ShortHaulSpoke
    | LongHaulSpoke
    | LowCostAirport
    | CargoAirport
    | PassengerAndCargoHub

  /** Growth parameters of a strategy. */
  datatype StrategyParams = StrategyParams(
    priceElasticity: real,         // traffic lost per unit of relative charge increase
    opexQualityBenchmark: real,    // opex / asset-value ratio regarded as "normal"
    costPenaltyMultiplier: real,   // growth lost per unit of opex ratio above the benchmark
    qualityBoostMultiplier: real)  // quality gained (or lost) per unit of ratio away from it

  /** The strategy parameter table. */
  function ParamsOf(s: Strategy): (p: StrategyParams)
    ensures 0.0 < p.priceElasticity < 1.0
    ensures 0.0 < p.opexQualityBenchmark < 1.0
    ensures p.costPenaltyMultiplier > 0.0 && p.qualityBoostMultiplier > 0.0
  {
    match s
    case LongHaulHub          => StrategyParams(0.2, 0.10, 1.5, 6.0)
    case RegionalHub          => StrategyParams(0.4, 0.0813, 2.0, 5.0)
    case ShortHaulSpoke       => StrategyParams(0.7, 0.07, 3.0, 4.0)
    case LongHaulSpoke        => StrategyParams(0.5, 0.085, 2.5, 5.0)
    case LowCostAirport       => StrategyParams(0.9, 0.05, 4.0, 2.0)
    case CargoAirport         => StrategyParams(0.1, 0.15, 1.0, 8.0)
    case PassengerAndCargoHub => StrategyParams(0.3, 0.12, 1.8, 7.0)
  }

  /** The parameters in force: a strategy not chosen yet falls back to Regional Hub's. */
  function Params(s: Option<Strategy>): (p: StrategyParams)
    ensures s.None? ==> p == ParamsOf(RegionalHub)
    ensures s.Some? ==> p == ParamsOf(s.value)
  {
    match s
    case None => ParamsOf(RegionalHub)
    case Some(k) => ParamsOf(k)
  }

  /** The marketing campaigns, by their one-letter codes 'a' to 'g'. */
  datatype Campaign =
    | GeneralAwareness      // 'a'
    | LongHaulPromotion     // 'b'
    | ChargesDiscount       // 'c'
    | AttractNewAirlines    // 'd'
    | GeneralAviationPromo  // 'e'
    | RetailPromotion       // 'f'
    | GourmetFoodLaunch     // 'g'

  /** An aero campaign raises next year's traffic growth; a non-aero campaign
      permanently raises the spend per passenger. */
  datatype CampaignKind = Aero | NonAero

  datatype CampaignTerms = CampaignTerms(cost: real, impact: real, kind: CampaignKind)

  /** Cost, base impact and kind of each campaign. */
  function Terms(c: Campaign): (t: CampaignTerms)
    ensures 0.0 < t.cost <= MarketingBudget
    ensures 0.0 < t.impact
    ensures t.kind == NonAero <==> c == RetailPromotion || c == GourmetFoodLaunch
  {
    match c
    case GeneralAwareness     => CampaignTerms(1_800_000.0, 0.015, Aero)
    case LongHaulPromotion    => CampaignTerms(2_000_000.0, 0.02, Aero)
    case ChargesDiscount      => CampaignTerms(5_000_000.0, 0.04, Aero)
    case AttractNewAirlines   => CampaignTerms(2_500_000.0, 0.03, Aero)
    case GeneralAviationPromo => CampaignTerms(1_250_000.0, 0.01, Aero)
    case RetailPromotion      => CampaignTerms(1_000_000.0, 0.1, NonAero)
    case GourmetFoodLaunch    => CampaignTerms(2_000_000.0, 0.2, NonAero)
  }

  /** How strongly a campaign works for a strategy (one row per campaign, columns in
      the order of the Strategy constructors). */
  function StrategyMultiplier(c: Campaign, s: Strategy): (m: real)
    ensures 0.0 < m <= 2.0
  {
    var row := match c
      case GeneralAwareness     => [0.8, 1.0, 1.2, 1.0, 1.5, 0.5, 1.0]
      case LongHaulPromotion    => [1.5, 0.8, 0.5, 1.2, 0.5, 0.3, 1.3]
      case ChargesDiscount      => [0.7, 1.0, 1.5, 0.9, 2.0, 0.1, 0.8]
      case AttractNewAirlines   => [1.2, 1.1, 0.7, 1.3, 0.9, 0.8, 1.0]
      case GeneralAviationPromo => [0.5, 0.8, 1.2, 0.9, 1.0, 1.5, 1.2]
      case RetailPromotion      => [1.5, 1.2, 0.8, 1.0, 0.5, 0.1, 1.5]
      case GourmetFoodLaunch    => [2.0, 1.5, 0.5, 1.2, 0.3, 0.1, 1.8];
    row[StrategyIndex(s)]
  }

  /** Column of a strategy in the multiplier table. */
  function StrategyIndex(s: Strategy): (i: nat)
    ensures i < 7
  {
    match s
    case LongHaulHub => 0
    case RegionalHub => 1
    case ShortHaulSpoke => 2
    case LongHaulSpoke => 3
    case LowCostAirport => 4
    case CargoAirport => 5
    case PassengerAndCargoHub => 6
  }

  /** The multiplier in force: 1.0 while no strategy is chosen. */
  function Multiplier(c: Campaign, s: Option<Strategy>): (m: real)
    ensures s.None? ==> m == 1.0
    ensures 0.0 < m <= 2.0
  {
    match s
    case None => 1.0
    case Some(k) => StrategyMultiplier(c, k)
  }

  /** The effect of a campaign once weighted by the strategy: always a gain. */
  function CampaignImpact(c: Campaign, s: Option<Strategy>): (x: real)
    ensures x > 0.0
  {
    Terms(c).impact * Multiplier(c, s)
  }
}
