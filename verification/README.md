# Airport business simulation — verified model of the `Airport` class

The game lets a player run an airport year by year. The player picks one of seven
strategies (Long Haul Hub, Regional Hub, …, Cargo Airport, Passenger and Cargo Hub).
During a year the player can:

- borrow under a 60% gearing rule;
- start capital projects (New Terminal, Expand Runway, Cargo Hangar, Non-Aero Retail
  Expansion), which open after a lead time;
- fund marketing campaigns from a yearly budget of 5 million.

The year transition then:

1. opens matured projects;
2. grows traffic and cargo, with congestion and operating-cost quality feedback and a
   price effect;
3. computes revenue, EBITDA and EBITDAR;
4. amortises the ten-year loans at 4.5%;
5. splits profit into a regulated and an unregulated part and claws back regulated
   profit above a 10% return on allocated equity;
6. rolls equity forward, then cash;
7. resets the period accumulators.

The model covers the `Airport` class of `streamlit_app.py`. It is imperative, like
the class:

- `Simulation.Airport` is a Dafny class with the class's fields.
- Every method names in its `modifies` clause exactly the fields it may change.
- The loops of the source (project maturation with in-place removal, the loan loop,
  the hangar count) are `while` loops proved against specification functions.
- The pure computations (strategy and campaign tables, the growth model, the
  regulatory allocation) are functions with contracts.
- Small formulas serve as vocabulary in the contracts and have no row of their
  own. `AeroRevenue`, `NonAeroRevenue` and `CargoRevenue` are the revenue lines of
  streamlit_app.py:295-298. `ProjectAccepted` is the cash test of lines 93 and 104.
  `PeakMovements` is the peak-hour movement count of line 264.

Files:

- `tables.dfy`: the strategy parameter table, the campaign table and the
  per-strategy multipliers.
- `loans.dfy`: the gearing rule and straight-line amortisation. This includes the
  loan loop as a method proved equal to the `Amortise` specification, and the
  invariant `OnSchedule` (balance = original × years remaining / 10).
- `projects.dfy`: project effects and one maturation round (`Mature`). It also proves
  that over any number of rounds every project's effect is applied exactly once.
- `growth.dfy`: congestion quality, the opex adjustment, passenger growth with the
  1.5 × capacity ceiling, and cargo growth.
- `regulation.dfy`: the pro-rata allocation and the compensation.
- `airport.dfy`: the class, its invariant `Valid` and its operations. The year
  transition is split along the source's numbered steps.
- `scenarios.dfy`: concrete plays with the application's starting airport and
  project catalogue.

Three behaviours of the code are easy to overlook, and the model keeps them:

- A Cargo Airport's traffic is not capped at 1.5 × capacity: it is a thousandth of
  its cargo tonnes (`Simulation.Airport.Grow`). Every other strategy is capped.
- The quality factor can leave [0.5, 1.5]: the code clamps it before the opex
  adjustment, which then multiplies it (`Scenarios.QualityAboveClampAfterOpex`,
  `Scenarios.QualityBelowClampAfterOpex`).
- EBITDA includes cargo revenue, and a 10% opex ratio is not neutral: it brings the
  opex quality boost and cost penalty into the growth rate. A Regional Hub's first
  year at 2% GDP growth therefore grows traffic by 7.61% and has EBITDA 219,025,000
  (`Scenarios.RegionalHubFirstYear`).

## Model

| member | source | states |
|---|---|---|
| Tables.ParamsOf | streamlit_app.py:163-171 | The seven strategies' parameters; every elasticity and opex benchmark lies strictly between 0 and 1, and both multipliers are positive |
| Tables.Params | streamlit_app.py:173 | A strategy not chosen yet uses the Regional Hub parameters; a chosen one uses its own |
| Tables.Terms | streamlit_app.py:118-128 | Cost, impact and kind of the seven campaigns: every cost is positive and within the 5 million budget, every impact positive, and exactly campaigns f and g are non-aero |
| Tables.StrategyMultiplier | streamlit_app.py:119-125 | The per-strategy multiplier of each campaign, always in (0, 2] |
| Tables.Multiplier | streamlit_app.py:132 | The multiplier in force is 1.0 before a strategy is chosen, and always in (0, 2] |
| Tables.CampaignImpact | streamlit_app.py:132-137 | A funded campaign's weighted impact is always a gain |
| Loans.Approved | streamlit_app.py:146-148 | A loan is approved exactly when equity is positive and debt plus the amount is at most 60% of equity |
| Loans.ApprovedGearing | streamlit_app.py:146-148 | An approved loan never leaves (debt + amount) / equity above 0.6 |
| Loans.NewLoanOnSchedule | streamlit_app.py:151 | The appended loan (amount, original amount, 10 years, 4.5%) is on its straight-line schedule |
| Loans.OutstandingShare | streamlit_app.py:315-319 | With k yearly instalments of a tenth left, the balance is the original amount times k / 10 |
| Loans.Amortise | streamlit_app.py:311-322 | The loan loop keeps at most the loans it was given, and only loans with years left |
| Loans.AmortiseLoop | streamlit_app.py:311-322 | The imperative loan loop returns exactly the kept loans, interest and principal of `Amortise` |
| Loans.Repay | streamlit_app.py:316-319 | One year of service on a loan changes only its amount and years: the amount falls by a tenth of the original amount and one year less remains |
| Loans.RepayOnSchedule | streamlit_app.py:315-321 | One year of service keeps a loan on schedule, or, in its last year, leaves nothing owed |
| Loans.AmortiseOnSchedule | streamlit_app.py:311-323 | Amortisation keeps every loan on schedule; the balances fall by exactly the principal; the principal is a tenth of all originally borrowed; the interest is 4.5% of the debt before repayment |
| Loans.LoanRepaidInTenYears | streamlit_app.py:151 | Each transition ages a fresh loan by one year and repays a tenth of it; after ten the loan is gone |
| Projects.EffectOf | streamlit_app.py:179-192 | The Cargo Hangar adds only cargo tonnes. The retail expansion adds only retail space, any other project only passenger capacity; both add their cost to asset value and a 25th of it to depreciation. Effects of well-formed projects are non-negative |
| Projects.Mature | streamlit_app.py:177-193 | What a maturation round opens adds a 25th of its asset value to depreciation; while every project has more than a year to go, nothing opens and every project stays pending |
| Projects.MaturePending | streamlit_app.py:177-193 | A maturation round never lengthens the list; every project left pending has lead time above zero and was in the list one year earlier |
| Projects.MatureKeeps | streamlit_app.py:177-193 | Conversely, every project with more than a year to go is still pending after the round, one year nearer |
| Projects.MatureNonnegative | streamlit_app.py:177-193 | A round of well-formed projects leaves well-formed projects and adds no negative capacity or asset value |
| Projects.NothingDueAtStart | streamlit_app.py:177-193 | Within zero rounds no project is due |
| Projects.DueAfterOneRound | streamlit_app.py:177-193 | What is due within n rounds is what opens in the first round plus what is due within n - 1 rounds among the projects left pending |
| Projects.AppliedExactlyOnce | streamlit_app.py:177-193 | Over n rounds, each project's effect is applied exactly once if its lead time is at most n, and never otherwise |
| Growth.CongestionFactor | streamlit_app.py:261-267 | A utilisation penalty factor lies in [0.5, 1] and is 1 exactly when utilisation is at most 80% |
| Growth.UtilisationQuality | streamlit_app.py:260-269 | Quality after congestion and the clamp is in [0.5, 1.0], and 1.0 exactly when neither terminal nor runway exceeds 80% |
| Growth.ShortfallFactor | streamlit_app.py:273-274 | The factor for opex below the benchmark is in [0.5, 1) |
| Growth.OpexAdjusted | streamlit_app.py:271-282 | Below the benchmark, quality falls to between half and all of itself and no cost impact arises. Above it, quality is multiplied by 1 plus a positive boost and a positive cost impact arises. At the benchmark nothing changes |
| Growth.PassengerGrowth | streamlit_app.py:258-289 | New traffic is the old traffic grown by the rate, capped at 1.5 × capacity. The rate is the sum of GDP, quality, marketing and charge impacts less the cost impact. The charge impact is negative for a charge rise and positive for a cut |
| Growth.CargoOnlyRate | streamlit_app.py:197-212 | The cargo-only opex adjustment: none at the benchmark; below it, a non-negative rate is scaled to between half and all of itself; above it, the rate grows by the excess times (boost − cost) multipliers |
| Growth.RawCargoRate | streamlit_app.py:197-200 | The cargo rate before adjustment (also lines 250-253): half the GDP growth without hangars, higher with any pending hangar, and never negative while GDP grows |
| Growth.Grown | streamlit_app.py:214 | Growth at a positive rate increases a positive quantity |
| Regulation.RegulatedRevenue | streamlit_app.py:326-331 | The regulated revenue counts aero revenue except at a Cargo Airport, and cargo revenue only at a Cargo Airport or a Passenger and Cargo Hub; for non-negative lines it lies between 0 and their sum |
| Regulation.Allocate | streamlit_app.py:326-353 | The two profits add up to revenue less opex, depreciation and interest. The share is 0 without revenue, else the regulated fraction. Compensation is never negative. It is positive exactly when allocated equity is positive and regulated ROE exceeds 10%, and then it brings ROE down to exactly 10% |
| Simulation.ProjectLoanGranted | streamlit_app.py:97-112 | A project's loan is granted under the plain gearing rule, except that the retail expansion is checked after its equity portion is deducted (lines 97-100, against 110-112 for the others): its check is the stricter one and coincides with the plain rule when the loan covers the whole cost |
| Simulation.Airport.constructor | streamlit_app.py:26-79 | The starting airport: no strategy, no debt, loans or projects, 15 million capacity, 50 million cash, full marketing budget, opex = asset value × opex ratio, the invariant holds |
| Simulation.Airport.Gearing | streamlit_app.py:81-84 | Gearing is infinite exactly when equity is zero, else debt / equity |
| Simulation.Airport.TakeLoan | streamlit_app.py:145-153 | Refused, with nothing changed, exactly when the gearing rule fails. Otherwise debt and new borrowing grow by the amount, the 10-year 4.5% loan is appended, gearing stays within 0.6, and the invariant holds |
| Simulation.Airport.AddCapexProject | streamlit_app.py:86-115 | The hangar is always accepted and only appended. Any other project is refused, with nothing changed, exactly when cash is below cost − loan. If accepted, it is appended (the retail expansion with 1000 m²), equity falls by cost − loan, outflow grows by cost, the loan is added exactly when granted, and cash is untouched |
| Simulation.Airport.ApplyMarketingImpact | streamlit_app.py:117-143 | Refused, with nothing changed, exactly when the cost exceeds the budget left; otherwise the budget falls by the cost and stays non-negative, an aero campaign adds its weighted impact to marketing impact, a non-aero one grows spend per passenger by it |
| Simulation.Airport.UpdateForNewYear | streamlit_app.py:155-372 | The invariant is kept and the GDP factor is 1 + g/100. The pending projects are one maturation round on; retail space, capacity and asset value grow by exactly what opened, whose 25th is the year's depreciation. Traffic, quality and its two impacts are those of the passenger growth model on last year's traffic, opex and marketing impact, traffic within 1.5 × capacity; at a Cargo Airport traffic is a thousandth of the tonnes and quality stays at its reset 1.0, impacts 0. Cargo is that of the cargo model from the opening tonnes plus what opened. The charge and opex move by their percentage changes, the revenue lines are those of the new traffic, charge, retail space and cargo, and EBITDA includes cargo. Loans are one amortisation step on, debt falls by a tenth of all borrowed, interest is 4.5% of the old debt. The regulated and unregulated profits and the compensation are those of `Allocate` on the opening equity. Retained earnings and equity grow by profit after compensation; cfo = EBITDA − compensation, cfi = −the year's capital outflow, cff = the year's new loans − a tenth of all borrowed; cash grows by their sum; the accumulators reset |
| Simulation.Airport.OpenAndGrow | streamlit_app.py:155-289 | Steps 1–2: the invariant is kept and the GDP factor is 1 + g/100; projects mature and retail space, capacity, asset value and depreciation change by exactly what opened; traffic, quality and its impacts are those of the passenger growth model, or at a Cargo Airport traffic follows the tonnes and quality keeps its reset; cargo is that of the cargo model from the opening tonnes plus what opened; the traffic ceiling holds; the loans, books, opex, marketing impact and charge are unchanged |
| Simulation.Airport.OpenProjects | streamlit_app.py:157-193 | Step 1: the invariant is kept; the year starts at GDP factor 1 + g/100 with quality 1.0, no opex quality or cost impact and no cargo growth; projects mature and every infrastructure quantity changes by exactly what opened; traffic, the loans and the books are unchanged |
| Simulation.Airport.BeginYear | streamlit_app.py:157-161 | GDP factor 1 + g/100; quality, its impacts, the cargo rate and depreciation reset |
| Simulation.Airport.MatureProjects | streamlit_app.py:176-193 | The in-place maturation loop leaves exactly `Mature(old list).pending` and adds exactly `Mature(old list).gained` to cargo, retail space, capacity, asset value and depreciation |
| Simulation.Airport.AgeProject | streamlit_app.py:178-193 | One loop turn extends the finished part of the round by one project: it opens and is removed, or stays with its new lead time |
| Simulation.Airport.Open | streamlit_app.py:179-192 | Opening a project adds exactly its effect to the five infrastructure quantities |
| Simulation.Airport.AddHangarBonus | streamlit_app.py:198-200 | The loop adds 0.05 per pending Cargo Hangar |
| Simulation.Airport.Grow | streamlit_app.py:195-289 | Growth by strategy: the cargo-only model with traffic = cargo / 1000 and passenger figures untouched; otherwise passenger growth, with hub cargo growth by half the quality change, and no cargo change for the rest. Projects, retail space, capacity, asset value, depreciation and the GDP factor are unchanged |
| Simulation.Airport.GrowCargoOnly | streamlit_app.py:196-215 | Cargo-only growth rate, new tonnes and passenger count |
| Simulation.Airport.GrowPassengers | streamlit_app.py:258-289 | All passenger figures are those of `PassengerGrowth` on last year's traffic |
| Simulation.Airport.GrowHubCargo | streamlit_app.py:249-257 | Hub cargo rate = raw rate + half the quality change + marketing, and the tonnes grow by it |
| Simulation.Airport.CloseYear | streamlit_app.py:291-372 | Steps 3–8: the invariant is kept; the charge and opex move by their percentage changes, the revenue lines are those of traffic, charge, retail space and cargo, EBITDA includes cargo; loans are one amortisation step on, debt falls by a tenth of all borrowed, interest is 4.5% of the old debt; the regulated and unregulated profits and the compensation are those of `Allocate` on the opening equity, profit before compensation their sum; retained earnings and equity grow by profit after compensation; cfo = EBITDA − compensation, cfi = −capital outflow, cff = new loans − a tenth of all borrowed, cash grows by their sum; accumulators reset; the infrastructure, traffic and quality are unchanged |
| Simulation.Airport.EarnAndServe | streamlit_app.py:291-323 | Steps 3–4 keep the invariant; the charge and opex move by their percentage changes, the revenue lines are those of traffic, charge, retail space and cargo, EBITDA includes cargo; the loans are amortised, the principal returned is a tenth of all borrowed and debt falls by it; the books and infrastructure are unchanged |
| Simulation.Airport.ComputeFinancials | streamlit_app.py:291-309 | New charge and opex by their percentage changes; revenue lines; concession 80% and ancillary 20% of non-aero; EBITDA = all revenue (cargo included) − opex; EBITDAR = EBITDA + ancillary |
| Simulation.Airport.ServiceLoans | streamlit_app.py:311-323 | The invariant is kept (debt = sum of balances, loans on schedule); interest is 4.5% of last year's debt; principal is a tenth of all originally borrowed; debt falls by it |
| Simulation.Airport.SettleAndClose | streamlit_app.py:325-372 | Steps 5–8: the regulated and unregulated profits and the compensation are those of `Allocate` on the equity before, profit before compensation their sum; retained earnings and equity grow by profit after compensation; cfo = EBITDA − compensation, cfi = −capital outflow, cff = new loans − the principal given, cash grows by their sum; the accumulators reset; revenue, opex, EBITDA, the loans, the infrastructure and traffic are unchanged |
| Simulation.Airport.SettleRegulation | streamlit_app.py:325-358 | The profits and compensation are those of `Allocate`; profit after compensation is added to retained earnings and equity |
| Simulation.Airport.CloseBooks | streamlit_app.py:360-372 | cfo = EBITDA − compensation, cfi = −capital outflow, cff = new loans − principal, cash grows by their sum; outflow, new loans and marketing impact reset to 0 and the budget to 5 million |
| Scenarios.BorrowTwice | streamlit_app.py:145-153 | On the starting airport a 100 million loan is granted, then 300 million more is refused, and the debt stays 100 million |
| Scenarios.FinanceNewTerminal | streamlit_app.py:86-115 | A New Terminal with a 100 million loan is accepted: equity 450 million, debt 100 million, outflow 150 million, cash unchanged |
| Scenarios.NewTerminalOpensInThirdYear | streamlit_app.py:177-193 | A lead-time-3 New Terminal adds its 2 million capacity in the third round, never before |
| Scenarios.TerminalYear | streamlit_app.py:155-193 | With a lone pending terminal, a transition keeps capacity and lowers its lead time until it runs out, then adds its capacity and empties the list |
| Scenarios.NewTerminalYears | streamlit_app.py:155-193 | Over three transitions capacity reads 15, 15 and 17 million, and no project is left pending |
| Scenarios.RegionalHubFirstYear | streamlit_app.py:258-309 | The first Regional Hub year at 2% GDP: quality 1.0935, cost impact 0.0374, growth 7.61%, traffic 10,761,000, EBITDA 219,025,000 |
| Scenarios.QualityAboveClampAfterOpex | streamlit_app.py:269-279 | Opex at half of asset value lifts a Regional Hub's quality factor above 1.5 |
| Scenarios.QualityBelowClampAfterOpex | streamlit_app.py:269-275 | A congested Regional Hub (quality clamped to 0.5) with no opex ends with quality below 0.5 |

## Left out

- Presentation is not modelled: all Streamlit output (`st.info`, `st.error`, `st.success`, `st.warning`), the page flow, authentication, charts, history records and session storage. None of it changes the airport's state.
- `year` and `runway_capacity` are not modelled: they are set in the constructor and never read or changed by the class.
- The peak-hour constants are fixed: `runway_capacity_movements`, `pax_per_movement`, `peak_hour_factor` and `cargo_charge_per_tonne` are fields the class never changes, so the model makes them constants.
- Arithmetic is exact: the model uses exact real numbers, not IEEE floats, so rounding is not modelled. The infinite gearing of zero equity is the `Infinite` value of `GearingValue`.
- Unknown campaign codes are out of reach: the source raises `KeyError` for one, but the model takes a `Campaign` value, so no unknown code can be passed.
- Simulation.Airport.AddCapexProject: requires cost and capacity increase to be non-negative, which keeps capacity and asset value positive. The application only passes its catalogue values, which meet this.
- Strategy choice is not modelled: the application assigns `strategy` directly. The model has no operation for it, and the class never changes it.
- Simulation.Airport.UpdateForNewYear: does not restate the cargo growth rate, movements, charge impact, traffic growth rate, total opex, concession and ancillary revenue or EBITDAR. `Grow` and `ComputeFinancials` state them.
- Simulation.Airport.OpenAndGrow: does not restate the cargo growth rate, movements, charge impact or traffic growth rate. `Grow` states them.
- Simulation.Airport.CloseYear: does not restate total opex, concession and ancillary revenue or EBITDAR. `ComputeFinancials` states them.
- Simulation.Airport.EarnAndServe: does not restate total opex, concession and ancillary revenue or EBITDAR. `ComputeFinancials` states them.
- Simulation.Airport.ServiceLoans: accumulates the interest in a local variable and stores it in `interest_paid` after the loop, where the source adds to the field inside the loop. The final state is the same.
- Simulation.Airport.MatureProjects: models the source's `remove(project)` as removal of the current element. The source removes the first element equal to it, which is the same element: projects before it are still pending, with lead time above zero, while the current one has run out.
- Loan records are values: the source mutates each loan dictionary in place and then keeps it. Nothing else holds a reference to those dictionaries, so no aliasing is lost.
