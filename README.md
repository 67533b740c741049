# foreverFund retirement simulation, in Dafny

This project models the retirement simulation of foreverFund and its annuity
arithmetic. A `Simulation` runs a number of UK tax years from a start year. Each
`SimYear` is built from the year before it:

- both tiers of living expenses grow with RPI;
- the full state pension grows with CPI;
- the defined-benefit ("TUI") pension starts in 2024 and grows by 2.5% a year;
- the income-tax thresholds are frozen before 2026 and grow with CPI after.

In every year the persons take part one at a time, in ascending order of identifier.
Each `SimPerson` draws taxable income towards the part of the year's living expenses
that the persons before them have not covered:

- the state pension, pro-rated in the year pension age is reached;
- the defined-benefit pension;
- a drawdown of the pension pot, plus an optional top-up to the full state pension.

The person then pays two-band income tax on that income. Next they draw tax-free
income: ISA and trading-account drawdowns, then savings to cover any remaining
shortfall. Finally their pension and ISA balances grow by a year. Every figure is
written into the person's ledger for that year, and the next year opens with the
balances this one closed with. Separately, closed-form annuity factors size a pension
pot that is to pay a level income, assuming one state pension in years 4-5 and two
from year 6.

Modules, one per file:

- `Results` (results.dfy): `Option` and `Result`.
- `Powers` (powers.dfy): Python's `**` with an integer exponent on a real base.
- `Annuity` (annuity.dfy): the annuity factors and payment formulas, and a year-by-year
  present-value sum as their reference definition.
- `Calendar` (calendar.dfy): dates as Python day ordinals, and the tax-year bounds.
- `SimConfig` (sim_config.dfy): the configuration record and the portfolio growth rate.
- `SimYears` (sim_year.dfy): the year record, how a year is built from the one before,
  income tax, and pension pro-rating.
- `Indexation` (indexation.dfy): the chain of years of a run, and what each figure
  grows to.
- `Ledger` (ledger.dfy): the keys a ledger year records, and the four balances.
- `PersonIds` (person_ids.dfy): the ordering of identifiers and the sorted identifier
  list, with a selection method that computes it.
- `Persons` (sim_person.dfy): the `SimPerson` class, and `Waterfall`, the
  specification of a person's year.
- `Simulations` (simulation.dfy): a year's household of persons, the run of years, and
  the `Simulation` class.

The imperative parts are methods on the classes, proved against specification
functions:

- The year loop of the simulation's constructor is proved against `Years` and
  `Projection`.
- The loop over sorted persons is proved against `Household`.
- The ledger writes of `SimPerson` are proved against `Waterfall` and `Recorded`.
- The year-end growth loop is proved against `Grown`.

The properties of those functions are lemmas.

## Model

| member | source | states |
|---|---|---|
| Annuity.RealRate | AnnuityFactor.py:7-9 | the real rate r satisfies (1+r)(1+inflation) = 1+growth, and it is zero when growth equals inflation |
| Annuity.PeriodAnnuityFactor | AnnuityFactor.py:17-26 | fails exactly when nStart >= nEnd or nStart < 0; the order check comes first; at r = -1 only a valid range is excluded, so a bad range fails as in the source; its value is given by `PeriodAnnuityFactorValue` |
| Annuity.PeriodAnnuityDueFactor | AnnuityFactor.py:48-59 | fails exactly when nStart >= nEnd or nStart < 0; the order check comes first; at r = -1 only a valid range is excluded, so a bad range fails as in the source; its value is given by `PeriodDueFactorValue` |
| Annuity.AnnualPaymentInArrears | AnnuityFactor.py:28-40 | fails exactly when nYears <= 6, because the factor for years 6..nYears raises, and the error is then "start not before end" |
| Annuity.AnnualPaymentInAdvance | AnnuityFactor.py:61-73 | fails exactly when nYears <= 6, with the same error; what the payment funds is `AdvancePaymentFundsPot` |
| Annuity.DiscountSumPositive | AnnuityFactor.py:11-15 | for a rate above -100%, a sum of discounted payments is never negative, and it is positive over a non-empty range |
| Annuity.FactorsAtZeroRate | AnnuityFactor.py:11-15 | at a zero rate the arrears factor, like the due factor, counts the years |
| Annuity.AnnuityFactorStep | AnnuityFactor.py:11-15 | at every rate, the n-year factor is the (n-1)-year factor plus the discount of year n |
| Annuity.AnnuityFactorDifference | AnnuityFactor.py:17-26 | the difference of two closed-form factors equals the year-by-year sum of discounts over years s..e |
| Annuity.AnnuityFactorIsDiscountSum | AnnuityFactor.py:11-15 | annuity_factor is the present value of n payments made at the end of each year |
| Annuity.AnnuityDueFactorIsShifted | AnnuityFactor.py:42-46 | the due factor is the arrears factor times (1+r), at every rate including zero |
| Annuity.AnnuityFactorPositive | AnnuityFactor.py:11-15 | for r > -1 and at least one year the factor is positive, so the arrears payment never divides by zero |
| Annuity.AnnuityDueFactorPositive | AnnuityFactor.py:42-46 | for r > -1 and at least one year the due factor is positive |
| Annuity.PeriodAnnuityFactorValue | AnnuityFactor.py:17-26 | on a valid range, the period factor is the difference of the factors, also for nStart = 1, and equals the sum of discounts over years nStart..nEnd |
| Annuity.FirstPeriodDueFactorValue | AnnuityFactor.py:54-55 | from period 1 the due factor is the arrears factor moved one year earlier |
| Annuity.PeriodDueFactorPositive | AnnuityFactor.py:48-59 | on a valid range and for r > -1, the period due factor succeeds and is positive |
| Annuity.DueFactorsPositive | AnnuityFactor.py:73 | the divisor of the payment in advance is positive when nYears > 6 and r > -1 |
| Annuity.PeriodFactorsAtZeroRate | AnnuityFactor.py:17-59 | at a zero rate both period factors count the years nStart..nEnd |
| Annuity.ArrearsPaymentValue | AnnuityFactor.py:28-40 | the payment in arrears is (pot + PV of one pension in years 4-5 + PV of two pensions from year 6) divided by the PV of 1 a year over nYears |
| Annuity.ArrearsPaymentFundsPot | AnnuityFactor.py:28-40 | the level payment's PV over nYears equals the pot plus the PV of the state pensions |
| Annuity.ZeroRatePayments | AnnuityFactor.py:61-73 | at a zero rate both payments spread the pot and the pensions evenly over nYears, so arrears and advance agree |
| Annuity.AnnuityFactor | AnnuityFactor.py:11-15 | n at a zero rate, else the closed form; `AnnuityFactorIsDiscountSum` proves it is the present value of 1 paid at the end of each of years 1..n |
| Annuity.AnnuityDueFactor | AnnuityFactor.py:42-46 | n at a zero rate, else the closed form; `AnnuityDueFactorIsDiscountSum` proves it is the present value of 1 paid at the start of each of years 1..n |
| Annuity.DiscountSumSplit | AnnuityFactor.py:61-73 | a sum of discounts over years s..e splits at any m into the sums over s..m and m+1..e |
| Annuity.DiscountSumShift | AnnuityFactor.py:42-59 | moving every payment one year earlier multiplies the present value by (1+r) |
| Annuity.DiscountSumScaled | AnnuityFactor.py:57-59 | moving every payment k years later divides the present value by (1+r)^k |
| Annuity.AnnuityDueFactorIsDiscountSum | AnnuityFactor.py:42-46 | the due factor over n years is the present value of 1 paid at the start of each year, that is the sum of discounts over years 0..n-1 |
| Annuity.PeriodDueFactorValue | AnnuityFactor.py:48-59 | on every valid range 0 <= nStart < nEnd, the period due factor (deferred due factor divided by (1+r)^(nStart-1)) is the present value of 1 paid at the start of each of years nStart..nEnd |
| Annuity.DueQuotient | AnnuityFactor.py:57-59 | the divisor (1+r)^(nStart-1) is non-zero, and dividing the due factor over nEnd-nStart+1 years by it gives the sum of discounts over years nStart-1..nEnd-1 |
| Annuity.AdvancePaymentValue | AnnuityFactor.py:61-73 | for nYears > 6, the payment in advance is (pot + PV of one pension paid at the start of years 4-5 + PV of two pensions from the start of year 6) divided by the PV of 1 paid at the start of each of nYears years |
| Annuity.AdvancePaymentFundsPot | AnnuityFactor.py:61-73 | the level payment in advance, paid at the start of each of nYears years, has the PV of the pot plus the state pensions |
| Calendar.DaysInYear | SimulationClasses.py:101-107 | a year has 366 days if it is a leap year, otherwise 365 |
| Calendar.TaxYearStart | SimulationClasses.py:101-106 | 6 April of the year; `TaxYearsAdjoin` and `TaxYearsOrdered` place it the day after the previous tax year ends |
| Calendar.TaxYearEnd | SimulationClasses.py:102-107 | 5 April of the next year; `TaxYearSpan` proves it 364 or 365 days after the start |
| Calendar.TaxYearSpan | SimulationClasses.py:101-107 | from 6 April of y to 5 April of y+1 is 364 days, or 365 when y+1 is a leap year |
| Calendar.TaxYearsAdjoin | SimulationClasses.py:101-102 | each tax year starts the day after the previous one ends |
| Calendar.DaysBeforeYearGrows | SimulationClasses.py:101-107 | later years start at least 365 days a year later |
| Calendar.TaxYearsOrdered | SimulationClasses.py:101-107 | an earlier tax year ends before a later one starts |
| Calendar.DefinedBenefitDate | SimulationClasses.py:261-262 | 25 October 2024 lies in the 2024-25 tax year, 162 days before its end |
| SimConfig.PortfolioGrowthRate | SimulationClasses.py:41-47 | pension and ISA balances grow by the portfolio growth rate; every other balance has a factor of exactly 1 |
| SimYears.IndexedYear | SimulationClasses.py:96-141 | a built year keeps the run's first year, the configuration and its own number; its dates are 6 April to 5 April; its living expenses are tier 1 before first + expensiveYears and tier 2 from then on |
| SimYears.IndexedYearSpan | SimulationClasses.py:101-107 | a built year lasts 364 or 365 days |
| SimYears.TaxByBands | SimulationClasses.py:177-191 | the two-branch tax equals a band-by-band sum, and no tax is due up to the allowance |
| SimYears.TaxNonNegative | SimulationClasses.py:177-191 | with non-negative rates and band width, tax is never negative |
| SimYears.TaxMonotone | SimulationClasses.py:177-191 | more gross income never lowers the tax, and each extra pound is taxed at no more than the higher rate |
| SimYears.BandTaxMonotone | SimulationClasses.py:177-191 | band tax does not decrease as income grows, and grows by at most the higher rate times the increase |
| SimYears.TaxExample | SimulationClasses.py:177-191 | with the 2022-23 allowance of 12,570, band of 37,700 and rates of 20%/40%, an income of 50,000 pays 7,486 |
| SimYears.TuiIsStatePensionRule | SimulationClasses.py:165-175 | the defined-benefit pro-rating is the state-pension rule with a ratio of one |
| SimYears.ProratedBounds | SimulationClasses.py:153-163 | in a year of at most 365 days the pro-rated pension lies between zero and the full scaled amount |
| SimYears.ProratedNonIncreasing | SimulationClasses.py:153-163 | a later pension-age date never gives more pension in the year |
| SimYears.IncomeTax | SimulationClasses.py:177-191 | nothing up to the allowance, the basic rate on the band above it, the higher rate beyond; `TaxByBands`, `TaxNonNegative` and `TaxMonotone` state what it means |
| SimYears.IncomePensSP | SimulationClasses.py:153-163 | zero before the year, the full scaled pension after it, pro-rated by days left within it; `ProratedBounds` and `ProratedNonIncreasing` state its bounds and monotonicity |
| SimYears.IncomePensTUI | SimulationClasses.py:165-175 | the same pro-rating of the DB pension; `TuiIsStatePensionRule` proves it is the state-pension rule with a ratio of one |
| Indexation.Years | SimulationClasses.py:23-24 | a run has nYears years; year i is startYear + i and belongs to this run and configuration |
| Indexation.YearsChained | SimulationClasses.py:98 | every year of a run is built from the year before it (the first year from none), as yearData(year-1) supplies it |
| Indexation.LaterYear | SimulationClasses.py:115-141 | after its base year, a figure is the previous year's value times its growth factor |
| Indexation.ConfiguredYear | SimulationClasses.py:111-141 | up to its base year, a figure is read from the configuration, and the TUI pension is 0 before 2024 |
| Indexation.FigureIndexed | SimulationClasses.py:111-141 | from its base year on, a figure equals its configured value times its growth factor raised to the years since that base year |
| Indexation.ExpenseTier | SimulationClasses.py:127-130 | year i's living expenses are tier 1 grown with RPI for i years while i < expensiveYears, and tier 2 grown the same way afterwards |
| Indexation.TuiBefore2024 | SimulationClasses.py:120-121 | the defined-benefit pension is 0 in every year before 2024 |
| Ledger.Set | SimulationClasses.py:252-254 | writing a key makes it hold the value |
| Ledger.SetOthers | SimulationClasses.py:252-254 | writing one key leaves every other key as it was |
| Ledger.BalancesOf | SimulationClasses.py:369-372 | the balances read back from an entry are the four asset keys |
| PersonIds.LessIrreflexive | SimulationClasses.py:146 | no identifier sorts before itself |
| PersonIds.LessTransitive | SimulationClasses.py:146 | the identifier order is transitive |
| PersonIds.LessTotal | SimulationClasses.py:146 | of any two distinct identifiers, one sorts first |
| PersonIds.LeastExists | SimulationClasses.py:146 | every non-empty set of identifiers has a least element |
| PersonIds.SortedIds | SimulationClasses.py:146 | the sorted list holds only the set's identifiers |
| PersonIds.LeastUnique | SimulationClasses.py:146 | the least element of a set is unique |
| PersonIds.SortedIdsSpec | SimulationClasses.py:146 | sorted(keys) is strictly ascending and holds exactly the keys |
| PersonIds.ConsLeast | SimulationClasses.py:146 | putting the least element in front of a sorted list of the rest gives a sorted list of the whole set |
| PersonIds.SortedIdsDistinct | SimulationClasses.py:146 | sorted(keys) lists each key once |
| PersonIds.SortedUnique | SimulationClasses.py:146 | two strictly sorted lists with the same elements are equal, so there is only one sorted order |
| PersonIds.SelectLeast | SimulationClasses.py:146 | appending the least remaining identifier keeps the selection sorted and before every remaining identifier |
| PersonIds.SortIds | SimulationClasses.py:146 | the selection loop returns exactly sorted(keys) |
| Powers.PowerStep | AnnuityFactor.py:15 | for a non-zero base and every sign of e, b^(e+1) = b^e * b |
| Powers.PowerSign | AnnuityFactor.py:15 | a power of a non-zero base is non-zero, and a power of a positive base is positive |
| Powers.PowerOfOne | AnnuityFactor.py:15 | every power of 1 is 1 |
| Powers.PowerAdd | AnnuityFactor.py:57 | exponents add: b^m * b^k = b^(m+k) for a non-zero base, k >= 0 and any m |
| Persons.DefinedBenefitByYear | SimulationClasses.py:258-264 | only person "1" has a DB pension: nothing before the 2024-25 tax year, 162/365 of it in that year, all of it afterwards |
| Persons.IncomePensDB | SimulationClasses.py:258-264 | the DB pension of person "1" from 25 October 2024, nothing for anyone else; `DefinedBenefitByYear` states it year by year |
| Persons.Waterfall | SimulationClasses.py:357-395 | a person's year from the opening balances; `WaterfallBalances`, `WaterfallDrawdowns`, `StatePensionTopUp`, `SavingsRule` and `IncomeVersusTarget` state its meaning, and `NetIncome` is proved against it |
| Persons.SimPerson.GetFin | SimulationClasses.py:248-250 | the value recorded under that key for that year, which must be present; `Ledger.Set` and `Ledger.SetOthers` state that after `SetFin` it returns the value written for that key and the earlier value for any other |
| Persons.UpdatedTwice | SimulationClasses.py:204-206 | writing a year's entry twice leaves the second write |
| Persons.UpdatedStore | SimulationClasses.py:252-254 | an update of one year is the ledger with that year's entry stored |
| Persons.Grown | SimulationClasses.py:389-391 | growing the balances keeps all four balances present |
| Persons.GrownAll | SimulationClasses.py:389-391 | growing all four balances multiplies each by its own growth factor and writes no other key |
| Persons.SimPerson.constructor | SimulationClasses.py:199-202 | a new person keeps the portfolio and assets and starts with an empty ledger |
| Persons.SimPerson.InitSimyear | SimulationClasses.py:204-206 | the year's entry becomes empty and every other year is unchanged |
| Persons.SimPerson.SetFin | SimulationClasses.py:252-254 | only the given key of the given year changes |
| Persons.SimPerson.IncomePensDC | SimulationClasses.py:266-285 | returns the drawdown plus any state-pension top-up, records both and their total, and takes the total out of the pot |
| Persons.SimPerson.IncomeISA | SimulationClasses.py:287-293 | draws the ISA drawdown rate's share, records it, and takes it out of the ISA |
| Persons.SimPerson.IncomeTrading | SimulationClasses.py:295-301 | draws the trading drawdown rate's share, records it, and takes it out of the account |
| Persons.SimPerson.IncomeSavings | SimulationClasses.py:303-315 | when savings are due, draws min(shortfall, savings), equal to the savings on a tie, and records it; otherwise returns 0 and writes nothing |
| Persons.SimPerson.TaxableIncome | SimulationClasses.py:317-335 | returns state pension + DB pension + pension draw, and records each one and the total |
| Persons.SimPerson.TaxfreeIncome | SimulationClasses.py:337-355 | returns ISA + trading + the savings drawn for what those two leave short, and records them and the total |
| Persons.SimPerson.TaxedIncome | SimulationClasses.py:374-379 | returns the taxable income and the tax payable on it, and leaves the year's entry in the `Taxed` relation to the entry before: each pension income recorded, the pension pot reduced by the draw, the tax recorded |
| Persons.SimPerson.JoinYear | SimulationClasses.py:147-149 | starting the year's entry and then netting income returns the person-year's net income, and leaves that year's entry holding exactly what the person-year records |
| Persons.SimPerson.OpenYear | SimulationClasses.py:362-372 | the first year opens with the person's assets, every later year with the balances recorded for the year before |
| Persons.SimPerson.GrowYear | SimulationClasses.py:389-391 | the loop grows the four balances in turn, and the result is Grown |
| Persons.SimPerson.NetIncome | SimulationClasses.py:357-395 | the net income is the Income of the person's Waterfall, and the year's entry ends up holding Recorded(that Waterfall) written over what was there |
| Persons.RecordedEntry | SimulationClasses.py:386-394 | NetIncome's writes, followed by growth and the net income, produce exactly the recorded entry |
| Persons.NetIncomeSteps | SimulationClasses.py:374-382 | entries related by `Opened`, `Taxed` and `Drawn` (opening, taxable draw and tax, tax-free draw towards the target less the net taxable income) carry the values of the Waterfall, and taxfree + taxable - tax is its income |
| Persons.WaterfallBalances | SimulationClasses.py:357-395 | the pension pot loses its drawdown and top-up and then grows; the ISA loses its drawdown and then grows; the trading account and savings lose exactly what was drawn and do not grow |
| Persons.WaterfallDrawdowns | SimulationClasses.py:266-301 | each drawdown is the portfolio's rate times the opening balance |
| Persons.StatePensionTopUp | SimulationClasses.py:271-277 | there is a top-up exactly when it was asked for and the state pension is below the full amount, and it brings the pension up to the full amount; without the request there is no top-up |
| Persons.SavingsRule | SimulationClasses.py:303-315 | savings are drawn exactly when asked for and income is short, and then min(shortfall, savings) is drawn; non-negative savings stay non-negative |
| Persons.IncomeVersusTarget | SimulationClasses.py:378-382 | a person who covers shortfalls from savings nets the target unless the savings run out, and never nets more than the target when savings are drawn |
| Persons.RecordedBalances | SimulationClasses.py:369-372 | the balances recorded for a year are its closing balances, so the next year opens with them |
| Simulations.Household | SimulationClasses.py:144-150 | one person-year per person, in order |
| Simulations.HouseholdAt | SimulationClasses.py:144-150 | the k-th person draws towards the living expenses less what the persons before them netted |
| Simulations.HouseholdMeetsTarget | SimulationClasses.py:144-150 | when the last person covers shortfalls from savings, the household nets the year's living expenses unless that person's savings run out |
| Simulations.HouseholdStep | SimulationClasses.py:149 | given what is still required after the first k persons, the k-th person's year is their Waterfall |
| Simulations.RequiredStep | SimulationClasses.py:150 | subtracting one more person's income leaves what is still required after k+1 persons |
| Simulations.RecordsAt | SimulationClasses.py:148-149 | the k-th record is the entry the k-th person-year leaves behind |
| Simulations.PersonsOf | SimulationClasses.py:146-147 | position k holds the person with the k-th identifier |
| Simulations.PersonsOfDistinct | SimulationClasses.py:146-147 | distinct identifiers of distinct persons give distinct objects, so no person joins a year twice |
| Simulations.JoinPerson | SimulationClasses.py:147-150 | the k-th person's income and new year entry are those of the k-th person-year of the household |
| Simulations.JoinInOrder | SimulationClasses.py:146-150 | after the loop, what is still required is the living expenses less the household's net income, and each person's ledger holds their person-year's entry for the year |
| Simulations.RunPersons | SimulationClasses.py:144-151 | the persons, in sorted order of identifier, each record their part of the household year, opening with their balances from before the year |
| Simulations.Closings | SimulationClasses.py:369-372 | position k holds the closing balances of the k-th person-year |
| Simulations.Projection | SimulationClasses.py:23-24 | one household per year of the run, with one person-year per person |
| Simulations.ProjectionAt | SimulationClasses.py:362-372 | year i's household opens with the assets when i is 0, and with the balances year i-1 closed with otherwise |
| Simulations.ProjectedLedgerSpec | SimulationClasses.py:23-24 | after i years, a ledger holds the years it held before plus the run's first i years; each of those holds its person-year's entry; every other year is unchanged |
| Simulations.ProjectedLedgers | SimulationClasses.py:23-24 | there is one projected ledger per person |
| Simulations.YearStep | SimulationClasses.py:146-149 | recording year i in every ledger extends the projection by one year |
| Simulations.ProjectedOpening | SimulationClasses.py:362-372 | a ledger projected for i years can open year i, and opens it with what year i-1 closed with |
| Simulations.ProjectedOpenings | SimulationClasses.py:362-372 | every person can open the year, and the persons open it with the previous year's closings |
| Simulations.LedgerOpenings | SimulationClasses.py:362-372 | ledgers projected for i years can all open year i, each with the balances its person closed year i-1 with (the first year: the person's assets) |
| Simulations.PersonOpenings | SimulationClasses.py:146-150 | the same for the ledgers of the persons in sorted order |
| Simulations.AllReady | SimulationClasses.py:146 | once each person in sorted-key order can open the year, every person of the simulation can, as the loop visits every key |
| Simulations.MakePlan | SimulationClasses.py:16-24 | the sorted identifiers, persons, years and projection of a run exist and agree with each other |
| Simulations.NewSimYear | SimulationClasses.py:96-151 | builds the next year of the run and lets the persons join it; the ledgers are then projected one year further |
| Simulations.SimulateYear | SimulationClasses.py:143-151 | running the persons through year i moves every ledger from its projection over i years to its projection over i + 1 |
| Simulations.PlanYear | SimulationClasses.py:23-24 | year i of a planned run is built from year i-1 (the first from nothing), and the household of year i opens with the assets or the closings of year i-1 |
| Simulations.RunYears | SimulationClasses.py:23-24 | the loop builds exactly the run's years; every person's ledger ends up as their projection over all nYears |
| Simulations.Simulation.constructor | SimulationClasses.py:16-24 | the fields are set, the years are the run's indexed years, and every person's ledger holds the projected entry for each year of the run |
| Simulations.Simulation.FirstYear | SimulationClasses.py:26-27 | the start year; `YearData` reports no year before it |
| Simulations.Simulation.LastYear | SimulationClasses.py:29-30 | the last year of the run; `YearData` reports no year after it |
| Simulations.Simulation.YearData | SimulationClasses.py:76-80 | None exactly when the year is before firstYear (26-27) or after lastYear (29-30); otherwise the year with that number |
| Simulations.Simulation.YearDataLinked | SimulationClasses.py:96-98 | every year of the run is built from what yearData reports for the year before, and the first year from nothing |

## Left out

- Logging, `__repr__`, the `__main__` blocks, and reading portfolios and assets from
  files. These are I/O, and the model takes the portfolios and assets as values.
- Floating point. All amounts are Dafny reals, so rounding is not modelled.
- PlatformClasses.py, SecurityClasses.py and PositionClasses.py are not part of this
  model. A person's portfolio is reduced to the figures the simulation reads from it:
  identifier, state-pension date and ratio, drawdown rates, and the two shortfall
  flags.
- The flags: the source compares `spShortfall()` and `savShortfall()` with the string
  "Yes"; the model holds the result of that comparison as a boolean.
- The `username`, `dob` and `rtDate` getters. They feed only logging and `__repr__`.
- Dates are Python day ordinals (days since 1 January of year 1). The model does not
  parse date strings. Years are limited to 1..9998, where Python's tax-year end date
  exists.
- The global simulation configuration and its getters become the `Config` record read
  by every year. The source's `get_CPI`, `get_RPI`, `get_portfolioGrowth`,
  `get_livingExpenses1`, `get_livingExpenses2` and `get_expensiveYears` take an
  `amount` parameter that their callers do not pass (app/__init__.py:62-73). The model
  takes these getters to return the configured figure.
- The simple getters `persons()`, `CPI()`, `RPI()`, `livingExpenses1()` …
  `taxrateHigh()` and the `SimPerson` portfolio getters are field reads in the model.
- The ledger's string keys become the `Field` enumeration, and the year keys become
  integers. A key that was never written is `None`; the source would raise `KeyError`
  on reading it, and the model requires the key to be present instead.
- SimYears.IndexedYear: requires a previous year whenever the source reads one. A run
  whose first year is after 2024 would fail in the source when it grows the
  defined-benefit pension from a missing year, so `Simulation.constructor` requires
  startYear <= 2024.
- Simulations.Simulation.constructor: requires that no person object appears under two
  identifiers. With such aliasing the source would let one person join a year twice.
  The model proves nothing about that case.
- Simulations.Simulation.YearData: requires the class invariant `Valid()`, which the
  constructor establishes and nothing changes later.
- Simulations.RunPersons: the income still required after the last person is returned
  and then dropped, as the source drops its local variable.
- The year loop is split into `RunYears`, one year at a time (`NewSimYear`, then
  `SimulateYear` for the persons' part), and the person loop into `RunPersons`,
  `JoinInOrder` and `JoinPerson`. `NetIncome` calls `TaxedIncome` for the taxable draw
  and its tax. This keeps each proof small; the order of the writes is the source's.
- Annuity.AnnuityFactor: requires 1 + r != 0, where the source would raise
  `ZeroDivisionError` when it raises 0 to a negative power. The same holds for
  `AnnuityDueFactor`. `PeriodAnnuityFactor` and `PeriodAnnuityDueFactor` require it
  only on a valid range: with a bad range the source raises `ValueError` before it
  computes any power (AnnuityFactor.py:19-22, 50-53), and the model returns that error
  at every rate, r = -1 included.
- Annuity.AnnualPaymentInArrears: requires r > -1, so that the factor it divides by is
  positive. Rates of -100% or below are not modelled.
- Annuity.AnnualPaymentInAdvance: requires r > -1, for the same reason.
- `STATE_PENSION_2025` in AnnuityFactor.py is unused by the formulas and is left out;
  they use the 2026 figure of 12,500.
