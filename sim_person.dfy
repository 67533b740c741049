/** A simulated person: a portfolio description, the assets held at the start of the
    simulation, and a ledger of what each simulated year drew, paid and left over. */
module Persons {
  import opened Results
  import opened Calendar
  import opened Ledger
  import opened SimConfig
  import opened SimYears

  /** What the simulation reads from a person's portfolio: identifier, state-pension date
      and ratio, yearly drawdown rates, and whether a shortfall in the state pension is
      topped up from the pension pot and a shortfall in income from savings. */
  datatype Portfolio = Portfolio(
    id: string,
    spDate: int,
    spRatio: real,
    drawdownPens: real,
    drawdownISA: real,
    drawdownTrd: real,
    spShortfall: bool,
    savShortfall: bool)

  /** The defined-benefit pension: only person "1" has one, paid from 25 October 2024. */
  function IncomePensDB(pf: Portfolio, y: SimYear): real
  {
    if pf.id == "1" then IncomePensTUI(y, DefinedBenefitDate()) else 0.0
  }

  /** Year by year, the defined-benefit pension is nothing before the 2024-25 tax year,
      162 days' worth in it, and the whole indexed amount afterwards. */
  lemma DefinedBenefitByYear(pf: Portfolio, y: SimYear)
    requires 1 <= y.year <= 9998
    requires y.taxyearStart == TaxYearStart(y.year) && y.taxyearEnd == TaxYearEnd(y.year)
    ensures pf.id != "1" ==> IncomePensDB(pf, y) == 0.0
    ensures pf.id == "1" && y.year < 2024 ==> IncomePensDB(pf, y) == 0.0
    ensures pf.id == "1" && y.year == 2024 ==> IncomePensDB(pf, y) == y.tuiPension * 162.0 / 365.0
    ensures pf.id == "1" && y.year > 2024 ==> IncomePensDB(pf, y) == y.tuiPension
  {
    if y.year < 2024 {
      TaxYearsOrdered(y.year, 2024);
    } else if y.year > 2024 {
      TaxYearsOrdered(2024, y.year);
    }
  }

  /** The amount drawn from the pension pot to bring the state pension up to the full
      amount, for a person who asks for it. */
  function SpTopUp(pf: Portfolio, y: SimYear, spAmount: real): real
  {
    if pf.spShortfall && spAmount < y.fullStatePension then y.fullStatePension - spAmount else 0.0
  }

  /** Savings are drawn when the person asks for it and income is still short. */
  predicate SavingsDue(pf: Portfolio, shortfall: real)
  {
    pf.savShortfall && shortfall > 0.0
  }

  /** The savings drawn to cover a shortfall: all of it if the savings suffice, else all
      the savings; nothing (and no ledger record) when savings are not due. */
  function SavingsTopUp(pf: Portfolio, shortfall: real, savings: real): Option<real>
  {
    if SavingsDue(pf, shortfall) then Some(if shortfall < savings then shortfall else savings) else None
  }

  /** What one person's year came to. */
  datatype PersonYear = PersonYear(
    opening: Balances,
    pensSP: real,
    pensDB: real,
    drawdown: real,          // drawn from the pension pot at the drawdown rate
    spTopUp: real,           // drawn from the pension pot to top up the state pension
    tax: real,
    isa: real,
    trd: real,
    savTopUp: Option<real>,
    closing: Balances)
  {
    function PensDC(): real { drawdown + spTopUp }
    function Taxable(): real { pensSP + pensDB + PensDC() }
    function SavingsIncome(): real { if savTopUp.Some? then savTopUp.value else 0.0 }
    function Taxfree(): real { isa + trd + SavingsIncome() }
    function Income(): real { Taxfree() + Taxable() - tax }
  }

  /** The amount drawn in a year from a balance at a drawdown rate. */
  function Drawdown(rate: real, balance: real): real
  {
    rate * balance
  }

  /** A balance of the given kind after a year's growth. */
  function YearEnd(cfg: Config, assetType: Field, balance: real): real
  {
    balance * PortfolioGrowthRate(cfg, assetType)
  }

  /** A person's year from its opening balances and the net income still required:
      taxable income first (state pension, defined-benefit pension, pension drawdown and
      state-pension top-up), then tax on it, then tax-free income (ISA drawdown, trading
      drawdown, and savings for whatever is still short), then a year's growth. */
  function Waterfall(pf: Portfolio, y: SimYear, open: Balances, targetIncome: real): PersonYear
  {
    var sp := IncomePensSP(y, pf.spDate, pf.spRatio);
    var db := IncomePensDB(pf, y);
    var drawdown := Drawdown(pf.drawdownPens, open.pens);
    var topUp := SpTopUp(pf, y, sp);
    var taxable := sp + db + (drawdown + topUp);
    var tax := IncomeTax(y, taxable);
    var isa := Drawdown(pf.drawdownISA, open.isa);
    var trd := Drawdown(pf.drawdownTrd, open.trd);
    var shortfall := targetIncome - (taxable - tax) - isa - trd;
    var sav := SavingsTopUp(pf, shortfall, open.sav);
    var savLeft := if sav.Some? then open.sav - sav.value else open.sav;
    var closing := Balances(
      YearEnd(y.cfg, APn, open.pens - (drawdown + topUp)),
      YearEnd(y.cfg, AISA, open.isa - isa),
      YearEnd(y.cfg, ATrd, open.trd - trd),
      YearEnd(y.cfg, ASav, savLeft));
    PersonYear(open, sp, db, drawdown, topUp, tax, isa, trd, sav, closing)
  }

  /** The entry a person's year leaves behind, written over e0: every key NetIncome
      writes, with the savings draw recorded only when there was one. */
  function Recorded(e0: Entry, py: PersonYear): Entry
  {
    e0.(aPn := Some(py.closing.pens), aISA := Some(py.closing.isa), aTrd := Some(py.closing.trd),
        aSav := Some(py.closing.sav),
        pensSP := Some(py.pensSP), pensDB := Some(py.pensDB), pensDC := Some(py.PensDC()),
        pensDCDD := Some(py.drawdown), pensDCSpTU := Some(py.spTopUp),
        iISA := Some(py.isa), iTrd := Some(py.trd),
        iSav := if py.savTopUp.Some? then py.savTopUp else e0.iSav,
        taxable := Some(py.Taxable()), tax := Some(py.tax), taxfree := Some(py.Taxfree()),
        income := Some(py.Income()))
  }

  /** The balances a year opens with can be found: the first year opens with the
      person's assets, any other with the balances recorded for the year before. */
  predicate OpeningReady(y: SimYear, simyears: Ledger)
  {
    y.year == y.first || (y.year - 1 in simyears && HasBalances(simyears[y.year - 1]))
  }

  function Opening(y: SimYear, assets: Balances, simyears: Ledger): Balances
    requires OpeningReady(y, simyears)
  {
    if y.year == y.first then assets else BalancesOf(simyears[y.year - 1])
  }

  /** b is a with e as the entry of year, and every other year as it was. */
  predicate Updated(a: Ledger, b: Ledger, year: int, e: Entry)
  {
    b.Keys == a.Keys + {year} && b[year] == e &&
    forall yr :: yr in a && yr != year ==> b[yr] == a[yr]
  }

  /** Two updates of the same year amount to the second. */
  lemma UpdatedTwice(a: Ledger, b: Ledger, c: Ledger, year: int, e1: Entry, e2: Entry)
    requires Updated(a, b, year, e1) && Updated(b, c, year, e2)
    ensures Updated(a, c, year, e2)
  {
  }

  /** An update is the ledger with the year's entry stored. */
  lemma UpdatedStore(a: Ledger, b: Ledger, year: int, e: Entry)
    requires Updated(a, b, year, e)
    ensures b == a[year := e]
  {
    assert b.Keys == a[year := e].Keys;
    forall yr | yr in b
      ensures b[yr] == a[year := e][yr]
    {
    }
  }

  /** e with a savings draw recorded, if there was one. */
  function WithSavings(e: Entry, topUp: Option<real>): Entry
    requires topUp.Some? ==> e.aSav.Some?
  {
    if topUp.Some? then e.(iSav := topUp, aSav := Some(e.aSav.value - topUp.value)) else e
  }

  /** e with the first k asset balances grown by a year. */
  function Grown(cfg: Config, e: Entry, k: nat): (g: Entry)
    requires k <= |AssetFields| && HasBalances(e)
    ensures HasBalances(g)
    decreases k
  {
    if k == 0 then e
    else
      var f := AssetFields[k - 1];
      var p := Grown(cfg, e, k - 1);
      Set(p, f, YearEnd(cfg, f, Get(p, f).value))
  }

  /** Growing all four balances grows each by its own rate and writes nothing else. */
  lemma GrownAll(cfg: Config, e: Entry)
    requires HasBalances(e)
    ensures Grown(cfg, e, 4)
            == e.(aPn := Some(YearEnd(cfg, APn, e.aPn.value)), aISA := Some(YearEnd(cfg, AISA, e.aISA.value)),
                  aTrd := Some(YearEnd(cfg, ATrd, e.aTrd.value)), aSav := Some(YearEnd(cfg, ASav, e.aSav.value)))
  {
    assert AssetFields == [APn, AISA, ATrd, ASav];
    assert Grown(cfg, e, 1) == e.(aPn := Some(YearEnd(cfg, APn, e.aPn.value)));
    assert Grown(cfg, e, 2) == Grown(cfg, e, 1).(aISA := Some(YearEnd(cfg, AISA, e.aISA.value)));
    assert Grown(cfg, e, 3) == Grown(cfg, e, 2).(aTrd := Some(YearEnd(cfg, ATrd, e.aTrd.value)));
  }

  class SimPerson {
    const portfolio: Portfolio
    const assets: Balances
    var simyears: Ledger

    constructor(portfolio: Portfolio, assets: Balances)
      ensures this.portfolio == portfolio && this.assets == assets && simyears == map[]
    {
      this.portfolio := portfolio;
      this.assets := assets;
      simyears := map[];
    }

    /** Starts an empty entry for a year. */
    method InitSimyear(year: int)
      modifies this
      ensures Updated(old(simyears), simyears, year, EmptyEntry)
    {
      simyears := simyears[year := EmptyEntry];
    }

    function GetFin(y: SimYear, assetType: Field): real
      reads this
      requires y.year in simyears && Get(simyears[y.year], assetType).Some?
    {
      Get(simyears[y.year], assetType).value
    }

    method SetFin(y: SimYear, assetType: Field, value: real)
      modifies this
      requires y.year in simyears
      ensures Updated(old(simyears), simyears, y.year, Set(old(simyears)[y.year], assetType, value))
    {
      simyears := simyears[y.year := Set(simyears[y.year], assetType, value)];
    }

    /** Draws from the pension pot: the drawdown rate's share of the pot, plus any
        state-pension top-up, both taken out of the pot. */
    method IncomePensDC(y: SimYear) returns (total: real)
      modifies this
      requires y.year in simyears && simyears[y.year].pensSP.Some? && simyears[y.year].aPn.Some?
      ensures var e := old(simyears)[y.year];
              var drawdown := Drawdown(portfolio.drawdownPens, e.aPn.value);
              var topUp := SpTopUp(portfolio, y, e.pensSP.value);
              total == drawdown + topUp &&
              Updated(old(simyears), simyears, y.year,
                      e.(pensDC := Some(total), pensDCDD := Some(drawdown), pensDCSpTU := Some(topUp),
                         aPn := Some(e.aPn.value - total)))
    {
      var spAmount := GetFin(y, PensSP);
      var pensionAssets := GetFin(y, APn);
      var drawdownAmount := Drawdown(portfolio.drawdownPens, pensionAssets);
      total := drawdownAmount;
      var spTopUp := 0.0;
      if portfolio.spShortfall {
        var fullSP := y.fullStatePension;
        if spAmount < fullSP {
          spTopUp := fullSP - spAmount;
        }
      }
      total := total + spTopUp;
      SetFin(y, PensDC, total);
      SetFin(y, PensDCDD, drawdownAmount);
      SetFin(y, PensDCSpTU, spTopUp);
      SetFin(y, APn, pensionAssets - total);
    }

    method IncomeISA(y: SimYear) returns (amount: real)
      modifies this
      requires y.year in simyears && simyears[y.year].aISA.Some?
      ensures var e := old(simyears)[y.year];
              amount == Drawdown(portfolio.drawdownISA, e.aISA.value) &&
              Updated(old(simyears), simyears, y.year,
                      e.(iISA := Some(amount), aISA := Some(e.aISA.value - amount)))
    {
      var isaAssets := GetFin(y, AISA);
      amount := Drawdown(portfolio.drawdownISA, isaAssets);
      SetFin(y, IISA, amount);
      SetFin(y, AISA, isaAssets - amount);
    }

    method IncomeTrading(y: SimYear) returns (amount: real)
      modifies this
      requires y.year in simyears && simyears[y.year].aTrd.Some?
      ensures var e := old(simyears)[y.year];
              amount == Drawdown(portfolio.drawdownTrd, e.aTrd.value) &&
              Updated(old(simyears), simyears, y.year,
                      e.(iTrd := Some(amount), aTrd := Some(e.aTrd.value - amount)))
    {
      var trdAssets := GetFin(y, ATrd);
      amount := Drawdown(portfolio.drawdownTrd, trdAssets);
      SetFin(y, ITrd, amount);
      SetFin(y, ATrd, trdAssets - amount);
    }

    /** Covers a shortfall from savings, as far as they go, when the person asks for it. */
    method IncomeSavings(y: SimYear, shortfallAmount: real) returns (topUp: real)
      modifies this
      requires y.year in simyears && (SavingsDue(portfolio, shortfallAmount) ==> simyears[y.year].aSav.Some?)
      ensures var e := old(simyears)[y.year];
              var drawn := if SavingsDue(portfolio, shortfallAmount)
                           then SavingsTopUp(portfolio, shortfallAmount, e.aSav.value) else None;
              topUp == (if drawn.Some? then drawn.value else 0.0) &&
              Updated(old(simyears), simyears, y.year, WithSavings(e, drawn))
    {
      topUp := 0.0;
      if portfolio.savShortfall && shortfallAmount > 0.0 {
        var savAssets := GetFin(y, ASav);
        if shortfallAmount < savAssets {
          topUp := shortfallAmount;
        } else {
          topUp := savAssets;
        }
        SetFin(y, ISav, topUp);
        SetFin(y, ASav, savAssets - topUp);
      }
    }

    /** The taxable income of the year: state pension, defined-benefit pension and the
        draw from the pension pot, each recorded. */
    method TaxableIncome(y: SimYear) returns (total: real)
      modifies this
      requires y.year in simyears && simyears[y.year].aPn.Some?
      ensures var e := old(simyears)[y.year];
              var sp := IncomePensSP(y, portfolio.spDate, portfolio.spRatio);
              var db := IncomePensDB(portfolio, y);
              var drawdown := Drawdown(portfolio.drawdownPens, e.aPn.value);
              var topUp := SpTopUp(portfolio, y, sp);
              total == sp + db + (drawdown + topUp) &&
              Updated(old(simyears), simyears, y.year,
                      e.(pensSP := Some(sp), pensDB := Some(db), pensDC := Some(drawdown + topUp),
                         pensDCDD := Some(drawdown), pensDCSpTU := Some(topUp),
                         aPn := Some(e.aPn.value - (drawdown + topUp)), taxable := Some(total)))
    {
      total := 0.0;
      var spAmount := IncomePensSP(y, portfolio.spDate, portfolio.spRatio);
      SetFin(y, PensSP, spAmount);
      total := total + spAmount;
      var dbPens := IncomePensDB(portfolio, y);
      SetFin(y, PensDB, dbPens);
      total := total + dbPens;
      var dcPens := IncomePensDC(y);
      total := total + dcPens;
      SetFin(y, Taxable, total);
    }

    /** The taxable income of the year and the tax payable on it, both recorded. */
    method TaxedIncome(y: SimYear) returns (taxable: real, tax: real)
      modifies this
      requires y.year in simyears && simyears[y.year].aPn.Some?
      ensures y.year in simyears && Updated(old(simyears), simyears, y.year, simyears[y.year])
      ensures Taxed(portfolio, y, old(simyears)[y.year], taxable, tax, simyears[y.year])
    {
      taxable := TaxableIncome(y);
      tax := IncomeTax(y, taxable);
      SetFin(y, Tax, tax);
    }

    /** The tax-free income of the year: ISA drawdown, trading drawdown, then savings for
        whatever of the shortfall they leave. */
    method TaxfreeIncome(y: SimYear, shortfallAmount: real) returns (total: real)
      modifies this
      requires y.year in simyears && HasBalances(simyears[y.year])
      ensures var e := old(simyears)[y.year];
              var isa := Drawdown(portfolio.drawdownISA, e.aISA.value);
              var trd := Drawdown(portfolio.drawdownTrd, e.aTrd.value);
              var drawn := SavingsTopUp(portfolio, shortfallAmount - isa - trd, e.aSav.value);
              total == isa + trd + (if drawn.Some? then drawn.value else 0.0) &&
              Updated(old(simyears), simyears, y.year,
                      WithSavings(e.(iISA := Some(isa), aISA := Some(e.aISA.value - isa),
                                     iTrd := Some(trd), aTrd := Some(e.aTrd.value - trd)),
                                  drawn).(taxfree := Some(total)))
      ensures Drawn(portfolio, shortfallAmount, old(simyears)[y.year], total, simyears[y.year])
    {
      total := 0.0;
      var shortfall := shortfallAmount;
      var isaAmount := IncomeISA(y);
      total := total + isaAmount;
      shortfall := shortfall - isaAmount;
      var trdAmount := IncomeTrading(y);
      total := total + trdAmount;
      shortfall := shortfall - trdAmount;
      var savAmount := IncomeSavings(y, shortfall);
      total := total + savAmount;
      SetFin(y, Taxfree, total);
    }

    /** A person's part in a simulated year: a fresh entry for the year, then the
        person's net income towards what is still required. */
    method JoinYear(y: SimYear, required: real) returns (income: real)
      modifies this
      requires OpeningReady(y, simyears)
      ensures var py := Waterfall(portfolio, y, Opening(y, assets, old(simyears)), required);
              income == py.Income() && Updated(old(simyears), simyears, y.year, Recorded(EmptyEntry, py))
    {
      ghost var s0 := simyears;
      InitSimyear(y.year);
      ghost var s1 := simyears;
      assert Opening(y, assets, s1) == Opening(y, assets, s0);
      income := NetIncome(y, required);
      UpdatedTwice(s0, s1, simyears, y.year, EmptyEntry,
                   Recorded(EmptyEntry, Waterfall(portfolio, y, Opening(y, assets, s0), required)));
    }

    /** Opens a year: the first year starts from the person's assets, any other from the
        balances the year before closed with. */
    method OpenYear(y: SimYear)
      modifies this
      requires y.year in simyears && OpeningReady(y, simyears)
      ensures var open := Opening(y, assets, old(simyears));
              Updated(old(simyears), simyears, y.year,
                      old(simyears)[y.year].(aPn := Some(open.pens), aISA := Some(open.isa),
                                             aTrd := Some(open.trd), aSav := Some(open.sav)))
    {
      if y.year == y.first {
        SetFin(y, APn, assets.pens);
        SetFin(y, AISA, assets.isa);
        SetFin(y, ATrd, assets.trd);
        SetFin(y, ASav, assets.sav);
      } else {
        var prev := simyears[y.year - 1];
        SetFin(y, APn, prev.aPn.value);
        SetFin(y, AISA, prev.aISA.value);
        SetFin(y, ATrd, prev.aTrd.value);
        SetFin(y, ASav, prev.aSav.value);
      }
    }

    /** Grows each of the four balances by a year, in turn. */
    method GrowYear(y: SimYear)
      modifies this
      requires y.year in simyears && HasBalances(simyears[y.year])
      ensures Updated(old(simyears), simyears, y.year, Grown(y.cfg, old(simyears)[y.year], |AssetFields|))
    {
      ghost var e := simyears[y.year];
      for k := 0 to |AssetFields|
        invariant Updated(old(simyears), simyears, y.year, Grown(y.cfg, e, k))
      {
        var ptype := AssetFields[k];
        AssetPresent(Grown(y.cfg, e, k), k);
        SetFin(y, ptype, YearEnd(y.cfg, ptype, GetFin(y, ptype)));
      }
    }

    /** The person's net income for a year in which targetIncome is still required:
        opens the year's balances, draws taxable income, records the tax on it, draws
        tax-free income for what the target still lacks, grows the balances and records
        the net income. The year's entry ends up holding the person's Waterfall. */
    method NetIncome(y: SimYear, targetIncome: real) returns (total: real)
      modifies this
      requires y.year in simyears && OpeningReady(y, simyears)
      ensures var py := Waterfall(portfolio, y, Opening(y, assets, old(simyears)), targetIncome);
              total == py.Income() &&
              Updated(old(simyears), simyears, y.year, Recorded(old(simyears)[y.year], py))
    {
      ghost var l0 := simyears;
      ghost var e0 := simyears[y.year];
      ghost var open := Opening(y, assets, simyears);
      OpenYear(y);
      ghost var l1 := simyears;
      ghost var e1 := simyears[y.year];

      var taxableIncome, taxPayable := TaxedIncome(y);
      ghost var l2 := simyears;
      ghost var e2 := simyears[y.year];
      UpdatedTwice(l0, l1, l2, y.year, e1, e2);

      var taxfreeIncome := TaxfreeIncome(y, targetIncome - (taxableIncome - taxPayable));
      ghost var l3 := simyears;
      ghost var e3 := simyears[y.year];
      UpdatedTwice(l0, l2, l3, y.year, e2, e3);
      GrowYear(y);
      ghost var l4 := simyears;
      UpdatedTwice(l0, l3, l4, y.year, e3, l4[y.year]);

      total := taxfreeIncome + taxableIncome - taxPayable;
      SetFin(y, Income, total);
      UpdatedTwice(l0, l4, simyears, y.year, l4[y.year], simyears[y.year]);
      ghost var py := NetIncomeSteps(portfolio, y, open, targetIncome, e0, e1, taxableIncome, taxPayable, e2,
                                     taxfreeIncome, e3);
      RecordedEntry(y.cfg, e0, py, e3);
    }
  }

  /** Each of the four balances is present in an entry that has balances. */
  lemma AssetPresent(e: Entry, k: int)
    requires HasBalances(e) && 0 <= k < |AssetFields|
    ensures Get(e, AssetFields[k]).Some?
  {
    assert AssetFields == [APn, AISA, ATrd, ASav];
  }

  /** NetIncome's writes to a year's entry, taken together: the opening balances, the
      taxable income and its tax, the tax-free income, a year's growth and the net income
      leave the ledger entry of the person's year written over what was there. */
  lemma RecordedEntry(cfg: Config, e0: Entry, py: PersonYear, e3: Entry)
    requires e3 == WithSavings(e0.(aPn := Some(py.opening.pens - py.PensDC()),
                                   aISA := Some(py.opening.isa - py.isa),
                                   aTrd := Some(py.opening.trd - py.trd),
                                   aSav := Some(py.opening.sav),
                                   pensSP := Some(py.pensSP), pensDB := Some(py.pensDB),
                                   pensDC := Some(py.PensDC()), pensDCDD := Some(py.drawdown),
                                   pensDCSpTU := Some(py.spTopUp), taxable := Some(py.Taxable()),
                                   tax := Some(py.tax), iISA := Some(py.isa), iTrd := Some(py.trd)),
                               py.savTopUp).(taxfree := Some(py.Taxfree()))
    requires py.closing == Balances(
               YearEnd(cfg, APn, py.opening.pens - py.PensDC()),
               YearEnd(cfg, AISA, py.opening.isa - py.isa),
               YearEnd(cfg, ATrd, py.opening.trd - py.trd),
               YearEnd(cfg, ASav, if py.savTopUp.Some? then py.opening.sav - py.savTopUp.value
                                  else py.opening.sav))
    ensures HasBalances(e3)
    ensures Grown(cfg, e3, 4).(income := Some(py.Income())) == Recorded(e0, py)
  {
    GrownAll(cfg, e3);
  }

  /** e1 is e0 opened with the balances open. */
  ghost predicate Opened(open: Balances, e0: Entry, e1: Entry)
  {
    e1 == e0.(aPn := Some(open.pens), aISA := Some(open.isa), aTrd := Some(open.trd),
              aSav := Some(open.sav))
  }

  /** e2 is e1 with the year's taxable income drawn and recorded, and tax payable on it. */
  ghost predicate Taxed(pf: Portfolio, y: SimYear, e1: Entry, taxable: real, tax: real, e2: Entry)
  {
    e1.aPn.Some? &&
    var sp := IncomePensSP(y, pf.spDate, pf.spRatio);
    var drawdown := Drawdown(pf.drawdownPens, e1.aPn.value);
    var topUp := SpTopUp(pf, y, sp);
    taxable == sp + IncomePensDB(pf, y) + (drawdown + topUp) && tax == IncomeTax(y, taxable) &&
    e2 == e1.(pensSP := Some(sp), pensDB := Some(IncomePensDB(pf, y)),
              pensDC := Some(drawdown + topUp), pensDCDD := Some(drawdown),
              pensDCSpTU := Some(topUp), aPn := Some(e1.aPn.value - (drawdown + topUp)),
              taxable := Some(taxable)).(tax := Some(tax))
  }

  /** e3 is e2 with taxfree drawn from the ISA, the trading account and, for what of
      shortfall they leave, savings. */
  ghost predicate Drawn(pf: Portfolio, shortfall: real, e2: Entry, taxfree: real, e3: Entry)
  {
    HasBalances(e2) &&
    var isa := Drawdown(pf.drawdownISA, e2.aISA.value);
    var trd := Drawdown(pf.drawdownTrd, e2.aTrd.value);
    var drawn := SavingsTopUp(pf, shortfall - isa - trd, e2.aSav.value);
    taxfree == isa + trd + (if drawn.Some? then drawn.value else 0.0) &&
    e3 == WithSavings(e2.(iISA := Some(isa), aISA := Some(e2.aISA.value - isa),
                          iTrd := Some(trd), aTrd := Some(e2.aTrd.value - trd)),
                      drawn).(taxfree := Some(taxfree))
  }

  /** The values NetIncome's steps produce are those of the person's Waterfall. */
  lemma NetIncomeSteps(pf: Portfolio, y: SimYear, open: Balances, targetIncome: real, e0: Entry,
                       e1: Entry, taxable: real, tax: real, e2: Entry, taxfree: real, e3: Entry)
    returns (py: PersonYear)
    requires Opened(open, e0, e1)
    requires Taxed(pf, y, e1, taxable, tax, e2)
    requires Drawn(pf, targetIncome - (taxable - tax), e2, taxfree, e3)
    ensures py == Waterfall(pf, y, open, targetIncome)
    ensures taxfree + taxable - tax == py.Income()
    ensures e3 == WithSavings(e0.(aPn := Some(py.opening.pens - py.PensDC()),
                                  aISA := Some(py.opening.isa - py.isa),
                                  aTrd := Some(py.opening.trd - py.trd),
                                  aSav := Some(py.opening.sav),
                                  pensSP := Some(py.pensSP), pensDB := Some(py.pensDB),
                                  pensDC := Some(py.PensDC()), pensDCDD := Some(py.drawdown),
                                  pensDCSpTU := Some(py.spTopUp), taxable := Some(py.Taxable()),
                                  tax := Some(py.tax), iISA := Some(py.isa), iTrd := Some(py.trd)),
                              py.savTopUp).(taxfree := Some(py.Taxfree()))
    ensures py.closing == Balances(
              YearEnd(y.cfg, APn, py.opening.pens - py.PensDC()),
              YearEnd(y.cfg, AISA, py.opening.isa - py.isa),
              YearEnd(y.cfg, ATrd, py.opening.trd - py.trd),
              YearEnd(y.cfg, ASav, if py.savTopUp.Some? then py.opening.sav - py.savTopUp.value
                                   else py.opening.sav))
  {
    py := Waterfall(pf, y, open, targetIncome);
  }

  /** The shortfall savings are asked to cover: the target less the net taxable income
      and the ISA and trading drawdowns. */
  function Shortfall(py: PersonYear, targetIncome: real): real
  {
    targetIncome - (py.Taxable() - py.tax) - py.isa - py.trd
  }

  /** What a year draws leaves the accounts: the pension pot loses the drawdown and the
      state-pension top-up and the ISA its drawdown, and both then grow by the portfolio
      growth rate; the trading account and savings lose exactly what was drawn and do not
      grow. */
  lemma WaterfallBalances(pf: Portfolio, y: SimYear, open: Balances, targetIncome: real)
    ensures var py := Waterfall(pf, y, open, targetIncome);
            py.opening == open &&
            py.closing.pens == (open.pens - py.PensDC()) * (1.0 + y.cfg.portfolioGrowth) &&
            py.closing.isa == (open.isa - py.isa) * (1.0 + y.cfg.portfolioGrowth) &&
            py.closing.trd + py.trd == open.trd &&
            py.closing.sav + py.SavingsIncome() == open.sav
  {
    var py := Waterfall(pf, y, open, targetIncome);
    assert py.closing.trd == YearEnd(y.cfg, ATrd, open.trd - py.trd);
    assert py.closing.sav == YearEnd(y.cfg, ASav, open.sav - py.SavingsIncome());
  }

  /** The drawdowns are the portfolio's rates applied to the opening balances. */
  lemma WaterfallDrawdowns(pf: Portfolio, y: SimYear, open: Balances, targetIncome: real)
    ensures var py := Waterfall(pf, y, open, targetIncome);
            py.drawdown == pf.drawdownPens * open.pens && py.isa == pf.drawdownISA * open.isa &&
            py.trd == pf.drawdownTrd * open.trd
  {
  }

  /** A person who asks for it has the state pension topped up from the pension pot to
      the full amount; nobody else is. */
  lemma StatePensionTopUp(pf: Portfolio, y: SimYear, open: Balances, targetIncome: real)
    ensures var py := Waterfall(pf, y, open, targetIncome);
            (py.spTopUp > 0.0 <==> pf.spShortfall && py.pensSP < y.fullStatePension) &&
            (pf.spShortfall ==> py.pensSP + py.spTopUp == Max(py.pensSP, y.fullStatePension)) &&
            (!pf.spShortfall ==> py.spTopUp == 0.0)
  {
  }

  /** Savings are drawn exactly when the person asks for it and the other income falls
      short of the target, and then cover as much of the shortfall as they can. */
  lemma SavingsRule(pf: Portfolio, y: SimYear, open: Balances, targetIncome: real)
    ensures var py := Waterfall(pf, y, open, targetIncome);
            var shortfall := Shortfall(py, targetIncome);
            (py.savTopUp.Some? <==> pf.savShortfall && shortfall > 0.0) &&
            (py.savTopUp.Some? ==> py.savTopUp.value == Min(shortfall, open.sav) &&
                                   py.savTopUp.value <= shortfall) &&
            (open.sav >= 0.0 ==> py.closing.sav >= 0.0)
  {
    var py := Waterfall(pf, y, open, targetIncome);
    WaterfallBalances(pf, y, open, targetIncome);
    assert Shortfall(py, targetIncome)
           == targetIncome - (py.Taxable() - py.tax) - Drawdown(pf.drawdownISA, open.isa)
              - Drawdown(pf.drawdownTrd, open.trd);
  }

  /** A person who covers shortfalls from savings nets the target income unless the
      savings run out, and never nets more than the target when savings are drawn. */
  lemma IncomeVersusTarget(pf: Portfolio, y: SimYear, open: Balances, targetIncome: real)
    requires pf.savShortfall && open.sav >= 0.0
    ensures var py := Waterfall(pf, y, open, targetIncome);
            (py.Income() >= targetIncome || py.closing.sav == 0.0) &&
            (py.savTopUp.Some? ==> py.Income() <= targetIncome) &&
            (py.Income() == targetIncome - Shortfall(py, targetIncome) + py.SavingsIncome())
  {
    var py := Waterfall(pf, y, open, targetIncome);
    SavingsRule(pf, y, open, targetIncome);
    WaterfallBalances(pf, y, open, targetIncome);
  }

  /** The balances recorded for a year are the year's closing balances: the next year
      opens with them. */
  lemma RecordedBalances(e0: Entry, py: PersonYear)
    ensures HasBalances(Recorded(e0, py)) && BalancesOf(Recorded(e0, py)) == py.closing
  {
  }
}
