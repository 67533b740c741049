/** One simulated tax year: its dates, its indexed figures and the pure rules that
    apply within it (income tax, and the pro-rating of pensions that start during it). */
module SimYears {
  import opened Results
  import opened Calendar
  import opened SimConfig

  /** The figures of one tax year. A year is built once from its predecessor and never
      changes afterwards. first and cfg are what the year reads from its simulation. */
  datatype SimYear = SimYear(
    first: int,
    cfg: Config,
    year: int,
    taxyearStart: int,
    taxyearEnd: int,
    livingExpenses1: real,
    livingExpenses2: real,
    fullStatePension: real,
    tuiPension: real,
    livingExpenses: real,
    taxFreeAmount: real,
    basicRateAmount: real)

  /** The year can be built: its dates exist, and it has a predecessor whenever it reads
      one (every year but the first, and also the first when it is after 2024, since the
      defined-benefit pension of a year after 2024 grows from the year before). */
  predicate CanIndex(first: int, year: int, prev: Option<SimYear>)
  {
    1 <= year <= 9998 && ((year != first || year > 2024) ==> prev.Some?)
  }

  /** Builds a year from the configuration and its predecessor: both expense tiers grow
      with RPI and the full state pension with CPI; the defined-benefit pension starts in
      2024 and grows by 2.5% a year; the tax thresholds are frozen before 2026 and grow
      with CPI from then on. */
  function IndexedYear(cfg: Config, first: int, year: int, prev: Option<SimYear>): (y: SimYear)
    requires CanIndex(first, year, prev)
    ensures y.first == first && y.cfg == cfg && y.year == year
    ensures y.taxyearStart == TaxYearStart(year) && y.taxyearEnd == TaxYearEnd(year)
    ensures year < first + cfg.expensiveYears ==> y.livingExpenses == y.livingExpenses1
    ensures year >= first + cfg.expensiveYears ==> y.livingExpenses == y.livingExpenses2
  {
    var livingExpenses1 :=
      if year == first then cfg.livingExpenses1 else prev.value.livingExpenses1 * (1.0 + cfg.rpi);
    var livingExpenses2 :=
      if year == first then cfg.livingExpenses2 else prev.value.livingExpenses2 * (1.0 + cfg.rpi);
    var fullStatePension :=
      if year == first then cfg.fullStatePension else prev.value.fullStatePension * (1.0 + cfg.cpi);
    var tuiPension :=
      if year < 2024 then 0.0
      else if year == 2024 then cfg.tuiPension
      else prev.value.tuiPension * 1.025;
    var livingExpenses :=
      if year < first + cfg.expensiveYears then livingExpenses1 else livingExpenses2;
    var taxFreeAmount :=
      if year < 2026 then cfg.taxFreeAmount else prev.value.taxFreeAmount * (1.0 + cfg.cpi);
    var basicRateAmount :=
      if year < 2026 then cfg.basicRateAmount else prev.value.basicRateAmount * (1.0 + cfg.cpi);
    SimYear(first, cfg, year, TaxYearStart(year), TaxYearEnd(year),
            livingExpenses1, livingExpenses2, fullStatePension, tuiPension,
            livingExpenses, taxFreeAmount, basicRateAmount)
  }

  /** A built year lasts 364 or 365 days. */
  lemma IndexedYearSpan(cfg: Config, first: int, year: int, prev: Option<SimYear>)
    requires CanIndex(first, year, prev)
    ensures var y := IndexedYear(cfg, first, year, prev);
            364 <= y.taxyearEnd - y.taxyearStart <= 365
  {
    TaxYearSpan(year);
  }

  // ---------------------------------------------------------------- income tax

  /** Two-band income tax on a gross amount: nothing up to the personal allowance,
      the basic rate on the next basicRateAmount, the high rate on the rest. */
  function IncomeTax(y: SimYear, grossAmount: real): real
  {
    if grossAmount <= y.taxFreeAmount then 0.0
    else
      var taxableAmount := grossAmount - y.taxFreeAmount;
      if taxableAmount <= y.basicRateAmount then taxableAmount * y.cfg.taxrateBasic + 0.0
      else y.basicRateAmount * y.cfg.taxrateBasic
           + (taxableAmount - y.basicRateAmount) * y.cfg.taxrateHigh
  }

  function Max(a: real, b: real): real { if a < b then b else a }
  function Min(a: real, b: real): real { if a < b then a else b }

  /** The tax as a sum over bands: the part of the income above the allowance that falls
      into the basic band, and the part above it. */
  function BandTax(allowance: real, width: real, basicRate: real, highRate: real, gross: real): real
  {
    basicRate * Min(Max(gross - allowance, 0.0), width) + highRate * Max(gross - allowance - width, 0.0)
  }

  /** The tax computed band by band, so that nothing is due up to the allowance. */
  lemma TaxByBands(y: SimYear, gross: real)
    requires y.basicRateAmount >= 0.0
    ensures IncomeTax(y, gross)
            == BandTax(y.taxFreeAmount, y.basicRateAmount, y.cfg.taxrateBasic, y.cfg.taxrateHigh, gross)
    ensures gross <= y.taxFreeAmount ==> IncomeTax(y, gross) == 0.0
  {
    var a, w := y.taxFreeAmount, y.basicRateAmount;
    var rb, rh := y.cfg.taxrateBasic, y.cfg.taxrateHigh;
    if gross <= a {
      assert Min(Max(gross - a, 0.0), w) == 0.0 && Max(gross - a - w, 0.0) == 0.0;
    } else if gross - a <= w {
      assert Min(Max(gross - a, 0.0), w) == gross - a && Max(gross - a - w, 0.0) == 0.0;
    } else {
      assert Min(Max(gross - a, 0.0), w) == w && Max(gross - a - w, 0.0) == gross - a - w;
    }
  }

  predicate SensibleRates(y: SimYear)
  {
    y.basicRateAmount >= 0.0 && y.cfg.taxrateBasic >= 0.0 && y.cfg.taxrateHigh >= 0.0
  }

  lemma TaxNonNegative(y: SimYear, gross: real)
    requires SensibleRates(y)
    ensures IncomeTax(y, gross) >= 0.0
  {
    if gross > y.taxFreeAmount {
      var t := gross - y.taxFreeAmount;
      if t <= y.basicRateAmount {
        ProductNonNegative(t, y.cfg.taxrateBasic);
      } else {
        ProductNonNegative(y.basicRateAmount, y.cfg.taxrateBasic);
        ProductNonNegative(t - y.basicRateAmount, y.cfg.taxrateHigh);
      }
    }
  }

  /** More gross income never means less tax, and each extra pound is taxed at no more
      than the higher of the two rates. */
  lemma TaxMonotone(y: SimYear, g1: real, g2: real)
    requires SensibleRates(y) && g1 <= g2
    ensures IncomeTax(y, g1) <= IncomeTax(y, g2)
    ensures IncomeTax(y, g2) - IncomeTax(y, g1) <= Max(y.cfg.taxrateBasic, y.cfg.taxrateHigh) * (g2 - g1)
  {
    TaxByBands(y, g1);
    TaxByBands(y, g2);
    BandTaxMonotone(y.taxFreeAmount, y.basicRateAmount, y.cfg.taxrateBasic, y.cfg.taxrateHigh, g1, g2);
  }

  lemma BandTaxMonotone(a: real, w: real, rb: real, rh: real, g1: real, g2: real)
    requires w >= 0.0 && rb >= 0.0 && rh >= 0.0 && g1 <= g2
    ensures BandTax(a, w, rb, rh, g1) <= BandTax(a, w, rb, rh, g2)
    ensures BandTax(a, w, rb, rh, g2) - BandTax(a, w, rb, rh, g1) <= Max(rb, rh) * (g2 - g1)
  {
    var b1, b2 := Min(Max(g1 - a, 0.0), w), Min(Max(g2 - a, 0.0), w);
    var h1, h2 := Max(g1 - a - w, 0.0), Max(g2 - a - w, 0.0);
    assert 0.0 <= b2 - b1 && 0.0 <= h2 - h1 && (b2 - b1) + (h2 - h1) <= g2 - g1;
    BandsGrow(rb, rh, b1, b2, h1, h2, g2 - g1);
  }

  /** The arithmetic behind TaxMonotone, over plain reals. */
  lemma BandsGrow(rb: real, rh: real, b1: real, b2: real, h1: real, h2: real, d: real)
    requires rb >= 0.0 && rh >= 0.0
    requires 0.0 <= b2 - b1 && 0.0 <= h2 - h1 && (b2 - b1) + (h2 - h1) <= d
    ensures rb * b1 + rh * h1 <= rb * b2 + rh * h2
    ensures (rb * b2 + rh * h2) - (rb * b1 + rh * h1) <= Max(rb, rh) * d
  {
    var m := Max(rb, rh);
    ProductNonNegative(rb, b2 - b1);
    ProductNonNegative(rh, h2 - h1);
    assert rb * (b2 - b1) <= m * (b2 - b1) by { ProductNonNegative(m - rb, b2 - b1); }
    assert rh * (h2 - h1) <= m * (h2 - h1) by { ProductNonNegative(m - rh, h2 - h1); }
    assert m * ((b2 - b1) + (h2 - h1)) <= m * d by { ProductNonNegative(m, d - ((b2 - b1) + (h2 - h1))); }
  }

  lemma ProductNonNegative(a: real, b: real)
    requires a >= 0.0 && b >= 0.0
    ensures a * b >= 0.0
  {
  }

  /** With the 2022-23 allowance, band and rates, an income of 50,000 pays 7,486. */
  lemma TaxExample(y: SimYear)
    requires y.cfg == DefaultConfig
    requires y.taxFreeAmount == DefaultConfig.taxFreeAmount
    requires y.basicRateAmount == DefaultConfig.basicRateAmount
    ensures IncomeTax(y, 50000.0) == 7486.0
  {
  }

  // ---------------------------------------------------------------- pro-rating

  /** The state pension paid in this tax year to someone reaching pension age on the
      day spDate: none if that is after the year, all of it (scaled by spRatio) if it is
      before, and otherwise the part for the days from spDate to the year's end, over
      a 365-day year. */
  function IncomePensSP(y: SimYear, spDate: int, spRatio: real): real
  {
    if spDate > y.taxyearEnd then 0.0
    else if spDate < y.taxyearStart then y.fullStatePension * spRatio
    else y.fullStatePension * spRatio * (y.taxyearEnd - spDate) as real / 365.0
  }

  /** The defined-benefit pension paid in this tax year when it starts on tuiDate, by the
      same rule without a ratio. */
  function IncomePensTUI(y: SimYear, tuiDate: int): real
  {
    if tuiDate > y.taxyearEnd then 0.0
    else if tuiDate < y.taxyearStart then y.tuiPension
    else y.tuiPension * (y.taxyearEnd - tuiDate) as real / 365.0
  }

  /** The defined-benefit pension follows the state-pension rule with a ratio of one. */
  lemma TuiIsStatePensionRule(y: SimYear, tuiDate: int)
    ensures IncomePensTUI(y, tuiDate) == IncomePensSP(y.(fullStatePension := y.tuiPension), tuiDate, 1.0)
  {
  }

  /** In a year of at most 365 days, the pro-rated pension lies between nothing and the
      full (scaled) amount. */
  lemma ProratedBounds(y: SimYear, spDate: int, spRatio: real)
    requires y.taxyearEnd - y.taxyearStart <= 365
    requires y.fullStatePension >= 0.0 && spRatio >= 0.0
    ensures 0.0 <= IncomePensSP(y, spDate, spRatio) <= y.fullStatePension * spRatio
  {
    var full := y.fullStatePension * spRatio;
    ProductNonNegative(y.fullStatePension, spRatio);
    if y.taxyearStart <= spDate <= y.taxyearEnd {
      var days := (y.taxyearEnd - spDate) as real;
      assert 0.0 <= days <= 365.0;
      assert IncomePensSP(y, spDate, spRatio) == full * days / 365.0;
      FractionBounds(full, days);
    }
  }

  lemma FractionBounds(full: real, days: real)
    requires full >= 0.0 && 0.0 <= days <= 365.0
    ensures 0.0 <= full * days / 365.0 <= full
  {
    ProductNonNegative(full, days);
    ProductNonNegative(full, 365.0 - days);
  }

  /** The later the pension starts, the less of it falls into the year. */
  lemma ProratedNonIncreasing(y: SimYear, d1: int, d2: int, spRatio: real)
    requires y.taxyearEnd - y.taxyearStart <= 365
    requires y.fullStatePension >= 0.0 && spRatio >= 0.0
    requires d1 <= d2
    ensures IncomePensSP(y, d2, spRatio) <= IncomePensSP(y, d1, spRatio)
  {
    var full := y.fullStatePension * spRatio;
    ProratedBounds(y, d1, spRatio);
    ProratedBounds(y, d2, spRatio);
    if y.taxyearStart <= d1 && d2 <= y.taxyearEnd {
      ProductNonNegative(full, (d2 - d1) as real);
      assert full * (y.taxyearEnd - d1) as real == full * (y.taxyearEnd - d2) as real + full * (d2 - d1) as real;
    }
  }
}
