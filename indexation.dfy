/** The sequence of years a simulation builds, each from the one before, and the closed
    forms of its indexed figures. */
module Indexation {
  import opened Results
  import opened Powers
  import opened SimConfig
  import opened SimYears

  /** A simulation can start in firstYear and run for n years: the defined-benefit
      pension and the tax thresholds are first read from the configuration, and every
      tax year's dates exist. */
  predicate ValidRun(firstYear: int, n: int)
  {
    1 <= firstYear <= 2024 && 0 <= n && firstYear + n <= 9999
  }

  /** The first n years of a simulation starting in firstYear, in order; each year is
      built from the one before it. */
  function Years(cfg: Config, firstYear: int, n: nat): (ys: seq<SimYear>)
    requires ValidRun(firstYear, n)
    ensures |ys| == n
    ensures forall i :: 0 <= i < n ==>
              ys[i].year == firstYear + i && ys[i].first == firstYear && ys[i].cfg == cfg
    decreases n
  {
    if n == 0 then []
    else
      var earlier := Years(cfg, firstYear, n - 1);
      earlier + [IndexedYear(cfg, firstYear, firstYear + n - 1, if n == 1 then None else Some(earlier[n - 2]))]
  }

  /** Year i of ys is built from year i-1 (the first year from nothing). */
  predicate Linked(cfg: Config, firstYear: int, ys: seq<SimYear>, i: int)
    requires ValidRun(firstYear, |ys|) && 0 <= i < |ys|
  {
    ys[i] == IndexedYear(cfg, firstYear, firstYear + i, if i == 0 then None else Some(ys[i - 1]))
  }

  /** Every year of ys is built from the one before it. */
  predicate Chained(cfg: Config, firstYear: int, ys: seq<SimYear>)
    requires ValidRun(firstYear, |ys|)
  {
    forall i :: 0 <= i < |ys| ==> Linked(cfg, firstYear, ys, i)
  }

  /** The years of a run are chained: building more years changes none of the earlier
      ones, so every year is built from the one before it. */
  lemma {:induction false} YearsChained(cfg: Config, firstYear: int, n: nat)
    requires ValidRun(firstYear, n)
    ensures Chained(cfg, firstYear, Years(cfg, firstYear, n))
  {
    if n > 0 {
      var earlier := Years(cfg, firstYear, n - 1);
      YearsChained(cfg, firstYear, n - 1);
      var ys := Years(cfg, firstYear, n);
      forall i | 0 <= i < n
        ensures Linked(cfg, firstYear, ys, i)
      {
        if i < n - 1 {
          assert Linked(cfg, firstYear, earlier, i);
          assert ys[i] == earlier[i];
          assert i > 0 ==> ys[i - 1] == earlier[i - 1];
        }
      }
    }
  }

  /** An indexed figure of a year. */
  datatype Figure =
    | LivingExpenses1 | LivingExpenses2 | FullStatePension | TuiPension | TaxFreeAmount | BasicRateAmount

  function FigureOf(y: SimYear, f: Figure): real
  {
    match f
    case LivingExpenses1 => y.livingExpenses1
    case LivingExpenses2 => y.livingExpenses2
    case FullStatePension => y.fullStatePension
    case TuiPension => y.tuiPension
    case TaxFreeAmount => y.taxFreeAmount
    case BasicRateAmount => y.basicRateAmount
  }

  /** The value a figure takes from the configuration. */
  function Configured(cfg: Config, f: Figure): real
  {
    match f
    case LivingExpenses1 => cfg.livingExpenses1
    case LivingExpenses2 => cfg.livingExpenses2
    case FullStatePension => cfg.fullStatePension
    case TuiPension => cfg.tuiPension
    case TaxFreeAmount => cfg.taxFreeAmount
    case BasicRateAmount => cfg.basicRateAmount
  }

  /** The factor by which a figure grows from one year to the next: RPI for living
      expenses, 2.5% for the defined-benefit pension, CPI for the rest. */
  function Growth(cfg: Config, f: Figure): real
  {
    match f
    case LivingExpenses1 => 1.0 + cfg.rpi
    case LivingExpenses2 => 1.0 + cfg.rpi
    case TuiPension => 1.025
    case _ => 1.0 + cfg.cpi
  }

  /** The first year from which a figure is indexed rather than read from the
      configuration: the simulation's first year for expenses and the state pension,
      2024 for the defined-benefit pension, 2025 for the tax thresholds. */
  function BaseYear(firstYear: int, f: Figure): int
  {
    match f
    case TuiPension => 2024
    case TaxFreeAmount => 2025
    case BasicRateAmount => 2025
    case _ => firstYear
  }

  /** One more factor of growth on a value already grown k times. */
  lemma GrowOnce(base: real, factor: real, k: nat, earlier: real, later: real)
    requires earlier == base * NatPower(factor, k) && later == earlier * factor
    ensures later == base * NatPower(factor, k + 1)
  {
    assert NatPower(factor, k + 1) == factor * NatPower(factor, k);
  }

  /** After its base year, a figure of year i is that of year i-1 grown by one year. */
  lemma LaterYear(cfg: Config, firstYear: int, ys: seq<SimYear>, i: int, f: Figure)
    requires ValidRun(firstYear, |ys|) && Chained(cfg, firstYear, ys) && 0 < i < |ys|
    requires firstYear + i > BaseYear(firstYear, f)
    ensures FigureOf(ys[i], f) == FigureOf(ys[i - 1], f) * Growth(cfg, f)
  {
    assert Linked(cfg, firstYear, ys, i);
  }

  /** Up to its base year, a figure of year i is read from the configuration (the
      defined-benefit pension is nothing before 2024). */
  lemma ConfiguredYear(cfg: Config, firstYear: int, ys: seq<SimYear>, i: int, f: Figure)
    requires ValidRun(firstYear, |ys|) && Chained(cfg, firstYear, ys) && 0 <= i < |ys|
    requires firstYear + i <= BaseYear(firstYear, f)
    ensures f == TuiPension && firstYear + i < 2024 ==> FigureOf(ys[i], f) == 0.0
    ensures f != TuiPension || firstYear + i == 2024 ==> FigureOf(ys[i], f) == Configured(cfg, f)
  {
    assert Linked(cfg, firstYear, ys, i);
  }

  /** From its base year on, a figure has grown once a year from its configured value:
      living expenses with RPI from the first year, the full state pension with CPI from
      the first year, the defined-benefit pension by 2.5% from 2024 and the tax
      thresholds with CPI after 2025. */
  lemma {:induction false} FigureIndexed(cfg: Config, firstYear: int, ys: seq<SimYear>, i: nat, f: Figure)
    requires ValidRun(firstYear, |ys|) && Chained(cfg, firstYear, ys) && i < |ys|
    requires firstYear + i >= BaseYear(firstYear, f)
    ensures FigureOf(ys[i], f)
            == Configured(cfg, f) * NatPower(Growth(cfg, f), firstYear + i - BaseYear(firstYear, f))
  {
    var k := firstYear + i - BaseYear(firstYear, f);
    var base, factor := Configured(cfg, f), Growth(cfg, f);
    if k > 0 {
      FigureIndexed(cfg, firstYear, ys, i - 1, f);
      assert firstYear + (i - 1) - BaseYear(firstYear, f) == k - 1;
      LaterYear(cfg, firstYear, ys, i, f);
      GrowOnce(base, factor, k - 1, FigureOf(ys[i - 1], f), FigureOf(ys[i], f));
    } else {
      ConfiguredYear(cfg, firstYear, ys, i, f);
      assert NatPower(factor, 0) == 1.0;
    }
  }

  /** Living expenses follow the first tier for the first expensiveYears years and the
      second tier afterwards. */
  lemma ExpenseTier(cfg: Config, firstYear: int, ys: seq<SimYear>, i: nat)
    requires ValidRun(firstYear, |ys|) && Chained(cfg, firstYear, ys) && i < |ys|
    ensures i < cfg.expensiveYears ==>
              ys[i].livingExpenses == cfg.livingExpenses1 * NatPower(1.0 + cfg.rpi, i)
    ensures i >= cfg.expensiveYears ==>
              ys[i].livingExpenses == cfg.livingExpenses2 * NatPower(1.0 + cfg.rpi, i)
  {
    assert Linked(cfg, firstYear, ys, i);
    FigureIndexed(cfg, firstYear, ys, i, LivingExpenses1);
    FigureIndexed(cfg, firstYear, ys, i, LivingExpenses2);
  }

  /** The defined-benefit pension is nothing in the years before 2024. */
  lemma TuiBefore2024(cfg: Config, firstYear: int, ys: seq<SimYear>, i: nat)
    requires ValidRun(firstYear, |ys|) && Chained(cfg, firstYear, ys) && i < |ys|
    requires firstYear + i < 2024
    ensures ys[i].tuiPension == 0.0
  {
    ConfiguredYear(cfg, firstYear, ys, i, TuiPension);
  }
}
