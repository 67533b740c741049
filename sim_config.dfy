/** The parameters of a simulation run: inflation, growth, living expenses and the
    HMRC tax and state-pension figures. */
module SimConfig {
  import opened Ledger

  datatype Config = Config(
    cpi: real,
    rpi: real,
    portfolioGrowth: real,
    livingExpenses1: real,  // net need per year during the first expensiveYears years
    livingExpenses2: real,  // net need per year afterwards
    expensiveYears: int,
    fullStatePension: real,
    tuiPension: real,       // the defined-benefit pension in 2024
    taxFreeAmount: real,    // personal allowance
    basicRateAmount: real,  // width of the basic-rate band
    taxrateBasic: real,
    taxrateHigh: real)

  /** The 2022-23 HMRC figures and the default simulation parameters. */
  const DefaultConfig: Config := Config(
    0.025, 0.035, 0.040, 60000.0, 50000.0, 5, 9630.4, 1700.0, 12570.0, 37700.0, 0.2, 0.4)

  /** The factor by which a balance grows over a year: pension and ISA balances grow by
      the portfolio growth rate, any other balance is left as it is. */
  function PortfolioGrowthRate(cfg: Config, assetType: Field): (factor: real)
    ensures assetType == APn || assetType == AISA ==> factor == 1.0 + cfg.portfolioGrowth
    ensures assetType != APn && assetType != AISA ==> factor == 1.0
  {
    if assetType in {APn, AISA} then 1.0 + cfg.portfolioGrowth else 1.0 + 0.0
  }
}
