/** The sixteen pre-trade rules: each passes an order, shrinks it, or rejects it. */
module RiskRules {
  import opened Basics
  import opened Text

  // ---- Inputs ----

  datatype Config = Config(
    maxPositionPct: real, maxPortfolioExposure: real, maxNetExposurePct: real, maxSectorExposurePct: real,
    maxConcurrentPositions: int, maxCorrelatedPositions: int, maxDailyLossPct: real, maxDrawdownStopPct: real,
    maxPerTradeRiskPct: real, maxPairCorrelation: real, maxGrossLeverage: real, minAverageDollarVolume: real,
    maxParticipationRate: real, cashBufferPct: real)

  datatype Account = Account(
    strategyEquity: real, accountEquity: real, availableBalance: real, grossMarketValue: real, dailyPnL: real,
    dailyLossLimit: real, peakStrategyEquity: real)

  datatype Position = Position(
    symbol: string, side: string, quantity: real, marketValue: real, sector: string, sectorKnown: bool)

  datatype Market = Market(
    currentPrice: real, averageVolume: real, currentVolume: real, averageDollarVolume: real,
    tradable: bool, tradableKnown: bool, halted: bool, haltedKnown: bool, sector: string, sectorKnown: bool,
    correlationKnown: bool, correlatedPositionCount: int)

  datatype Order = Order(
    symbol: string, side: string, requestedQuantity: real, requestedNotional: real, stopLoss: real, isEntry: bool)

  datatype Context = Context(config: Config, account: Account, positions: seq<Position>, market: Market, order: Order)

  datatype Sizing = Sizing(quantity: real, notional: real)

  const NO_SIZE := Sizing(0.0, 0.0)

  datatype Verdict = Pass | Reduce | Reject

  datatype Ruling = Ruling(next: Sizing, verdict: Verdict)

  // ---- Portfolio measures ----

  /** What a total over the open positions adds up. */
  datatype Measure =
    | Gross
    | Net
    | SameSide(symbol: string, side: string)
    | InSector(sector: string)
    | Unclassified

  function Exposure(p: Position): real {
    Max(p.marketValue, 0.0)
  }

  predicate IsShort(side: string) {
    LowerTrim(side) == "short"
  }

  predicate Matches(p: Position, symbol: string, side: string) {
    EqualFold(p.symbol, symbol) && EqualFold(p.side, side)
  }

  predicate Classified(p: Position, sector: string) {
    p.sectorKnown && TrimSpace(p.sector) != "" && LowerTrim(p.sector) == sector
  }

  /** One position's share of a measure. */
  function Weight(m: Measure, p: Position): real {
    match m
    case Gross => Exposure(p)
    case Net => if IsShort(p.side) then -Exposure(p) else Exposure(p)
    case SameSide(symbol, side) => if Matches(p, symbol, side) then Exposure(p) else 0.0
    case InSector(sector) => if Classified(p, sector) then Exposure(p) else 0.0
    case Unclassified => if p.sectorKnown && TrimSpace(p.sector) != "" then 0.0 else Exposure(p)
  }

  function Total(m: Measure, positions: seq<Position>): real {
    if positions == [] then 0.0
    else Total(m, positions[..|positions| - 1]) + Weight(m, positions[|positions| - 1])
  }

  function CountOpen(positions: seq<Position>): nat {
    if positions == [] then 0
    else CountOpen(positions[..|positions| - 1]) + if positions[|positions| - 1].marketValue > 0.0 then 1 else 0
  }

  predicate HasSameSide(positions: seq<Position>, symbol: string, side: string) {
    exists i | 0 <= i < |positions| ::
      Matches(positions[i], symbol, side) && (positions[i].marketValue > 0.0 || positions[i].quantity > 0.0)
  }

  /** The smaller of the positive equities, never negative. */
  function DecisionEquity(a: Account): real {
    var cap := if a.accountEquity > 0.0 && (a.strategyEquity <= 0.0 || a.accountEquity < a.strategyEquity)
               then a.accountEquity else a.strategyEquity;
    if cap < 0.0 then 0.0 else cap
  }

  /** Without positions the account's own gross value stands in. */
  function CurrentGross(ctx: Context): real {
    var gross := Total(Gross, ctx.positions);
    if gross <= 0.0 && ctx.account.grossMarketValue > 0.0 then ctx.account.grossMarketValue else gross
  }

  function CurrentDrawdown(a: Account): real {
    if a.peakStrategyEquity > 0.0 && a.strategyEquity > 0.0 && a.peakStrategyEquity >= a.strategyEquity then
      (a.peakStrategyEquity - a.strategyEquity) / a.peakStrategyEquity
    else 0.0
  }

  function SideSign(side: string): int {
    if IsShort(side) then -1 else if LowerTrim(side) == "long" then 1 else 0
  }

  // ---- Rule building blocks ----

  function Passed(current: Sizing): Ruling {
    Ruling(current, Pass)
  }

  function Rejected(): Ruling {
    Ruling(NO_SIZE, Reject)
  }

  function CapNotional(current: Sizing, maxNotional: real, price: real): Sizing {
    if maxNotional <= 0.0 || price <= 0.0 then NO_SIZE
    else
      var notional := Min(current.notional, maxNotional);
      Sizing(notional / price, notional)
  }

  /** Shrinks the order to a cap it exceeds. */
  function ShrunkTo(current: Sizing, cap: real, price: real): Ruling {
    var next := CapNotional(current, cap, price);
    if next.notional <= 0.0 then Rejected() else Ruling(next, Reduce)
  }

  /** Rejects at an exhausted cap, passes within it, and shrinks above it. */
  function CappedAt(current: Sizing, cap: real, price: real): Ruling {
    if cap <= 0.0 then Rejected()
    else if current.notional <= cap then Passed(current)
    else ShrunkTo(current, cap, price)
  }

  // ---- The rules ----

  datatype Rule =
    | SymbolTradable | TradingHalted | PriceSanity | AverageVolume | Participation | DailyLoss | DrawdownStop
    | ConcurrentPositions | PositionLimit | PortfolioExposure | NetExposure | SectorExposure | GrossLeverage
    | CashAvailability | PerTradeRisk | CorrelationRisk

  function SymbolTradableRule(ctx: Context, current: Sizing): Ruling {
    if !ctx.market.tradableKnown || ctx.market.tradable then Passed(current) else Rejected()
  }

  function TradingHaltRule(ctx: Context, current: Sizing): Ruling {
    if !ctx.market.haltedKnown || !ctx.market.halted then Passed(current) else Rejected()
  }

  function PriceSanityRule(ctx: Context, current: Sizing): Ruling {
    if ctx.market.currentPrice > 0.0 then Passed(current) else Rejected()
  }

  function AverageVolumeRule(ctx: Context, current: Sizing): Ruling {
    var minimum, volume := ctx.config.minAverageDollarVolume, ctx.market.averageDollarVolume;
    if minimum <= 0.0 then Passed(current)
    else if volume <= 0.0 || volume < minimum then Rejected()
    else Passed(current)
  }

  function LiquidityVolume(m: Market): real {
    if m.currentVolume <= 0.0 then m.averageVolume else m.currentVolume
  }

  function ParticipationRule(ctx: Context, current: Sizing): Ruling {
    var rate, volume := ctx.config.maxParticipationRate, LiquidityVolume(ctx.market);
    if rate <= 0.0 then Passed(current)
    else if volume <= 0.0 || volume * rate <= 0.0 then Rejected()
    else if current.quantity <= volume * rate then Passed(current)
    else
      var notional := volume * rate * ctx.market.currentPrice;
      if notional <= 0.0 then Rejected() else Ruling(Sizing(volume * rate, notional), Reduce)
  }

  function DailyLossRule(ctx: Context, current: Sizing): Ruling {
    if !ctx.order.isEntry || ctx.config.maxDailyLossPct <= 0.0 || ctx.account.dailyLossLimit >= 0.0 then Passed(current)
    else if ctx.account.dailyPnL <= ctx.account.dailyLossLimit then Rejected()
    else Passed(current)
  }

  function DrawdownStopRule(ctx: Context, current: Sizing): Ruling {
    var limit := ctx.config.maxDrawdownStopPct;
    if !ctx.order.isEntry || limit <= 0.0 then Passed(current)
    else if CurrentDrawdown(ctx.account) >= limit then Rejected()
    else Passed(current)
  }

  function ConcurrentPositionsRule(ctx: Context, current: Sizing): Ruling {
    var limit := ctx.config.maxConcurrentPositions;
    if !ctx.order.isEntry || limit <= 0 then Passed(current)
    else if HasSameSide(ctx.positions, ctx.order.symbol, ctx.order.side) then Passed(current)
    else if CountOpen(ctx.positions) >= limit then Rejected()
    else Passed(current)
  }

  function PositionLimitRule(ctx: Context, current: Sizing): Ruling {
    var pct, equity := ctx.config.maxPositionPct, DecisionEquity(ctx.account);
    if !ctx.order.isEntry || pct <= 0.0 || equity <= 0.0 || equity * pct <= 0.0 then Passed(current)
    else
      var existing := Total(SameSide(ctx.order.symbol, ctx.order.side), ctx.positions);
      CappedAt(current, equity * pct - existing, ctx.market.currentPrice)
  }

  function PortfolioExposureRule(ctx: Context, current: Sizing): Ruling {
    var pct, equity := ctx.config.maxPortfolioExposure, DecisionEquity(ctx.account);
    if !ctx.order.isEntry || pct <= 0.0 || equity <= 0.0 then Passed(current)
    else CappedAt(current, equity * pct - CurrentGross(ctx), ctx.market.currentPrice)
  }

  /** Passes while the projected net exposure is within the cap on either side. */
  function NetExposureRule(ctx: Context, current: Sizing): Ruling {
    var pct, equity := ctx.config.maxNetExposurePct, DecisionEquity(ctx.account);
    if !ctx.order.isEntry || pct <= 0.0 || equity <= 0.0 then Passed(current)
    else
      var sign := SideSign(ctx.order.side);
      var limit, net := equity * pct, Total(Net, ctx.positions);
      if sign == 0 then Rejected()
      else if Abs(net + sign as real * current.notional) <= limit then Passed(current)
      else
        var remaining := if sign > 0 then limit - net else limit + net;
        if remaining <= 0.0 then Rejected() else ShrunkTo(current, remaining, ctx.market.currentPrice)
  }

  /** With a blank sector the order is not counted against it. */
  function SectorExposureRule(ctx: Context, current: Sizing): Ruling {
    var pct, equity := ctx.config.maxSectorExposurePct, DecisionEquity(ctx.account);
    if !ctx.order.isEntry || pct <= 0.0 || equity <= 0.0 || !ctx.market.sectorKnown then Passed(current)
    else
      var sector := TrimSpace(ctx.market.sector);
      var projected := Total(InSector(LowerTrim(sector)), ctx.positions)
                     + if sector != "" then current.notional else 0.0;
      CappedAt(current, equity * pct - (projected - current.notional), ctx.market.currentPrice)
  }

  function LeverageEquity(a: Account): real {
    Max(a.accountEquity, 0.0)
  }

  function GrossLeverageRule(ctx: Context, current: Sizing): Ruling {
    var limit, equity := ctx.config.maxGrossLeverage, LeverageEquity(ctx.account);
    if !ctx.order.isEntry || limit <= 0.0 || equity <= 0.0 then Passed(current)
    else CappedAt(current, equity * limit - CurrentGross(ctx), ctx.market.currentPrice)
  }

  function CashAvailabilityRule(ctx: Context, current: Sizing): Ruling {
    var buffer := ctx.config.cashBufferPct;
    if !ctx.order.isEntry || buffer <= 0.0 || buffer > 1.0 then Passed(current)
    else CappedAt(current, Max(ctx.account.availableBalance, 0.0) * buffer, ctx.market.currentPrice)
  }

  function RiskPerUnit(ctx: Context): real {
    Abs(ctx.market.currentPrice - ctx.order.stopLoss)
  }

  function PerTradeRiskRule(ctx: Context, current: Sizing): Ruling {
    var pct, equity := ctx.config.maxPerTradeRiskPct, DecisionEquity(ctx.account);
    if !ctx.order.isEntry || pct <= 0.0 || equity <= 0.0 then Passed(current)
    else if ctx.order.stopLoss <= 0.0 || RiskPerUnit(ctx) <= 0.0 then Rejected()
    else CappedAt(current, equity * pct / RiskPerUnit(ctx) * ctx.market.currentPrice, ctx.market.currentPrice)
  }

  function CorrelationRiskRule(ctx: Context, current: Sizing): Ruling {
    var limit, threshold := ctx.config.maxCorrelatedPositions, ctx.config.maxPairCorrelation;
    if !ctx.order.isEntry || limit <= 0 || threshold <= 0.0 || threshold >= 1.0 then Passed(current)
    else if !ctx.market.correlationKnown || ctx.market.correlatedPositionCount < limit then Passed(current)
    else Rejected()
  }

  function ApplyRule(rule: Rule, ctx: Context, current: Sizing): Ruling {
    match rule
    case SymbolTradable => SymbolTradableRule(ctx, current)
    case TradingHalted => TradingHaltRule(ctx, current)
    case PriceSanity => PriceSanityRule(ctx, current)
    case AverageVolume => AverageVolumeRule(ctx, current)
    case Participation => ParticipationRule(ctx, current)
    case DailyLoss => DailyLossRule(ctx, current)
    case DrawdownStop => DrawdownStopRule(ctx, current)
    case ConcurrentPositions => ConcurrentPositionsRule(ctx, current)
    case PositionLimit => PositionLimitRule(ctx, current)
    case PortfolioExposure => PortfolioExposureRule(ctx, current)
    case NetExposure => NetExposureRule(ctx, current)
    case SectorExposure => SectorExposureRule(ctx, current)
    case GrossLeverage => GrossLeverageRule(ctx, current)
    case CashAvailability => CashAvailabilityRule(ctx, current)
    case PerTradeRisk => PerTradeRiskRule(ctx, current)
    case CorrelationRisk => CorrelationRiskRule(ctx, current)
  }

  // ---- Measures computed in place ----

  method GrossExposure(positions: seq<Position>) returns (total: real)
    ensures total == Total(Gross, positions)
  {
    total := 0.0;
    for i := 0 to |positions|
      invariant total == Total(Gross, positions[..i])
    {
      assert positions[..i + 1][..i] == positions[..i];
      total := total + Max(positions[i].marketValue, 0.0);
    }
    assert positions[..|positions|] == positions;
  }

  method NetExposureOf(positions: seq<Position>) returns (total: real)
    ensures total == Total(Net, positions)
  {
    hide IsShort;
    total := 0.0;
    for i := 0 to |positions|
      invariant total == Total(Net, positions[..i])
    {
      assert positions[..i + 1][..i] == positions[..i];
      var exposure := Max(positions[i].marketValue, 0.0);
      if exposure <= 0.0 {
        continue;
      }
      if IsShort(positions[i].side) {
        total := total - exposure;
        continue;
      }
      total := total + exposure;
    }
    assert positions[..|positions|] == positions;
  }

  method SameSideExposure(positions: seq<Position>, symbol: string, side: string) returns (total: real)
    ensures total == Total(SameSide(symbol, side), positions)
  {
    hide EqualFold;
    total := 0.0;
    for i := 0 to |positions|
      invariant total == Total(SameSide(symbol, side), positions[..i])
    {
      assert positions[..i + 1][..i] == positions[..i];
      if EqualFold(positions[i].symbol, symbol) && EqualFold(positions[i].side, side) {
        total := total + Max(positions[i].marketValue, 0.0);
      }
    }
    assert positions[..|positions|] == positions;
  }

  method CountOpenPositions(positions: seq<Position>) returns (count: nat)
    ensures count == CountOpen(positions)
  {
    count := 0;
    for i := 0 to |positions|
      invariant count == CountOpen(positions[..i])
    {
      assert positions[..i + 1][..i] == positions[..i];
      if positions[i].marketValue <= 0.0 {
        continue;
      }
      count := count + 1;
    }
    assert positions[..|positions|] == positions;
  }

  function SectorOf(exposures: map<string, real>, sector: string): real {
    if sector in exposures then exposures[sector] else 0.0
  }

  /** Exposure by sector, and what no sector accounts for. */
  method SectorExposures(positions: seq<Position>) returns (exposures: map<string, real>, unclassified: real)
    ensures forall s: string :: SectorOf(exposures, s) == Total(InSector(s), positions)
    ensures unclassified == Total(Unclassified, positions)
  {
    hide LowerTrim, TrimSpace;
    exposures, unclassified := map[], 0.0;
    for i := 0 to |positions|
      invariant forall s: string :: SectorOf(exposures, s) == Total(InSector(s), positions[..i])
      invariant unclassified == Total(Unclassified, positions[..i])
    {
      assert positions[..i + 1][..i] == positions[..i];
      var p := positions[i];
      var exposure := Max(p.marketValue, 0.0);
      if exposure <= 0.0 {
        continue;
      }
      if p.sectorKnown && TrimSpace(p.sector) != "" {
        var sector := LowerTrim(p.sector);
        exposures := exposures[sector := SectorOf(exposures, sector) + exposure];
      } else {
        unclassified := unclassified + exposure;
      }
    }
    assert positions[..|positions|] == positions;
  }
}
