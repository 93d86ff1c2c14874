/** What the engine approves, said of the inputs alone: the largest size that is within the request and that every
    one of the sixteen rules accepts. */
module RiskApproval {
  import opened Basics
  import opened Text
  import opened Reals
  import opened RiskRules
  import opened RiskEngine
  import opened RiskLaws

  // ---- Sums over the positions ----

  function Worth(p: Position): real {
    if p.marketValue > 0.0 then p.marketValue else 0.0
  }

  function Sum(positions: seq<Position>, value: Position -> real): real {
    if positions == [] then 0.0 else value(positions[0]) + Sum(positions[1..], value)
  }

  function Held(positions: seq<Position>): real {
    Sum(positions, Worth)
  }

  function Signed(p: Position): real {
    if Says(p.side, "short") then -Worth(p) else Worth(p)
  }

  /** Longs less shorts. */
  function HeldNet(positions: seq<Position>): real {
    Sum(positions, Signed)
  }

  function WorthOf(symbol: string, side: string): Position -> real {
    (p: Position) => if SameText(p.symbol, symbol) && SameText(p.side, side) then Worth(p) else 0.0
  }

  function HeldOf(positions: seq<Position>, symbol: string, side: string): real {
    Sum(positions, WorthOf(symbol, side))
  }

  function WorthIn(sector: string): Position -> real {
    (p: Position) => if p.sectorKnown && Says(p.sector, TrimSpace(sector)) then Worth(p) else 0.0
  }

  function HeldIn(positions: seq<Position>, sector: string): real {
    Sum(positions, WorthIn(sector))
  }

  function HowMany(positions: seq<Position>): nat {
    |set i: nat | i < |positions| && positions[i].marketValue > 0.0|
  }

  lemma {:induction false} SumIsTotal(positions: seq<Position>, value: Position -> real, m: Measure)
    requires forall p :: value(p) == Weight(m, p)
    ensures Sum(positions, value) == Total(m, positions)
  {
    hide Weight;
    if positions != [] {
      SumIsTotal(positions[1..], value, m);
      TotalSplits(m, positions);
    }
  }

  lemma {:induction false} TotalSplits(m: Measure, positions: seq<Position>)
    requires positions != []
    ensures Total(m, positions) == Weight(m, positions[0]) + Total(m, positions[1..])
  {
    hide Weight;
    var n := |positions| - 1;
    if n > 0 {
      TotalSplits(m, positions[..n]);
      assert positions[..n][1..] == positions[1..][..n - 1];
    }
  }

  lemma {:induction false} HowManyUpTo(positions: seq<Position>, n: nat)
    requires n <= |positions|
    ensures |set i: nat | i < n && positions[i].marketValue > 0.0| == CountOpen(positions[..n])
  {
    var open := set i: nat | i < n && positions[i].marketValue > 0.0;
    if n == 0 {
      assert open == {};
    } else {
      HowManyUpTo(positions, n - 1);
      var before := set i: nat | i < n - 1 && positions[i].marketValue > 0.0;
      assert open == if positions[n - 1].marketValue > 0.0 then before + {n - 1} else before;
      assert positions[..n][..n - 1] == positions[..n - 1];
    }
  }

  lemma HowManyIsCount(positions: seq<Position>)
    ensures HowMany(positions) == CountOpen(positions)
  {
    hide CountOpen;
    HowManyUpTo(positions, |positions|);
    assert positions[..|positions|] == positions;
  }

  lemma HeldIsGross(positions: seq<Position>)
    ensures Held(positions) == Total(Gross, positions)
  {
    SumIsTotal(positions, Worth, Gross);
  }

  lemma ShortIsSaid(side: string)
    ensures IsShort(side) <==> Says(side, "short")
    ensures SideSign(side) == if Says(side, "short") then -1 else if Says(side, "long") then 1 else 0
  {
    hide Says, LowerTrim;
    assert ToLower("short") == "short" && ToLower("long") == "long";
    LowerTrimSays(side, "short");
    LowerTrimSays(side, "long");
  }

  lemma HeldIsNet(positions: seq<Position>)
    ensures HeldNet(positions) == Total(Net, positions)
  {
    hide Says, IsShort;
    forall p: Position ensures IsShort(p.side) <==> Says(p.side, "short") {
      ShortIsSaid(p.side);
    }
    SumIsTotal(positions, Signed, Net);
  }

  lemma HeldIsSameSide(positions: seq<Position>, symbol: string, side: string)
    ensures HeldOf(positions, symbol, side) == Total(SameSide(symbol, side), positions)
  {
    hide SameText, EqualFold;
    forall p: Position ensures Matches(p, symbol, side) <==> SameText(p.symbol, symbol) && SameText(p.side, side) {
      FoldingIsSameText(p.symbol, symbol);
      FoldingIsSameText(p.side, side);
    }
    SumIsTotal(positions, WorthOf(symbol, side), SameSide(symbol, side));
  }

  lemma HeldIsInSector(positions: seq<Position>, sector: string)
    requires TrimSpace(sector) != ""
    ensures HeldIn(positions, sector) == Total(InSector(LowerTrim(TrimSpace(sector))), positions)
  {
    hide SameText, TrimSpace;
    TrimmedAsIs(TrimSpace(sector));
    forall p: Position
      ensures Classified(p, LowerTrim(TrimSpace(sector))) <==> p.sectorKnown && Says(p.sector, TrimSpace(sector))
    {
      FoldingIsSameText(TrimSpace(p.sector), TrimSpace(sector));
      assert LowerTrim(p.sector) == ToLower(TrimSpace(p.sector));
      assert |ToLower(TrimSpace(p.sector))| == |TrimSpace(p.sector)|;
    }
    SumIsTotal(positions, WorthIn(sector), InSector(LowerTrim(TrimSpace(sector))));
  }

  // ---- What each rule asks of a size ----

  /** A part of the equity is respected when it is respected for each of the account's equities that is positive. */
  predicate WithinPart(x: real, part: real, a: Account) {
    (a.strategyEquity > 0.0 ==> x <= part * a.strategyEquity) && (a.accountEquity > 0.0 ==> x <= part * a.accountEquity)
  }

  predicate AnyEquity(a: Account) {
    a.strategyEquity > 0.0 || a.accountEquity > 0.0
  }

  /** The market value held, or, with no position worth anything, what the account itself reports. */
  function GrossHeld(ctx: Context): real {
    if Held(ctx.positions) <= 0.0 && ctx.account.grossMarketValue > 0.0 then ctx.account.grossMarketValue
    else Held(ctx.positions)
  }

  predicate HoldsAlready(positions: seq<Position>, o: Order) {
    exists i :: 0 <= i < |positions| && SameText(positions[i].symbol, o.symbol) && SameText(positions[i].side, o.side)
                && (positions[i].marketValue > 0.0 || positions[i].quantity > 0.0)
  }

  /** The current volume, or the average one where that is not known. */
  function VolumeOf(m: Market): real {
    if m.currentVolume > 0.0 then m.currentVolume else m.averageVolume
  }

  /** What a quantity loses, or gains on the wrong side, when the stop is reached. */
  function AtStake(quantity: real, price: real, stop: real): real {
    if stop < price then quantity * (price - stop) else quantity * (stop - price)
  }

  /** What a rule asks of the size of an order. */
  predicate Accepts(rule: Rule, ctx: Context, size: Sizing) {
    var c, a, m, o := ctx.config, ctx.account, ctx.market, ctx.order;
    match rule
    case SymbolTradable => m.tradableKnown ==> m.tradable
    case TradingHalted => m.haltedKnown ==> !m.halted
    case PriceSanity => m.currentPrice > 0.0
    case AverageVolume => c.minAverageDollarVolume > 0.0 ==> m.averageDollarVolume >= c.minAverageDollarVolume
    case Participation =>
      c.maxParticipationRate > 0.0 ==>
        size.quantity <= c.maxParticipationRate * VolumeOf(m)
    case DailyLoss => o.isEntry && c.maxDailyLossPct > 0.0 && a.dailyLossLimit < 0.0 ==> a.dailyPnL > a.dailyLossLimit
    case DrawdownStop =>
      o.isEntry && c.maxDrawdownStopPct > 0.0 && a.peakStrategyEquity > 0.0 && a.strategyEquity > 0.0 ==>
        a.peakStrategyEquity - a.strategyEquity < c.maxDrawdownStopPct * a.peakStrategyEquity
    case ConcurrentPositions =>
      o.isEntry && c.maxConcurrentPositions > 0 ==>
        HoldsAlready(ctx.positions, o) || HowMany(ctx.positions) < c.maxConcurrentPositions
    case PositionLimit =>
      o.isEntry && c.maxPositionPct > 0.0 ==>
        WithinPart(HeldOf(ctx.positions, o.symbol, o.side) + size.notional, c.maxPositionPct, a)
    case PortfolioExposure =>
      o.isEntry && c.maxPortfolioExposure > 0.0 ==> WithinPart(GrossHeld(ctx) + size.notional, c.maxPortfolioExposure, a)
    case NetExposure =>
      o.isEntry && c.maxNetExposurePct > 0.0 && AnyEquity(a) ==>
        || (Says(o.side, "long") && WithinPart(HeldNet(ctx.positions) + size.notional, c.maxNetExposurePct, a))
        || (Says(o.side, "short") && WithinPart(size.notional - HeldNet(ctx.positions), c.maxNetExposurePct, a))
    case SectorExposure =>
      o.isEntry && c.maxSectorExposurePct > 0.0 && m.sectorKnown && !Blanks(m.sector) ==>
        WithinPart(HeldIn(ctx.positions, m.sector) + size.notional, c.maxSectorExposurePct, a)
    case GrossLeverage =>
      var limit := if c.maxGrossLeverage > 0.0 then c.maxGrossLeverage else c.maxPortfolioExposure;
      o.isEntry && limit > 0.0 && a.accountEquity > 0.0 ==> GrossHeld(ctx) + size.notional <= limit * a.accountEquity
    case CashAvailability =>
      var buffer := if 0.0 < c.cashBufferPct <= 1.0 then c.cashBufferPct else 0.95;
      o.isEntry ==> size.notional <= buffer * (if a.availableBalance > 0.0 then a.availableBalance else 0.0)
    case PerTradeRisk =>
      o.isEntry && c.maxPerTradeRiskPct > 0.0 && AnyEquity(a) ==>
        && o.stopLoss > 0.0 && o.stopLoss != m.currentPrice
        && WithinPart(AtStake(size.quantity, m.currentPrice, o.stopLoss), c.maxPerTradeRiskPct, a)
    case CorrelationRisk =>
      o.isEntry && c.maxCorrelatedPositions > 0 && 0.0 < c.maxPairCorrelation < 1.0 && m.correlationKnown ==>
        m.correlatedPositionCount < c.maxCorrelatedPositions
  }

  /** The context as the engine judges it. */
  function Judged(ctx: Context): Context {
    ctx.(config := ConfigOrDefaults(ctx.config))
  }

  predicate WithinCap(notional: real, cap: Option<real>) {
    cap.Some? ==> notional <= cap.value
  }

  // ---- Asking is gate and cap ----

  lemma EachEquity(x: real, part: real, a: Account)
    requires part > 0.0
    ensures WithinPart(x, part, a) <==> (DecisionEquity(a) > 0.0 ==> x <= DecisionEquity(a) * part)
    ensures DecisionEquity(a) > 0.0 <==> AnyEquity(a)
  {
    ScaledLeq(a.strategyEquity, a.accountEquity, part);
    ScaledLeq(a.accountEquity, a.strategyEquity, part);
    assert part * a.strategyEquity == a.strategyEquity * part && part * a.accountEquity == a.accountEquity * part;
  }

  lemma GrossHeldIs(ctx: Context)
    ensures GrossHeld(ctx) == CurrentGross(Judged(ctx))
  {
    HeldIsGross(ctx.positions);
  }

  lemma HoldsAlreadyIs(positions: seq<Position>, o: Order)
    ensures HoldsAlready(positions, o) <==> HasSameSide(positions, o.symbol, o.side)
  {
    hide SameText, EqualFold;
    forall i | 0 <= i < |positions|
      ensures Matches(positions[i], o.symbol, o.side)
         <==> SameText(positions[i].symbol, o.symbol) && SameText(positions[i].side, o.side)
    {
      FoldingIsSameText(positions[i].symbol, o.symbol);
      FoldingIsSameText(positions[i].side, o.side);
    }
  }

  lemma DrawdownIs(a: Account, limit: real)
    requires limit > 0.0
    ensures CurrentDrawdown(a) < limit
      <==> (a.peakStrategyEquity > 0.0 && a.strategyEquity > 0.0 ==>
              a.peakStrategyEquity - a.strategyEquity < limit * a.peakStrategyEquity)
  {
    var peak := a.peakStrategyEquity;
    if peak > 0.0 {
      QuotientTimes(peak - a.strategyEquity, peak);
      ScaledLeq(limit, (peak - a.strategyEquity) / peak, peak);
      ProductSign(limit, peak);
    }
  }

  lemma MarketRulesAsk(rule: Rule, ctx: Context, size: Sizing)
    requires rule in {SymbolTradable, TradingHalted, PriceSanity, AverageVolume, DailyLoss, DrawdownStop,
                      ConcurrentPositions, CorrelationRisk}
    ensures CapOf(rule, Judged(ctx)).None? && (Accepts(rule, ctx, size) <==> GateOpen(rule, Judged(ctx)))
  {
    hide DecisionEquity, HasSameSide, HoldsAlready, CountOpen, HowMany, CurrentDrawdown;
    HoldsAlreadyIs(ctx.positions, ctx.order);
    HowManyIsCount(ctx.positions);
    if ctx.config.maxDrawdownStopPct > 0.0 {
      DrawdownIs(ctx.account, ctx.config.maxDrawdownStopPct);
    }
  }

  /** For a positive size, what the rule asks is its gate and its cap. */
  predicate AsksGateAndCap(rule: Rule, ctx: Context, size: Sizing) {
    Accepts(rule, ctx, size) <==> GateOpen(rule, Judged(ctx)) && WithinCap(size.notional, CapOf(rule, Judged(ctx)))
  }

  lemma ShareOfVolume(quantity: real, price: real, rate: real, volume: real)
    requires quantity > 0.0 && price > 0.0 && rate > 0.0
    ensures quantity <= rate * volume <==> volume > 0.0 && quantity * price <= volume * rate * price
  {
    ProductSign(volume, rate);
    assert rate * volume == volume * rate;
    ScaledLeq(quantity, volume * rate, price);
  }

  lemma SameVolume(m: Market)
    ensures VolumeOf(m) == LiquidityVolume(m)
  {
  }

  lemma ParticipationAsks(ctx: Context, size: Sizing)
    requires Priced(size, ctx.market.currentPrice)
    ensures AsksGateAndCap(Participation, ctx, size)
  {
    hide VolumeOf, LiquidityVolume;
    SameVolume(ctx.market);
    PricedIsPositive(size, ctx.market.currentPrice);
    assert size.notional == size.quantity * ctx.market.currentPrice > 0.0;
    if ctx.config.maxParticipationRate > 0.0 {
      ShareOfVolume(size.quantity, ctx.market.currentPrice, ctx.config.maxParticipationRate, VolumeOf(ctx.market));
    }
  }

  lemma PositionLimitAsks(ctx: Context, size: Sizing)
    ensures AsksGateAndCap(PositionLimit, ctx, size)
  {
    hide DecisionEquity, WithinPart, HeldOf, Total, AnyEquity;
    var part, o := ctx.config.maxPositionPct, ctx.order;
    HeldIsSameSide(ctx.positions, o.symbol, o.side);
    if part > 0.0 {
      EachEquity(HeldOf(ctx.positions, o.symbol, o.side) + size.notional, part, ctx.account);
    }
  }

  lemma PortfolioExposureAsks(ctx: Context, size: Sizing)
    ensures AsksGateAndCap(PortfolioExposure, ctx, size)
  {
    hide DecisionEquity, WithinPart, GrossHeld, CurrentGross, AnyEquity;
    var part := ctx.config.maxPortfolioExposure;
    GrossHeldIs(ctx);
    if part > 0.0 {
      EachEquity(GrossHeld(ctx) + size.notional, part, ctx.account);
    }
  }

  lemma NetExposureAsks(ctx: Context, size: Sizing)
    ensures AsksGateAndCap(NetExposure, ctx, size)
  {
    hide DecisionEquity, WithinPart, HeldNet, Total, AnyEquity, Says, IsShort;
    var part, net := ctx.config.maxNetExposurePct, HeldNet(ctx.positions);
    HeldIsNet(ctx.positions);
    ShortIsSaid(ctx.order.side);
    LongOrShort(ctx.order.side);
    if part > 0.0 {
      EachEquity(net + size.notional, part, ctx.account);
      EachEquity(size.notional - net, part, ctx.account);
      assert -1 as real * net == -net && 1 as real * net == net;
    }
  }

  lemma LongOrShort(side: string)
    ensures !(Says(side, "long") && Says(side, "short"))
  {
  }

  lemma SectorExposureAsks(ctx: Context, size: Sizing)
    ensures AsksGateAndCap(SectorExposure, ctx, size)
  {
    hide DecisionEquity, WithinPart, HeldIn, Total, AnyEquity, TrimSpace, LowerTrim, Blanks;
    var part, sector := ctx.config.maxSectorExposurePct, ctx.market.sector;
    BlankTrims(sector);
    if part > 0.0 && TrimSpace(sector) != "" {
      HeldIsInSector(ctx.positions, sector);
      EachEquity(HeldIn(ctx.positions, sector) + size.notional, part, ctx.account);
    }
  }

  lemma GrossLeverageAsks(ctx: Context, size: Sizing)
    ensures AsksGateAndCap(GrossLeverage, ctx, size)
  {
    hide DecisionEquity, GrossHeld, CurrentGross;
    GrossHeldIs(ctx);
    var limit := Judged(ctx).config.maxGrossLeverage;
    assert limit * ctx.account.accountEquity == ctx.account.accountEquity * limit;
  }

  lemma CashAsks(ctx: Context, size: Sizing)
    ensures AsksGateAndCap(CashAvailability, ctx, size)
  {
    hide DecisionEquity;
    var buffer, cash := Judged(ctx).config.cashBufferPct, Max(ctx.account.availableBalance, 0.0);
    assert buffer * cash == cash * buffer;
  }

  lemma StopRiskIs(quantity: real, distance: real, price: real, budget: real)
    requires price > 0.0 && distance > 0.0
    ensures quantity * distance <= budget <==> quantity * price <= budget / distance * price
  {
    QuotientTimes(budget, distance);
    ScaledLeq(quantity, budget / distance, distance);
    ScaledLeq(quantity, budget / distance, price);
  }

  lemma PerTradeRiskAsks(ctx: Context, size: Sizing)
    requires Priced(size, ctx.market.currentPrice)
    ensures AsksGateAndCap(PerTradeRisk, ctx, size)
  {
    hide DecisionEquity, WithinPart, AnyEquity, RiskPerUnit, AtStake;
    var part, price, stop := ctx.config.maxPerTradeRiskPct, ctx.market.currentPrice, ctx.order.stopLoss;
    var risk, equity := RiskPerUnit(Judged(ctx)), DecisionEquity(Judged(ctx).account);
    StopDistanceIs(ctx, size.quantity);
    if part > 0.0 {
      EachEquity(AtStake(size.quantity, price, stop), part, ctx.account);
      if risk > 0.0 {
        StopRiskIs(size.quantity, risk, price, equity * part);
        assert size.notional == size.quantity * price;
      }
    }
  }

  lemma StopDistanceIs(ctx: Context, quantity: real)
    ensures AtStake(quantity, ctx.market.currentPrice, ctx.order.stopLoss) == quantity * RiskPerUnit(Judged(ctx))
    ensures RiskPerUnit(Judged(ctx)) > 0.0 <==> ctx.order.stopLoss != ctx.market.currentPrice
    ensures RiskPerUnit(Judged(ctx)) >= 0.0
  {
  }

  lemma RuleAsks(rule: Rule, ctx: Context, size: Sizing)
    requires Priced(size, ctx.market.currentPrice)
    ensures AsksGateAndCap(rule, ctx, size)
  {
    hide GateOpen, CapOf, Accepts;
    match rule
    case Participation => ParticipationAsks(ctx, size);
    case PositionLimit => PositionLimitAsks(ctx, size);
    case PortfolioExposure => PortfolioExposureAsks(ctx, size);
    case NetExposure => NetExposureAsks(ctx, size);
    case SectorExposure => SectorExposureAsks(ctx, size);
    case GrossLeverage => GrossLeverageAsks(ctx, size);
    case CashAvailability => CashAsks(ctx, size);
    case PerTradeRisk => PerTradeRiskAsks(ctx, size);
    case _ => MarketRulesAsk(rule, ctx, size);
  }

  // ---- The largest acceptable size ----

  /** The size is no more than is asked for, by quantity and by notional as far as each is given. */
  predicate WithinRequest(o: Order, size: Sizing) {
    && (o.requestedQuantity > 0.0 || o.requestedNotional > 0.0)
    && (o.requestedQuantity > 0.0 ==> size.quantity <= o.requestedQuantity)
    && (o.requestedNotional > 0.0 ==> size.notional <= o.requestedNotional)
  }

  /** A positive size at the market price, within the request, that every rule accepts. */
  predicate Acceptable(ctx: Context, size: Sizing) {
    && size.quantity > 0.0 && ctx.market.currentPrice > 0.0 && size.notional == size.quantity * ctx.market.currentPrice
    && WithinRequest(ctx.order, size)
    && forall rule :: Accepts(rule, ctx, size)
  }

  lemma WithinRequestIs(o: Order, m: Market, size: Sizing)
    requires Consistent(o, m) && Priced(size, m.currentPrice)
    ensures WithinRequest(o, size) <==> size.notional <= RequestedSize(o, m).notional
  {
    var price := m.currentPrice;
    ScaledLeq(size.quantity, o.requestedQuantity, price);
    ProductSign(o.requestedQuantity, price);
  }

  lemma AcceptableIsPriced(ctx: Context, size: Sizing)
    ensures Acceptable(ctx, size) ==> Priced(size, ctx.market.currentPrice)
    ensures Priced(size, ctx.market.currentPrice) ==>
              (Acceptable(ctx, size) <==> WithinRequest(ctx.order, size) && forall rule :: Accepts(rule, ctx, size))
  {
    hide Accepts, WithinRequest;
    if ctx.market.currentPrice > 0.0 {
      ProductSign(size.quantity, ctx.market.currentPrice);
    }
  }

  lemma AllRulesListed(rule: Rule)
    ensures rule in DEFAULT_RULES
  {
    match rule
    case SymbolTradable => assert DEFAULT_RULES[0] == rule;
    case TradingHalted => assert DEFAULT_RULES[1] == rule;
    case PriceSanity => assert DEFAULT_RULES[2] == rule;
    case AverageVolume => assert DEFAULT_RULES[3] == rule;
    case Participation => assert DEFAULT_RULES[4] == rule;
    case DailyLoss => assert DEFAULT_RULES[5] == rule;
    case DrawdownStop => assert DEFAULT_RULES[6] == rule;
    case ConcurrentPositions => assert DEFAULT_RULES[7] == rule;
    case PositionLimit => assert DEFAULT_RULES[8] == rule;
    case PortfolioExposure => assert DEFAULT_RULES[9] == rule;
    case NetExposure => assert DEFAULT_RULES[10] == rule;
    case SectorExposure => assert DEFAULT_RULES[11] == rule;
    case GrossLeverage => assert DEFAULT_RULES[12] == rule;
    case CashAvailability => assert DEFAULT_RULES[13] == rule;
    case PerTradeRisk => assert DEFAULT_RULES[14] == rule;
    case CorrelationRisk => assert DEFAULT_RULES[15] == rule;
  }

  /** No size is acceptable where a rule blocks. */
  lemma BlockedAcceptsNothing(ctx: Context, size: Sizing, i: nat)
    requires i < |DEFAULT_RULES| && Blocks(DEFAULT_RULES[i], Judged(ctx))
    ensures !Acceptable(ctx, size)
  {
    hide Accepts, GateOpen, CapOf, WithinRequest;
    AcceptableIsPriced(ctx, size);
    if Priced(size, ctx.market.currentPrice) {
      RuleAsks(DEFAULT_RULES[i], ctx, size);
    }
  }

  /** Every acceptable size is within the least of the request and the caps. */
  lemma AcceptableIsSmaller(ctx: Context, size: Sizing, least: real)
    requires Consistent(ctx.order, ctx.market) && Acceptable(ctx, size)
    requires IsSmallest(least, RequestedSize(ctx.order, ctx.market).notional, DEFAULT_RULES, Judged(ctx))
    ensures size.notional <= least
  {
    hide Accepts, GateOpen, CapOf, WithinRequest, RequestedSize, Consistent, Acceptable;
    AcceptableIsPriced(ctx, size);
    WithinRequestIs(ctx.order, ctx.market, size);
    if least != RequestedSize(ctx.order, ctx.market).notional {
      var i :| 0 <= i < |DEFAULT_RULES| && CapOf(DEFAULT_RULES[i], Judged(ctx)) == Some(least);
      RuleAsks(DEFAULT_RULES[i], ctx, size);
    }
  }

  lemma LeastIsAcceptable(ctx: Context, size: Sizing)
    requires Consistent(ctx.order, ctx.market) && Priced(size, ctx.market.currentPrice)
    requires !SomeBlocks(DEFAULT_RULES, Judged(ctx))
    requires IsSmallest(size.notional, RequestedSize(ctx.order, ctx.market).notional, DEFAULT_RULES, Judged(ctx))
    ensures Acceptable(ctx, size)
  {
    hide Accepts, GateOpen, CapOf, WithinRequest, RequestedSize, Consistent, Acceptable;
    AcceptableIsPriced(ctx, size);
    WithinRequestIs(ctx.order, ctx.market, size);
    forall rule ensures Accepts(rule, ctx, size) {
      AllRulesListed(rule);
      var i :| 0 <= i < |DEFAULT_RULES| && DEFAULT_RULES[i] == rule;
      assert !Blocks(DEFAULT_RULES[i], Judged(ctx));
      RuleAsks(rule, ctx, size);
    }
  }

  /** The engine's decision on the account, positions, market and order as they are given. */
  function Decision(ctx: Context): Evaluation {
    Evaluated(DEFAULT_RULES, Judged(ctx))
  }

  /** The engine refuses exactly when no size is acceptable, and otherwise approves the largest that is: smaller
      equities, tighter limits or larger holdings than stated would make the size it approves fail. */
  lemma EngineApprovesTheLargest(ctx: Context)
    requires Consistent(ctx.order, ctx.market)
    ensures Decision(ctx).outcome == Refused <==> forall size :: !Acceptable(ctx, size)
    ensures Decision(ctx).outcome == Refused ==> Decision(ctx).approved == Sizing(0.0, 0.0)
    ensures Decision(ctx).outcome != Refused ==>
              && Acceptable(ctx, Decision(ctx).approved)
              && forall size | Acceptable(ctx, size) ::
                   size.notional <= Decision(ctx).approved.notional && size.quantity <= Decision(ctx).approved.quantity
  {
    hide Evaluated, RequestedSize, Consistent, Acceptable, Blocks, CapOf, DEFAULT_RULES, IsSmallest;
    EngineDecidesByMinimum(ctx);
    var eval, price := Decision(ctx), ctx.market.currentPrice;
    if eval.outcome == Refused {
      forall size ensures !Acceptable(ctx, size) {
        RefusedAcceptsNothing(ctx, size);
      }
    } else {
      LeastIsAcceptable(ctx, eval.approved);
      forall size | Acceptable(ctx, size)
        ensures size.notional <= eval.approved.notional && size.quantity <= eval.approved.quantity
      {
        AcceptableIsSmaller(ctx, size, eval.approved.notional);
        AcceptableIsPriced(ctx, size);
        QuantityFollows(size, eval.approved, price);
      }
    }
  }

  lemma QuantityFollows(a: Sizing, b: Sizing, price: real)
    requires Priced(a, price) && Priced(b, price) && a.notional <= b.notional
    ensures a.quantity <= b.quantity
  {
    var p, q := a.quantity, b.quantity;
    assert a.notional == p * price && b.notional == q * price;
    LessFollows(p, q, price);
  }

  lemma LessFollows(p: real, q: real, price: real)
    requires price > 0.0 && p * price <= q * price
    ensures p <= q
  {
    ScaledLeq(p, q, price);
  }

  lemma EngineDecidesByMinimum(ctx: Context)
    requires Consistent(ctx.order, ctx.market)
    ensures DecidesByMinimum(Decision(ctx), DEFAULT_RULES, Judged(ctx))
  {
    hide Evaluated, DecidesByMinimum;
    assert DEFAULT_RULES[2] == PriceSanity;
    EvaluateIsMinimumOfCaps(DEFAULT_RULES, Judged(ctx));
  }

  lemma RefusedAcceptsNothing(ctx: Context, size: Sizing)
    requires Consistent(ctx.order, ctx.market) && Decision(ctx).outcome == Refused
    ensures !Acceptable(ctx, size)
  {
    hide Evaluated, RequestedSize, Consistent, Acceptable, Blocks, WithinRequest;
    EngineDecidesByMinimum(ctx);
    AcceptableIsPriced(ctx, size);
    if Priced(size, ctx.market.currentPrice) {
      WithinRequestIs(ctx.order, ctx.market, size);
      if SomeBlocks(DEFAULT_RULES, Judged(ctx)) {
        var i :| 0 <= i < |DEFAULT_RULES| && Blocks(DEFAULT_RULES[i], Judged(ctx));
        BlockedAcceptsNothing(ctx, size, i);
      }
    }
  }

  // ---- The label and the results ----

  /** The order leaves the net exposure beyond its part on the side it moves away from. */
  predicate FarSide(ctx: Context, notional: real) {
    var c, a, o, net := ctx.config, ctx.account, ctx.order, HeldNet(ctx.positions);
    o.isEntry && c.maxNetExposurePct > 0.0 && AnyEquity(a)
    && (|| (Says(o.side, "long") && !WithinPart(-(net + notional), c.maxNetExposurePct, a))
        || (Says(o.side, "short") && !WithinPart(net - notional, c.maxNetExposurePct, a)))
  }

  /** A ruling that does not reject says that it reduces exactly when it takes something off, or has another cause to. */
  predicate LabelFits(r: Ruling, current: Sizing, far: bool) {
    r.verdict != Reject ==> (r.verdict == Reduce <==> r.next.notional < current.notional || far)
  }

  lemma NetLabelFits(ctx: Context, current: Sizing)
    requires Priced(current, ctx.market.currentPrice)
    ensures LabelFits(NetExposureRule(Judged(ctx), current), current, FarSide(ctx, current.notional))
  {
    hide DecisionEquity, WithinPart, HeldNet, Total, AnyEquity, Says, IsShort;
    var part, net, n := ctx.config.maxNetExposurePct, HeldNet(ctx.positions), current.notional;
    HeldIsNet(ctx.positions);
    ShortIsSaid(ctx.order.side);
    LongOrShort(ctx.order.side);
    if part > 0.0 {
      EachEquity(-(net + n), part, ctx.account);
      EachEquity(net - n, part, ctx.account);
      assert -1 as real * n == -n && 1 as real * n == n;
    }
  }

  lemma CappedLabelFits(current: Sizing, cap: real, price: real)
    requires Priced(current, price)
    ensures LabelFits(CappedAt(current, cap, price), current, false)
  {
  }

  lemma ParticipationLabelFits(ctx: Context, current: Sizing)
    requires Priced(current, ctx.market.currentPrice)
    ensures LabelFits(ParticipationRule(ctx, current), current, false)
  {
    ScaledLeq(current.quantity, LiquidityVolume(ctx.market) * ctx.config.maxParticipationRate, ctx.market.currentPrice);
  }

  lemma RuleLabelFits(rule: Rule, ctx: Context, current: Sizing)
    requires Priced(current, ctx.market.currentPrice)
    ensures LabelFits(ApplyRule(rule, Judged(ctx), current), current, rule == NetExposure && FarSide(ctx, current.notional))
  {
    hide NetExposureRule, ParticipationRule, FarSide, DecisionEquity, Total, CurrentGross, HasSameSide, CountOpen,
         CurrentDrawdown, LowerTrim, TrimSpace, CappedAt, LeverageEquity, RiskPerUnit, Max;
    NetLabelFits(ctx, current);
    ParticipationLabelFits(Judged(ctx), current);
    forall cap: real ensures LabelFits(CappedAt(current, cap, ctx.market.currentPrice), current, false) {
      CappedLabelFits(current, cap, ctx.market.currentPrice);
    }
  }

  lemma {:induction false} FoldLabelFits(rules: seq<Rule>, ctx: Context, requested: Sizing)
    requires Priced(requested, ctx.market.currentPrice)
    ensures var s := Through(rules, Judged(ctx), requested);
      !s.stopped ==>
        && Priced(s.size, ctx.market.currentPrice) && s.size.notional <= requested.notional
        && (s.reduced <==> s.size.notional < requested.notional || (NetExposure in rules && FarSide(ctx, requested.notional)))
  {
    hide ApplyRule, FarSide, CapOf, Blocks;
    if rules != [] {
      var n := |rules| - 1;
      FoldLabelFits(rules[..n], ctx, requested);
      var before := Through(rules[..n], Judged(ctx), requested);
      assert rules == rules[..n] + [rules[n]];
      if !before.stopped {
        RuleIsGateAndCap(rules[n], Judged(ctx), before.size);
        RuleLabelFits(rules[n], ctx, before.size);
      }
    }
  }

  /** An approved order is called reduced exactly when something was taken off, or when it leaves the net exposure
      beyond its part on the far side: then it is called reduced and approved whole. */
  lemma ReducedIff(ctx: Context)
    requires Consistent(ctx.order, ctx.market) && Decision(ctx).outcome != Refused
    ensures var eval := Decision(ctx);
      && (eval.outcome == Reduced <==>
            eval.approved.notional < eval.requested.notional || FarSide(ctx, eval.requested.notional))
      && (eval.outcome == Passes ==> eval.approved == eval.requested)
      && (ctx.order.requestedNotional > 0.0 ==> eval.requested.notional == ctx.order.requestedNotional)
      && (ctx.order.requestedQuantity > 0.0 ==> eval.requested.quantity == ctx.order.requestedQuantity)
  {
    hide Through, FarSide, CapOf, Blocks, IsSmallest, SomeBlocks, DEFAULT_RULES;
    EngineDecidesByMinimum(ctx);
    var eval := Decision(ctx);
    RequestedSizeIsPriced(ctx.order, ctx.market);
    RefusedUnlessPriced(ctx);
    FoldLabelFits(DEFAULT_RULES, ctx, eval.requested);
    AllRulesListed(NetExposure);
    if eval.approved.notional == eval.requested.notional {
      SamePriced(eval.approved, eval.requested, ctx.market.currentPrice);
    }
  }

  lemma RefusedUnlessPriced(ctx: Context)
    requires Consistent(ctx.order, ctx.market) && Decision(ctx).outcome != Refused
    ensures Priced(Decision(ctx).requested, ctx.market.currentPrice)
    ensures Decision(ctx).requested == RequestedSize(ctx.order, ctx.market)
  {
    hide Through, CapOf, Blocks, IsSmallest, SomeBlocks, DEFAULT_RULES, RequestedSize;
    EngineDecidesByMinimum(ctx);
    RequestedSizeIsPriced(ctx.order, ctx.market);
  }

  /** The k-th result names the k-th rule, and gives the size that the rules up to it leave, or nothing if it rejects;
      only the last one consulted can. */
  lemma {:induction false} ResultsTell(rules: seq<Rule>, ctx: Context, requested: Sizing, k: nat)
    requires k < |Through(rules, ctx, requested).results|
    ensures |Through(rules, ctx, requested).results| <= |rules|
    ensures !Through(rules, ctx, requested).stopped ==> |Through(rules, ctx, requested).results| == |rules|
    ensures var s, upTo := Through(rules, ctx, requested), Through(rules[..k + 1], ctx, requested);
      && s.results[k].rule == Some(rules[k])
      && (s.results[k].verdict == Reject <==> upTo.stopped) && (upTo.stopped ==> s.stopped && k == |s.results| - 1)
      && (!upTo.stopped ==> (s.results[k].quantity, s.results[k].notional) == (upTo.size.quantity, upTo.size.notional))
      && (upTo.stopped ==> s.results[k].quantity == s.results[k].notional == 0.0)
  {
    hide ApplyRule;
    var n := |rules| - 1;
    var before := Through(rules[..n], ctx, requested);
    if k < |before.results| {
      ResultsTell(rules[..n], ctx, requested, k);
      assert rules[..n][..k + 1] == rules[..k + 1];
    } else {
      NoResultsYet(rules[..n], ctx, requested);
      assert rules[..n + 1] == rules;
      RejectionIsNothing(rules[n], ctx, before.size);
    }
  }

  /** A size that no rule rejects but that is not positive is refused with one more result, of no rule and nothing. */
  lemma NothingLeftIsSaid(rules: seq<Rule>, ctx: Context)
    ensures var eval, s := Evaluated(rules, ctx), Through(rules, ctx, Evaluated(rules, ctx).requested);
      && eval.requested == RequestedSize(ctx.order, ctx.market)
      && (if eval.outcome == Refused && !s.stopped then eval.results == s.results + [RuleResult(None, Reject, 0.0, 0.0)]
          else eval.results == s.results)
      && (eval.outcome == Refused <==> s.stopped || s.size.quantity <= 0.0 || s.size.notional <= 0.0)
  {
    hide Through, RequestedSize;
  }

  lemma {:induction false} NoResultsYet(rules: seq<Rule>, ctx: Context, requested: Sizing)
    ensures var s := Through(rules, ctx, requested);
      |s.results| <= |rules| && (!s.stopped ==> |s.results| == |rules|)
  {
    hide ApplyRule;
    if rules != [] {
      NoResultsYet(rules[..|rules| - 1], ctx, requested);
    }
  }

  lemma RejectionIsNothing(rule: Rule, ctx: Context, current: Sizing)
    ensures ApplyRule(rule, ctx, current).verdict == Reject ==> ApplyRule(rule, ctx, current).next == NO_SIZE
  {
    hide Total, DecisionEquity, HasSameSide, CountOpen, CurrentDrawdown, LowerTrim, TrimSpace, IsShort, CurrentGross;
  }
}
