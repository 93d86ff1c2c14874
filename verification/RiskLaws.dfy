/** Sequential capping is one minimum: the size the engine approves is the smallest of the request and
    every cap, whatever the order of the rules, and it rejects exactly at a failed gate or a spent cap. */
module RiskLaws {
  import opened Basics
  import opened Text
  import opened Reals
  import opened RiskRules
  import opened RiskEngine

  // ---- Gates and caps ----

  /** Whether the rule lets an order of any size through. */
  predicate GateOpen(rule: Rule, ctx: Context) {
    var c, a, m, o := ctx.config, ctx.account, ctx.market, ctx.order;
    var equity := DecisionEquity(a);
    match rule
    case SymbolTradable => m.tradableKnown ==> m.tradable
    case TradingHalted => m.haltedKnown ==> !m.halted
    case PriceSanity => m.currentPrice > 0.0
    case AverageVolume => c.minAverageDollarVolume > 0.0 ==> m.averageDollarVolume >= c.minAverageDollarVolume
    case DailyLoss => o.isEntry && c.maxDailyLossPct > 0.0 && a.dailyLossLimit < 0.0 ==> a.dailyPnL > a.dailyLossLimit
    case DrawdownStop => o.isEntry && c.maxDrawdownStopPct > 0.0 ==> CurrentDrawdown(a) < c.maxDrawdownStopPct
    case ConcurrentPositions =>
      o.isEntry && c.maxConcurrentPositions > 0 && !HasSameSide(ctx.positions, o.symbol, o.side) ==>
        CountOpen(ctx.positions) < c.maxConcurrentPositions
    case NetExposure => o.isEntry && c.maxNetExposurePct > 0.0 && equity > 0.0 ==> SideSign(o.side) != 0
    case PerTradeRisk =>
      o.isEntry && c.maxPerTradeRiskPct > 0.0 && equity > 0.0 ==> o.stopLoss > 0.0 && RiskPerUnit(ctx) > 0.0
    case CorrelationRisk =>
      o.isEntry && c.maxCorrelatedPositions > 0 && 0.0 < c.maxPairCorrelation < 1.0 && m.correlationKnown ==>
        m.correlatedPositionCount < c.maxCorrelatedPositions
    case _ => true
  }

  /** The notional the rule leaves for the order, when it is in force. */
  function CapOf(rule: Rule, ctx: Context): Option<real> {
    var c, a, m, o := ctx.config, ctx.account, ctx.market, ctx.order;
    var equity := DecisionEquity(a);
    match rule
    case Participation =>
      if c.maxParticipationRate <= 0.0 then None
      else if LiquidityVolume(m) <= 0.0 then Some(0.0)
      else Some(LiquidityVolume(m) * c.maxParticipationRate * m.currentPrice)
    case PositionLimit =>
      if !o.isEntry || c.maxPositionPct <= 0.0 || equity <= 0.0 then None
      else Some(equity * c.maxPositionPct - Total(SameSide(o.symbol, o.side), ctx.positions))
    case PortfolioExposure =>
      if !o.isEntry || c.maxPortfolioExposure <= 0.0 || equity <= 0.0 then None
      else Some(equity * c.maxPortfolioExposure - CurrentGross(ctx))
    case NetExposure =>
      if !o.isEntry || c.maxNetExposurePct <= 0.0 || equity <= 0.0 || SideSign(o.side) == 0 then None
      else Some(equity * c.maxNetExposurePct - SideSign(o.side) as real * Total(Net, ctx.positions))
    case SectorExposure =>
      if !o.isEntry || c.maxSectorExposurePct <= 0.0 || equity <= 0.0 || !m.sectorKnown || TrimSpace(m.sector) == ""
      then None
      else Some(equity * c.maxSectorExposurePct - Total(InSector(LowerTrim(TrimSpace(m.sector))), ctx.positions))
    case GrossLeverage =>
      if !o.isEntry || c.maxGrossLeverage <= 0.0 || LeverageEquity(a) <= 0.0 then None
      else Some(LeverageEquity(a) * c.maxGrossLeverage - CurrentGross(ctx))
    case CashAvailability =>
      if !o.isEntry || c.cashBufferPct <= 0.0 || c.cashBufferPct > 1.0 then None
      else Some(Max(a.availableBalance, 0.0) * c.cashBufferPct)
    case PerTradeRisk =>
      if !o.isEntry || c.maxPerTradeRiskPct <= 0.0 || equity <= 0.0 || RiskPerUnit(ctx) <= 0.0 then None
      else Some(equity * c.maxPerTradeRiskPct / RiskPerUnit(ctx) * m.currentPrice)
    case _ => None
  }

  /** The rule turns the order away whatever its size. */
  predicate Blocks(rule: Rule, ctx: Context) {
    !GateOpen(rule, ctx) || (CapOf(rule, ctx).Some? && CapOf(rule, ctx).value <= 0.0)
  }

  // ---- Each rule is a gate and a cap ----

  /** The size is executable and its notional is its quantity at the price. */
  predicate Priced(s: Sizing, price: real) {
    price > 0.0 && s.notional > 0.0 && s.notional == s.quantity * price
  }

  /** The outcome of a rule that is nothing but a gate and a cap. */
  predicate IsGateAndCap(r: Ruling, blocks: bool, cap: Option<real>, current: Sizing, price: real) {
    && (r.verdict == Reject <==> blocks)
    && (!blocks ==>
          && r.next.notional == (if cap.Some? then Min(current.notional, cap.value) else current.notional)
          && Priced(r.next, price))
  }

  lemma CappedAtIsCap(current: Sizing, cap: real, price: real)
    requires Priced(current, price)
    ensures IsGateAndCap(CappedAt(current, cap, price), cap <= 0.0, Some(cap), current, price)
  {
    if 0.0 < cap < current.notional {
      QuotientTimes(cap, price);
    }
  }

  lemma ParticipationIsCap(ctx: Context, current: Sizing)
    requires Priced(current, ctx.market.currentPrice)
    ensures IsGateAndCap(ParticipationRule(ctx, current), Blocks(Participation, ctx), CapOf(Participation, ctx), current,
                         ctx.market.currentPrice)
  {
    var rate, volume, price := ctx.config.maxParticipationRate, LiquidityVolume(ctx.market), ctx.market.currentPrice;
    if rate > 0.0 && volume > 0.0 {
      ProductSign(volume, rate);
      ProductSign(volume * rate, price);
      ScaledLeq(current.quantity, volume * rate, price);
    }
  }

  /** The two-sided test passes exactly the orders that fit the side they are on, as long as there is room. */
  lemma NetExposureIsCap(ctx: Context, current: Sizing)
    requires Priced(current, ctx.market.currentPrice)
    ensures IsGateAndCap(NetExposureRule(ctx, current), Blocks(NetExposure, ctx), CapOf(NetExposure, ctx), current,
                         ctx.market.currentPrice)
  {
    hide Total, IsShort, DecisionEquity, ShrunkTo, IsGateAndCap;
    var limit, net := DecisionEquity(ctx.account) * ctx.config.maxNetExposurePct, Total(Net, ctx.positions);
    var sign, price := SideSign(ctx.order.side), ctx.market.currentPrice;
    var remaining := if sign > 0 then limit - net else limit + net;
    if CapOf(NetExposure, ctx).Some? {
      assert CapOf(NetExposure, ctx).value == remaining;
      var signed := sign as real * current.notional;
      assert signed == if sign > 0 then current.notional else -current.notional;
      TwoSidedIsCap(current, sign, net, limit, price);
    } else {
      UncappedBlocks(NetExposureRule(ctx, current), current, Blocks(NetExposure, ctx), price);
    }
  }

  lemma UncappedBlocks(r: Ruling, current: Sizing, blocks: bool, price: real)
    requires Priced(current, price) && r == if blocks then Rejected() else Passed(current)
    ensures IsGateAndCap(r, blocks, None, current, price)
  {
  }

  lemma TwoSidedIsCap(current: Sizing, sign: int, net: real, limit: real, price: real)
    requires Priced(current, price) && (sign == 1 || sign == -1) && limit > 0.0
    ensures var remaining := if sign > 0 then limit - net else limit + net;
      var r :=
        if Abs(net + (if sign > 0 then current.notional else -current.notional)) <= limit then Passed(current)
        else if remaining <= 0.0 then Rejected()
        else ShrunkTo(current, remaining, price);
      IsGateAndCap(r, remaining <= 0.0, Some(remaining), current, price)
  {
    var remaining := if sign > 0 then limit - net else limit + net;
    if remaining > 0.0 {
      QuotientTimes(Min(current.notional, remaining), price);
    }
  }

  lemma PerTradeRiskIsCap(ctx: Context, current: Sizing)
    requires Priced(current, ctx.market.currentPrice)
    ensures IsGateAndCap(PerTradeRiskRule(ctx, current), Blocks(PerTradeRisk, ctx), CapOf(PerTradeRisk, ctx), current,
                         ctx.market.currentPrice)
  {
    hide DecisionEquity;
    if CapOf(PerTradeRisk, ctx).Some? {
      CappedAtIsCap(current, CapOf(PerTradeRisk, ctx).value, ctx.market.currentPrice);
    }
  }

  lemma PositionLimitIsCap(ctx: Context, current: Sizing)
    requires Priced(current, ctx.market.currentPrice)
    ensures IsGateAndCap(PositionLimitRule(ctx, current), Blocks(PositionLimit, ctx), CapOf(PositionLimit, ctx), current,
                         ctx.market.currentPrice)
  {
    hide DecisionEquity, Total;
    if CapOf(PositionLimit, ctx).Some? {
      ProductSign(DecisionEquity(ctx.account), ctx.config.maxPositionPct);
      CappedAtIsCap(current, CapOf(PositionLimit, ctx).value, ctx.market.currentPrice);
    }
  }

  /** A blank sector leaves the sector cap out of force. */
  lemma SectorExposureIsCap(ctx: Context, current: Sizing)
    requires Priced(current, ctx.market.currentPrice)
    ensures IsGateAndCap(SectorExposureRule(ctx, current), Blocks(SectorExposure, ctx), CapOf(SectorExposure, ctx), current,
                         ctx.market.currentPrice)
  {
    hide DecisionEquity, LowerTrim, TrimSpace;
    var pct, equity := ctx.config.maxSectorExposurePct, DecisionEquity(ctx.account);
    if ctx.order.isEntry && pct > 0.0 && equity > 0.0 && ctx.market.sectorKnown {
      if TrimSpace(ctx.market.sector) == "" {
        BlankSectorIsEmpty(ctx.positions);
        ProductSign(equity, pct);
        assert LowerTrim("") == "" by { BlankLower(); }
      } else {
        CappedAtIsCap(current, CapOf(SectorExposure, ctx).value, ctx.market.currentPrice);
      }
    }
  }

  lemma BlankLower()
    ensures LowerTrim("") == ""
  {
  }

  lemma {:induction false} BlankSectorIsEmpty(positions: seq<Position>)
    ensures Total(InSector(""), positions) == 0.0
  {
    if positions != [] {
      BlankSectorIsEmpty(positions[..|positions| - 1]);
      NamedSectorIsNotBlank(positions[|positions| - 1].sector);
    }
  }

  lemma NamedSectorIsNotBlank(sector: string)
    ensures TrimSpace(sector) != "" ==> LowerTrim(sector) != ""
  {
    assert |LowerTrim(sector)| == |TrimSpace(sector)|;
  }

  lemma UncappedPasses(current: Sizing, price: real)
    requires Priced(current, price)
    ensures IsGateAndCap(Passed(current), false, None, current, price)
  {
  }

  lemma PortfolioExposureIsCap(ctx: Context, current: Sizing)
    requires Priced(current, ctx.market.currentPrice)
    ensures IsGateAndCap(PortfolioExposureRule(ctx, current), Blocks(PortfolioExposure, ctx), CapOf(PortfolioExposure, ctx), current,
                         ctx.market.currentPrice)
  {
    hide CurrentGross, DecisionEquity, CappedAt, IsGateAndCap;
    if CapOf(PortfolioExposure, ctx).Some? {
      CappedAtIsCap(current, CapOf(PortfolioExposure, ctx).value, ctx.market.currentPrice);
    } else {
      UncappedPasses(current, ctx.market.currentPrice);
    }
  }

  lemma GrossLeverageIsCap(ctx: Context, current: Sizing)
    requires Priced(current, ctx.market.currentPrice)
    ensures IsGateAndCap(GrossLeverageRule(ctx, current), Blocks(GrossLeverage, ctx), CapOf(GrossLeverage, ctx), current,
                         ctx.market.currentPrice)
  {
    hide CurrentGross, DecisionEquity, CappedAt, IsGateAndCap, LeverageEquity;
    if CapOf(GrossLeverage, ctx).Some? {
      CappedAtIsCap(current, CapOf(GrossLeverage, ctx).value, ctx.market.currentPrice);
    } else {
      UncappedPasses(current, ctx.market.currentPrice);
    }
  }

  lemma CashAvailabilityIsCap(ctx: Context, current: Sizing)
    requires Priced(current, ctx.market.currentPrice)
    ensures IsGateAndCap(CashAvailabilityRule(ctx, current), Blocks(CashAvailability, ctx), CapOf(CashAvailability, ctx), current,
                         ctx.market.currentPrice)
  {
    hide CurrentGross, DecisionEquity, CappedAt, IsGateAndCap;
    if CapOf(CashAvailability, ctx).Some? {
      CappedAtIsCap(current, CapOf(CashAvailability, ctx).value, ctx.market.currentPrice);
    } else {
      UncappedPasses(current, ctx.market.currentPrice);
    }
  }

  /** The rules without a cap leave the size alone. */
  lemma OtherRulesAreGates(rule: Rule, ctx: Context, current: Sizing)
    requires Priced(current, ctx.market.currentPrice)
    requires rule in {SymbolTradable, TradingHalted, PriceSanity, AverageVolume, DailyLoss, DrawdownStop,
                      ConcurrentPositions, CorrelationRisk}
    ensures IsGateAndCap(ApplyRule(rule, ctx, current), Blocks(rule, ctx), CapOf(rule, ctx), current,
                         ctx.market.currentPrice)
  {
    hide HasSameSide, CountOpen, CurrentDrawdown, DecisionEquity;
  }

  /** Every rule is a gate and a cap. */
  lemma RuleIsGateAndCap(rule: Rule, ctx: Context, current: Sizing)
    requires Priced(current, ctx.market.currentPrice)
    ensures IsGateAndCap(ApplyRule(rule, ctx, current), Blocks(rule, ctx), CapOf(rule, ctx), current,
                         ctx.market.currentPrice)
  {
    hide IsGateAndCap, Blocks, CapOf, ParticipationRule, NetExposureRule, PositionLimitRule, SectorExposureRule,
         PerTradeRiskRule, PortfolioExposureRule, GrossLeverageRule, CashAvailabilityRule;
    match rule
    case Participation => ParticipationIsCap(ctx, current);
    case NetExposure => NetExposureIsCap(ctx, current);
    case PositionLimit => PositionLimitIsCap(ctx, current);
    case SectorExposure => SectorExposureIsCap(ctx, current);
    case PerTradeRisk => PerTradeRiskIsCap(ctx, current);
    case PortfolioExposure => PortfolioExposureIsCap(ctx, current);
    case GrossLeverage => GrossLeverageIsCap(ctx, current);
    case CashAvailability => CashAvailabilityIsCap(ctx, current);
    case _ => OtherRulesAreGates(rule, ctx, current);
  }

  // ---- The fold is one minimum ----

  predicate SomeBlocks(rules: seq<Rule>, ctx: Context) {
    exists i :: 0 <= i < |rules| && Blocks(rules[i], ctx)
  }

  /** The notional is the least of the request and every cap in force. */
  predicate IsSmallest(notional: real, requested: real, rules: seq<Rule>, ctx: Context) {
    && notional <= requested
    && (forall i | 0 <= i < |rules| && CapOf(rules[i], ctx).Some? :: notional <= CapOf(rules[i], ctx).value)
    && (notional == requested || exists i :: 0 <= i < |rules| && CapOf(rules[i], ctx) == Some(notional))
  }

  lemma {:induction false} FoldIsMinimum(rules: seq<Rule>, ctx: Context, requested: Sizing)
    requires Priced(requested, ctx.market.currentPrice)
    ensures var s := Through(rules, ctx, requested);
      && (s.stopped <==> SomeBlocks(rules, ctx))
      && (!s.stopped ==> Priced(s.size, ctx.market.currentPrice) && IsSmallest(s.size.notional, requested.notional, rules, ctx))
  {
    hide ApplyRule, Blocks, CapOf;
    if rules != [] {
      var n := |rules| - 1;
      FoldIsMinimum(rules[..n], ctx, requested);
      var before := Through(rules[..n], ctx, requested);
      if before.stopped {
        var i :| 0 <= i < n && Blocks(rules[..n][i], ctx);
        assert Blocks(rules[i], ctx);
      } else {
        RuleIsGateAndCap(rules[n], ctx, before.size);
        SmallestWithOneMore(rules, ctx, requested, before.size);
      }
    }
  }

  lemma SmallestWithOneMore(rules: seq<Rule>, ctx: Context, requested: Sizing, size: Sizing)
    requires rules != [] && Priced(size, ctx.market.currentPrice)
    requires var n := |rules| - 1;
      !SomeBlocks(rules[..n], ctx) && IsSmallest(size.notional, requested.notional, rules[..n], ctx)
    requires var n := |rules| - 1;
      IsGateAndCap(ApplyRule(rules[n], ctx, size), Blocks(rules[n], ctx), CapOf(rules[n], ctx), size, ctx.market.currentPrice)
    ensures var r := ApplyRule(rules[|rules| - 1], ctx, size);
      && (r.verdict == Reject <==> SomeBlocks(rules, ctx))
      && (r.verdict != Reject ==> IsSmallest(r.next.notional, requested.notional, rules, ctx))
  {
    hide ApplyRule, Blocks, CapOf;
    var n := |rules| - 1;
    var r := ApplyRule(rules[n], ctx, size);
    assert forall i | 0 <= i < n :: rules[..n][i] == rules[i];
    if r.verdict != Reject {
      if size.notional != requested.notional {
        var i :| 0 <= i < n && CapOf(rules[..n][i], ctx) == Some(size.notional);
        assert CapOf(rules[i], ctx) == Some(size.notional);
      }
    } else {
      assert Blocks(rules[n], ctx);
    }
  }

  // ---- Orders that cannot be executed ----

  predicate NotPositive(s: Sizing) {
    s.quantity <= 0.0 && s.notional <= 0.0
  }

  /** No rule turns a size of nothing into something. */
  lemma RuleKeepsNotPositive(rule: Rule, ctx: Context, current: Sizing)
    requires NotPositive(current) && ctx.market.currentPrice > 0.0
    ensures ApplyRule(rule, ctx, current).verdict != Reject ==> NotPositive(ApplyRule(rule, ctx, current).next)
  {
    hide Total, DecisionEquity, HasSameSide, CountOpen, CurrentDrawdown, LowerTrim, TrimSpace, IsShort;
  }

  lemma {:induction false} FoldKeepsNotPositive(rules: seq<Rule>, ctx: Context, requested: Sizing)
    requires NotPositive(requested) && ctx.market.currentPrice > 0.0
    ensures var s := Through(rules, ctx, requested); !s.stopped ==> NotPositive(s.size)
  {
    hide ApplyRule;
    if rules != [] {
      FoldKeepsNotPositive(rules[..|rules| - 1], ctx, requested);
      var before := Through(rules[..|rules| - 1], ctx, requested);
      if !before.stopped {
        RuleKeepsNotPositive(rules[|rules| - 1], ctx, before.size);
      }
    }
  }

  lemma {:induction false} BadPriceStops(rules: seq<Rule>, ctx: Context, requested: Sizing)
    requires PriceSanity in rules && ctx.market.currentPrice <= 0.0
    ensures Through(rules, ctx, requested).stopped
  {
    var n := |rules| - 1;
    if rules[n] != PriceSanity {
      assert rules == rules[..n] + [rules[n]];
      BadPriceStops(rules[..n], ctx, requested);
    }
  }

  // ---- The theorem ----

  /** The order gives a quantity, a notional, or both in agreement with the price. */
  predicate Consistent(order: Order, market: Market) {
    market.currentPrice > 0.0 ==>
      || (order.requestedQuantity <= 0.0 || order.requestedNotional <= 0.0)
      || order.requestedNotional == order.requestedQuantity * market.currentPrice
  }

  lemma RequestedSizeIsPriced(order: Order, market: Market)
    requires Consistent(order, market) && market.currentPrice > 0.0
    ensures var s := RequestedSize(order, market);
      Priced(s, market.currentPrice) || NotPositive(s)
  {
    var price := market.currentPrice;
    if order.requestedQuantity > 0.0 {
      ProductSign(order.requestedQuantity, price);
    }
    if order.requestedNotional > 0.0 {
      QuotientTimes(order.requestedNotional, price);
    }
  }

  /** What the engine decides, said without its rules' order: refused when the price or the size is not
      positive or some rule blocks, and otherwise approved at the least of the request and all caps. */
  predicate DecidesByMinimum(eval: Evaluation, rules: seq<Rule>, ctx: Context) {
    var requested, price := RequestedSize(ctx.order, ctx.market), ctx.market.currentPrice;
    && (eval.outcome == Refused <==> price <= 0.0 || requested.notional <= 0.0 || SomeBlocks(rules, ctx))
    && (eval.outcome == Refused ==> eval.approved == NO_SIZE)
    && (eval.outcome != Refused ==>
          && IsSmallest(eval.approved.notional, requested.notional, rules, ctx)
          && Priced(eval.approved, price))
  }

  lemma EvaluateIsMinimumOfCaps(rules: seq<Rule>, ctx: Context)
    requires PriceSanity in rules && Consistent(ctx.order, ctx.market)
    ensures DecidesByMinimum(Evaluated(rules, ctx), rules, ctx)
  {
    hide Through, SomeBlocks, IsSmallest, Blocks;
    var requested := RequestedSize(ctx.order, ctx.market);
    if ctx.market.currentPrice <= 0.0 {
      BadPriceStops(rules, ctx, requested);
    } else {
      RequestedSizeIsPriced(ctx.order, ctx.market);
      if Priced(requested, ctx.market.currentPrice) {
        FoldIsMinimum(rules, ctx, requested);
        PricedIsPositive(requested, ctx.market.currentPrice);
        if !Through(rules, ctx, requested).stopped {
          PricedIsPositive(Through(rules, ctx, requested).size, ctx.market.currentPrice);
        }
      } else {
        FoldKeepsNotPositive(rules, ctx, requested);
      }
    }
  }

  lemma PricedIsPositive(s: Sizing, price: real)
    requires Priced(s, price)
    ensures s.quantity > 0.0
  {
    ProductSign(s.quantity, price);
  }

  /** The order of the rules, and any repetition of them, makes no difference to the decision. */
  lemma RuleOrderDoesNotMatter(rules: seq<Rule>, rules': seq<Rule>, ctx: Context)
    requires PriceSanity in rules && Consistent(ctx.order, ctx.market)
    requires forall r :: r in rules <==> r in rules'
    ensures var a, b := Evaluated(rules, ctx), Evaluated(rules', ctx);
      (a.outcome == Refused <==> b.outcome == Refused) && a.approved == b.approved
  {
    hide Evaluated, Blocks, CapOf, Consistent;
    EvaluateIsMinimumOfCaps(rules, ctx);
    EvaluateIsMinimumOfCaps(rules', ctx);
    SameRulesSameBlocks(rules, rules', ctx);
    var a, b := Evaluated(rules, ctx), Evaluated(rules', ctx);
    if a.outcome != Refused {
      var requested := RequestedSize(ctx.order, ctx.market).notional;
      SmallestIsBelow(a.approved.notional, b.approved.notional, requested, rules, rules', ctx);
      SmallestIsBelow(b.approved.notional, a.approved.notional, requested, rules', rules, ctx);
      SamePriced(a.approved, b.approved, ctx.market.currentPrice);
    }
  }

  lemma SameRulesSameBlocks(rules: seq<Rule>, rules': seq<Rule>, ctx: Context)
    requires forall r :: r in rules <==> r in rules'
    ensures SomeBlocks(rules, ctx) <==> SomeBlocks(rules', ctx)
  {
    hide Blocks;
    if SomeBlocks(rules, ctx) {
      var i :| 0 <= i < |rules| && Blocks(rules[i], ctx);
      assert rules[i] in rules';
    }
    if SomeBlocks(rules', ctx) {
      var i :| 0 <= i < |rules'| && Blocks(rules'[i], ctx);
      assert rules'[i] in rules;
    }
  }

  lemma SmallestIsBelow(a: real, b: real, requested: real, rules: seq<Rule>, rules': seq<Rule>, ctx: Context)
    requires IsSmallest(a, requested, rules, ctx) && IsSmallest(b, requested, rules', ctx)
    requires forall r :: r in rules' ==> r in rules
    ensures a <= b
  {
    hide CapOf;
    if b != requested {
      var i :| 0 <= i < |rules'| && CapOf(rules'[i], ctx) == Some(b);
      assert rules'[i] in rules' && rules'[i] in rules;
      var j :| 0 <= j < |rules| && rules[j] == rules'[i];
      assert CapOf(rules[j], ctx) == Some(b);
    }
  }

  lemma SamePriced(a: Sizing, b: Sizing, price: real)
    requires Priced(a, price) && Priced(b, price) && a.notional == b.notional
    ensures a == b
  {
    ScaledLeq(a.quantity, b.quantity, price);
    ScaledLeq(b.quantity, a.quantity, price);
  }

  // ---- Where the quantity and the notional of a request disagree ----

  /** Ten shares at 1.0 that say they are worth 1.0, five shares of liquidity, and cash of 2.0. */
  const DISAGREEING := Context(
    Config(0.0, 0.0, 0.0, 0.0, 0, 0, 0.0, 0.0, 0.0, 0.0, 0.0, 0.0, 1.0, 1.0),
    Account(0.0, 0.0, 2.0, 0.0, 0.0, 0.0, 0.0), [],
    Market(1.0, 5.0, 5.0, 0.0, false, false, false, false, "", false, false, 0),
    Order("X", "long", 10.0, 1.0, 0.0, true))

  /** Then the order of the rules matters: liquidity before cash approves 2.0, cash before liquidity 5.0, which
      is more than the cash. */
  lemma DisagreeingRequestDependsOnOrder()
    ensures !Consistent(DISAGREEING.order, DISAGREEING.market)
    ensures Evaluated([PriceSanity, Participation, CashAvailability], DISAGREEING).approved == Sizing(2.0, 2.0)
    ensures Evaluated([PriceSanity, CashAvailability, Participation], DISAGREEING).approved == Sizing(5.0, 5.0)
    ensures CapOf(CashAvailability, DISAGREEING) == Some(2.0)
  {
    var requested := Sizing(10.0, 1.0);
    ThreeRules(PriceSanity, Participation, CashAvailability, DISAGREEING, requested);
    ThreeRules(PriceSanity, CashAvailability, Participation, DISAGREEING, requested);
  }

  lemma ThreeRules(a: Rule, b: Rule, c: Rule, ctx: Context, requested: Sizing)
    ensures Through([a, b, c], ctx, requested)
         == Next(Next(Next(Stage(false, false, requested, []), a, ctx), b, ctx), c, ctx)
  {
    hide Next;
    assert [a, b, c][..2] == [a, b] && [a, b][..1] == [a] && [a][..0] == [];
    assert Through([], ctx, requested) == Stage(false, false, requested, []);
    assert Through([a], ctx, requested) == Next(Through([], ctx, requested), a, ctx);
    assert Through([a, b], ctx, requested) == Next(Through([a], ctx, requested), b, ctx);
  }
}
