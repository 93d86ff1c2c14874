/** Portfolio allocation: how much of a new position is recommended, and which limits that respects. */
module Allocator {
  import opened Basics
  import opened Text
  import opened Reals

  datatype Config = Config(
    dynamicSizing: bool, baseRiskPerTradePct: real, fallbackPositionPct: real, maxPositionPct: real,
    maxGrossExposurePct: real, maxNetExposurePct: real, cashBufferPct: real, drawdownThrottleStartPct: real,
    drawdownThrottleMinScale: real, volatilityTargetPct: real, volatilityMinScale: real, minTradeNotional: real)

  datatype Account = Account(
    strategyEquity: real, accountEquity: real, availableBalance: real, currentGrossExposure: real,
    currentNetExposure: real, currentSymbolExposure: real, peakStrategyEquity: real)

  datatype Family = Momentum | MeanReversion | Hybrid | Defensive | OtherFamily

  datatype RiskMode = Normal | ReducedRisk | NoTrade

  datatype Selection = Selection(allowTrading: bool, family: Family, riskMode: RiskMode, confidence: real)

  datatype Input = Input(
    action: string, entryPrice: real, stopLoss: real, currentPrice: real, increasesExposure: bool,
    selection: Option<Selection>, account: Account, config: Config, atrPct: real, realizedVol: real)

  datatype Warning =
    | NoEquity | NotIncreasing | NoPrice | NoSelection | SelectorNoTrade | NoBaseNotional
    | CapacityExhausted | BelowOneShareOfCapacity | BelowMinimum | BelowOneShare

  datatype Adjustments = Adjustments(volatility: real, confidence: real, regime: real, drawdown: real, capacity: real)

  datatype Sizing = Sizing(
    notional: real, quantity: real, targetPct: real, riskUsed: real, riskBudget: real, baseNotional: real,
    adjustments: Adjustments, reduced: bool)

  datatype Allocation = Blocked(warning: Warning) | Allowed(sizing: Sizing)

  // ---- Configuration ----

  function Fraction(value: real, most: real, fallback: real): (f: real)
    requires 0.0 < fallback <= most
    ensures 0.0 < f <= most
  {
    if value <= 0.0 || value > most then fallback else value
  }

  function Positive(value: real, fallback: real): (p: real)
    requires fallback > 0.0
    ensures p > 0.0
  {
    if value <= 0.0 then fallback else value
  }

  function NormalizeConfig(c: Config): Config {
    Config(c.dynamicSizing, Positive(c.baseRiskPerTradePct, 0.0075), Positive(c.fallbackPositionPct, 0.10),
           Fraction(c.maxPositionPct, 1.0, 0.20), Fraction(c.maxGrossExposurePct, 2.0, 1.0),
           Fraction(c.maxNetExposurePct, 1.0, 0.65), Fraction(c.cashBufferPct, 1.0, 0.95),
           Positive(c.drawdownThrottleStartPct, 0.03), Fraction(c.drawdownThrottleMinScale, 1.0, 0.35),
           Positive(c.volatilityTargetPct, 0.015), Fraction(c.volatilityMinScale, 1.0, 0.35),
           Positive(c.minTradeNotional, 100.0))
  }

  // ---- Adjustments: each a share of the whole ----

  function Clamp(v: real, low: real, high: real): (r: real)
    requires low <= high
    ensures low <= r <= high
  {
    if v < low then low else if v > high then high else v
  }

  function SizingEquity(a: Account): (equity: real)
    ensures equity >= 0.0
  {
    Max(0.0, if a.accountEquity > 0.0 && (a.strategyEquity <= 0.0 || a.accountEquity < a.strategyEquity)
             then a.accountEquity else a.strategyEquity)
  }

  function VolatilityAdjustment(i: Input, cfg: Config, s: Selection): (share: real)
    requires cfg == NormalizeConfig(i.config)
    ensures 0.0 < share <= 1.0
  {
    var proxy := Max(i.atrPct, i.realizedVol);
    var scale :=
      if proxy > 0.0 && proxy > cfg.volatilityTargetPct
      then Clamp(cfg.volatilityTargetPct / proxy, cfg.volatilityMinScale, 1.0) else 1.0;
    var byFamily := match s.family
      case Defensive => Min(scale, 0.65)
      case Hybrid => Min(scale, 0.90)
      case MeanReversion => Min(scale, 0.85)
      case _ => scale;
    if s.riskMode == ReducedRisk then Min(byFamily, 0.65) else byFamily
  }

  function ConfidenceAdjustment(confidence: real): (share: real)
    ensures 0.35 <= share <= 1.0
  {
    if confidence <= 0.0 then 0.35 else Clamp(0.35 + confidence * 0.65, 0.35, 1.0)
  }

  function RegimeAdjustment(family: Family): (share: real)
    ensures 0.0 <= share <= 1.0
  {
    match family
    case Momentum => 1.0
    case Hybrid => 0.90
    case MeanReversion => 0.85
    case Defensive => 0.65
    case OtherFamily => 0.0
  }

  function DrawdownAdjustment(a: Account, start: real, minScale: real): (share: real)
    requires start > 0.0 && 0.0 < minScale <= 1.0
    ensures 0.0 < share <= 1.0
  {
    if a.peakStrategyEquity <= 0.0 || a.strategyEquity <= 0.0 || a.strategyEquity >= a.peakStrategyEquity then 1.0
    else
      var drawdown := (a.peakStrategyEquity - a.strategyEquity) / a.peakStrategyEquity;
      if drawdown <= start then 1.0
      else Clamp(1.0 - (drawdown - start) / start * 0.55, minScale, 1.0)
  }

  // ---- Capacity ----

  function NetRoom(action: string, limit: real, net: real): real {
    if LowerTrim(action) == "open_short" then limit + net else limit - net
  }

  /** What is left of the position, gross and net limits and of the cash; nothing when a limit is overrun. */
  function Rooms(i: Input): (rooms: seq<real>)
    ensures |rooms| == 4
  {
    var cfg, a, equity := NormalizeConfig(i.config), i.account, SizingEquity(i.account);
    [Max(0.0, equity * cfg.maxPositionPct - a.currentSymbolExposure),
     Max(0.0, equity * cfg.maxGrossExposurePct - a.currentGrossExposure),
     Max(0.0, NetRoom(i.action, equity * cfg.maxNetExposurePct, a.currentNetExposure)),
     Max(0.0, a.availableBalance * cfg.cashBufferPct)]
  }

  /** The least of the positive values, or zero if there is none. */
  function LeastPositive(values: seq<real>): (least: real)
    ensures least >= 0.0
    ensures least == 0.0 <==> forall k | 0 <= k < |values| :: values[k] <= 0.0
    ensures least > 0.0 ==> least in values && forall k | 0 <= k < |values| && values[k] > 0.0 :: least <= values[k]
  {
    if values == [] then 0.0
    else
      var best, value := LeastPositive(values[..|values| - 1]), values[|values| - 1];
      assert values == values[..|values| - 1] + [value];
      if value <= 0.0 then best else if best == 0.0 || value < best then value else best
  }

  method MinPositive(values: seq<real>) returns (best: real)
    ensures best == LeastPositive(values)
  {
    best := 0.0;
    for k := 0 to |values|
      invariant best == LeastPositive(values[..k])
    {
      assert values[..k + 1][..k] == values[..k];
      if values[k] <= 0.0 {
        continue;
      }
      if best == 0.0 || values[k] < best {
        best := values[k];
      }
    }
    assert values[..|values|] == values;
  }

  // ---- Allocation ----

  function RiskBudget(i: Input): real {
    SizingEquity(i.account) * NormalizeConfig(i.config).baseRiskPerTradePct
  }

  predicate StopsBySize(i: Input) {
    NormalizeConfig(i.config).dynamicSizing && i.stopLoss > 0.0 && i.stopLoss != i.entryPrice
  }

  function BaseNotional(i: Input): real {
    if StopsBySize(i) then RiskBudget(i) / Abs(i.entryPrice - i.stopLoss) * i.entryPrice
    else SizingEquity(i.account) * NormalizeConfig(i.config).fallbackPositionPct
  }

  function RiskUsed(i: Input, notional: real): real {
    if notional <= 0.0 || i.entryPrice <= 0.0 || i.stopLoss <= 0.0 || i.stopLoss == i.entryPrice then RiskBudget(i)
    else notional / i.entryPrice * Abs(i.entryPrice - i.stopLoss)
  }

  /** The base notional after the adjustments. */
  function Scaled(base: real, adj: Adjustments): real {
    Part(Part(Part(Part(base, adj.volatility), adj.confidence), adj.regime), adj.drawdown)
  }

  function Part(whole: real, share: real): real {
    whole * share
  }

  function AdjustmentsFor(i: Input, s: Selection, allowed: real, base: real): Adjustments
    requires base > 0.0
  {
    var cfg := NormalizeConfig(i.config);
    Adjustments(VolatilityAdjustment(i, cfg, s), ConfidenceAdjustment(s.confidence), RegimeAdjustment(s.family),
                DrawdownAdjustment(i.account, cfg.drawdownThrottleStartPct, cfg.drawdownThrottleMinScale),
                Clamp(allowed / base, 0.0, 1.0))
  }

  predicate AnyReduction(adj: Adjustments) {
    || adj.volatility < 0.999 || adj.confidence < 0.999 || adj.regime < 0.999 || adj.drawdown < 0.999
    || adj.capacity < 0.999
  }

  function Sized(i: Input, notional: real, base: real, adj: Adjustments): Sizing
    requires i.entryPrice > 0.0 && SizingEquity(i.account) > 0.0
  {
    Sizing(notional, notional / i.entryPrice, (i.account.currentSymbolExposure + notional) / SizingEquity(i.account),
           RiskUsed(i, notional), RiskBudget(i), base, adj, notional < base * 0.999 || AnyReduction(adj))
  }

  function Allocated(i: Input): Allocation {
    var equity := SizingEquity(i.account);
    if equity <= 0.0 then Blocked(NoEquity)
    else if !i.increasesExposure then Blocked(NotIncreasing)
    else if i.entryPrice <= 0.0 || i.currentPrice <= 0.0 then Blocked(NoPrice)
    else if i.selection.None? then Blocked(NoSelection)
    else if !i.selection.value.allowTrading || i.selection.value.riskMode == NoTrade then Blocked(SelectorNoTrade)
    else
      var base := BaseNotional(i);
      if base <= 0.0 then Blocked(NoBaseNotional)
      else
        var allowed := LeastPositive(Rooms(i));
        if allowed <= 0.0 then Blocked(CapacityExhausted)
        else if allowed < i.entryPrice then Blocked(BelowOneShareOfCapacity)
        else
          var adj := AdjustmentsFor(i, i.selection.value, allowed, base);
          var notional := Min(Scaled(base, adj), allowed);
          if notional < NormalizeConfig(i.config).minTradeNotional then Blocked(BelowMinimum)
          else if notional < i.entryPrice then Blocked(BelowOneShare)
          else Allowed(Sized(i, notional, base, adj))
  }

  // ---- What an allocation respects ----

  lemma PartIsNoMore(whole: real, share: real)
    requires whole >= 0.0 && 0.0 <= share <= 1.0
    ensures 0.0 <= Part(whole, share) <= whole
  {
    if whole > 0.0 {
      ScaledLeq(0.0, share, whole);
      ScaledLeq(share, 1.0, whole);
    }
    assert whole * share == share * whole;
  }

  lemma AdjustmentsOnlyShrink(base: real, adj: Adjustments)
    requires base >= 0.0
    requires 0.0 <= adj.volatility <= 1.0 && 0.0 <= adj.confidence <= 1.0
    requires 0.0 <= adj.regime <= 1.0 && 0.0 <= adj.drawdown <= 1.0
    ensures Scaled(base, adj) <= base
  {
    hide Part;
    PartIsNoMore(base, adj.volatility);
    var first := Part(base, adj.volatility);
    PartIsNoMore(first, adj.confidence);
    var second := Part(first, adj.confidence);
    PartIsNoMore(second, adj.regime);
    PartIsNoMore(Part(second, adj.regime), adj.drawdown);
  }

  /** The notional fits every room there is. */
  predicate FitsAll(notional: real, rooms: seq<real>) {
    forall k | 0 <= k < |rooms| :: notional <= rooms[k]
  }

  predicate NoneSpent(rooms: seq<real>) {
    forall k | 0 <= k < |rooms| :: rooms[k] > 0.0
  }

  /** An allocation is at least one share and the least trade, at most the base notional, and within every
      limit that has room left.  A limit with no room left is passed over: the allocation is within all the
      limits exactly when none of them is spent. */
  lemma AllocationFitsUnlessSpent(i: Input)
    requires Allocated(i).Allowed?
    ensures var sizing := Allocated(i).sizing;
      && 0.0 < i.entryPrice <= sizing.notional <= sizing.baseNotional
      && sizing.notional >= NormalizeConfig(i.config).minTradeNotional
      && sizing.quantity >= 1.0
      && (forall k | 0 <= k < 4 && Rooms(i)[k] > 0.0 :: sizing.notional <= Rooms(i)[k])
      && (FitsAll(sizing.notional, Rooms(i)) <==> NoneSpent(Rooms(i)))
  {
    hide Rooms, BaseNotional, Scaled, LeastPositive, AdjustmentsFor, SizingEquity, NormalizeConfig, RiskUsed, AnyReduction;
    var sizing, rooms := Allocated(i).sizing, Rooms(i);
    var least := LeastPositive(rooms);
    var adj := AdjustmentsFor(i, i.selection.value, least, BaseNotional(i));
    AdjustmentsAreShares(i, least, BaseNotional(i));
    AdjustmentsOnlyShrink(BaseNotional(i), adj);
    OneShareAtLeast(sizing.notional, i.entryPrice);
    WithinLeast(sizing.notional, rooms);
  }

  lemma AdjustmentsAreShares(i: Input, allowed: real, base: real)
    requires base > 0.0 && i.selection.Some?
    ensures var adj := AdjustmentsFor(i, i.selection.value, allowed, base);
      && 0.0 <= adj.volatility <= 1.0 && 0.0 <= adj.confidence <= 1.0
      && 0.0 <= adj.regime <= 1.0 && 0.0 <= adj.drawdown <= 1.0
  {
  }

  lemma OneShareAtLeast(notional: real, price: real)
    requires 0.0 < price <= notional
    ensures notional / price >= 1.0
  {
    QuotientTimes(notional, price);
    ScaledLeq(1.0, notional / price, price);
  }

  lemma WithinLeast(notional: real, rooms: seq<real>)
    requires 0.0 < notional <= LeastPositive(rooms)
    ensures forall k | 0 <= k < |rooms| && rooms[k] > 0.0 :: notional <= rooms[k]
    ensures FitsAll(notional, rooms) <==> NoneSpent(rooms)
  {
  }

  /** With sizing by the stop, the risk taken is within the budget; with no usable stop it counts as the budget. */
  lemma RiskStaysInBudget(i: Input)
    requires Allocated(i).Allowed?
    ensures var sizing := Allocated(i).sizing;
      && (StopsBySize(i) ==> sizing.riskUsed <= sizing.riskBudget)
      && (i.stopLoss <= 0.0 || i.stopLoss == i.entryPrice ==> sizing.riskUsed == sizing.riskBudget)
  {
    hide Rooms, Scaled, LeastPositive, AdjustmentsFor, SizingEquity, NormalizeConfig, AnyReduction, RiskBudget, RiskUsed,
         BaseNotional, StopsBySize;
    AllocationFitsUnlessSpent(i);
    RiskOfNotional(i, Allocated(i).sizing.notional);
  }

  lemma RiskOfNotional(i: Input, notional: real)
    requires i.entryPrice > 0.0 && 0.0 < notional <= BaseNotional(i)
    ensures StopsBySize(i) ==> RiskUsed(i, notional) <= RiskBudget(i)
    ensures i.stopLoss <= 0.0 || i.stopLoss == i.entryPrice ==> RiskUsed(i, notional) == RiskBudget(i)
  {
    hide SizingEquity, NormalizeConfig, RiskBudget;
    if StopsBySize(i) {
      SmallerRisksLess(notional, i.entryPrice, Abs(i.entryPrice - i.stopLoss), RiskBudget(i));
    }
  }

  lemma SmallerRisksLess(notional: real, price: real, distance: real, budget: real)
    requires price > 0.0 && distance > 0.0 && notional <= budget / distance * price
    ensures notional / price * distance <= budget
  {
    var shares, most := notional / price, budget / distance;
    QuotientTimes(notional, price);
    QuotientTimes(budget, distance);
    ScaledLeq(shares, most, price);
    ScaledLeq(shares, most, distance);
  }

  /** Equity 1000 with twice that in gross positions, and no selection against the trade. */
  const OVERRUN := Input(
    "", 1.0, 0.0, 1.0, true, Some(Selection(true, Momentum, Normal, 1.0)),
    Account(1000.0, 1000.0, 1000.0, 2000.0, 0.0, 0.0, 1000.0),
    Config(false, 0.01, 0.5, 1.0, 1.0, 1.0, 1.0, 0.03, 0.35, 0.015, 0.35, 100.0), 0.0, 0.0)

  /** A book over its gross limit is still allocated more. */
  lemma SpentLimitIsPassedOver()
    ensures Rooms(OVERRUN)[1] == 0.0 && Allocated(OVERRUN).Allowed? && Allocated(OVERRUN).sizing.notional == 500.0
  {
    hide Rooms, LeastPositive, Scaled, AdjustmentsFor, NormalizeConfig, SizingEquity, BaseNotional;
    OverrunRooms();
    OverrunAdjustments();
    OneRoom(1000.0);
  }

  lemma OneRoom(room: real)
    requires room > 0.0
    ensures LeastPositive([room, 0.0, room, room]) == room
  {
    assert [room, 0.0, room, room][0] == room;
  }

  lemma OverrunRooms()
    ensures Rooms(OVERRUN) == [1000.0, 0.0, 1000.0, 1000.0] && BaseNotional(OVERRUN) == 500.0
    ensures NormalizeConfig(OVERRUN.config).minTradeNotional == 100.0 && SizingEquity(OVERRUN.account) == 1000.0
  {
    hide LowerTrim;
  }

  lemma OverrunAdjustments()
    ensures forall allowed: real :: Scaled(500.0, AdjustmentsFor(OVERRUN, OVERRUN.selection.value, allowed, 500.0)) == 500.0
  {
  }
}
