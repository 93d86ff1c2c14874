/** What an allocation leaves behind, in the account's own terms: the largest notional that suits the trade, and each
    limit that had room left still kept. */
module AllocatorLaws {
  import opened Basics
  import opened Text
  import opened Reals
  import opened Allocator

  // ---- Equities ----

  predicate AnyEquity(a: Account) {
    a.strategyEquity > 0.0 || a.accountEquity > 0.0
  }

  /** At most the part of each of the account's equities that is positive. */
  predicate WithinPart(x: real, part: real, a: Account) {
    (a.strategyEquity > 0.0 ==> x <= part * a.strategyEquity) && (a.accountEquity > 0.0 ==> x <= part * a.accountEquity)
  }

  /** Below the part of each: there is room left. */
  predicate BelowPart(x: real, part: real, a: Account) {
    (a.strategyEquity > 0.0 ==> x < part * a.strategyEquity) && (a.accountEquity > 0.0 ==> x < part * a.accountEquity)
  }

  /** A limit that has room left still holds after the trade. */
  predicate Kept(before: real, notional: real, part: real, a: Account) {
    BelowPart(before, part, a) ==> WithinPart(before + notional, part, a)
  }

  /** The net exposure as it counts for the action: against a short it counts reversed. */
  function NetFor(action: string, net: real): real {
    if Says(action, "open_short") then -net else net
  }

  lemma EachEquity(x: real, part: real, a: Account)
    requires part > 0.0 && AnyEquity(a)
    ensures SizingEquity(a) > 0.0
    ensures WithinPart(x, part, a) <==> x <= SizingEquity(a) * part
    ensures BelowPart(x, part, a) <==> x < SizingEquity(a) * part
  {
    ScaledLeq(a.strategyEquity, a.accountEquity, part);
    ScaledLeq(a.accountEquity, a.strategyEquity, part);
    assert part * a.strategyEquity == a.strategyEquity * part && part * a.accountEquity == a.accountEquity * part;
  }

  lemma NoEquityIs(a: Account)
    ensures SizingEquity(a) > 0.0 <==> AnyEquity(a)
  {
  }

  // ---- Configuration ----

  /** Settings in range are kept, and anything else is replaced by the usual ones. */
  predicate Usual(c: Config, cfg: Config) {
    && cfg.dynamicSizing == c.dynamicSizing
    && cfg.baseRiskPerTradePct == (if c.baseRiskPerTradePct > 0.0 then c.baseRiskPerTradePct else 0.0075)
    && cfg.fallbackPositionPct == (if c.fallbackPositionPct > 0.0 then c.fallbackPositionPct else 0.10)
    && cfg.maxPositionPct == (if 0.0 < c.maxPositionPct <= 1.0 then c.maxPositionPct else 0.20)
    && cfg.maxGrossExposurePct == (if 0.0 < c.maxGrossExposurePct <= 2.0 then c.maxGrossExposurePct else 1.0)
    && cfg.maxNetExposurePct == (if 0.0 < c.maxNetExposurePct <= 1.0 then c.maxNetExposurePct else 0.65)
    && cfg.cashBufferPct == (if 0.0 < c.cashBufferPct <= 1.0 then c.cashBufferPct else 0.95)
    && cfg.minTradeNotional == (if c.minTradeNotional > 0.0 then c.minTradeNotional else 100.0)
    && cfg.volatilityTargetPct == (if c.volatilityTargetPct > 0.0 then c.volatilityTargetPct else 0.015)
    && cfg.volatilityMinScale == (if 0.0 < c.volatilityMinScale <= 1.0 then c.volatilityMinScale else 0.35)
    && cfg.drawdownThrottleStartPct == (if c.drawdownThrottleStartPct > 0.0 then c.drawdownThrottleStartPct else 0.03)
    && cfg.drawdownThrottleMinScale
       == (if 0.0 < c.drawdownThrottleMinScale <= 1.0 then c.drawdownThrottleMinScale else 0.35)
  }

  lemma NormalizedIsUsual(c: Config)
    ensures Usual(c, NormalizeConfig(c))
  {
  }

  // ---- Adjustments ----

  /** The share a scale leaves after a family's or mode's ceiling. */
  predicate LesserOf(x: real, y: real, least: real) {
    least <= x && least <= y && (least == x || least == y)
  }

  function Ceiling(s: Selection): real {
    if s.family == Defensive || s.riskMode == ReducedRisk then 0.65
    else if s.family == MeanReversion then 0.85
    else if s.family == Hybrid then 0.90
    else 1.0
  }

  /** How much is kept for volatility: the target over the larger proxy when that is above the target, at least the
      least scale and at most all, and no more than the family or the reduced mode is allowed. */
  ghost predicate VolatilityShare(i: Input, cfg: Config, s: Selection, share: real) {
    exists scale ::
      && LesserOf(scale, Ceiling(s), share)
      && (i.atrPct <= cfg.volatilityTargetPct && i.realizedVol <= cfg.volatilityTargetPct ==> scale == 1.0)
      && (i.atrPct > cfg.volatilityTargetPct || i.realizedVol > cfg.volatilityTargetPct ==>
            && cfg.volatilityMinScale <= scale <= 1.0
            && (i.atrPct >= i.realizedVol ==> Throttled(scale, cfg.volatilityMinScale, cfg.volatilityTargetPct, i.atrPct))
            && (i.realizedVol >= i.atrPct ==> Throttled(scale, cfg.volatilityMinScale, cfg.volatilityTargetPct, i.realizedVol)))
  }

  /** The scale is the target over the proxy, or the least scale where that is more. */
  predicate Throttled(scale: real, least: real, target: real, proxy: real) {
    scale * proxy >= target && (scale * proxy == target || scale == least)
  }

  lemma VolatilityIsShared(i: Input, s: Selection)
    ensures VolatilityShare(i, NormalizeConfig(i.config), s, VolatilityAdjustment(i, NormalizeConfig(i.config), s))
  {
    hide NormalizeConfig;
    var cfg, proxy := NormalizeConfig(i.config), Max(i.atrPct, i.realizedVol);
    NormalizedInRange(i.config);
    var scale := if proxy > 0.0 && proxy > cfg.volatilityTargetPct
                 then Clamp(cfg.volatilityTargetPct / proxy, cfg.volatilityMinScale, 1.0) else 1.0;
    if proxy > cfg.volatilityTargetPct {
      ThrottledIs(cfg.volatilityTargetPct, proxy, cfg.volatilityMinScale);
    }
    assert LesserOf(scale, Ceiling(s), VolatilityAdjustment(i, cfg, s));
  }

  lemma NormalizedInRange(c: Config)
    ensures var cfg := NormalizeConfig(c);
      && cfg.volatilityTargetPct > 0.0 && 0.0 < cfg.volatilityMinScale <= 1.0 && 0.0 < cfg.maxPositionPct
      && 0.0 < cfg.maxGrossExposurePct && 0.0 < cfg.maxNetExposurePct && 0.0 < cfg.cashBufferPct
      && 0.0 < cfg.baseRiskPerTradePct && 0.0 < cfg.fallbackPositionPct && 0.0 < cfg.minTradeNotional
      && 0.0 < cfg.drawdownThrottleStartPct && 0.0 < cfg.drawdownThrottleMinScale <= 1.0
  {
  }

  lemma ThrottledIs(target: real, proxy: real, least: real)
    requires 0.0 < target < proxy && 0.0 < least <= 1.0
    ensures Throttled(Clamp(target / proxy, least, 1.0), least, target, proxy)
  {
    QuotientTimes(target, proxy);
    QuotientWithin(target, proxy, 0.0, 1.0);
    ScaledLeq(target / proxy, least, proxy);
  }

  /** The least confidence keeps 35%, full confidence everything, and in between each point of it 0.65 points. */
  lemma ConfidenceIsLinear(confidence: real)
    ensures var share := ConfidenceAdjustment(confidence);
      && (confidence <= 0.0 ==> share == 0.35) && (confidence >= 1.0 ==> share == 1.0)
      && (0.0 <= confidence <= 1.0 ==> 20.0 * share == 7.0 + 13.0 * confidence)
  {
  }

  /** Nothing is taken off until the loss from the peak exceeds the start of the throttle; from there 55% of the
      excess, measured in that start, down to the least scale. */
  lemma DrawdownThrottles(a: Account, start: real, least: real)
    requires start > 0.0 && 0.0 < least <= 1.0
    ensures var share, peak := DrawdownAdjustment(a, start, least), a.peakStrategyEquity;
      var excess := peak - a.strategyEquity - start * peak;
      && (peak <= 0.0 || a.strategyEquity <= 0.0 || excess <= 0.0 ==> share == 1.0)
      && (peak > 0.0 && a.strategyEquity > 0.0 && excess > 0.0 ==>
            && share >= least && (1.0 - share) * (start * peak) <= 0.55 * excess
            && (share == least || (1.0 - share) * (start * peak) == 0.55 * excess))
  {
    var peak := a.peakStrategyEquity;
    if peak > 0.0 && a.strategyEquity > 0.0 {
      var loss := (peak - a.strategyEquity) / peak;
      QuotientTimes(peak - a.strategyEquity, peak);
      ScaledLeq(loss, start, peak);
      ProductSign(start, peak);
      if loss > start {
        ExcessIs(loss, start, peak);
        var share := 1.0 - (loss - start) / start * 0.55;
        assert (1.0 - share) * (start * peak) == 0.55 * (loss * peak - start * peak);
        ScaledLeq(1.0 - least, 1.0 - share, start * peak);
      }
    }
  }

  lemma ExcessIs(loss: real, start: real, peak: real)
    requires start > 0.0
    ensures ((loss - start) / start * 0.55) * (start * peak) == 0.55 * (loss * peak - start * peak)
    ensures loss > start ==> (loss - start) / start > 0.0
  {
    var ratio := (loss - start) / start;
    QuotientTimes(loss - start, start);
    assert (ratio * 0.55) * (start * peak) == 0.55 * ((ratio * start) * peak);
    assert (loss - start) * peak == loss * peak - start * peak;
  }

  /** A named family keeps as much for its regime as its ceiling on volatility, any other keeps nothing. */
  lemma FamilyKeepsItsCeiling(s: Selection)
    ensures RegimeAdjustment(s.family) == if s.family == OtherFamily then 0.0 else Ceiling(s.(riskMode := Normal))
  {
  }

  // ---- What suits a trade ----

  /** The part of the wanted notional that the four adjustments leave. */
  function ShareKept(i: Input): real
    requires i.selection.Some?
  {
    var cfg, s := NormalizeConfig(i.config), i.selection.value;
    VolatilityAdjustment(i, cfg, s) * ConfidenceAdjustment(s.confidence) * RegimeAdjustment(s.family)
    * DrawdownAdjustment(i.account, cfg.drawdownThrottleStartPct, cfg.drawdownThrottleMinScale)
  }

  /** A trade that is considered at all. */
  predicate Considered(i: Input) {
    && AnyEquity(i.account) && i.increasesExposure && i.entryPrice > 0.0 && i.currentPrice > 0.0
    && i.selection.Some? && i.selection.value.allowTrading && i.selection.value.riskMode != NoTrade
  }

  predicate RoomLeft(i: Input) {
    var cfg, a := NormalizeConfig(i.config), i.account;
    || BelowPart(a.currentSymbolExposure, cfg.maxPositionPct, a)
    || BelowPart(a.currentGrossExposure, cfg.maxGrossExposurePct, a)
    || BelowPart(NetFor(i.action, a.currentNetExposure), cfg.maxNetExposurePct, a)
    || a.availableBalance > 0.0
  }

  /** Each limit with room left is kept by a trade of the notional: in the symbol, in all, net on the side it adds
      to, and of the cash. */
  predicate KeepsLimits(i: Input, notional: real) {
    var cfg, a := NormalizeConfig(i.config), i.account;
    && Kept(a.currentSymbolExposure, notional, cfg.maxPositionPct, a)
    && Kept(a.currentGrossExposure, notional, cfg.maxGrossExposurePct, a)
    && Kept(NetFor(i.action, a.currentNetExposure), notional, cfg.maxNetExposurePct, a)
    && (a.availableBalance > 0.0 ==> notional <= a.availableBalance * cfg.cashBufferPct)
  }

  /** The notional is no more than what is kept of the wanted one: the risk budget at the stop's distance, or a plain
      part of the equity. */
  predicate NoMoreThanWanted(i: Input, notional: real)
    requires i.selection.Some?
  {
    notional <= BaseNotional(i) * ShareKept(i)
  }

  /** At least one share and the least trade, within the wanted notional and the limits that have room. */
  predicate Suits(i: Input, notional: real)
    requires i.selection.Some?
  {
    && notional >= i.entryPrice && notional >= NormalizeConfig(i.config).minTradeNotional
    && NoMoreThanWanted(i, notional) && RoomLeft(i) && KeepsLimits(i, notional)
  }

  /** What the shares of the wanted notional lose at the stop. */
  function LossAtStop(i: Input): real
    requires i.entryPrice > 0.0
  {
    var shares := BaseNotional(i) / i.entryPrice;
    if i.stopLoss < i.entryPrice then shares * (i.entryPrice - i.stopLoss) else shares * (i.stopLoss - i.entryPrice)
  }

  /** The wanted notional: at the stop it would lose the budgeted part of the smaller positive equity, or without a
      stop to size by it is a plain part of it. */
  lemma WantedIs(i: Input)
    requires AnyEquity(i.account) && i.entryPrice > 0.0
    ensures var cfg, a, base := NormalizeConfig(i.config), i.account, BaseNotional(i);
      && base > 0.0
      && (if cfg.dynamicSizing && i.stopLoss > 0.0 && i.stopLoss != i.entryPrice
          then ExactPart(LossAtStop(i), cfg.baseRiskPerTradePct, a) else ExactPart(base, cfg.fallbackPositionPct, a))
  {
    hide NormalizeConfig, SizingEquity, WithinPart, BelowPart, AnyEquity, LossAtStop;
    NormalizedInRange(i.config);
    var cfg, a, base, equity := NormalizeConfig(i.config), i.account, BaseNotional(i), SizingEquity(i.account);
    NoEquityIs(a);
    ProductSign(equity, cfg.baseRiskPerTradePct);
    ProductSign(equity, cfg.fallbackPositionPct);
    if StopsBySize(i) {
      LossIsBudget(i);
      EachEquity(LossAtStop(i), cfg.baseRiskPerTradePct, a);
    } else {
      EachEquity(base, cfg.fallbackPositionPct, a);
    }
  }

  /** Just the part of the smaller of the account's positive equities. */
  predicate ExactPart(x: real, part: real, a: Account) {
    WithinPart(x, part, a) && !BelowPart(x, part, a)
  }

  lemma LossIsBudget(i: Input)
    requires StopsBySize(i) && i.entryPrice > 0.0 && RiskBudget(i) > 0.0
    ensures BaseNotional(i) > 0.0 && LossAtStop(i) == RiskBudget(i)
  {
    hide NormalizeConfig, SizingEquity, RiskBudget;
    var distance := Abs(i.entryPrice - i.stopLoss);
    var shares := RiskBudget(i) / distance;
    QuotientTimes(RiskBudget(i), distance);
    ProductSign(shares, i.entryPrice);
    QuotientIs(BaseNotional(i), i.entryPrice, shares);
  }

  // ---- The rooms ----

  /** A room is there exactly when the limit is not reached, and then is what a trade may take. */
  predicate IsRoom(room: real, left: bool, kept: bool, notional: real) {
    (room > 0.0 <==> left) && (kept <==> (room > 0.0 ==> notional <= room))
  }

  lemma RoomIs(room: real, before: real, part: real, a: Account, notional: real)
    requires part > 0.0 && AnyEquity(a) && room == Max(0.0, SizingEquity(a) * part - before)
    ensures IsRoom(room, BelowPart(before, part, a), Kept(before, notional, part, a), notional)
  {
    hide SizingEquity, BelowPart, WithinPart;
    EachEquity(before, part, a);
    EachEquity(before + notional, part, a);
  }

  lemma ShortIsSaid(action: string)
    ensures LowerTrim(action) == "open_short" <==> Says(action, "open_short")
  {
    hide LowerTrim, Says;
    assert ToLower("open_short") == "open_short";
    LowerTrimSays(action, "open_short");
  }

  lemma CashRoomIs(room: real, balance: real, buffer: real, notional: real)
    requires buffer > 0.0 && room == Max(0.0, balance * buffer)
    ensures IsRoom(room, balance > 0.0, balance > 0.0 ==> notional <= balance * buffer, notional)
  {
    ProductSign(balance, buffer);
  }

  predicate AllRooms(i: Input, notional: real) {
    var cfg, a, rooms := NormalizeConfig(i.config), i.account, Rooms(i);
    var net := NetFor(i.action, a.currentNetExposure);
    && IsRoom(rooms[0], BelowPart(a.currentSymbolExposure, cfg.maxPositionPct, a),
              Kept(a.currentSymbolExposure, notional, cfg.maxPositionPct, a), notional)
    && IsRoom(rooms[1], BelowPart(a.currentGrossExposure, cfg.maxGrossExposurePct, a),
              Kept(a.currentGrossExposure, notional, cfg.maxGrossExposurePct, a), notional)
    && IsRoom(rooms[2], BelowPart(net, cfg.maxNetExposurePct, a), Kept(net, notional, cfg.maxNetExposurePct, a), notional)
    && IsRoom(rooms[3], a.availableBalance > 0.0,
              a.availableBalance > 0.0 ==> notional <= a.availableBalance * cfg.cashBufferPct, notional)
  }

  lemma RoomsInTurn(i: Input)
    ensures var cfg, a, equity := NormalizeConfig(i.config), i.account, SizingEquity(i.account);
      && Rooms(i)[0] == Max(0.0, equity * cfg.maxPositionPct - a.currentSymbolExposure)
      && Rooms(i)[1] == Max(0.0, equity * cfg.maxGrossExposurePct - a.currentGrossExposure)
      && Rooms(i)[2] == Max(0.0, equity * cfg.maxNetExposurePct - NetFor(i.action, a.currentNetExposure))
      && Rooms(i)[3] == Max(0.0, a.availableBalance * cfg.cashBufferPct)
  {
    hide SizingEquity, NormalizeConfig, LowerTrim, Says;
    ShortIsSaid(i.action);
  }

  lemma EachRoomIs(i: Input, notional: real)
    requires AnyEquity(i.account)
    ensures AllRooms(i, notional)
  {
    RoomsInTurn(i);
    hide SizingEquity, NormalizeConfig, BelowPart, Kept, AnyEquity, NetFor, Rooms, IsRoom;
    NormalizedInRange(i.config);
    var cfg, a, rooms := NormalizeConfig(i.config), i.account, Rooms(i);
    RoomIs(rooms[0], a.currentSymbolExposure, cfg.maxPositionPct, a, notional);
    RoomIs(rooms[1], a.currentGrossExposure, cfg.maxGrossExposurePct, a, notional);
    RoomIs(rooms[2], NetFor(i.action, a.currentNetExposure), cfg.maxNetExposurePct, a, notional);
    CashRoomIs(rooms[3], a.availableBalance, cfg.cashBufferPct, notional);
  }

  lemma RoomsAre(i: Input, notional: real)
    requires AnyEquity(i.account)
    ensures KeepsLimits(i, notional) <==> forall k | 0 <= k < 4 && Rooms(i)[k] > 0.0 :: notional <= Rooms(i)[k]
    ensures RoomLeft(i) <==> exists k :: 0 <= k < 4 && Rooms(i)[k] > 0.0
  {
    EachRoomIs(i, notional);
    assert |Rooms(i)| == 4;
    hide Rooms, NormalizeConfig, BelowPart, Kept, NetFor;
    FourRooms(Rooms(i), notional);
  }

  lemma FourRooms(rooms: seq<real>, notional: real)
    requires |rooms| == 4
    ensures (forall k | 0 <= k < 4 && rooms[k] > 0.0 :: notional <= rooms[k])
      <==> (rooms[0] > 0.0 ==> notional <= rooms[0]) && (rooms[1] > 0.0 ==> notional <= rooms[1])
           && (rooms[2] > 0.0 ==> notional <= rooms[2]) && (rooms[3] > 0.0 ==> notional <= rooms[3])
    ensures (exists k :: 0 <= k < 4 && rooms[k] > 0.0)
      <==> rooms[0] > 0.0 || rooms[1] > 0.0 || rooms[2] > 0.0 || rooms[3] > 0.0
  {
  }

  /** With room left, the limits are kept exactly up to the least room there is. */
  lemma LeastRoomIs(i: Input, notional: real)
    requires AnyEquity(i.account)
    ensures RoomLeft(i) <==> LeastPositive(Rooms(i)) > 0.0
    ensures RoomLeft(i) ==> (KeepsLimits(i, notional) <==> notional <= LeastPositive(Rooms(i)))
  {
    hide Rooms, RoomLeft, KeepsLimits, AnyEquity;
    RoomsAre(i, notional);
    var least := LeastPositive(Rooms(i));
    if least > 0.0 {
      var k :| 0 <= k < 4 && Rooms(i)[k] == least;
    }
  }

  lemma ScaledIs(i: Input, allowed: real, base: real)
    requires base > 0.0 && i.selection.Some?
    ensures Scaled(base, AdjustmentsFor(i, i.selection.value, allowed, base)) == base * ShareKept(i)
  {
    hide NormalizeConfig, VolatilityAdjustment, ConfidenceAdjustment, RegimeAdjustment, DrawdownAdjustment, Clamp;
    NormalizedInRange(i.config);
    var adj := AdjustmentsFor(i, i.selection.value, allowed, base);
    FourParts(base, adj.volatility, adj.confidence, adj.regime, adj.drawdown);
  }

  lemma FourParts(base: real, a: real, b: real, c: real, d: real)
    ensures base * a * b * c * d == base * (a * b * c * d)
  {
    var ab := a * b;
    assert base * a * b == base * ab;
    var abc := ab * c;
    assert base * ab * c == base * abc;
  }

  /** A trade is allocated exactly when it is considered and some notional suits it, and then the largest that does;
      the quantity is that notional at the entry price. */
  lemma AllocatesTheLargest(i: Input)
    ensures Allocated(i).Allowed? <==> Considered(i) && exists notional :: Suits(i, notional)
    ensures Allocated(i).Allowed? ==>
              var sizing := Allocated(i).sizing;
              && Suits(i, sizing.notional) && sizing.quantity * i.entryPrice == sizing.notional
              && forall notional | Suits(i, notional) :: notional <= sizing.notional
  {
    hide SizingEquity, Rooms, RoomLeft, KeepsLimits, AnyEquity, AdjustmentsFor, LeastPositive, BaseNotional, Scaled,
         NormalizeConfig, ShareKept, RiskUsed, RiskBudget, AnyReduction, Suits;
    NoEquityIs(i.account);
    if Considered(i) {
      WantedIs(i);
      var most := MostThatSuits(i);
      forall notional ensures Suits(i, notional) <==> SuitsUpTo(i, notional, most) {
        SuitsIs(i, notional);
      }
      AllocatedIs(i);
      if Allocated(i).Allowed? {
        QuotientTimes(Allocated(i).sizing.notional, i.entryPrice);
        assert SuitsUpTo(i, most.value, most);
      }
    }
  }

  /** The lesser of what is wanted and the least room, if there is room. */
  function MostThatSuits(i: Input): Option<real>
    requires i.selection.Some?
  {
    var least := LeastPositive(Rooms(i));
    if least <= 0.0 then None else Some(Min(BaseNotional(i) * ShareKept(i), least))
  }

  predicate SuitsUpTo(i: Input, notional: real, most: Option<real>) {
    most.Some? && notional >= i.entryPrice && notional >= NormalizeConfig(i.config).minTradeNotional && notional <= most.value
  }

  lemma SuitsIs(i: Input, notional: real)
    requires Considered(i)
    ensures Suits(i, notional) <==> SuitsUpTo(i, notional, MostThatSuits(i))
  {
    hide Rooms, RoomLeft, KeepsLimits, AnyEquity, LeastPositive, BaseNotional, NormalizeConfig, ShareKept;
    LeastRoomIs(i, notional);
  }

  lemma AllocatedIs(i: Input)
    requires Considered(i) && BaseNotional(i) > 0.0
    ensures var most := MostThatSuits(i);
      && (Allocated(i).Allowed? <==> most.Some? && SuitsUpTo(i, most.value, most))
      && (Allocated(i).Allowed? ==> Allocated(i).sizing.notional == most.value
                                    && Allocated(i).sizing.quantity == most.value / i.entryPrice)
  {
    hide Rooms, LeastPositive, BaseNotional, NormalizeConfig, ShareKept, AdjustmentsFor, Scaled, SizingEquity, RiskUsed,
         RiskBudget, AnyReduction;
    NoEquityIs(i.account);
    var least := LeastPositive(Rooms(i));
    ScaledIs(i, least, BaseNotional(i));
  }

  /** A trade of a family without a name is never allocated. */
  lemma UnnamedFamilyGetsNothing(i: Input)
    requires i.selection.Some? && i.selection.value.family == OtherFamily
    ensures Allocated(i).Blocked?
  {
    hide SizingEquity, Rooms, RoomLeft, KeepsLimits, AdjustmentsFor, LeastPositive, BaseNotional, Scaled, NormalizeConfig,
         VolatilityAdjustment, ConfidenceAdjustment, DrawdownAdjustment, Allocated;
    NormalizedInRange(i.config);
    AllocatesTheLargest(i);
    FamilyKeepsItsCeiling(i.selection.value);
    assert ShareKept(i) == 0.0;
    assert BaseNotional(i) * 0.0 == 0.0;
  }

  /** The budget is just its part of the smaller positive equity; the risk used is what the shares lose at the stop. */
  lemma RiskIs(i: Input, notional: real)
    requires AnyEquity(i.account) && i.entryPrice > 0.0 && notional > 0.0
    ensures ExactPart(RiskBudget(i), NormalizeConfig(i.config).baseRiskPerTradePct, i.account)
    ensures RiskUsed(i, notional) == (if i.stopLoss <= 0.0 then RiskBudget(i)
                                      else if i.stopLoss < i.entryPrice then notional / i.entryPrice * (i.entryPrice - i.stopLoss)
                                      else if i.stopLoss > i.entryPrice then notional / i.entryPrice * (i.stopLoss - i.entryPrice)
                                      else RiskBudget(i))
  {
    hide SizingEquity, NormalizeConfig, WithinPart, BelowPart, AnyEquity;
    NormalizedInRange(i.config);
    NoEquityIs(i.account);
    EachEquity(RiskBudget(i), NormalizeConfig(i.config).baseRiskPerTradePct, i.account);
  }

  predicate TakesOff(part: real) {
    1000.0 * part < 999.0
  }

  lemma PartTakenOff(part: real, kept: real, whole: real)
    requires whole > 0.0 && part * whole == kept
    ensures TakesOff(part) <==> kept < whole * 0.999
  {
    var off := 0.999 - part;
    ProductSign(off, whole);
    assert off * whole == 0.999 * whole - part * whole;
  }

  /** What an allocation reports of itself: the part of the smaller positive equity the position comes to, and
      whether any of the adjustments, or all of them together, took off more than a thousandth. */
  lemma SizingReports(i: Input)
    requires Allocated(i).Allowed?
    ensures var sizing, adj := Allocated(i).sizing, Allocated(i).sizing.adjustments;
      && sizing.baseNotional == BaseNotional(i)
      && (sizing.targetPct > 0.0 ==>
            ExactPart(i.account.currentSymbolExposure + sizing.notional, sizing.targetPct, i.account))
      && sizing.baseNotional > 0.0 && i.entryPrice > 0.0
      && ExactPart(sizing.riskBudget, NormalizeConfig(i.config).baseRiskPerTradePct, i.account)
      && sizing.riskUsed == (if i.stopLoss <= 0.0 then sizing.riskBudget
                             else if i.stopLoss < i.entryPrice then sizing.quantity * (i.entryPrice - i.stopLoss)
                             else if i.stopLoss > i.entryPrice then sizing.quantity * (i.stopLoss - i.entryPrice)
                             else sizing.riskBudget)
      && (sizing.reduced <==>
            || TakesOff(adj.volatility) || TakesOff(adj.confidence) || TakesOff(adj.regime) || TakesOff(adj.drawdown)
            || TakesOff(adj.capacity) || TakesOff(sizing.notional / sizing.baseNotional))
  {
    hide SizingEquity, Rooms, AdjustmentsFor, LeastPositive, BaseNotional, Scaled, NormalizeConfig, RiskUsed, RiskBudget,
         WithinPart, BelowPart, AnyEquity;
    var a, sizing := i.account, Allocated(i).sizing;
    NoEquityIs(a);
    RiskIs(i, sizing.notional);
    QuotientTimes(a.currentSymbolExposure + sizing.notional, SizingEquity(a));
    if sizing.targetPct > 0.0 {
      EachEquity(a.currentSymbolExposure + sizing.notional, sizing.targetPct, a);
    }
    QuotientTimes(sizing.notional, sizing.baseNotional);
    PartTakenOff(sizing.notional / sizing.baseNotional, sizing.notional, sizing.baseNotional);
  }

  lemma CapacityIs(room: real, base: real)
    requires base > 0.0 && room > 0.0
    ensures var capacity := Clamp(room / base, 0.0, 1.0);
      capacity <= 1.0 && capacity * base == if room < base then room else base
  {
    var part := room / base;
    QuotientTimes(room, base);
    ScaledLeq(part, 1.0, base);
    if room < base {
      assert part * base == room && part <= 1.0;
    } else {
      assert Clamp(part, 0.0, 1.0) * base == base by { FullCapacity(part, base, room); }
    }
  }

  lemma FullCapacity(part: real, base: real, room: real)
    requires base > 0.0 && room >= base && part * base == room
    ensures Clamp(part, 0.0, 1.0) == 1.0
  {
    ScaledLeq(1.0, part, base);
  }

  /** The adjustments reported are those that were made, and the capacity is the part of the base notional up to which
      the limits are kept. */
  lemma AdjustmentsAreReported(i: Input)
    requires Allocated(i).Allowed?
    ensures i.selection.Some?
    ensures var s, sizing, cfg := i.selection.value, Allocated(i).sizing, NormalizeConfig(i.config);
      var adj := sizing.adjustments;
      && VolatilityShare(i, cfg, s, adj.volatility)
      && adj.confidence == ConfidenceAdjustment(s.confidence) && adj.regime == RegimeAdjustment(s.family)
      && adj.drawdown == DrawdownAdjustment(i.account, cfg.drawdownThrottleStartPct, cfg.drawdownThrottleMinScale)
      && adj.capacity <= 1.0
      && forall notional | notional <= sizing.baseNotional ::
           KeepsLimits(i, notional) <==> notional <= adj.capacity * sizing.baseNotional
  {
    var base, least := BaseNotional(i), LeastPositive(Rooms(i));
    hide SizingEquity, Rooms, LeastPositive, BaseNotional, Scaled, NormalizeConfig, RiskUsed, RiskBudget, AnyEquity,
         VolatilityShare, VolatilityAdjustment, ConfidenceAdjustment, RegimeAdjustment, DrawdownAdjustment, KeepsLimits,
         AnyReduction, Clamp, RoomLeft;
    NoEquityIs(i.account);
    VolatilityIsShared(i, i.selection.value);
    CapacityIs(least, base);
    forall notional | notional <= base ensures KeepsLimits(i, notional) <==> notional <= Clamp(least / base, 0.0, 1.0) * base {
      LeastRoomIs(i, notional);
    }
  }

  /** Why nothing is allocated, one cause for each warning; a wanted notional that is not positive is never one. */
  predicate SaysWhy(i: Input, warning: Warning) {
    match warning
    case NoEquity => !AnyEquity(i.account)
    case NotIncreasing => !i.increasesExposure
    case NoPrice => i.entryPrice <= 0.0 || i.currentPrice <= 0.0
    case NoSelection => i.selection.None?
    case SelectorNoTrade =>
      i.selection.Some? && (!i.selection.value.allowTrading || i.selection.value.riskMode == NoTrade)
    case NoBaseNotional => false
    case CapacityExhausted => !RoomLeft(i)
    case BelowOneShareOfCapacity => RoomLeft(i) && !KeepsLimits(i, i.entryPrice)
    case BelowMinimum =>
      var least := NormalizeConfig(i.config).minTradeNotional;
      i.selection.Some? && KeepsLimits(i, i.entryPrice) && (!NoMoreThanWanted(i, least) || !KeepsLimits(i, least))
    case BelowOneShare => i.selection.Some? && KeepsLimits(i, i.entryPrice) && !NoMoreThanWanted(i, i.entryPrice)
  }

  lemma WarningsSayWhy(i: Input)
    requires Allocated(i).Blocked?
    ensures SaysWhy(i, Allocated(i).warning)
  {
    hide SizingEquity, Rooms, RoomLeft, KeepsLimits, AnyEquity, AdjustmentsFor, LeastPositive, BaseNotional, Scaled,
         NormalizeConfig, ShareKept, RiskUsed, RiskBudget, AnyReduction;
    NoEquityIs(i.account);
    if Considered(i) {
      WantedIs(i);
      var least := LeastPositive(Rooms(i));
      LeastRoomIs(i, i.entryPrice);
      LeastRoomIs(i, NormalizeConfig(i.config).minTradeNotional);
      if least > 0.0 {
        ScaledIs(i, least, BaseNotional(i));
      }
    }
  }
}
