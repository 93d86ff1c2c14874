/** Requests whose quantity and notional disagree with the price: exactly when the engine still decides them by
    the least of the request and every cap. */
module RiskMismatch {
  import opened Basics
  import opened Text
  import opened Reals
  import opened RiskRules
  import opened RiskEngine
  import opened RiskLaws

  // ---- Every rule but one goes by the notional alone ----

  /** The size with this notional that agrees with the price. */
  function AtPrice(notional: real, price: real): (s: Sizing)
    requires price > 0.0
    ensures s.notional == notional
  {
    Sizing(notional / price, notional)
  }

  lemma AtPriceIsPriced(notional: real, price: real)
    requires price > 0.0 && notional > 0.0
    ensures Priced(AtPrice(notional, price), price)
  {
    QuotientTimes(notional, price);
  }

  /** The rule would shrink an order of this notional, or at least work its quantity out anew. */
  predicate Reprices(rule: Rule, ctx: Context, notional: real) {
    CapOf(rule, ctx).Some?
    && match rule
       case NetExposure =>
         Abs(Total(Net, ctx.positions) + SideSign(ctx.order.side) as real * notional)
           > DecisionEquity(ctx.account) * ctx.config.maxNetExposurePct
       case _ => CapOf(rule, ctx).value < notional
  }

  /** A rule other than participation passes an order unchanged or replaces it, and its quantity has no say. */
  lemma RuleGoesByNotional(rule: Rule, ctx: Context, current: Sizing)
    requires rule != Participation && ctx.market.currentPrice > 0.0
    ensures var r, r' := ApplyRule(rule, ctx, current), ApplyRule(rule, ctx, AtPrice(current.notional, ctx.market.currentPrice));
      r == if r'.verdict == Pass then Passed(current) else r'
  {
    hide Total, DecisionEquity, HasSameSide, CountOpen, CurrentDrawdown, CurrentGross, LeverageEquity, LowerTrim, TrimSpace,
         IsShort, AtPrice, CappedAt, NetExposureRule, SectorExposureRule;
    var priced := AtPrice(current.notional, ctx.market.currentPrice);
    AtPriceNotional(current.notional, ctx.market.currentPrice);
    assert forall cap: real :: SameButPassed(CappedAt(current, cap, ctx.market.currentPrice), current,
                                             CappedAt(priced, cap, ctx.market.currentPrice)) by {
      forall cap: real ensures SameButPassed(CappedAt(current, cap, ctx.market.currentPrice), current,
                                             CappedAt(priced, cap, ctx.market.currentPrice)) {
        CappedGoesByNotional(current, priced, cap, ctx.market.currentPrice);
      }
    }
    match rule
    case NetExposure => NetGoesByNotional(ctx, current, priced);
    case SectorExposure => SectorGoesByNotional(ctx, current, priced);
    case _ =>
  }

  /** The same ruling, except that what passes passes as it is. */
  predicate SameButPassed(r: Ruling, current: Sizing, r': Ruling) {
    r == if r'.verdict == Pass then Passed(current) else r'
  }

  lemma CappedGoesByNotional(current: Sizing, priced: Sizing, cap: real, price: real)
    requires priced.notional == current.notional
    ensures SameButPassed(CappedAt(current, cap, price), current, CappedAt(priced, cap, price))
  {
  }

  lemma NetGoesByNotional(ctx: Context, current: Sizing, priced: Sizing)
    requires priced.notional == current.notional
    ensures SameButPassed(NetExposureRule(ctx, current), current, NetExposureRule(ctx, priced))
  {
    hide Total, DecisionEquity, IsShort, LowerTrim;
  }

  lemma SectorGoesByNotional(ctx: Context, current: Sizing, priced: Sizing)
    requires priced.notional == current.notional
    ensures SameButPassed(SectorExposureRule(ctx, current), current, SectorExposureRule(ctx, priced))
  {
    hide Total, DecisionEquity, LowerTrim, TrimSpace;
  }

  lemma CappedAtReprices(current: Sizing, cap: real, price: real)
    requires cap > 0.0 && price > 0.0 && current.notional > 0.0
    ensures CappedAt(current, cap, price).verdict == Reduce <==> cap < current.notional
  {
  }

  /** Exactly when a rule that does not turn the order away replaces it. */
  lemma ReducesIff(rule: Rule, ctx: Context, current: Sizing)
    requires rule != Participation && Priced(current, ctx.market.currentPrice) && !Blocks(rule, ctx)
    ensures ApplyRule(rule, ctx, current).verdict == Reduce <==> Reprices(rule, ctx, current.notional)
  {
    hide HasSameSide, CountOpen, CurrentDrawdown, CurrentGross, DecisionEquity, Total, LowerTrim, TrimSpace, IsShort,
         CappedAt, ShrunkTo;
    match rule
    case NetExposure => NetReducesIff(ctx, current);
    case SectorExposure => SectorReducesIff(ctx, current);
    case PositionLimit => PositionReducesIff(ctx, current);
    case GrossLeverage =>
      if CapOf(rule, ctx).Some? {
        CappedAtReprices(current, CapOf(rule, ctx).value, ctx.market.currentPrice);
      }
    case PortfolioExposure =>
      if CapOf(rule, ctx).Some? {
        CappedAtReprices(current, CapOf(rule, ctx).value, ctx.market.currentPrice);
      }
    case CashAvailability =>
      if CapOf(rule, ctx).Some? {
        CappedAtReprices(current, CapOf(rule, ctx).value, ctx.market.currentPrice);
      }
    case PerTradeRisk =>
      if CapOf(rule, ctx).Some? {
        CappedAtReprices(current, CapOf(rule, ctx).value, ctx.market.currentPrice);
      }
    case _ =>
  }

  lemma PositionReducesIff(ctx: Context, current: Sizing)
    requires Priced(current, ctx.market.currentPrice) && !Blocks(PositionLimit, ctx)
    ensures PositionLimitRule(ctx, current).verdict == Reduce <==> Reprices(PositionLimit, ctx, current.notional)
  {
    hide DecisionEquity, Total, CappedAt;
    if CapOf(PositionLimit, ctx).Some? {
      ProductSign(DecisionEquity(ctx.account), ctx.config.maxPositionPct);
      CappedAtReprices(current, CapOf(PositionLimit, ctx).value, ctx.market.currentPrice);
    }
  }

  lemma NetReducesIff(ctx: Context, current: Sizing)
    requires Priced(current, ctx.market.currentPrice) && !Blocks(NetExposure, ctx)
    ensures NetExposureRule(ctx, current).verdict == Reduce <==> Reprices(NetExposure, ctx, current.notional)
  {
    hide DecisionEquity, Total, IsShort, LowerTrim;
  }

  lemma SectorReducesIff(ctx: Context, current: Sizing)
    requires Priced(current, ctx.market.currentPrice) && !Blocks(SectorExposure, ctx)
    ensures SectorExposureRule(ctx, current).verdict == Reduce <==> Reprices(SectorExposure, ctx, current.notional)
  {
    hide DecisionEquity, LowerTrim, TrimSpace, CappedAt;
    var pct, equity := ctx.config.maxSectorExposurePct, DecisionEquity(ctx.account);
    if ctx.order.isEntry && pct > 0.0 && equity > 0.0 && ctx.market.sectorKnown {
      if TrimSpace(ctx.market.sector) == "" {
        BlankSectorPasses(ctx, current);
      } else {
        CappedAtReprices(current, CapOf(SectorExposure, ctx).value, ctx.market.currentPrice);
      }
    }
  }

  lemma BlankSectorPasses(ctx: Context, current: Sizing)
    requires current.notional > 0.0 && TrimSpace(ctx.market.sector) == ""
    ensures SectorExposureRule(ctx, current).verdict == Pass
  {
    hide DecisionEquity, LowerTrim, TrimSpace;
    var pct, equity := ctx.config.maxSectorExposurePct, DecisionEquity(ctx.account);
    if ctx.order.isEntry && pct > 0.0 && equity > 0.0 && ctx.market.sectorKnown {
      BlankLower();
      BlankSectorIsEmpty(ctx.positions);
      ProductSign(equity, pct);
      assert equity * pct > 0.0;
      var sector := TrimSpace(ctx.market.sector);
      assert LowerTrim(sector) == "";
      var limit := equity * pct;
      assert current.notional <= limit - (Total(InSector(LowerTrim(sector)), ctx.positions) + 0.0 - current.notional);
    }
  }

  /** What such a rule does to an order of any quantity. */
  predicate Acts(r: Ruling, rule: Rule, ctx: Context, current: Sizing) {
    var price, cap := ctx.market.currentPrice, CapOf(rule, ctx);
    && (r.verdict == Reject <==> Blocks(rule, ctx))
    && (!Blocks(rule, ctx) ==>
          && r.next.notional == (if cap.Some? then Min(current.notional, cap.value) else current.notional)
          && r.next.notional > 0.0
          && (if Reprices(rule, ctx, current.notional) then Priced(r.next, price) else r.next == current))
  }

  lemma OtherRuleActs(rule: Rule, ctx: Context, current: Sizing)
    requires rule != Participation && ctx.market.currentPrice > 0.0 && current.notional > 0.0
    ensures Acts(ApplyRule(rule, ctx, current), rule, ctx, current)
  {
    hide ApplyRule, Blocks, CapOf, Reprices, AtPrice;
    var priced := AtPrice(current.notional, ctx.market.currentPrice);
    AtPriceIsPriced(current.notional, ctx.market.currentPrice);
    AtPriceNotional(current.notional, ctx.market.currentPrice);
    RuleGoesByNotional(rule, ctx, current);
    RuleIsGateAndCap(rule, ctx, priced);
    if !Blocks(rule, ctx) {
      ReducesIff(rule, ctx, priced);
    }
    PassLeaves(rule, ctx, priced);
  }

  lemma AtPriceNotional(notional: real, price: real)
    requires price > 0.0
    ensures AtPrice(notional, price).notional == notional
  {
  }

  lemma PassLeaves(rule: Rule, ctx: Context, current: Sizing)
    ensures ApplyRule(rule, ctx, current).verdict == Pass ==> ApplyRule(rule, ctx, current).next == current
  {
    hide Total, DecisionEquity, HasSameSide, CountOpen, CurrentDrawdown, LowerTrim, TrimSpace, IsShort;
  }

  // ---- The engine's own rules ----

  /** Participation goes by the quantity, and cuts an order that asks for too much of the volume. */
  predicate Cuts(ctx: Context, quantity: real) {
    ctx.config.maxParticipationRate > 0.0 && quantity > LiquidityVolume(ctx.market) * ctx.config.maxParticipationRate
  }

  function Participated(ctx: Context, requested: Sizing): Sizing {
    if Cuts(ctx, requested.quantity) then
      var most := LiquidityVolume(ctx.market) * ctx.config.maxParticipationRate;
      Sizing(most, most * ctx.market.currentPrice)
    else requested
  }

  lemma ParticipationActs(ctx: Context, current: Sizing)
    requires ctx.market.currentPrice > 0.0
    ensures var r := ApplyRule(Participation, ctx, current);
      && (r.verdict == Reject <==> Blocks(Participation, ctx))
      && (r.verdict != Reject ==> r.next == Participated(ctx, current))
    ensures Cuts(ctx, current.quantity) && !Blocks(Participation, ctx) ==>
      && Priced(Participated(ctx, current), ctx.market.currentPrice)
      && CapOf(Participation, ctx) == Some(Participated(ctx, current).notional)
  {
    var rate, volume, price := ctx.config.maxParticipationRate, LiquidityVolume(ctx.market), ctx.market.currentPrice;
    if rate > 0.0 {
      ProductSign(volume, rate);
      ProductSign(volume * rate, price);
    }
  }

  predicate SomeReprices(rules: seq<Rule>, ctx: Context, notional: real) {
    exists i :: 0 <= i < |rules| && Reprices(rules[i], ctx, notional)
  }

  /** What is left of an order after participation and the rules behind it. */
  predicate Behind(s: Stage, rules: seq<Rule>, ctx: Context, start: Sizing) {
    && (s.stopped <==> SomeBlocks(rules, ctx))
    && (!s.stopped ==>
          && s.size.notional > 0.0 && IsSmallest(s.size.notional, start.notional, rules, ctx)
          && (if SomeReprices(rules, ctx, start.notional) then Priced(s.size, ctx.market.currentPrice) else s.size == start))
  }

  lemma BehindOneMore(rules: seq<Rule>, ctx: Context, start: Sizing, before: Stage)
    requires rules != [] && rules[|rules| - 1] != Participation && ctx.market.currentPrice > 0.0
    requires Behind(before, rules[..|rules| - 1], ctx, start)
    ensures Behind(Next(before, rules[|rules| - 1], ctx), rules, ctx, start)
  {
    hide ApplyRule, Blocks, CapOf, Reprices;
    var n := |rules| - 1;
    var front := rules[..n];
    assert forall i | 0 <= i < n :: front[i] == rules[i];
    if before.stopped {
      var i :| 0 <= i < n && Blocks(front[i], ctx);
      assert Blocks(rules[i], ctx);
    } else {
      OtherRuleActs(rules[n], ctx, before.size);
      BlocksWithOneMore(rules, ctx);
      if !Blocks(rules[n], ctx) {
        SmallestOneMore(rules, ctx, start.notional, before.size.notional);
        RepricesWithOneMore(rules, ctx, start.notional);
        if !SomeReprices(front, ctx, start.notional) {
          assert before.size == start;
        } else {
          StillPriced(rules[n], ctx, before.size);
        }
      }
    }
  }

  lemma BlocksWithOneMore(rules: seq<Rule>, ctx: Context)
    requires rules != []
    ensures var n := |rules| - 1;
      SomeBlocks(rules, ctx) <==> SomeBlocks(rules[..n], ctx) || Blocks(rules[n], ctx)
  {
    hide Blocks;
    var n := |rules| - 1;
    if SomeBlocks(rules[..n], ctx) {
      var i :| 0 <= i < n && Blocks(rules[..n][i], ctx);
      assert Blocks(rules[i], ctx);
    }
    if SomeBlocks(rules, ctx) && !Blocks(rules[n], ctx) {
      var i :| 0 <= i < |rules| && Blocks(rules[i], ctx);
      assert Blocks(rules[..n][i], ctx);
    }
  }

  lemma RepricesWithOneMore(rules: seq<Rule>, ctx: Context, notional: real)
    requires rules != []
    ensures var n := |rules| - 1;
      SomeReprices(rules, ctx, notional) <==> SomeReprices(rules[..n], ctx, notional) || Reprices(rules[n], ctx, notional)
  {
    hide Reprices;
    var n := |rules| - 1;
    if SomeReprices(rules[..n], ctx, notional) {
      var i :| 0 <= i < n && Reprices(rules[..n][i], ctx, notional);
      assert Reprices(rules[i], ctx, notional);
    }
    if SomeReprices(rules, ctx, notional) && !Reprices(rules[n], ctx, notional) {
      var i :| 0 <= i < |rules| && Reprices(rules[i], ctx, notional);
      assert Reprices(rules[..n][i], ctx, notional);
    }
  }

  lemma SmallestOneMore(rules: seq<Rule>, ctx: Context, requested: real, before: real)
    requires rules != [] && IsSmallest(before, requested, rules[..|rules| - 1], ctx)
    ensures var cap := CapOf(rules[|rules| - 1], ctx);
      IsSmallest(if cap.Some? then Min(before, cap.value) else before, requested, rules, ctx)
  {
    hide CapOf;
    var n := |rules| - 1;
    var cap := CapOf(rules[n], ctx);
    var after := if cap.Some? then Min(before, cap.value) else before;
    assert forall i | 0 <= i < n :: rules[..n][i] == rules[i];
    if after != requested && after == before {
      var i :| 0 <= i < n && CapOf(rules[..n][i], ctx) == Some(before);
      assert CapOf(rules[i], ctx) == Some(after);
    }
  }

  /** An order in agreement with the price stays so. */
  lemma StillPriced(rule: Rule, ctx: Context, current: Sizing)
    requires Priced(current, ctx.market.currentPrice)
    ensures !Blocks(rule, ctx) ==> Priced(ApplyRule(rule, ctx, current).next, ctx.market.currentPrice)
  {
    hide ApplyRule, Blocks, CapOf;
    RuleIsGateAndCap(rule, ctx, current);
  }

  const FRONT: seq<Rule> := [SymbolTradable, TradingHalted, PriceSanity, AverageVolume]

  const BACK: seq<Rule> := [
    DailyLoss, DrawdownStop, ConcurrentPositions, PositionLimit, PortfolioExposure, NetExposure, SectorExposure,
    GrossLeverage, CashAvailability, PerTradeRisk, CorrelationRisk]

  lemma RulesInThree()
    ensures DEFAULT_RULES == FRONT + [Participation] + BACK && Participation !in BACK
  {
  }

  /** Passing on from a stage that has been reached. */
  function On(s: Stage, rules: seq<Rule>, ctx: Context): Stage {
    if rules == [] then s else Next(On(s, rules[..|rules| - 1], ctx), rules[|rules| - 1], ctx)
  }

  lemma {:induction false} ThroughInTwo(a: seq<Rule>, b: seq<Rule>, ctx: Context, requested: Sizing)
    ensures Through(a + b, ctx, requested) == On(Through(a, ctx, requested), b, ctx)
  {
    hide Next;
    if b == [] {
      assert a + b == a;
    } else {
      assert (a + b)[..|a + b| - 1] == a + b[..|b| - 1];
      ThroughInTwo(a, b[..|b| - 1], ctx, requested);
    }
  }

  lemma {:induction false} StoppedStays(s: Stage, rules: seq<Rule>, ctx: Context)
    requires s.stopped
    ensures On(s, rules, ctx) == s
  {
    if rules != [] {
      StoppedStays(s, rules[..|rules| - 1], ctx);
    }
  }

  lemma {:induction false} OnBehind(s: Stage, rules: seq<Rule>, ctx: Context)
    requires !s.stopped && s.size.notional > 0.0 && ctx.market.currentPrice > 0.0 && Participation !in rules
    ensures Behind(On(s, rules, ctx), rules, ctx, s.size)
  {
    hide Next, Blocks, CapOf, Reprices;
    if rules != [] {
      var n := |rules| - 1;
      assert rules == rules[..n] + [rules[n]];
      OnBehind(s, rules[..n], ctx);
      BehindOneMore(rules, ctx, s.size, On(s, rules[..n], ctx));
    }
  }

  lemma {:induction false} ThroughFront(rules: seq<Rule>, ctx: Context, requested: Sizing)
    requires forall i | 0 <= i < |rules| :: rules[i] in FRONT
    ensures var s := Through(rules, ctx, requested);
      && (s.stopped <==> SomeBlocks(rules, ctx)) && (!s.stopped ==> s.size == requested)
  {
    hide ApplyRule, Blocks;
    if rules != [] {
      var n := |rules| - 1;
      assert forall i | 0 <= i < n :: rules[..n][i] == rules[i];
      ThroughFront(rules[..n], ctx, requested);
      BlocksWithOneMore(rules, ctx);
      FrontRule(rules[n], ctx, requested);
    }
  }

  lemma FrontRule(rule: Rule, ctx: Context, current: Sizing)
    requires rule in FRONT
    ensures var r := ApplyRule(rule, ctx, current);
      && (r.verdict == Reject <==> Blocks(rule, ctx)) && (r.verdict != Reject ==> r.next == current)
      && CapOf(rule, ctx).None?
  {
  }

  /** A positive request, whether its two halves agree or not, through the engine's sixteen rules. */
  lemma ThroughDefaults(ctx: Context, requested: Sizing)
    requires ctx.market.currentPrice > 0.0 && requested.quantity > 0.0 && requested.notional > 0.0
    ensures var s, start := Through(DEFAULT_RULES, ctx, requested), Participated(ctx, requested);
      && (s.stopped <==> SomeBlocks(DEFAULT_RULES, ctx))
      && (!s.stopped ==> !SomeBlocks(BACK, ctx) && start.quantity > 0.0 && start.notional > 0.0 && Behind(s, BACK, ctx, start))
  {
    hide Next, ApplyRule, Blocks, CapOf, Participated, Behind, Cuts;
    RulesInThree();
    ThroughFront(FRONT, ctx, requested);
    ThroughInTwo(FRONT + [Participation], BACK, ctx, requested);
    ThroughInTwo(FRONT, [Participation], ctx, requested);
    var front := Through(FRONT, ctx, requested);
    assert [Participation][..0] == [];
    assert On(front, [Participation], ctx) == Next(front, Participation, ctx);
    BlocksInThree(ctx);
    if front.stopped {
      NextStays(front, Participation, ctx);
      StoppedStays(front, BACK, ctx);
    } else {
      ParticipationActs(ctx, requested);
      ParticipationNext(front, ctx);
      var s := Next(front, Participation, ctx);
      if s.stopped {
        StoppedStays(s, BACK, ctx);
      } else {
        ParticipatedIsPositive(ctx, requested);
        OnBehind(s, BACK, ctx);
        BehindStops(On(s, BACK, ctx), BACK, ctx, s.size);
      }
    }
  }

  lemma BehindStops(s: Stage, rules: seq<Rule>, ctx: Context, start: Sizing)
    requires Behind(s, rules, ctx, start)
    ensures s.stopped <==> SomeBlocks(rules, ctx)
  {
    hide Blocks, Reprices, CapOf;
  }

  lemma NextStays(s: Stage, rule: Rule, ctx: Context)
    requires s.stopped
    ensures Next(s, rule, ctx) == s
  {
  }

  lemma ParticipationNext(s: Stage, ctx: Context)
    requires !s.stopped
    ensures var r := ApplyRule(Participation, ctx, s.size); var s' := Next(s, Participation, ctx);
      (s'.stopped <==> r.verdict == Reject) && (!s'.stopped ==> s'.size == r.next)
  {
    hide ApplyRule;
  }

  lemma ParticipatedIsPositive(ctx: Context, requested: Sizing)
    requires ctx.market.currentPrice > 0.0 && requested.quantity > 0.0 && requested.notional > 0.0
    requires !Blocks(Participation, ctx)
    ensures Participated(ctx, requested).quantity > 0.0 && Participated(ctx, requested).notional > 0.0
  {
    ParticipationActs(ctx, requested);
    if Cuts(ctx, requested.quantity) {
      PricedIsPositive(Participated(ctx, requested), ctx.market.currentPrice);
    }
  }

  lemma BlocksInThree(ctx: Context)
    ensures SomeBlocks(DEFAULT_RULES, ctx) <==>
      SomeBlocks(FRONT, ctx) || Blocks(Participation, ctx) || SomeBlocks(BACK, ctx)
  {
    hide Blocks;
    RulesInThree();
    if SomeBlocks(FRONT, ctx) {
      var i :| 0 <= i < |FRONT| && Blocks(FRONT[i], ctx);
      assert DEFAULT_RULES[i] == FRONT[i];
    }
    assert DEFAULT_RULES[4] == Participation;
    if SomeBlocks(BACK, ctx) {
      var i :| 0 <= i < |BACK| && Blocks(BACK[i], ctx);
      assert DEFAULT_RULES[i + 5] == BACK[i];
    }
    if SomeBlocks(DEFAULT_RULES, ctx) {
      var i :| 0 <= i < |DEFAULT_RULES| && Blocks(DEFAULT_RULES[i], ctx);
      if i < 4 {
        assert Blocks(FRONT[i], ctx);
      } else if i > 4 {
        assert Blocks(BACK[i - 5], ctx);
      }
    }
  }

  // ---- Exactly when a mismatched request is still decided by the least ----

  /** Some rule behind participation has a cap of at most the bound. */
  predicate CappedBy(ctx: Context, bound: real) {
    exists i :: 0 <= i < |BACK| && CapOf(BACK[i], ctx).Some? && CapOf(BACK[i], ctx).value <= bound
  }

  /** The rules put the request right: participation cuts it and some cap, its own or another, is no more than
      the notional; or a later rule works the quantity out anew, and the outcome fits participation as well. */
  predicate PutRight(ctx: Context, requested: Sizing) {
    var share := CapOf(Participation, ctx);
    if Cuts(ctx, requested.quantity) then
      share.Some? && (share.value <= requested.notional || CappedBy(ctx, requested.notional))
    else
      && SomeReprices(BACK, ctx, requested.notional)
      && (share.None? || requested.notional <= share.value || CappedBy(ctx, share.value))
  }

  lemma SmallestOverAll(ctx: Context, notional: real, requested: real)
    ensures IsSmallest(notional, requested, DEFAULT_RULES, ctx) <==>
      && notional <= requested
      && (CapOf(Participation, ctx).Some? ==> notional <= CapOf(Participation, ctx).value)
      && (forall i | 0 <= i < |BACK| && CapOf(BACK[i], ctx).Some? :: notional <= CapOf(BACK[i], ctx).value)
      && (|| notional == requested || CapOf(Participation, ctx) == Some(notional)
          || exists i :: 0 <= i < |BACK| && CapOf(BACK[i], ctx) == Some(notional))
  {
    hide CapOf;
    RulesInThree();
    FrontHasNoCaps(ctx);
    assert DEFAULT_RULES[4] == Participation;
    assert forall i | 0 <= i < |BACK| :: DEFAULT_RULES[i + 5] == BACK[i];
    assert forall i | 0 <= i < 4 :: DEFAULT_RULES[i] == FRONT[i];
    assert forall i | 5 <= i < |DEFAULT_RULES| :: DEFAULT_RULES[i] == BACK[i - 5];
    if k :| 0 <= k < |BACK| && CapOf(BACK[k], ctx) == Some(notional) {
      assert CapOf(DEFAULT_RULES[k + 5], ctx) == Some(notional);
    }
  }

  lemma FrontHasNoCaps(ctx: Context)
    ensures forall i | 0 <= i < |FRONT| :: CapOf(FRONT[i], ctx).None?
  {
  }

  /** The request itself, when its two halves disagree. */
  lemma MismatchIsRequested(order: Order, market: Market)
    requires !Consistent(order, market)
    ensures var s := RequestedSize(order, market);
      && market.currentPrice > 0.0 && s == Sizing(order.requestedQuantity, order.requestedNotional)
      && s.quantity > 0.0 && s.notional > 0.0 && !Priced(s, market.currentPrice)
  {
  }

  /** What the engine approves of a mismatched request that no rule turns away. */
  lemma MismatchApproval(ctx: Context)
    requires !Consistent(ctx.order, ctx.market)
    ensures var requested := RequestedSize(ctx.order, ctx.market);
      var start, eval := Participated(ctx, requested), Evaluated(DEFAULT_RULES, ctx);
      && (eval.outcome == Refused <==> SomeBlocks(DEFAULT_RULES, ctx))
      && (eval.outcome == Refused ==> eval.approved == NO_SIZE)
      && (eval.outcome != Refused ==>
            && IsSmallest(eval.approved.notional, start.notional, BACK, ctx)
            && (if SomeReprices(BACK, ctx, start.notional) then Priced(eval.approved, ctx.market.currentPrice)
                else eval.approved == start))
  {
    hide Through, SomeBlocks, IsSmallest, Participated, SomeReprices, RequestedSize;
    var requested := RequestedSize(ctx.order, ctx.market);
    MismatchIsRequested(ctx.order, ctx.market);
    ThroughDefaults(ctx, requested);
    var s := Through(DEFAULT_RULES, ctx, requested);
    if !s.stopped && SomeReprices(BACK, ctx, Participated(ctx, requested).notional) {
      PricedIsPositive(s.size, ctx.market.currentPrice);
    }
  }

  lemma SmallestFits(notional: real, start: real, ctx: Context, requested: real)
    requires IsSmallest(notional, start, BACK, ctx)
    ensures var share := CapOf(Participation, ctx);
      share == Some(start) ==>
        (IsSmallest(notional, requested, DEFAULT_RULES, ctx) <==> start <= requested || CappedBy(ctx, requested))
    ensures var share := CapOf(Participation, ctx);
      start == requested ==>
        (IsSmallest(notional, requested, DEFAULT_RULES, ctx)
         <==> share.None? || requested <= share.value || CappedBy(ctx, share.value))
  {
    hide CapOf;
    SmallestOverAll(ctx, notional, requested);
    if notional != start {
      var i :| 0 <= i < |BACK| && CapOf(BACK[i], ctx) == Some(notional);
      assert CapOf(BACK[i], ctx).Some?;
    }
  }

  /** A request whose quantity and notional disagree is decided by the least of the request and every cap exactly
      when some rule turns it away, or the rules put it right. */
  lemma MismatchIsDecidedIff(ctx: Context)
    requires !Consistent(ctx.order, ctx.market)
    ensures DecidesByMinimum(Evaluated(DEFAULT_RULES, ctx), DEFAULT_RULES, ctx)
      <==> SomeBlocks(DEFAULT_RULES, ctx) || PutRight(ctx, RequestedSize(ctx.order, ctx.market))
  {
    hide Evaluated, SomeBlocks, IsSmallest, SomeReprices, RequestedSize, CapOf, Cuts, CappedBy;
    var requested := RequestedSize(ctx.order, ctx.market);
    var eval, start := Evaluated(DEFAULT_RULES, ctx), Participated(ctx, requested);
    MismatchIsRequested(ctx.order, ctx.market);
    MismatchApproval(ctx);
    if eval.outcome != Refused {
      ParticipationActs(ctx, requested);
      NotBlocked(ctx);
      SmallestFits(eval.approved.notional, start.notional, ctx, requested.notional);
    }
  }

  lemma NotBlocked(ctx: Context)
    ensures !SomeBlocks(DEFAULT_RULES, ctx) ==> !Blocks(Participation, ctx)
  {
    hide Blocks;
    assert DEFAULT_RULES[4] == Participation;
  }

  // ---- Whatever the configuration, the account and the book ----

  predicate DecidedFor(config: Config, account: Account, positions: seq<Position>, market: Market, order: Order) {
    var ctx := Context(ConfigOrDefaults(config), account, positions, market, order);
    DecidesByMinimum(Evaluated(DEFAULT_RULES, ctx), DEFAULT_RULES, ctx)
  }

  /** Everything off that can be, and cash for twice the notional. */
  function Unlimited(market: Market, order: Order): Context {
    Context(ConfigOrDefaults(Config(0.0, 0.0, 0.0, 0.0, 0, 0, 0.0, 0.0, 0.0, 0.0, 0.0, 0.0, 0.0, 0.0)),
            Account(0.0, 0.0, 2.0 * order.requestedNotional, 0.0, 0.0, 0.0, 0.0), [], market, order)
  }

  lemma UnlimitedPasses(market: Market, order: Order)
    requires (market.tradableKnown ==> market.tradable) && (market.haltedKnown ==> !market.halted)
    requires !Consistent(order, market)
    ensures var ctx := Unlimited(market, order);
      !SomeBlocks(DEFAULT_RULES, ctx) && !PutRight(ctx, RequestedSize(order, market))
  {
    hide HasSameSide, Total, TrimSpace, LowerTrim, CountOpen;
    var ctx := Unlimited(market, order);
    MismatchIsRequested(order, market);
    forall rule | rule in DEFAULT_RULES ensures !Blocks(rule, ctx) && !Reprices(rule, ctx, order.requestedNotional) {
      UnlimitedRule(rule, market, order);
    }
  }

  lemma UnlimitedRule(rule: Rule, market: Market, order: Order)
    requires (market.tradableKnown ==> market.tradable) && (market.haltedKnown ==> !market.halted)
    requires market.currentPrice > 0.0 && order.requestedNotional > 0.0
    ensures !Blocks(rule, Unlimited(market, order)) && !Reprices(rule, Unlimited(market, order), order.requestedNotional)
  {
    hide HasSameSide, Total, TrimSpace, LowerTrim, CountOpen;
  }

  /** For an order in a market that lets it through, the engine decides by the least of the request and every cap
      under every configuration, account and book exactly when quantity and notional agree with the price. */
  lemma DecidedForAllIffConsistent(market: Market, order: Order)
    requires (market.tradableKnown ==> market.tradable) && (market.haltedKnown ==> !market.halted)
    ensures (forall config, account, positions :: DecidedFor(config, account, positions, market, order))
      <==> Consistent(order, market)
  {
    hide Evaluated, DecidesByMinimum, Consistent, PutRight, SomeBlocks;
    if Consistent(order, market) {
      forall config, account, positions ensures DecidedFor(config, account, positions, market, order) {
        assert DEFAULT_RULES[2] == PriceSanity;
        EvaluateIsMinimumOfCaps(DEFAULT_RULES, Context(ConfigOrDefaults(config), account, positions, market, order));
      }
    } else {
      UnlimitedPasses(market, order);
      var ctx := Unlimited(market, order);
      MismatchIsDecidedIff(ctx);
      assert !DecidedFor(Config(0.0, 0.0, 0.0, 0.0, 0, 0, 0.0, 0.0, 0.0, 0.0, 0.0, 0.0, 0.0, 0.0), ctx.account, [], market, order);
    }
  }

  // ---- Two inputs ----

  /** Shares at 1.0 with the given cash, and the given liquidity if participation is limited. */
  function Plain(rate: real, liquidity: real, cash: real, quantity: real, notional: real): Context {
    Context(ConfigOrDefaults(Config(0.0, 0.0, 0.0, 0.0, 0, 0, 0.0, 0.0, 0.0, 0.0, 0.0, 0.0, rate, 1.0)),
            Account(0.0, 0.0, cash, 0.0, 0.0, 0.0, 0.0), [],
            Market(1.0, liquidity, liquidity, 0.0, false, false, false, false, "", false, false, 0),
            Order("X", "long", quantity, notional, 0.0, true))
  }

  lemma PlainCaps(rate: real, liquidity: real, cash: real, quantity: real, notional: real)
    requires cash > 0.0 && notional > 0.0 && (rate == 0.0 || (rate == 1.0 && liquidity > 0.0))
    ensures var ctx := Plain(rate, liquidity, cash, quantity, notional);
      && (forall rule :: !Blocks(rule, ctx))
      && (forall rule | rule != Participation && rule != CashAvailability ::
            CapOf(rule, ctx).None? && !Reprices(rule, ctx, notional))
      && CapOf(CashAvailability, ctx) == Some(cash)
      && CapOf(Participation, ctx) == (if rate == 0.0 then None else Some(liquidity))
  {
    hide HasSameSide, Total, TrimSpace, LowerTrim, CountOpen;
  }

  /** Ten shares at 1.0 that say they are worth 1.0 pass all sixteen rules unchanged, with cash for two. */
  lemma UnderstatedPassesCash()
    ensures var ctx := Plain(0.0, 0.0, 2.0, 10.0, 1.0);
      && Evaluated(DEFAULT_RULES, ctx).outcome != Refused && Evaluated(DEFAULT_RULES, ctx).approved == Sizing(10.0, 1.0)
      && CapOf(CashAvailability, ctx) == Some(2.0)
  {
    hide Evaluated, Blocks, CapOf, Reprices, IsSmallest, RequestedSize;
    var ctx := Plain(0.0, 0.0, 2.0, 10.0, 1.0);
    PlainCaps(0.0, 0.0, 2.0, 10.0, 1.0);
    MismatchIsRequested(ctx.order, ctx.market);
    MismatchApproval(ctx);
    CashReprices(ctx, 1.0);
  }

  lemma CashReprices(ctx: Context, notional: real)
    ensures Reprices(CashAvailability, ctx, notional)
      <==> CapOf(CashAvailability, ctx).Some? && CapOf(CashAvailability, ctx).value < notional
  {
  }

  /** One share at 1.0 that says it is worth 1000 passes participation, with liquidity for five, and cash for a
      hundred makes a hundred shares of it. */
  lemma OverstatedPassesParticipation()
    ensures var ctx := Plain(1.0, 5.0, 100.0, 1.0, 1000.0);
      && Evaluated(DEFAULT_RULES, ctx).outcome != Refused && Evaluated(DEFAULT_RULES, ctx).approved == Sizing(100.0, 100.0)
      && CapOf(Participation, ctx) == Some(5.0)
  {
    hide Evaluated, Blocks, CapOf, Reprices, RequestedSize;
    var ctx := Plain(1.0, 5.0, 100.0, 1.0, 1000.0);
    PlainCaps(1.0, 5.0, 100.0, 1.0, 1000.0);
    MismatchIsRequested(ctx.order, ctx.market);
    MismatchApproval(ctx);
    CashReprices(ctx, 1000.0);
    assert BACK[8] == CashAvailability;
  }
}
