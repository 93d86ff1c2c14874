/** A portfolio built by approved entries stays within its caps. */
module RiskPortfolio {
  import opened Basics
  import opened Text
  import opened Reals
  import opened RiskRules
  import opened RiskEngine
  import opened RiskLaws
  import opened RiskApproval

  // ---- Filling an approved entry ----

  /** The first position of the same symbol and side. */
  function FirstMatch(positions: seq<Position>, symbol: string, side: string): (r: Option<nat>)
    ensures r.Some? ==> r.value < |positions| && Matches(positions[r.value], symbol, side)
    ensures r.None? ==> forall i | 0 <= i < |positions| :: !Matches(positions[i], symbol, side)
  {
    if positions == [] then None
    else if Matches(positions[0], symbol, side) then Some(0)
    else match FirstMatch(positions[1..], symbol, side)
      case None => None
      case Some(i) => Some(i + 1)
  }

  function Opened(order: Order, market: Market, size: Sizing): Position {
    Position(order.symbol, order.side, size.quantity, size.notional, market.sector, market.sectorKnown)
  }

  function Grown(p: Position, size: Sizing): Position {
    p.(quantity := p.quantity + size.quantity, marketValue := p.marketValue + size.notional)
  }

  /** The portfolio after the entry is filled at the evaluated price. */
  function Filled(positions: seq<Position>, order: Order, market: Market, size: Sizing): seq<Position> {
    match FirstMatch(positions, order.symbol, order.side)
    case Some(i) => positions[i := Grown(positions[i], size)]
    case None => positions + [Opened(order, market, size)]
  }

  // ---- Totals after a fill ----

  lemma {:induction false} TotalAfterGrowth(m: Measure, positions: seq<Position>, i: nat, p: Position)
    requires i < |positions|
    ensures Total(m, positions[i := p]) == Total(m, positions) - Weight(m, positions[i]) + Weight(m, p)
  {
    hide Weight;
    var n := |positions| - 1;
    if i < n {
      assert positions[i := p][..n] == positions[..n][i := p];
      TotalAfterGrowth(m, positions[..n], i, p);
    } else {
      assert positions[i := p][..n] == positions[..n];
    }
  }

  lemma {:induction false} CountAfterGrowth(positions: seq<Position>, i: nat, p: Position)
    requires i < |positions| && (positions[i].marketValue > 0.0 <==> p.marketValue > 0.0)
    ensures CountOpen(positions[i := p]) == CountOpen(positions)
  {
    var n := |positions| - 1;
    if i < n {
      assert positions[i := p][..n] == positions[..n][i := p];
      CountAfterGrowth(positions[..n], i, p);
    } else {
      assert positions[i := p][..n] == positions[..n];
    }
  }

  lemma TotalAfterOpening(m: Measure, positions: seq<Position>, p: Position)
    ensures Total(m, positions + [p]) == Total(m, positions) + Weight(m, p)
    ensures CountOpen(positions + [p]) == CountOpen(positions) + if p.marketValue > 0.0 then 1 else 0
  {
    assert (positions + [p])[..|positions|] == positions;
  }

  predicate AllOpen(positions: seq<Position>) {
    forall i | 0 <= i < |positions| :: positions[i].marketValue > 0.0
  }

  /** Positions of the ordered symbol and side carry the market's sector. */
  predicate SameClassification(positions: seq<Position>, order: Order, market: Market) {
    forall i | 0 <= i < |positions| && Matches(positions[i], order.symbol, order.side) ::
      positions[i].sectorKnown == market.sectorKnown && positions[i].sector == market.sector
  }

  /** The measures that go by a position's own sector label. */
  predicate BySector(m: Measure) {
    m.InSector? || m.Unclassified?
  }

  /** A fill adds to each measure what a new position of its size would. */
  lemma FillAddsWeight(m: Measure, positions: seq<Position>, order: Order, market: Market, size: Sizing)
    requires AllOpen(positions) && size.notional > 0.0
    requires BySector(m) ==> SameClassification(positions, order, market)
    ensures var after := Filled(positions, order, market, size);
      && Total(m, after) == Total(m, positions) + Weight(m, Opened(order, market, size))
      && AllOpen(after)
  {
    hide Weight;
    match FirstMatch(positions, order.symbol, order.side)
    case Some(i) =>
      TotalAfterGrowth(m, positions, i, Grown(positions[i], size));
      GrowthAddsWeight(m, positions[i], order, market, size);
    case None => TotalAfterOpening(m, positions, Opened(order, market, size));
  }

  lemma GrowthAddsWeight(m: Measure, p: Position, order: Order, market: Market, size: Sizing)
    requires p.marketValue > 0.0 && size.notional > 0.0 && Matches(p, order.symbol, order.side)
    requires BySector(m) ==> p.sectorKnown == market.sectorKnown && p.sector == market.sector
    ensures Weight(m, Grown(p, size)) == Weight(m, p) + Weight(m, Opened(order, market, size))
  {
    hide LowerTrim, TrimSpace, ToLower;
    EqualFoldTrims(p.side, order.side);
  }

  /** A fill counts under the label of the position it adds to, which need not be the one it was checked against. */
  lemma FillCountsUnderLabel(positions: seq<Position>, order: Order, market: Market, size: Sizing, sector: string)
    requires AllOpen(positions) && size.notional > 0.0 && FirstMatch(positions, order.symbol, order.side).Some?
    ensures var i := FirstMatch(positions, order.symbol, order.side).value;
      Total(InSector(sector), Filled(positions, order, market, size))
      == Total(InSector(sector), positions) + if Classified(positions[i], sector) then size.notional else 0.0
  {
    hide LowerTrim, TrimSpace;
    var i := FirstMatch(positions, order.symbol, order.side).value;
    TotalAfterGrowth(InSector(sector), positions, i, Grown(positions[i], size));
  }

  // ---- The caps a portfolio keeps ----

  ghost predicate SymbolsWithin(c: Config, a: Account, positions: seq<Position>) {
    c.maxPositionPct > 0.0 && DecisionEquity(a) > 0.0 ==>
      forall symbol, side :: Total(SameSide(symbol, side), positions) <= DecisionEquity(a) * c.maxPositionPct
  }

  predicate GrossWithin(c: Config, a: Account, positions: seq<Position>) {
    c.maxPortfolioExposure > 0.0 && DecisionEquity(a) > 0.0 ==>
      Total(Gross, positions) <= DecisionEquity(a) * c.maxPortfolioExposure
  }

  predicate NetWithin(c: Config, a: Account, positions: seq<Position>) {
    c.maxNetExposurePct > 0.0 && DecisionEquity(a) > 0.0 ==>
      Abs(Total(Net, positions)) <= DecisionEquity(a) * c.maxNetExposurePct
  }

  ghost predicate SectorsWithin(c: Config, a: Account, positions: seq<Position>) {
    c.maxSectorExposurePct > 0.0 && DecisionEquity(a) > 0.0 ==>
      forall sector :: Total(InSector(sector), positions) <= DecisionEquity(a) * c.maxSectorExposurePct
  }

  predicate LeverageWithin(c: Config, a: Account, positions: seq<Position>) {
    c.maxGrossLeverage > 0.0 && a.accountEquity > 0.0 ==>
      Total(Gross, positions) <= a.accountEquity * c.maxGrossLeverage
  }

  predicate CountWithin(c: Config, positions: seq<Position>) {
    c.maxConcurrentPositions > 0 ==> CountOpen(positions) <= c.maxConcurrentPositions
  }

  /** Every cap in force but the sector's holds: per symbol and side, gross, net on both sides, leverage and count. */
  ghost predicate WithinCaps(c: Config, a: Account, positions: seq<Position>) {
    && SymbolsWithin(c, a, positions) && GrossWithin(c, a, positions) && NetWithin(c, a, positions)
    && LeverageWithin(c, a, positions) && CountWithin(c, positions)
  }

  datatype Request = Request(market: Market, order: Order)

  function ContextOf(config: Config, account: Account, positions: seq<Position>, q: Request): Context {
    Context(config, account, positions, q.market, q.order)
  }

  /** The portfolio after an entry is evaluated and, if approved, filled. */
  function Traded(config: Config, account: Account, positions: seq<Position>, q: Request): seq<Position> {
    var eval := Evaluated(DEFAULT_RULES, ContextOf(config, account, positions, q));
    if eval.outcome == Refused then positions else Filled(positions, q.order, q.market, eval.approved)
  }

  predicate Tradable(q: Request) {
    q.order.isEntry && Consistent(q.order, q.market)
  }

  /** What approval under the default rules says about the size, rule by rule. */
  lemma ApprovalRespectsCaps(ctx: Context, rule: Rule)
    requires Consistent(ctx.order, ctx.market) && rule in DEFAULT_RULES
    requires Evaluated(DEFAULT_RULES, ctx).outcome != Refused
    ensures var size := Evaluated(DEFAULT_RULES, ctx).approved;
      && size.notional > 0.0 && !Blocks(rule, ctx)
      && (CapOf(rule, ctx).Some? ==> size.notional <= CapOf(rule, ctx).value)
  {
    hide Evaluated, Blocks, CapOf, Consistent;
    assert PriceSanity == DEFAULT_RULES[2];
    EvaluateIsMinimumOfCaps(DEFAULT_RULES, ctx);
    var i :| 0 <= i < |DEFAULT_RULES| && DEFAULT_RULES[i] == rule;
  }

  lemma SymbolCapKept(ctx: Context, size: Sizing, symbol: string, side: string, limit: real)
    requires AllOpen(ctx.positions) && size.notional > 0.0
    requires Total(SameSide(symbol, side), ctx.positions) <= limit
    requires size.notional <= limit - Total(SameSide(ctx.order.symbol, ctx.order.side), ctx.positions)
    ensures Total(SameSide(symbol, side), Filled(ctx.positions, ctx.order, ctx.market, size)) <= limit
  {
    hide ToLower;
    FillAddsWeight(SameSide(symbol, side), ctx.positions, ctx.order, ctx.market, size);
    if Matches(Opened(ctx.order, ctx.market, size), symbol, side) {
      SameKeySameTotal(ctx.positions, symbol, side, ctx.order.symbol, ctx.order.side);
    }
  }

  lemma {:induction false} SameKeySameTotal(positions: seq<Position>, symbol: string, side: string, symbol': string,
                                            side': string)
    requires EqualFold(symbol, symbol') && EqualFold(side, side')
    ensures Total(SameSide(symbol, side), positions) == Total(SameSide(symbol', side'), positions)
  {
    hide ToLower;
    if positions != [] {
      SameKeySameTotal(positions[..|positions| - 1], symbol, side, symbol', side');
    }
  }

  lemma SectorCapKept(ctx: Context, size: Sizing, sector: string, limit: real)
    requires AllOpen(ctx.positions) && SameClassification(ctx.positions, ctx.order, ctx.market) && size.notional > 0.0
    requires Total(InSector(sector), ctx.positions) <= limit
    requires ctx.market.sectorKnown && TrimSpace(ctx.market.sector) != "" ==>
      size.notional <= limit - Total(InSector(LowerTrim(TrimSpace(ctx.market.sector))), ctx.positions)
    ensures Total(InSector(sector), Filled(ctx.positions, ctx.order, ctx.market, size)) <= limit
  {
    FillAddsWeight(InSector(sector), ctx.positions, ctx.order, ctx.market, size);
    LowerTrimOfTrimmed(ctx.market.sector);
  }

  lemma LowerTrimOfTrimmed(s: string)
    ensures LowerTrim(TrimSpace(s)) == LowerTrim(s)
  {
  }

  lemma NetCapKept(ctx: Context, size: Sizing, limit: real)
    requires AllOpen(ctx.positions) && size.notional > 0.0
    requires -limit <= Total(Net, ctx.positions) <= limit && SideSign(ctx.order.side) != 0
    requires size.notional <= limit - SideSign(ctx.order.side) as real * Total(Net, ctx.positions)
    ensures -limit <= Total(Net, Filled(ctx.positions, ctx.order, ctx.market, size)) <= limit
  {
    hide LowerTrim, Total;
    FillAddsWeight(Net, ctx.positions, ctx.order, ctx.market, size);
    assert SideSign(ctx.order.side) == if IsShort(ctx.order.side) then -1 else 1;
  }

  lemma GrossCapKept(ctx: Context, size: Sizing, limit: real)
    requires AllOpen(ctx.positions) && size.notional > 0.0
    requires size.notional <= limit - CurrentGross(ctx)
    ensures Total(Gross, Filled(ctx.positions, ctx.order, ctx.market, size)) <= limit
  {
    FillAddsWeight(Gross, ctx.positions, ctx.order, ctx.market, size);
  }

  lemma CountCapKept(ctx: Context, size: Sizing, limit: int)
    requires AllOpen(ctx.positions) && size.notional > 0.0 && CountOpen(ctx.positions) <= limit
    requires HasSameSide(ctx.positions, ctx.order.symbol, ctx.order.side) || CountOpen(ctx.positions) < limit
    ensures CountOpen(Filled(ctx.positions, ctx.order, ctx.market, size)) <= limit
  {
    hide EqualFold;
    match FirstMatch(ctx.positions, ctx.order.symbol, ctx.order.side)
    case Some(i) => CountAfterGrowth(ctx.positions, i, Grown(ctx.positions[i], size));
    case None => TotalAfterOpening(Gross, ctx.positions, Opened(ctx.order, ctx.market, size));
  }

  /** An entry that the default rules approve against positions that are all open. */
  predicate Approved(ctx: Context) {
    && AllOpen(ctx.positions) && ctx.order.isEntry && Consistent(ctx.order, ctx.market)
    && Evaluated(DEFAULT_RULES, ctx).outcome != Refused
  }

  function AfterFill(ctx: Context): seq<Position> {
    Filled(ctx.positions, ctx.order, ctx.market, Evaluated(DEFAULT_RULES, ctx).approved)
  }

  lemma FillKeepsSymbols(ctx: Context)
    requires Approved(ctx) && SymbolsWithin(ctx.config, ctx.account, ctx.positions)
    ensures SymbolsWithin(ctx.config, ctx.account, AfterFill(ctx))
  {
    hide Evaluated, Filled, Total, DecisionEquity, AllOpen, SameClassification, Consistent, Blocks;
    assert DEFAULT_RULES[8] == PositionLimit;
    ApprovalRespectsCaps(ctx, PositionLimit);
    var equity := DecisionEquity(ctx.account);
    if ctx.config.maxPositionPct > 0.0 && equity > 0.0 {
      forall symbol, side ensures Total(SameSide(symbol, side), AfterFill(ctx)) <= equity * ctx.config.maxPositionPct {
        SymbolCapKept(ctx, Evaluated(DEFAULT_RULES, ctx).approved, symbol, side, equity * ctx.config.maxPositionPct);
      }
    }
  }

  lemma FillKeepsGross(ctx: Context)
    requires Approved(ctx) && GrossWithin(ctx.config, ctx.account, ctx.positions)
    ensures GrossWithin(ctx.config, ctx.account, AfterFill(ctx))
  {
    hide Evaluated, Filled, Total, DecisionEquity, CurrentGross, AllOpen, SameClassification, Consistent, Blocks;
    assert DEFAULT_RULES[9] == PortfolioExposure;
    ApprovalRespectsCaps(ctx, PortfolioExposure);
    if ctx.config.maxPortfolioExposure > 0.0 && DecisionEquity(ctx.account) > 0.0 {
      GrossCapKept(ctx, Evaluated(DEFAULT_RULES, ctx).approved,
                   DecisionEquity(ctx.account) * ctx.config.maxPortfolioExposure);
    }
  }

  lemma FillKeepsNet(ctx: Context)
    requires Approved(ctx) && NetWithin(ctx.config, ctx.account, ctx.positions)
    ensures NetWithin(ctx.config, ctx.account, AfterFill(ctx))
  {
    hide Evaluated, Filled, Total, DecisionEquity, SideSign, AllOpen, SameClassification, Consistent;
    assert DEFAULT_RULES[10] == NetExposure;
    ApprovalRespectsCaps(ctx, NetExposure);
    if ctx.config.maxNetExposurePct > 0.0 && DecisionEquity(ctx.account) > 0.0 {
      NetCapKept(ctx, Evaluated(DEFAULT_RULES, ctx).approved, DecisionEquity(ctx.account) * ctx.config.maxNetExposurePct);
    }
  }

  lemma FillKeepsSectors(ctx: Context)
    requires Approved(ctx) && SectorsWithin(ctx.config, ctx.account, ctx.positions)
    requires SameClassification(ctx.positions, ctx.order, ctx.market)
    ensures SectorsWithin(ctx.config, ctx.account, AfterFill(ctx))
  {
    hide Evaluated, Filled, Total, DecisionEquity, AllOpen, SameClassification, Consistent, Blocks, LowerTrim, TrimSpace;
    assert DEFAULT_RULES[11] == SectorExposure;
    ApprovalRespectsCaps(ctx, SectorExposure);
    var equity := DecisionEquity(ctx.account);
    if ctx.config.maxSectorExposurePct > 0.0 && equity > 0.0 {
      forall sector ensures Total(InSector(sector), AfterFill(ctx)) <= equity * ctx.config.maxSectorExposurePct {
        SectorCapKept(ctx, Evaluated(DEFAULT_RULES, ctx).approved, sector, equity * ctx.config.maxSectorExposurePct);
      }
    }
  }

  lemma FillKeepsLeverage(ctx: Context)
    requires Approved(ctx) && LeverageWithin(ctx.config, ctx.account, ctx.positions)
    ensures LeverageWithin(ctx.config, ctx.account, AfterFill(ctx))
  {
    hide Evaluated, Filled, Total, CurrentGross, AllOpen, SameClassification, Consistent, Blocks;
    assert DEFAULT_RULES[12] == GrossLeverage;
    ApprovalRespectsCaps(ctx, GrossLeverage);
    if ctx.config.maxGrossLeverage > 0.0 && ctx.account.accountEquity > 0.0 {
      assert LeverageEquity(ctx.account) == ctx.account.accountEquity;
      GrossCapKept(ctx, Evaluated(DEFAULT_RULES, ctx).approved, ctx.account.accountEquity * ctx.config.maxGrossLeverage);
    }
  }

  lemma FillKeepsCount(ctx: Context)
    requires Approved(ctx) && CountWithin(ctx.config, ctx.positions)
    ensures CountWithin(ctx.config, AfterFill(ctx)) && AllOpen(AfterFill(ctx))
  {
    hide Evaluated, Filled, CountOpen, HasSameSide, AllOpen, SameClassification, Consistent, CapOf;
    assert DEFAULT_RULES[7] == ConcurrentPositions;
    ApprovalRespectsCaps(ctx, ConcurrentPositions);
    FillAddsWeight(Gross, ctx.positions, ctx.order, ctx.market, Evaluated(DEFAULT_RULES, ctx).approved);
    if ctx.config.maxConcurrentPositions > 0 {
      CountCapKept(ctx, Evaluated(DEFAULT_RULES, ctx).approved, ctx.config.maxConcurrentPositions);
    }
  }

  /** An approved entry, filled at the evaluated price, breaches no cap; for the sector's, the positions of the
      ordered symbol and side must carry the label it was checked against. */
  lemma FillKeepsCaps(ctx: Context)
    requires Approved(ctx) && WithinCaps(ctx.config, ctx.account, ctx.positions)
    ensures WithinCaps(ctx.config, ctx.account, AfterFill(ctx)) && AllOpen(AfterFill(ctx))
    ensures SameClassification(ctx.positions, ctx.order, ctx.market)
            && SectorsWithin(ctx.config, ctx.account, ctx.positions) ==>
              SectorsWithin(ctx.config, ctx.account, AfterFill(ctx))
  {
    hide Approved, AfterFill, SymbolsWithin, GrossWithin, NetWithin, SectorsWithin, LeverageWithin, CountWithin,
         SameClassification;
    FillKeepsSymbols(ctx);
    FillKeepsGross(ctx);
    FillKeepsNet(ctx);
    FillKeepsLeverage(ctx);
    FillKeepsCount(ctx);
    if SameClassification(ctx.positions, ctx.order, ctx.market)
       && SectorsWithin(ctx.config, ctx.account, ctx.positions) {
      FillKeepsSectors(ctx);
    }
  }

  // ---- Runs ----

  /** The portfolio after a sequence of entries, each evaluated against what the earlier ones left. */
  function AfterAll(config: Config, account: Account, positions: seq<Position>, requests: seq<Request>): seq<Position>
    decreases |requests|
  {
    if requests == [] then positions
    else AfterAll(config, account, Traded(config, account, positions, requests[0]), requests[1..])
  }

  predicate AllTradable(requests: seq<Request>) {
    forall i | 0 <= i < |requests| :: Tradable(requests[i])
  }

  /** Each entry meets positions of its symbol and side that carry its market's sector. */
  predicate AllClassified(config: Config, account: Account, positions: seq<Position>, requests: seq<Request>)
    decreases |requests|
  {
    requests == []
    || (SameClassification(positions, requests[0].order, requests[0].market)
        && AllClassified(config, account, Traded(config, account, positions, requests[0]), requests[1..]))
  }

  /** A portfolio within its caps stays within all of them through any sequence of entries, whatever is
      approved, with equity and marks fixed; within the sector caps too, if entries and positions agree on
      their sectors. */
  lemma {:induction false} PortfolioStaysWithinCaps(config: Config, account: Account, positions: seq<Position>,
                                                    requests: seq<Request>)
    requires AllOpen(positions) && WithinCaps(config, account, positions) && AllTradable(requests)
    ensures WithinCaps(config, account, AfterAll(config, account, positions, requests))
    ensures SectorsWithin(config, account, positions) && AllClassified(config, account, positions, requests) ==>
              SectorsWithin(config, account, AfterAll(config, account, positions, requests))
    decreases |requests|
  {
    hide WithinCaps, SectorsWithin, AllOpen, Evaluated, Filled, Consistent, SameClassification;
    if requests != [] {
      var ctx := ContextOf(config, account, positions, requests[0]);
      assert Tradable(requests[0]);
      if Evaluated(DEFAULT_RULES, ctx).outcome != Refused {
        FillKeepsCaps(ctx);
      }
      PortfolioStaysWithinCaps(config, account, Traded(config, account, positions, requests[0]), requests[1..]);
    }
  }

  // ---- The caps in the account's own terms ----

  /** For each positive equity of the account: the holdings in every symbol and side, in all, and longs less shorts
      and shorts less longs, are within their parts of it. */
  ghost predicate WithinEach(c: Config, a: Account, positions: seq<Position>) {
    && (c.maxPositionPct > 0.0 ==>
          forall symbol, side :: WithinPart(HeldOf(positions, symbol, side), c.maxPositionPct, a))
    && (c.maxPortfolioExposure > 0.0 ==> WithinPart(Held(positions), c.maxPortfolioExposure, a))
    && (c.maxNetExposurePct > 0.0 ==>
          WithinPart(HeldNet(positions), c.maxNetExposurePct, a) && WithinPart(-HeldNet(positions), c.maxNetExposurePct, a))
    && (c.maxGrossLeverage > 0.0 && a.accountEquity > 0.0 ==> Held(positions) <= c.maxGrossLeverage * a.accountEquity)
    && (c.maxConcurrentPositions > 0 ==> HowMany(positions) <= c.maxConcurrentPositions)
  }

  /** And the holdings in every sector. */
  ghost predicate SectorsWithinEach(c: Config, a: Account, positions: seq<Position>) {
    c.maxSectorExposurePct > 0.0 ==>
      forall sector | !Blanks(sector) :: WithinPart(HeldIn(positions, sector), c.maxSectorExposurePct, a)
  }

  lemma SymbolsWithinIs(c: Config, a: Account, positions: seq<Position>)
    requires c.maxPositionPct > 0.0
    ensures SymbolsWithin(c, a, positions)
      <==> forall symbol, side :: WithinPart(HeldOf(positions, symbol, side), c.maxPositionPct, a)
  {
    hide Total, HeldOf, WithinPart, DecisionEquity;
    forall symbol, side
      ensures HeldOf(positions, symbol, side) == Total(SameSide(symbol, side), positions)
      ensures WithinPart(HeldOf(positions, symbol, side), c.maxPositionPct, a)
        <==> (DecisionEquity(a) > 0.0 ==> HeldOf(positions, symbol, side) <= DecisionEquity(a) * c.maxPositionPct)
    {
      HeldIsSameSide(positions, symbol, side);
      EachEquity(HeldOf(positions, symbol, side), c.maxPositionPct, a);
    }
  }

  lemma WithinCapsIs(c: Config, a: Account, positions: seq<Position>)
    ensures WithinCaps(c, a, positions) <==> WithinEach(c, a, positions)
  {
    hide Total, HeldOf, Held, HeldNet, WithinPart, DecisionEquity, SymbolsWithin, CountOpen, HowMany, AnyEquity;
    HeldIsGross(positions);
    HeldIsNet(positions);
    HowManyIsCount(positions);
    if c.maxPositionPct > 0.0 {
      SymbolsWithinIs(c, a, positions);
    } else {
      NoSymbolCap(c, a, positions);
    }
    if c.maxPortfolioExposure > 0.0 {
      EachEquity(Held(positions), c.maxPortfolioExposure, a);
    }
    if c.maxNetExposurePct > 0.0 {
      EachEquity(HeldNet(positions), c.maxNetExposurePct, a);
      EachEquity(-HeldNet(positions), c.maxNetExposurePct, a);
    }
    assert c.maxGrossLeverage * a.accountEquity == a.accountEquity * c.maxGrossLeverage;
  }

  lemma NoSymbolCap(c: Config, a: Account, positions: seq<Position>)
    requires c.maxPositionPct <= 0.0
    ensures SymbolsWithin(c, a, positions)
  {
  }

  lemma {:induction false} OddLabelHoldsNothing(positions: seq<Position>, tag: string)
    requires tag == "" || LowerTrim(tag) != tag
    ensures Total(InSector(tag), positions) == 0.0
  {
    hide LowerTrim, TrimSpace;
    if positions != [] {
      OddLabelHoldsNothing(positions[..|positions| - 1], tag);
      LabelIsLowerTrimmed(positions[|positions| - 1].sector);
      NamedSectorIsNotBlank(positions[|positions| - 1].sector);
    }
  }

  lemma LabelIsLowerTrimmed(sector: string)
    ensures LowerTrim(LowerTrim(sector)) == LowerTrim(sector)
  {
    hide TrimSpace;
    TrimmedAsIs(LowerTrim(sector));
  }

  lemma SectorPartIs(c: Config, a: Account, positions: seq<Position>, sector: string)
    requires c.maxSectorExposurePct > 0.0 && !Blanks(sector)
    ensures WithinPart(HeldIn(positions, sector), c.maxSectorExposurePct, a)
      <==> (DecisionEquity(a) > 0.0 ==>
              Total(InSector(LowerTrim(TrimSpace(sector))), positions) <= DecisionEquity(a) * c.maxSectorExposurePct)
  {
    hide Total, HeldIn, WithinPart, DecisionEquity, LowerTrim, TrimSpace, Blanks, AnyEquity;
    BlankTrims(sector);
    HeldIsInSector(positions, sector);
    EachEquity(HeldIn(positions, sector), c.maxSectorExposurePct, a);
  }

  lemma TagPartIs(c: Config, a: Account, positions: seq<Position>, tag: string)
    requires c.maxSectorExposurePct > 0.0 && DecisionEquity(a) > 0.0
    requires !Blanks(tag) ==> WithinPart(HeldIn(positions, tag), c.maxSectorExposurePct, a)
    ensures Total(InSector(tag), positions) <= DecisionEquity(a) * c.maxSectorExposurePct
  {
    hide Total, HeldIn, WithinPart, DecisionEquity, LowerTrim, TrimSpace, Blanks, AnyEquity;
    LabelHolds(positions, tag);
    ProductSign(DecisionEquity(a), c.maxSectorExposurePct);
    EachEquity(HeldIn(positions, tag), c.maxSectorExposurePct, a);
  }

  lemma SectorsWithinIs(c: Config, a: Account, positions: seq<Position>)
    ensures SectorsWithin(c, a, positions) <==> SectorsWithinEach(c, a, positions)
  {
    hide Total, HeldIn, WithinPart, DecisionEquity, LowerTrim, TrimSpace, Blanks;
    if c.maxSectorExposurePct > 0.0 {
      if SectorsWithin(c, a, positions) {
        forall sector | !Blanks(sector) ensures WithinPart(HeldIn(positions, sector), c.maxSectorExposurePct, a) {
          SectorPartIs(c, a, positions, sector);
        }
      } else {
        var tag :| !(Total(InSector(tag), positions) <= DecisionEquity(a) * c.maxSectorExposurePct);
        if SectorsWithinEach(c, a, positions) {
          TagPartIs(c, a, positions, tag);
        }
      }
    }
  }

  lemma LabelHolds(positions: seq<Position>, tag: string)
    ensures Total(InSector(tag), positions) == 0.0
         || (!Blanks(tag) && HeldIn(positions, tag) == Total(InSector(tag), positions))
  {
    hide Total, HeldIn, LowerTrim, TrimSpace, Blanks;
    if tag == "" || LowerTrim(tag) != tag {
      OddLabelHoldsNothing(positions, tag);
    } else {
      LowerTrimOfTrimmed(tag);
      TrimmedAsIs(tag);
      BlankTrims(tag);
      HeldIsInSector(positions, tag);
    }
  }

  /** So a portfolio within the parts of each positive equity is within them after any sequence of entries. */
  lemma PortfolioStaysWithinEach(config: Config, account: Account, positions: seq<Position>, requests: seq<Request>)
    requires AllOpen(positions) && WithinEach(config, account, positions) && AllTradable(requests)
    ensures WithinEach(config, account, AfterAll(config, account, positions, requests))
    ensures SectorsWithinEach(config, account, positions) && AllClassified(config, account, positions, requests) ==>
              SectorsWithinEach(config, account, AfterAll(config, account, positions, requests))
  {
    hide WithinCaps, WithinEach, SectorsWithin, SectorsWithinEach, AllOpen, AfterAll, AllTradable, AllClassified;
    var after := AfterAll(config, account, positions, requests);
    WithinCapsIs(config, account, positions);
    SectorsWithinIs(config, account, positions);
    PortfolioStaysWithinCaps(config, account, positions, requests);
    WithinCapsIs(config, account, after);
    SectorsWithinIs(config, account, after);
  }

  // ---- Quantities ----

  function QuantityOf(symbol: string, side: string): Position -> real {
    (p: Position) => if SameText(p.symbol, symbol) && SameText(p.side, side) then p.quantity else 0.0
  }

  lemma {:induction false} SumAfterGrowth(positions: seq<Position>, i: nat, p: Position, value: Position -> real)
    requires i < |positions|
    ensures Sum(positions[i := p], value) == Sum(positions, value) - value(positions[i]) + value(p)
  {
    if i > 0 {
      assert positions[i := p][1..] == positions[1..][i - 1 := p];
      SumAfterGrowth(positions[1..], i - 1, p, value);
    } else {
      assert positions[i := p][1..] == positions[1..];
    }
  }

  lemma {:induction false} SumAfterOpening(positions: seq<Position>, p: Position, value: Position -> real)
    ensures Sum(positions + [p], value) == Sum(positions, value) + value(p)
  {
    if positions == [] {
      assert [p][1..] == [] && positions + [p] == [p];
    } else {
      assert (positions + [p])[1..] == positions[1..] + [p];
      SumAfterOpening(positions[1..], p, value);
    }
  }

  /** A fill adds its quantity to what is held of the symbol and side, and to nothing else. */
  lemma FillAddsQuantity(positions: seq<Position>, order: Order, market: Market, size: Sizing, symbol: string, side: string)
    ensures Sum(Filled(positions, order, market, size), QuantityOf(symbol, side))
         == Sum(positions, QuantityOf(symbol, side))
            + if SameText(order.symbol, symbol) && SameText(order.side, side) then size.quantity else 0.0
  {
    hide Sum, SameText, EqualFold;
    match FirstMatch(positions, order.symbol, order.side)
    case Some(i) =>
      SumAfterGrowth(positions, i, Grown(positions[i], size), QuantityOf(symbol, side));
      FoldingIsSameText(positions[i].symbol, order.symbol);
      FoldingIsSameText(positions[i].side, order.side);
      SameTextCarries(positions[i].symbol, order.symbol, symbol);
      SameTextCarries(positions[i].side, order.side, side);
    case None => SumAfterOpening(positions, Opened(order, market, size), QuantityOf(symbol, side));
  }

  lemma SameTextCarries(s: string, t: string, u: string)
    requires SameText(s, t)
    ensures SameText(s, u) <==> SameText(t, u)
  {
    FoldingIsSameText(s, t);
    FoldingIsSameText(s, u);
    FoldingIsSameText(t, u);
  }
}
