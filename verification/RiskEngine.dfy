/** The risk engine: the rules applied in order, with an early stop at the first rejection. */
module RiskEngine {
  import opened Basics
  import opened RiskRules

  datatype Outcome = Passes | Reduced | Refused

  datatype RuleResult = RuleResult(rule: Option<Rule>, verdict: Verdict, quantity: real, notional: real)

  datatype Evaluation = Evaluation(
    outcome: Outcome, requested: Sizing, approved: Sizing, results: seq<RuleResult>)

  const DEFAULT_RULES: seq<Rule> := [
    SymbolTradable, TradingHalted, PriceSanity, AverageVolume, Participation, DailyLoss, DrawdownStop,
    ConcurrentPositions, PositionLimit, PortfolioExposure, NetExposure, SectorExposure, GrossLeverage,
    CashAvailability, PerTradeRisk, CorrelationRisk]

  function ConfigOrDefaults(c: Config): Config {
    c.(maxGrossLeverage := if c.maxGrossLeverage <= 0.0 then c.maxPortfolioExposure else c.maxGrossLeverage,
       cashBufferPct := if c.cashBufferPct <= 0.0 || c.cashBufferPct > 1.0 then 0.95 else c.cashBufferPct)
  }

  /** The requested size, a missing quantity or notional worked out from the other. */
  function RequestedSize(order: Order, market: Market): Sizing {
    var price := market.currentPrice;
    var notional :=
      if order.requestedNotional <= 0.0 && order.requestedQuantity > 0.0 && price > 0.0
      then order.requestedQuantity * price else order.requestedNotional;
    var quantity :=
      if order.requestedQuantity <= 0.0 && notional > 0.0 && price > 0.0
      then notional / price else order.requestedQuantity;
    Sizing(quantity, notional)
  }

  function ResultOf(rule: Rule, r: Ruling): RuleResult {
    RuleResult(Some(rule), r.verdict, r.next.quantity, r.next.notional)
  }

  /** The state of an evaluation after some rules: stopped, or still going with a size. */
  datatype Stage = Stage(stopped: bool, reduced: bool, size: Sizing, results: seq<RuleResult>)

  function Next(s: Stage, rule: Rule, ctx: Context): Stage {
    if s.stopped then s
    else
      var r := ApplyRule(rule, ctx, s.size);
      var results := s.results + [ResultOf(rule, r)];
      if r.verdict == Reject then Stage(true, s.reduced, s.size, results)
      else Stage(false, s.reduced || r.verdict == Reduce, r.next, results)
  }

  function Through(rules: seq<Rule>, ctx: Context, requested: Sizing): Stage {
    if rules == [] then Stage(false, false, requested, [])
    else Next(Through(rules[..|rules| - 1], ctx, requested), rules[|rules| - 1], ctx)
  }

  const UNEXECUTABLE := RuleResult(None, Reject, 0.0, 0.0)

  function Evaluated(rules: seq<Rule>, ctx: Context): Evaluation {
    var requested := RequestedSize(ctx.order, ctx.market);
    var s := Through(rules, ctx, requested);
    if s.stopped then Evaluation(Refused, requested, NO_SIZE, s.results)
    else if s.size.quantity <= 0.0 || s.size.notional <= 0.0 then
      Evaluation(Refused, requested, NO_SIZE, s.results + [UNEXECUTABLE])
    else Evaluation(if s.reduced then Reduced else Passes, requested, s.size, s.results)
  }

  class Engine {
    const config: Config
    const rules: seq<Rule>

    constructor (config: Config)
      ensures this.config == ConfigOrDefaults(config) && rules == DEFAULT_RULES
    {
      this.config := ConfigOrDefaults(config);
      rules := DEFAULT_RULES;
    }

    method Evaluate(account: Account, positions: seq<Position>, market: Market, order: Order) returns (eval: Evaluation)
      ensures eval == Evaluated(rules, Context(config, account, positions, market, order))
    {
      hide ApplyRule;
      var ctx := Context(config, account, positions, market, order);
      var current := Sizing(order.requestedQuantity, order.requestedNotional);
      if current.notional <= 0.0 && current.quantity > 0.0 && market.currentPrice > 0.0 {
        current := current.(notional := current.quantity * market.currentPrice);
      }
      if current.quantity <= 0.0 && current.notional > 0.0 && market.currentPrice > 0.0 {
        current := current.(quantity := current.notional / market.currentPrice);
      }
      var requested := current;
      assert requested == RequestedSize(order, market);
      hide RequestedSize;
      eval := Evaluation(Passes, requested, requested, []);
      var i := 0;
      while i < |rules|
        invariant 0 <= i <= |rules|
        invariant Through(rules[..i], ctx, requested) == Stage(false, eval.outcome == Reduced, current, eval.results)
        invariant eval.requested == requested && eval.approved == current && eval.outcome != Refused
      {
        assert rules[..i + 1][..i] == rules[..i];
        var r := ApplyRule(rules[i], ctx, current);
        eval := eval.(results := eval.results + [ResultOf(rules[i], r)]);
        if r.verdict == Reject {
          StopsForGood(rules, i + 1, ctx, requested);
          eval := eval.(outcome := Refused, approved := NO_SIZE);
          return;
        }
        if r.verdict == Reduce {
          eval := eval.(outcome := Reduced);
        }
        current := r.next;
        eval := eval.(approved := current);
        i := i + 1;
      }
      assert rules[..i] == rules;
      if current.quantity <= 0.0 || current.notional <= 0.0 {
        eval := eval.(outcome := Refused, approved := NO_SIZE, results := eval.results + [UNEXECUTABLE]);
      }
    }
  }

  /** A rejection is final: later rules are not consulted. */
  lemma {:induction false} StopsForGood(rules: seq<Rule>, i: nat, ctx: Context, requested: Sizing)
    requires i <= |rules| && Through(rules[..i], ctx, requested).stopped
    ensures Through(rules, ctx, requested) == Through(rules[..i], ctx, requested)
  {
    hide ApplyRule;
    if i < |rules| {
      assert rules[..|rules| - 1][..i] == rules[..i];
      StopsForGood(rules[..|rules| - 1], i, ctx, requested);
    } else {
      assert rules[..i] == rules;
    }
  }
}
