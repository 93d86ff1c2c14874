/** Which requests may reach the broker, what exactly it is asked then, and what a refused request is told. */
module ExecutionGates {
  import opened Basics
  import opened Text
  import opened ExecutionModel
  import opened ExecutionSpec

  // ---- What a request must be ----

  predicate SaysOpen(action: string) {
    Says(action, "open_long") || Says(action, "open_short")
  }

  predicate SaysClose(action: string) {
    Says(action, "close_long") || Says(action, "close_short")
  }

  predicate NeedsLimit(orderType: string) {
    Says(orderType, "limit") || Says(orderType, "stop_limit")
  }

  predicate NeedsStop(orderType: string) {
    Says(orderType, "stop") || Says(orderType, "stop_limit")
  }

  /** One of the four order types; none at all stands for a market order. */
  predicate NamesOrderType(orderType: string) {
    Blanks(orderType) || Says(orderType, "market") || NeedsLimit(orderType) || NeedsStop(orderType)
  }

  /** A request that may be sent: it is complete, trading is allowed, entries are if it may open a position and
      exits are if it may close one. */
  predicate MaySend(i: Intent, gate: Gate) {
    && !Blanks(i.symbol) && i.quantity > 0.0 && NamesOrderType(i.orderType)
    && (NeedsLimit(i.orderType) ==> i.limitPrice > 0.0) && (NeedsStop(i.orderType) ==> i.stopPrice > 0.0)
    && gate.tradingAllowed
    && (SaysOpen(i.actionType) ==> gate.entriesAllowed)
    && (SaysClose(i.actionType) ==> gate.exitsAllowed)
    && (!SaysOpen(i.actionType) && !SaysClose(i.actionType) ==> gate.entriesAllowed && gate.exitsAllowed)
  }

  /** The reason is a true one. */
  predicate TrueReason(i: Intent, gate: Gate, why: Why) {
    match why
    case MissingSymbol => Blanks(i.symbol)
    case QuantityNotPositive => i.quantity <= 0.0
    case UnsupportedOrderType => !NamesOrderType(i.orderType)
    case LimitPriceMissing => NeedsLimit(i.orderType) && i.limitPrice <= 0.0
    case StopPriceMissing => NeedsStop(i.orderType) && i.stopPrice <= 0.0
    case GateClosed(reason) =>
      && reason == TrimSpace(gate.blockReason)
      && (!gate.tradingAllowed || (SaysOpen(i.actionType) && !gate.entriesAllowed)
          || (SaysClose(i.actionType) && !gate.exitsAllowed))
    case UncertainAction =>
      !SaysOpen(i.actionType) && !SaysClose(i.actionType) && !(gate.entriesAllowed && gate.exitsAllowed)
    case _ => false
  }

  // ---- What is asked of the broker ----

  /** The call is the one the action names, for the request's own symbol and quantity. */
  predicate AsksFor(i: Intent, call: Call) {
    match call
    case OpenLong(symbol, quantity, leverage) =>
      Says(i.actionType, "open_long") && (symbol, quantity, leverage) == (i.symbol, i.quantity, i.leverage)
    case OpenShort(symbol, quantity, leverage) =>
      Says(i.actionType, "open_short") && (symbol, quantity, leverage) == (i.symbol, i.quantity, i.leverage)
    case CloseLong(symbol, quantity) => Says(i.actionType, "close_long") && (symbol, quantity) == (i.symbol, i.quantity)
    case CloseShort(symbol, quantity) => Says(i.actionType, "close_short") && (symbol, quantity) == (i.symbol, i.quantity)
  }

  // ---- Words ----

  lemma ActionWords()
    ensures ToLower("open_long") == "open_long" && ToLower("open_short") == "open_short"
    ensures ToLower("close_long") == "close_long" && ToLower("close_short") == "close_short"
  {
  }

  lemma OrderTypeWords()
    ensures ToLower("market") == "market" && ToLower("limit") == "limit"
    ensures ToLower("stop") == "stop" && ToLower("stop_limit") == "stop_limit"
  {
  }

  lemma ActionIs(action: string)
    ensures ClassifyAction(action)
         == if SaysOpen(action) then Entering else if SaysClose(action) then Leaving else UnknownAction
    ensures !(SaysOpen(action) && SaysClose(action))
  {
    hide LowerTrim, Says, ToLower;
    ActionWords();
    LowerTrimSays(action, "open_long");
    LowerTrimSays(action, "open_short");
    LowerTrimSays(action, "close_long");
    LowerTrimSays(action, "close_short");
  }

  lemma OrderTypeIs(orderType: string)
    ensures var text := if LowerTrim(orderType) == "" then "market" else LowerTrim(orderType);
      && (KnownOrderType(text) <==> NamesOrderType(orderType))
      && (text == "limit" || text == "stop_limit" <==> NeedsLimit(orderType))
      && (text == "stop" || text == "stop_limit" <==> NeedsStop(orderType))
    ensures LowerTrim(orderType) == "" <==> Blanks(orderType)
  {
    BlankLowers(orderType);
    hide LowerTrim, Says, ToLower, Blanks;
    OrderTypeWords();
    LowerTrimSays(orderType, "market");
    LowerTrimSays(orderType, "limit");
    LowerTrimSays(orderType, "stop");
    LowerTrimSays(orderType, "stop_limit");
  }

  lemma BlankLowers(s: string)
    ensures LowerTrim(s) == "" <==> Blanks(s)
  {
    hide TrimSpace;
    BlankTrims(s);
    assert |LowerTrim(s)| == |TrimSpace(s)|;
  }

  // ---- Validation ----

  lemma ValidIffMaySend(i: Intent, gate: Gate)
    ensures Validate(i, gate) == NoProblem <==> MaySend(i, gate)
    ensures Validate(i, gate) != NoProblem ==> TrueReason(i, gate, Validate(i, gate))
  {
    hide LowerTrim, Says, Blanks, TrimSpace, SaysOpen, SaysClose, NeedsLimit, NeedsStop, NamesOrderType, ClassifyAction,
         KnownOrderType;
    BlankTrims(i.symbol);
    OrderTypeIs(i.orderType);
    ActionIs(i.actionType);
  }

  /** Preparing a request names a market order where no type is given, and changes nothing else the gate looks at. */
  lemma PreparedMaySend(i: Intent, gate: Gate, n: nat, now: Time)
    ensures MaySend(Prepared(i, n, now), gate) <==> MaySend(i, gate)
    ensures forall why :: TrueReason(Prepared(i, n, now), gate, why) <==> TrueReason(i, gate, why)
  {
    var p := Prepared(i, n, now);
    PreparedType(i, n, now);
    hide Prepared, Says, Blanks, TrimSpace, SaysOpen, SaysClose, NeedsLimit, NeedsStop, NamesOrderType;
  }

  lemma PreparedType(i: Intent, n: nat, now: Time)
    ensures var p := Prepared(i, n, now);
      && (NamesOrderType(p.orderType) <==> NamesOrderType(i.orderType))
      && (NeedsLimit(p.orderType) <==> NeedsLimit(i.orderType)) && (NeedsStop(p.orderType) <==> NeedsStop(i.orderType))
      && (p.symbol, p.quantity, p.actionType, p.limitPrice, p.stopPrice, p.leverage)
         == (i.symbol, i.quantity, i.actionType, i.limitPrice, i.stopPrice, i.leverage)
  {
    hide ExecutionId, LowerTrim, UpperTrim, Blanks;
    BlankTrims(i.orderType);
    if Blanks(i.orderType) {
      hide TrimSpace;
      MarketIsNoLimit();
      assert Prepared(i, n, now).orderType == "market";
      NothingNeedsNothing(i.orderType);
    }
  }

  lemma NothingNeedsNothing(orderType: string)
    requires TrimSpace(orderType) == ""
    ensures !NeedsLimit(orderType) && !NeedsStop(orderType)
  {
  }

  lemma MarketIsNoLimit()
    ensures Says("market", "market") && !NeedsLimit("market") && !NeedsStop("market")
  {
    TrimmedAsIs("market");
  }

  // ---- The theorems ----

  /** A request is refused exactly when it may not be sent, and is told a true reason. */
  lemma RefusedIffMayNot(m: Mgr, q: Request)
    ensures var d := Executed(m, q).decision;
      && (d.Refuse? <==> !MaySend(q.intent, q.gate))
      && (d.Refuse? ==> TrueReason(q.intent, q.gate, d.why))
  {
    hide Validate, Opened, Prepared, StandingFor, BuildDedupeKey, WithRefreshed, Stored, ResultOf, MaySend, TrueReason;
    var i := Prepared(q.intent, m.nextId + 1, q.Now());
    ValidIffMaySend(i, q.gate);
    PreparedMaySend(q.intent, q.gate, m.nextId + 1, q.Now());
    DecisionIs(m, q);
  }

  lemma DecisionIs(m: Mgr, q: Request)
    ensures var i, d := Prepared(q.intent, m.nextId + 1, q.Now()), Executed(m, q).decision;
      d == if Validate(i, q.gate) != NoProblem then Refuse(Validate(i, q.gate))
           else Decided(Opened(m, q), i, q.gate, q.before, q.Now()).1
    ensures var i, d := Prepared(q.intent, m.nextId + 1, q.Now()), Executed(m, q).decision;
      Validate(i, q.gate) == NoProblem ==> !d.Refuse?
  {
    hide Validate, Opened, Prepared, StandingFor, BuildDedupeKey, WithRefreshed, Stored, ResultOf;
  }

  /** What is asked of the broker is what the action names, for a request that may be sent: no position is opened
      where entries are not allowed, and none closed where exits are not. */
  lemma BrokerIsAskedJust(m: Mgr, q: Request)
    requires AskedOf(m, q).Some?
    ensures MaySend(q.intent, q.gate) && AsksFor(q.intent, AskedOf(m, q).value)
  {
    hide Validate, Opened, Prepared, Decided, BuildDedupeKey, Stored, ResultOf, MaySend, TrueReason, CallFor, LowerTrim,
         Says;
    RefusedIffMayNot(m, q);
    PreparedType(q.intent, m.nextId + 1, q.Now());
    var i := Prepared(q.intent, m.nextId + 1, q.Now());
    CallIsNamed(i);
  }

  lemma CallIsNamed(i: Intent)
    ensures CallFor(i).Some? ==> AsksFor(i, CallFor(i).value)
    ensures CallFor(i).Some? <==> SaysOpen(i.actionType) || SaysClose(i.actionType)
  {
    hide LowerTrim, Says, ToLower;
    ActionWords();
    LowerTrimSays(i.actionType, "open_long");
    LowerTrimSays(i.actionType, "open_short");
    LowerTrimSays(i.actionType, "close_long");
    LowerTrimSays(i.actionType, "close_short");
  }

  /** The other way round: a request that may be sent, with an action the broker knows and a broker to ask, is asked
      of it unless an earlier execution holds it back. */
  lemma AskedUnlessHeldBack(m: Mgr, q: Request)
    requires MaySend(q.intent, q.gate) && q.broker.Some? && (SaysOpen(q.intent.actionType) || SaysClose(q.intent.actionType))
    ensures AskedOf(m, q).Some? || Executed(m, q).decision in {SuppressInFlight, BlockBehindStale, SuppressRecent}
  {
    hide Validate, Opened, Prepared, Decided, BuildDedupeKey, Stored, ResultOf, MaySend, TrueReason, CallFor, LowerTrim,
         Says, SaysOpen, SaysClose;
    RefusedIffMayNot(m, q);
    PreparedType(q.intent, m.nextId + 1, q.Now());
    CallIsNamed(Prepared(q.intent, m.nextId + 1, q.Now()));
  }
}
