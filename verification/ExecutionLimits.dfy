/** Where the manager's promises end: a run after which a restart changes a decision, what reopens a closed
    execution, and an order id that is never filled in. */
module ExecutionLimits {
  import opened Basics
  import opened Text
  import OrderModel
  import OrderSpec
  import opened ReconcileLaws
  import opened ExecutionModel
  import opened ExecutionSpec
  import opened ExecutionIndex
  import opened ExecutionLaws
  import opened ExecutionRuns

  // ---- A manager that has tracked one execution ----

  function Alone(cfg: Config, e: Entry, stands: bool): Mgr {
    Mgr(cfg, 1, [e], map[e.Id() := 0], if stands then map[e.Key() := e.Id()] else map[])
  }

  lemma SweepAlone(cfg: Config, e: Entry, stands: bool, lookup: Lookup, now: Time)
    requires Unfollowed(e)
    ensures var e' := SweptEntry(e, lookup, cfg, now);
      Swept(Alone(cfg, e, stands), lookup, now) == Alone(cfg, e', stands && !Expired(e', cfg, now))
  {
    hide SweptEntry, Expired, Unfollowed;
    var m := Alone(cfg, e, stands);
    var e' := SweptEntry(e, lookup, cfg, now);
    SweepKeepsRequest(e, lookup, cfg, now);
    var h := SweptHistory(m.history, lookup, cfg, now);
    assert h == [e'];
    assert PositionOf(m.(history := h), e.Id()) == Some(0);
  }

  predicate Answered(q: Request) {
    q.broker.Some? && q.broker.value.Taken?
  }

  /** A first request that is sent, with an answer that leaves it open and no order store to look at. */
  predicate FirstRequest(q: Request) {
    && TrimSpace(q.intent.intentId) == "" && q.before == q.after == None && q.Now() > 0
    && Validate(Prepared(q.intent, 1, q.Now()), q.gate) == NoProblem
    && ClassifyAction(q.intent.actionType) != UnknownAction
    && Answered(q)
    && MapPayloadStatus(q.broker.value.payload, q.intent.quantity).InFlight()
  }

  function FirstEntry(q: Request): Entry
    requires Answered(q)
  {
    hide Prepared, Accepted, NewResult;
    var i := Prepared(q.intent, 1, q.Now());
    Entry(i, Accepted(NewResult(i), q.broker.value.payload, i.quantity, q.Now()))
  }

  lemma FirstEntryIsOpen(q: Request)
    requires FirstRequest(q)
    ensures FirstEntry(q).Status().InFlight() && FirstEntry(q).result.submittedAt == q.Now() > 0 && Unfollowed(FirstEntry(q))
    ensures FirstEntry(q).result.localOrderId == Shown(q.broker.value.payload.localOrderId)
    ensures FirstEntry(q).result.brokerOrderId == Shown(q.broker.value.payload.brokerOrderId)
  {
    hide Validate, BuildDedupeKey, MapPayloadStatus, ClassifyAction, ExecutionId, TrimSpace, UpperTrim, LowerTrim, Shown,
         FillOf;
  }

  lemma FirstExecution(cfg: Config, q: Request)
    requires FirstRequest(q)
    ensures Executed(NewManager(cfg), q).manager == Alone(ConfigOrDefaults(cfg), FirstEntry(q), true)
  {
    hide Validate, BuildDedupeKey, MapPayloadStatus, ClassifyAction, ExecutionId, TrimSpace, UpperTrim, LowerTrim, Shown,
         FillOf;
    var m := NewManager(cfg);
    assert SweptHistory([], None, m.cfg, q.Now()) == [];
    assert Opened(m, q) == m.(nextId := 1);
  }

  // ---- A restart that changes a decision ----

  /** The order store reports the execution's order open again. */
  predicate ReportsOpen(q: Request, store: OrderSpec.StoreValue)
    requires Answered(q)
  {
    var p := q.broker.value.payload;
    var found := Find(Some(store), Shown(p.localOrderId), Shown(p.brokerOrderId));
    found.Some? && found.value.status == OrderModel.Status.Accepted
  }

  /** The execution goes stale unobserved, gives up its key, and only then is its order seen open. */
  function Revival(cfg: Config, q: Request, store: OrderSpec.StoreValue): seq<Op> {
    var c := ConfigOrDefaults(cfg);
    var staleAt := q.Now() + c.staleAfter;
    var releasedAt := staleAt + c.dedupeWindow + 1;
    [Execute(q), Sweep(None, staleAt), Sweep(None, releasedAt), Sweep(Some(store), releasedAt)]
  }

  lemma GoesStale(e: Entry, cfg: Config, now: Time)
    requires e.Status().InFlight() && e.result.submittedAt != ZERO_TIME && now - e.result.submittedAt >= cfg.staleAfter
    requires now != ZERO_TIME && cfg.dedupeWindow > 0
    ensures SweptEntry(e, None, cfg, now) == MarkedStale(e, now) && !Expired(MarkedStale(e, now), cfg, now)
  {
  }

  lemma IsReleased(e: Entry, cfg: Config, now: Time)
    requires e.Status() == Stale && e.result.completedAt != ZERO_TIME && now - e.result.completedAt > cfg.dedupeWindow
    ensures SweptEntry(e, None, cfg, now) == e && Expired(e, cfg, now)
  {
  }

  /** Revived by the order store, it is stale again at once, and so newly finished. */
  lemma IsRevived(e: Entry, cfg: Config, store: OrderSpec.StoreValue, now: Time)
    requires e.Status() == Stale && e.result.submittedAt != ZERO_TIME && now - e.result.submittedAt >= cfg.staleAfter
    requires now != ZERO_TIME && cfg.dedupeWindow > 0
    requires var found := Find(Some(store), e.result.localOrderId, e.result.brokerOrderId);
      found.Some? && found.value.status == OrderModel.Status.Accepted
    ensures var e' := SweptEntry(e, Some(store), cfg, now);
      e'.Status() == Stale && !Expired(e', cfg, now) && e'.Key() == e.Key() && e'.intent == e.intent
  {
    hide Find, TrimSpace;
  }

  lemma AloneIsIncomplete(cfg: Config, e: Entry, now: Time)
    requires e.Status().Registers() && !Expired(e, cfg, now)
    ensures !Complete(Alone(cfg, e, false), now)
  {
    hide Expired;
    assert LastOf([e], e.Key()) == Some(0);
  }

  lemma StaleThenRevived(e: Entry, c: Config, store: OrderSpec.StoreValue, staleAt: Time, releasedAt: Time)
    requires e.Status().InFlight() && e.result.submittedAt > 0 && Unfollowed(e)
    requires c.staleAfter > 0 && c.dedupeWindow > 0
    requires staleAt == e.result.submittedAt + c.staleAfter && releasedAt == staleAt + c.dedupeWindow + 1
    requires var found := Find(Some(store), e.result.localOrderId, e.result.brokerOrderId);
      found.Some? && found.value.status == OrderModel.Status.Accepted
    ensures var stale := MarkedStale(e, staleAt);
      var revived := SweptEntry(stale, Some(store), c, releasedAt);
      && Unfollowed(stale) && Unfollowed(revived)
      && SweptEntry(e, None, c, staleAt) == stale && !Expired(stale, c, staleAt)
      && SweptEntry(stale, None, c, releasedAt) == stale && Expired(stale, c, releasedAt)
      && revived.Status() == Stale && !Expired(revived, c, releasedAt)
      && stale.Status() == Stale && stale.result.localOrderId == e.result.localOrderId
      && stale.result.brokerOrderId == e.result.brokerOrderId
  {
    hide SweptEntry, Find, Expired;
    var stale := MarkedStale(e, staleAt);
    GoesStale(e, c, staleAt);
    IsReleased(stale, c, releasedAt);
    IsRevived(stale, c, store, releasedAt);
    SweepKeepsRequest(stale, Some(store), c, releasedAt);
  }

  function StaleEntry(cfg: Config, q: Request): Entry
    requires Answered(q)
  {
    MarkedStale(FirstEntry(q), q.Now() + ConfigOrDefaults(cfg).staleAfter)
  }

  function RevivedEntry(cfg: Config, q: Request, store: OrderSpec.StoreValue): Entry
    requires Answered(q)
  {
    var c := ConfigOrDefaults(cfg);
    SweptEntry(StaleEntry(cfg, q), Some(store), c, q.Now() + c.staleAfter + c.dedupeWindow + 1)
  }

  /** The states the execution passes through. */
  lemma RevivalEntries(cfg: Config, q: Request, store: OrderSpec.StoreValue)
    requires FirstRequest(q) && ReportsOpen(q, store)
    ensures var c := ConfigOrDefaults(cfg);
      var staleAt := q.Now() + c.staleAfter; var releasedAt := staleAt + c.dedupeWindow + 1;
      var e, stale, revived := FirstEntry(q), StaleEntry(cfg, q), RevivedEntry(cfg, q, store);
      && Unfollowed(e) && Unfollowed(stale) && Unfollowed(revived)
      && SweptEntry(e, None, c, staleAt) == stale && !Expired(stale, c, staleAt)
      && SweptEntry(stale, None, c, releasedAt) == stale && Expired(stale, c, releasedAt)
      && revived.Status() == Stale && !Expired(revived, c, releasedAt)
      && stale.Status() == Stale && stale.result.localOrderId == e.result.localOrderId
      && stale.result.brokerOrderId == e.result.brokerOrderId
  {
    hide FirstEntry, SweptEntry, MarkedStale, Find, Shown, Validate, ClassifyAction, Prepared, MapPayloadStatus, TrimSpace,
         Expired, ConfigOrDefaults, Unfollowed;
    var c := ConfigOrDefaults(cfg);
    FirstEntryIsOpen(q);
    PositiveConfig(cfg);
    StaleThenRevived(FirstEntry(q), c, store, q.Now() + c.staleAfter, q.Now() + c.staleAfter + c.dedupeWindow + 1);
  }

  lemma PositiveConfig(cfg: Config)
    ensures var c := ConfigOrDefaults(cfg); c.staleAfter > 0 && c.dedupeWindow > 0
  {
  }

  /** The states the manager passes through. */
  lemma RevivalStates(cfg: Config, q: Request, store: OrderSpec.StoreValue)
    requires FirstRequest(q) && ReportsOpen(q, store)
    ensures var c := ConfigOrDefaults(cfg); var ops := Revival(cfg, q, store);
      && Apply(NewManager(cfg), ops[0]) == Alone(c, FirstEntry(q), true)
      && Apply(Alone(c, FirstEntry(q), true), ops[1]) == Alone(c, StaleEntry(cfg, q), true)
      && Apply(Alone(c, StaleEntry(cfg, q), true), ops[2]) == Alone(c, StaleEntry(cfg, q), false)
      && Apply(Alone(c, StaleEntry(cfg, q), false), ops[3]) == Alone(c, RevivedEntry(cfg, q, store), false)
  {
    hide FirstEntry, StaleEntry, NewManager, Executed, SweptEntry, Swept, ReportsOpen, Validate, ClassifyAction, Prepared,
         MapPayloadStatus, TrimSpace, Alone, Expired, Unfollowed;
    var c, ops := ConfigOrDefaults(cfg), Revival(cfg, q, store);
    RevivalEntries(cfg, q, store);
    FirstExecution(cfg, q);
    SweepAlone(c, FirstEntry(q), true, None, ops[1].now);
    SweepAlone(c, StaleEntry(cfg, q), true, None, ops[2].now);
    SweepAlone(c, StaleEntry(cfg, q), false, Some(store), ops[3].now);
  }

  lemma RevivalIsTrusted(cfg: Config, q: Request, store: OrderSpec.StoreValue)
    requires FirstRequest(q) && ReportsOpen(q, store)
    ensures TrustedRun(NewManager(cfg), ZERO_TIME, Revival(cfg, q, store))
    ensures After(NewManager(cfg), Revival(cfg, q, store))
         == Alone(ConfigOrDefaults(cfg), RevivedEntry(cfg, q, store), false)
  {
    hide FirstEntry, StaleEntry, RevivedEntry, NewManager, Executed, SweptEntry, Swept, Find, Shown, Apply,
         Expired, Reported, Validate, ClassifyAction, Prepared, MapPayloadStatus, TrimSpace, Unfollowed;
    var c, ops := ConfigOrDefaults(cfg), Revival(cfg, q, store);
    RevivalStates(cfg, q, store);
    RevivalEntries(cfg, q, store);
    FirstEntryIsOpen(q);
    var m1, m2, m3 := Alone(c, FirstEntry(q), true), Alone(c, StaleEntry(cfg, q), true), Alone(c, StaleEntry(cfg, q), false);
    FirstIsUsable(cfg, q);
    NoLookupLeavesReleased(m1);
    NoLookupLeavesReleased(m2);
    StaleIsInOrder(m3, q, store, ops[3].now);
    RunInFour(NewManager(cfg), m1, m2, m3, Alone(c, RevivedEntry(cfg, q, store), false), ZERO_TIME, ops);
  }

  lemma RunInFour(m0: Mgr, m1: Mgr, m2: Mgr, m3: Mgr, m4: Mgr, t: Time, ops: seq<Op>)
    requires |ops| == 4
    requires Fits(m0, t, ops[0]) && Fits(m1, OpTime(ops[0]), ops[1]) && Fits(m2, OpTime(ops[1]), ops[2])
    requires Fits(m3, OpTime(ops[2]), ops[3])
    requires Apply(m0, ops[0]) == m1 && Apply(m1, ops[1]) == m2 && Apply(m2, ops[2]) == m3 && Apply(m3, ops[3]) == m4
    ensures TrustedRun(m0, t, ops) && After(m0, ops) == m4
  {
    hide Fits, Apply, OpTime;
    var rest1, rest2, rest3 := ops[1..], ops[2..], ops[3..];
    assert rest1[0] == ops[1] && rest1[1..] == rest2 && rest2[0] == ops[2] && rest2[1..] == rest3 && rest3[0] == ops[3]
           && rest3[1..] == [];
    assert TrustedRun(m3, OpTime(ops[2]), rest3) && After(m3, rest3) == m4;
    assert TrustedRun(m2, OpTime(ops[1]), rest2) && After(m2, rest2) == m4;
    assert TrustedRun(m1, OpTime(ops[0]), rest1) && After(m1, rest1) == m4;
  }

  lemma FirstIsUsable(cfg: Config, q: Request)
    requires FirstRequest(q)
    ensures Fits(NewManager(cfg), ZERO_TIME, Execute(q))
  {
    hide Validate, Prepared, MapPayloadStatus, ClassifyAction, TrimSpace, Shown, Accepted, NewResult, Swept;
    NoLookupLeavesReleased(NewManager(cfg));
    NoLookupLeavesReleased(Opened(NewManager(cfg), q));
  }

  lemma StaleIsInOrder(m: Mgr, q: Request, store: OrderSpec.StoreValue, now: Time)
    requires FirstRequest(q) && ReportsOpen(q, store) && |m.history| == 1
    requires m.history[0].Status() == Stale
    requires m.history[0].result.localOrderId == Shown(q.broker.value.payload.localOrderId)
    requires m.history[0].result.brokerOrderId == Shown(q.broker.value.payload.brokerOrderId)
    ensures AllEndInOrder(m, Some(store), now) && ReopensNoneSoon(m, Some(store), now)
  {
    hide Find, Shown, FirstRequest;
  }

  /** There are runs that keep to everything asked of the clock and the order store and after which a restart
      at the same instant does not give the manager back: whenever an accepted execution goes stale unobserved,
      gives up its key, and its order is then seen open. */
  lemma RestartCanDiffer(cfg: Config, q: Request, store: OrderSpec.StoreValue)
    requires FirstRequest(q) && ReportsOpen(q, store)
    ensures var ops := Revival(cfg, q, store);
      var saved, now := After(NewManager(cfg), ops), ClockAfter(ZERO_TIME, ops);
      && TrustedRun(NewManager(cfg), ZERO_TIME, ops) && !Complete(saved, now)
      && Restored(NewManager(saved.cfg), Snapshot(saved), None, now).latest != saved.latest
  {
    hide FirstEntry, StaleEntry, RevivedEntry, NewManager, Executed, SweptEntry, Swept, Find, Shown, Apply, Expired, Complete,
         TrustedRun, Restored, Snapshot, Bookkept, Validate, ClassifyAction, Prepared, MapPayloadStatus, TrimSpace,
         Unfollowed;
    var c, ops := ConfigOrDefaults(cfg), Revival(cfg, q, store);
    RevivalIsTrusted(cfg, q, store);
    RevivalEntries(cfg, q, store);
    var saved, now := After(NewManager(cfg), ops), ClockAfter(ZERO_TIME, ops);
    AloneIsIncomplete(c, RevivedEntry(cfg, q, store), now);
    SavedIsSwept(cfg, q, store);
    RestartIsExact(saved, None, now);
  }

  /** What the run leaves is what a snapshot at the same instant saves. */
  lemma SavedIsSwept(cfg: Config, q: Request, store: OrderSpec.StoreValue)
    requires FirstRequest(q) && ReportsOpen(q, store)
    ensures var saved, now := After(NewManager(cfg), Revival(cfg, q, store)), ClockAfter(ZERO_TIME, Revival(cfg, q, store));
      Swept(saved, None, now) == saved && Bookkept(saved)
  {
    hide FirstEntry, StaleEntry, NewManager, Executed, SweptEntry, Swept, Find, Shown, Apply, Expired, TrustedRun, Bookkept,
         Inv, Apart, Live, Alone, After, Validate, ClassifyAction, Prepared, MapPayloadStatus, TrimSpace, Unfollowed;
    var c, ops := ConfigOrDefaults(cfg), Revival(cfg, q, store);
    RevivalIsTrusted(cfg, q, store);
    RevivalEntries(cfg, q, store);
    NewManagerInv(cfg);
    RunKeepsInv(NewManager(cfg), ZERO_TIME, ops);
    var now := ClockAfter(ZERO_TIME, ops);
    InvIsApart(After(NewManager(cfg), ops), now);
    BooksOfApart(After(NewManager(cfg), ops), now);
    SweepTwice(StaleEntry(cfg, q), Some(store), c, now);
    SweepAlone(c, RevivedEntry(cfg, q, store), false, None, now);
  }

  /** A market order for one share, accepted by the broker as order "o", and an order store that lists it. */
  const SAMPLE := Request(
    Intent("", "", "X", "", "open_long", 1.0, "", 0.0, 0.0, "", 1, true, false, "", 1),
    Gate("", true, true, true, ""), None,
    Some(Taken(Payload(Some("open"), 0.0, 0.0, Some("o"), None))), None, 1)

  const LISTED := OrderModel.Record(
    "o", "", OrderModel.Intent.EntryLong, "X", "", "", OrderModel.Status.Accepted, "", 1.0, 0.0, 1.0, 0.0,
    OrderModel.LocalSubmission, OrderModel.AwaitingAck, OrderModel.LocalPending, OrderModel.Confidence.Pending,
    OrderModel.AwaitingAck, false, 1, 1, ZERO_TIME)

  /** Such requests and order stores exist. */
  lemma RevivalHappens()
    ensures FirstRequest(SAMPLE) && ReportsOpen(SAMPLE, OrderSpec.EMPTY_STORE.(orders := map["o" := LISTED]))
  {
    hide Validate, ClassifyAction, MapPayloadStatus, Find;
    SampleIsValid();
    SampleIsOpen();
    SampleIsListed();
    assert TrimSpace("") == "";
  }

  lemma SampleIsValid()
    ensures Validate(Prepared(SAMPLE.intent, 1, 1), SAMPLE.gate) == NoProblem
    ensures ClassifyAction(SAMPLE.intent.actionType) == Entering
  {
    hide ExecutionId, UpperTrim, LowerTrim, TrimSpace;
    OpenLongIsLower();
    MarketIsLower();
    BlankAndLetter();
  }

  lemma OpenLongIsLower()
    ensures LowerTrim("open_long") == "open_long"
  {
    hide TrimLeft, TrimRight;
    assert TrimSpace("open_long") == "open_long";
    assert ToLower("open_long") == "open_long";
  }

  lemma MarketIsLower()
    ensures LowerTrim("market") == "market"
  {
    hide TrimLeft, TrimRight;
    assert TrimSpace("market") == "market";
    assert ToLower("market") == "market";
  }

  lemma BlankAndLetter()
    ensures TrimSpace("") == "" && TrimSpace("X") == "X"
  {
  }

  lemma SampleIsOpen()
    ensures MapPayloadStatus(SAMPLE.broker.value.payload, 1.0) == Submitted
  {
    assert TrimSpace("open") == "open";
    assert |UpperOf("open")| == 4;
  }

  lemma SampleIsListed()
    ensures var store := OrderSpec.EMPTY_STORE.(orders := map["o" := LISTED]);
      Find(Some(store), Shown(Some("o")), Shown(None)) == Some(LISTED)
  {
    assert TrimSpace("o") == "o";
  }

  // ---- Looks at the order store ----

  /** A closed execution stays closed through a look exactly when its order is not reported open, even if
      it was the broker's own answer that closed it. */
  lemma LookKeepsClosedIff(e: Entry, lookup: Lookup, now: Time)
    requires e.Status().Closed()
    ensures RefreshedEntry(e, lookup, now).Status().Closed()
      <==> Reported(e, lookup).None? || Reported(e, lookup).value.Closed()
  {
    hide Find, EventTime;
  }

  /** An answer without an order id leaves the text "<nil>" in its place, and no look at the order store ever
      fills in the real one. */
  lemma MissingOrderIdStays(i: Intent, p: Payload, lookup: Lookup, now: Time)
    ensures var accepted := Accepted(NewResult(i), p, i.quantity, now);
      && (p.localOrderId.None? ==> accepted.localOrderId == "<nil>")
      && (p.brokerOrderId.None? ==> accepted.brokerOrderId == "<nil>")
    ensures forall r: Result ::
      && (r.localOrderId == "<nil>" ==> Refreshed(r, lookup, now).localOrderId == "<nil>")
      && (r.brokerOrderId == "<nil>" ==> Refreshed(r, lookup, now).brokerOrderId == "<nil>")
  {
    hide Find, MapPayloadStatus, BuildDedupeKey, FillOf, MapRecordStatus, EventTime;
    assert Trimmed("<nil>");
  }

  // ---- An id used twice ----

  /** When the oldest of two executions under one id is evicted, the id is forgotten although the other is still in
      the history, and after the next sweep that one stands for no key: nothing holds back a request like it. */
  lemma RepeatedIdIsForgotten(m: Mgr, e: Entry, lookup: Lookup, now: Time, j: nat)
    requires 0 < j < |m.history| && m.history[j].Id() == m.history[0].Id() && e.Id() != m.history[0].Id()
    requires |m.history| == m.cfg.maxHistory && Unfollowed(m.history[j])
    ensures var s := Swept(Stored(m, e), lookup, now);
      && PositionOf(Stored(m, e), m.history[0].Id()).None?
      && |s.history| == |m.history| && SameRequest(m.history[j], s.history[j - 1])
      && !StandsForKey(s.history[j - 1], s.latest)
  {
    hide SweptEntry, Unfollowed;
    StoredHistory(m, e);
    var m' := Stored(m, e);
    assert m'.history[j - 1] == m.history[j];
    SweptHistoryAt(m', lookup, now, j - 1);
    SweepKeepsRequest(m.history[j], lookup, m.cfg, now);
    SweptConfig(m', lookup, now);
  }
}
