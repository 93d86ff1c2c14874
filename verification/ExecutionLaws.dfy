/** How far apart submissions of one dedupe key are: more than the dedupe window whatever the order store
    reopens, and more than the stale threshold as well while the earlier one is unresolved, as long as the order
    store reopens nothing that recently gave up its key. */
module ExecutionLaws {
  import opened Basics
  import opened Text
  import OrderModel
  import opened ExecutionModel
  import opened ExecutionSpec
  import opened ExecutionIndex

  // ---- Apart by the dedupe window ----

  /** An execution ends no earlier than it was asked for. */
  predicate Dated(e: Entry, t: Time) {
    var created, completed := e.intent.createdAt, e.result.completedAt;
    created != ZERO_TIME && created <= t && (completed == ZERO_TIME || created <= completed)
  }

  /** An execution that no longer stands for its key was asked for longer ago than the dedupe window. */
  predicate WindowAgo(e: Entry, m: Mgr, t: Time) {
    e.Status().Registers() && !StandsForKey(e, m.latest) ==> t - e.intent.createdAt > m.cfg.dedupeWindow
  }

  predicate Apart(m: Mgr, t: Time) {
    Bookkept(m) && forall i | 0 <= i < |m.history| :: Dated(m.history[i], t) && WindowAgo(m.history[i], m, t)
  }

  /** A look at the order store does not date the end of the execution before it was asked for. */
  predicate EndsInOrder(e: Entry, lookup: Lookup, now: Time) {
    var found := Find(lookup, e.result.localOrderId, e.result.brokerOrderId);
    found.Some? && found.value.status.Terminal() && e.result.completedAt == ZERO_TIME ==>
      EventTime(found.value, now) == ZERO_TIME || EventTime(found.value, now) >= e.intent.createdAt
  }

  predicate AllEndInOrder(m: Mgr, lookup: Lookup, now: Time) {
    forall i | 0 <= i < |m.history| :: EndsInOrder(m.history[i], lookup, now)
  }

  lemma RefreshKeepsDated(e: Entry, lookup: Lookup, now: Time)
    requires Dated(e, now) && EndsInOrder(e, lookup, now)
    ensures Dated(RefreshedEntry(e, lookup, now), now)
  {
    hide Find, EventTime;
  }

  lemma SweepKeepsDated(e: Entry, lookup: Lookup, cfg: Config, t: Time, now: Time)
    requires Dated(e, t) && t <= now && EndsInOrder(e, lookup, now)
    ensures Dated(SweptEntry(e, lookup, cfg, now), now)
  {
    hide RefreshedEntry, EndsInOrder;
    RefreshKeepsDated(e, lookup, now);
  }

  /** An execution whose key is given up in a sweep ended, and so was asked for, longer ago than the window. */
  lemma ReleasedInSweep(m: Mgr, lookup: Lookup, now: Time, i: nat)
    requires Bookkept(m) && i < |m.history| && StandsForKey(m.history[i], m.latest)
    ensures var m' := Swept(m, lookup, now);
      |m'.history| == |m.history|
      && (!StandsForKey(m'.history[i], m'.latest) ==> Expired(m'.history[i], m.cfg, now))
  {
    hide SweptEntry, LastOf, NamedEntry, Unfollowed, Expired, IndexExact, UniqueIds, LatestAgrees;
    SweepKeepsBooks(m, lookup, now);
    PositionOfUnique(Swept(m, lookup, now), i);
  }

  /** What stood for no key before a sweep stands for none after it. */
  lemma SweepGivesNoKey(m: Mgr, lookup: Lookup, now: Time, i: nat)
    requires Bookkept(m) && i < |m.history|
    ensures var m' := Swept(m, lookup, now);
      && |m'.history| == |m.history| && SameRequest(m.history[i], m'.history[i])
      && (StandsForKey(m'.history[i], m'.latest) ==> StandsForKey(m.history[i], m.latest))
  {
    hide SweptEntry, LastOf, NamedEntry, Unfollowed, StillStands;
    SweepKeepsBooks(m, lookup, now);
  }

  lemma SweepKeepsApart(m: Mgr, lookup: Lookup, t: Time, now: Time)
    requires Apart(m, t) && t <= now && AllEndInOrder(m, lookup, now)
    ensures Apart(Swept(m, lookup, now), now)
  {
    hide Bookkept, SweptEntry, Swept, StandsForKey, EndsInOrder;
    SweepKeepsBooks(m, lookup, now);
    SweptConfig(m, lookup, now);
    var m' := Swept(m, lookup, now);
    forall i | 0 <= i < |m'.history| ensures Dated(m'.history[i], now) && WindowAgo(m'.history[i], m', now) {
      SweptHistoryAt(m, lookup, now, i);
      SweepGivesNoKey(m, lookup, now, i);
      SweepKeepsDated(m.history[i], lookup, m.cfg, t, now);
      if StandsForKey(m.history[i], m.latest) {
        ReleasedInSweep(m, lookup, now, i);
      }
    }
  }

  lemma BooksOfApart(m: Mgr, t: Time)
    requires Apart(m, t)
    ensures Bookkept(m)
  {
  }

  /** A look at the execution that stands for a key may revive it: it still stands. */
  lemma RefreshKeepsApart(m: Mgr, at: nat, lookup: Lookup, now: Time)
    requires Apart(m, now) && at < |m.history| && StandsForKey(m.history[at], m.latest)
    requires EndsInOrder(m.history[at], lookup, now)
    ensures Apart(WithRefreshed(m, at, lookup, now), now)
  {
    hide Indexed, Unfollowed, RefreshedEntry, EndsInOrder;
    RefreshKeepsBooks(m, at, lookup, now);
    RefreshKeepsRequest(m.history[at], lookup, now);
    RefreshKeepsDated(m.history[at], lookup, now);
  }

  /** Every execution of the key was asked for longer ago than the window. */
  predicate KeyApart(m: Mgr, key: string, t: Time) {
    forall i | 0 <= i < |m.history| && m.history[i].Key() == key && m.history[i].Status().Registers() ::
      t - m.history[i].intent.createdAt > m.cfg.dedupeWindow
  }

  lemma StoreKeepsApart(m: Mgr, e: Entry, now: Time)
    requires Apart(m, now) && NamedEntry(e, m.nextId) && Unfollowed(e) && Dated(e, now)
    requires forall i | 0 <= i < |m.history| :: m.history[i].Id() != e.Id()
    requires e.Status().Registers() ==> KeyApart(m, e.Key(), now)
    ensures Apart(Stored(m, e), now)
  {
    hide NamedEntry, LastOf, Unfollowed, Dated, IndexExact, Stored;
    StoreKeepsBooks(m, e);
    StoredHistory(m, e);
    var m' := Stored(m, e);
    var h := m.history + [e];
    var shift := if |h| > m.cfg.maxHistory then 1 else 0;
    assert m'.history == h[shift..];
    forall i | 0 <= i < |m'.history|
      ensures Dated(m'.history[i], now) && WindowAgo(m'.history[i], m', now)
    {
      assert m'.history[i] == h[i + shift];
      if i + shift < |m.history| {
        assert m'.history[i] == m.history[i + shift];
        StillStanding(m, e, i + shift);
      }
    }
  }

  // ---- Execute ----

  /** The looks of a request date no end before what it ends was asked for: the sweep's, the second one at the
      execution standing for the key, and the one after submission. */
  predicate LooksInOrder(m: Mgr, q: Request) {
    var i := Prepared(q.intent, m.nextId + 1, q.Now());
    && AllEndInOrder(m, q.before, q.Now())
    && AllEndInOrder(Opened(m, q), q.before, q.Now())
    && (q.broker.Some? && q.broker.value.Taken? ==>
          EndsInOrder(Entry(i, Accepted(NewResult(i), q.broker.value.payload, i.quantity, q.Now())), q.after, q.Now()))
  }

  /** A request as it can arrive at a manager last used at time t. */
  predicate Usable(m: Mgr, t: Time, q: Request) {
    q.Now() != ZERO_TIME && t <= q.Now() && UsableId(m, q.intent.intentId) && LooksInOrder(m, q)
  }

  lemma ResultIsDated(m: Mgr, q: Request, d: Decision)
    requires q.Now() != ZERO_TIME && LooksInOrder(m, q)
    ensures var i := Prepared(q.intent, m.nextId + 1, q.Now());
      Dated(Entry(i, ResultOf(i, d, q.broker, q.after, q.Now())), q.Now())
  {
    hide Find, MapPayloadStatus, MapRefusal, BuildDedupeKey, Shown, FillOf, RefreshedEntry, ClassifyAction, EndsInOrder,
         AllEndInOrder, TrimSpace, ExecutionId;
    var i := Prepared(q.intent, m.nextId + 1, q.Now());
    if q.broker.Some? && q.broker.value.Taken? {
      var accepted := Entry(i, Accepted(NewResult(i), q.broker.value.payload, i.quantity, q.Now()));
      RefreshKeepsDated(accepted, q.after, q.Now());
      RefreshedEntryIs(accepted, q.after, q.Now());
    }
  }

  lemma RefreshedEntryIs(e: Entry, lookup: Lookup, now: Time)
    ensures RefreshedEntry(e, lookup, now) == Entry(e.intent, Refreshed(e.result, lookup, now))
  {
  }

  lemma OpenedKeepsApart(m: Mgr, t: Time, q: Request)
    requires Apart(m, t) && t <= q.Now() && AllEndInOrder(m, q.before, q.Now())
    ensures Apart(Opened(m, q), q.Now())
  {
    hide Bookkept, Swept, Dated, EndsInOrder, StandsForKey;
    SweepKeepsApart(m, q.before, t, q.Now());
    OpenedKeepsBooks(m, q);
  }

  lemma KeyApartUnlessStanding(m: Mgr, key: string, now: Time)
    requires Apart(m, now) && StandingFor(m, key).None?
    ensures KeyApart(m, key, now)
  {
    hide NamedEntry, Unfollowed, LastOf;
    forall i | 0 <= i < |m.history| && m.history[i].Key() == key && m.history[i].Status().Registers()
      ensures now - m.history[i].intent.createdAt > m.cfg.dedupeWindow
    {
      assert WindowAgo(m.history[i], m, now);
      PositionOfUnique(m, i);
    }
  }

  lemma KeyApartWhenSent(m: Mgr, key: string, at: nat, now: Time)
    requires Apart(m, now) && key in m.latest && at < |m.history| && m.latest[key] == m.history[at].Id()
    requires DecideAgainst(m.history[at], m.cfg, now) == Send
    ensures KeyApart(m, key, now)
  {
    hide NamedEntry, Unfollowed, LastOf;
    forall i | 0 <= i < |m.history| && m.history[i].Key() == key && m.history[i].Status().Registers()
      ensures now - m.history[i].intent.createdAt > m.cfg.dedupeWindow
    {
      assert WindowAgo(m.history[i], m, now) && Dated(m.history[i], now);
      if i != at {
        assert m.history[i].Id() != m.history[at].Id();
      }
    }
  }

  /** A request is sent on only when every execution of its key was asked for longer ago than the window. */
  lemma DecisionKeepsApart(m: Mgr, t: Time, q: Request)
    requires Apart(m, t) && t <= q.Now() && LooksInOrder(m, q)
    ensures var (m', d) := DecisionOn(m, q);
      Apart(m', q.Now()) && (d == Send ==> KeyApart(m', KeyOf(m, q), q.Now()))
  {
    hide Apart, Validate, BuildDedupeKey, DecideAgainst, Swept, KeyApart, EndsInOrder, Prepared, RefreshedEntry,
         StandsForKey, Bookkept, Indexed;
    var now, s, key := q.Now(), Opened(m, q), KeyOf(m, q);
    OpenedKeepsApart(m, t, q);
    BooksOfApart(s, now);
    BooksAreIndexed(s);
    var at := StandingFor(s, key);
    if at.None? {
      KeyApartUnlessStanding(s, key, now);
    } else {
      StandingPosition(s, key);
      RefreshKeepsApart(s, at.value, q.before, now);
      RefreshKeepsIntent(s.history[at.value], q.before, now);
      var s' := WithRefreshed(s, at.value, q.before, now);
      if DecideAgainst(s'.history[at.value], s.cfg, now) == Send {
        KeyApartWhenSent(s', key, at.value, now);
      }
    }
  }

  /** Every request, however it ends and whatever the order store reopens, keeps the window between
      submissions of a key. */
  lemma ExecuteKeepsApart(m: Mgr, t: Time, q: Request)
    requires Apart(m, t) && Usable(m, t, q)
    ensures Apart(Executed(m, q).manager, q.Now())
  {
    hide Decided, KeyApart, Stored, ResultOf, BuildDedupeKey, NamedEntry, Dated, Trimmed, LooksInOrder, Unfollowed, UsableId,
         LatestAgrees, WindowAgo, SameRequest;
    var i := Prepared(q.intent, m.nextId + 1, q.Now());
    var (m', d) := DecisionOn(m, q);
    var result := ResultOf(i, d, q.broker, q.after, q.Now());
    DecisionKeepsBooks(m, q);
    DecisionKeepsApart(m, t, q);
    ResultIsFollowed(q, i, d);
    ResultIsDated(m, q, d);
    PreparedIsNamed(m, q, result);
    NewAfterDecision(m, m', i.intentId);
    StoreKeepsApart(m', Entry(i, result), q.Now());
  }

  lemma NewAfterDecision(m: Mgr, m': Mgr, id: string)
    requires SameRequests(m.history, m'.history) && forall j | 0 <= j < |m.history| :: m.history[j].Id() != id
    ensures forall j | 0 <= j < |m'.history| :: m'.history[j].Id() != id
  {
  }

  /** The broker is asked only when every execution of the key in the history was asked for longer ago than
      the dedupe window. */
  lemma BrokerCallsAreApart(m: Mgr, t: Time, q: Request)
    requires Apart(m, t) && Usable(m, t, q) && CallsBroker(m, q)
    ensures Executed(m, q).result.dedupeKey == KeyOf(m, q) && KeyApart(m, KeyOf(m, q), q.Now())
  {
    hide Apart, LooksInOrder, UsableId, Decided, BuildDedupeKey, ResultOf, Prepared, Stored, Bookkept;
    DecisionKeepsApart(m, t, q);
    BooksOfApart(m, t);
    DecisionKeepsBooks(m, q);
    ResultIsFollowed(q, Prepared(q.intent, m.nextId + 1, q.Now()), Send);
  }

  // ---- Apart by the stale threshold as well ----

  /** An execution is submitted when it is asked for, and stale no earlier than the threshold after that. */
  predicate OnTime(e: Entry, cfg: Config) {
    && (e.result.submittedAt == ZERO_TIME || e.result.submittedAt == e.intent.createdAt)
    && (e.Status() == Stale ==>
          e.result.completedAt != ZERO_TIME && e.result.completedAt - e.intent.createdAt >= cfg.staleAfter)
  }

  /** A stale execution that no longer stands for its key was asked for that much longer ago. */
  predicate StaleAgo(e: Entry, m: Mgr, t: Time) {
    e.Status() == Stale && !StandsForKey(e, m.latest) ==>
      t - e.intent.createdAt > m.cfg.staleAfter + m.cfg.dedupeWindow
  }

  predicate Inv(m: Mgr, t: Time) {
    && Live(m, t) && Apart(m, t)
    && forall i | 0 <= i < |m.history| :: OnTime(m.history[i], m.cfg) && StaleAgo(m.history[i], m, t)
  }

  /** Of the executions that have given up their key the lookup reopens only those submitted longer ago than
      the stale threshold and the dedupe window together. */
  predicate ReopensNoneSoon(m: Mgr, lookup: Lookup, now: Time) {
    ReopensNoneBefore(m, lookup, now, m.cfg.staleAfter + m.cfg.dedupeWindow + 1)
  }

  lemma SoonIsEarly(m: Mgr, lookup: Lookup, now: Time)
    requires ReopensNoneSoon(m, lookup, now) && Bookkept(m)
    ensures ReopensNoneEarly(m, lookup, now)
  {
    hide Reopens, StandsForKey, NamedEntry, LatestAgrees, UniqueIds, Unfollowed;
  }

  lemma SweepKeepsOnTime(e: Entry, lookup: Lookup, cfg: Config, now: Time)
    requires OnTime(e, cfg) && now != ZERO_TIME
    ensures OnTime(SweptEntry(e, lookup, cfg, now), cfg)
  {
    hide Find, MapRecordStatus, EventTime;
    forall record: OrderModel.Record ensures MappedStatus(record) {
      RecordStatus(record);
    }
  }

  /** An execution is stale after a sweep if it was, was in flight, or was reopened. */
  lemma StaleAfterSweep(e: Entry, lookup: Lookup, cfg: Config, t: Time, now: Time)
    requires LiveEntry(e, cfg, t) && Unfollowed(e) && SweptEntry(e, lookup, cfg, now).Status() == Stale
    ensures e.Status() == Stale || e.Status().InFlight() || Reopens(e, lookup)
  {
    hide Find, EventTime;
  }

  lemma SweepKeepsInv(m: Mgr, lookup: Lookup, t: Time, now: Time)
    requires Inv(m, t) && t <= now && now != ZERO_TIME
    requires AllEndInOrder(m, lookup, now) && ReopensNoneSoon(m, lookup, now)
    ensures Inv(Swept(m, lookup, now), now)
  {
    hide Live, Apart, Bookkept, SweptEntry, Swept, StandsForKey, AllEndInOrder, Reopens, Expired, OnTime, SameRequest;
    BooksOfApart(m, t);
    SoonIsEarly(m, lookup, now);
    SweepKeepsLive(m, lookup, t, now);
    SweepKeepsApart(m, lookup, t, now);
    SweepKeepsBooks(m, lookup, now);
    SweptConfig(m, lookup, now);
    var m' := Swept(m, lookup, now);
    forall i | 0 <= i < |m'.history| ensures OnTime(m'.history[i], m'.cfg) && StaleAgo(m'.history[i], m', now) {
      SweptHistoryAt(m, lookup, now, i);
      SweepKeepsOnTime(m.history[i], lookup, m.cfg, now);
      SweepKeepsStaleAgo(m, lookup, t, now, i);
    }
  }

  lemma SweepKeepsStaleAgo(m: Mgr, lookup: Lookup, t: Time, now: Time, i: nat)
    requires Inv(m, t) && t <= now && now != ZERO_TIME && ReopensNoneSoon(m, lookup, now) && i < |m.history|
    ensures |Swept(m, lookup, now).history| == |m.history|
    ensures StaleAgo(Swept(m, lookup, now).history[i], Swept(m, lookup, now), now)
  {
    hide Apart, Bookkept, SweptEntry, Swept, StandsForKey, Reopens, LiveEntry, SameShape, SameRequests, Unfollowed;
    BooksOfApart(m, t);
    SweepKeepsBooks(m, lookup, now);
    SweptConfig(m, lookup, now);
    SweptHistoryAt(m, lookup, now, i);
    SweepGivesNoKey(m, lookup, now, i);
    EntryOfLive(m, t, i);
    var e, e' := m.history[i], Swept(m, lookup, now).history[i];
    SweepKeepsOnTime(e, lookup, m.cfg, now);
    if e'.Status() == Stale && !StandsForKey(e', Swept(m, lookup, now).latest) {
      StaleAfterSweep(e, lookup, m.cfg, t, now);
      if StandsForKey(e, m.latest) {
        ReleasedInSweep(m, lookup, now, i);
      }
    }
  }

  lemma RefreshKeepsOnTime(e: Entry, lookup: Lookup, cfg: Config, now: Time)
    requires OnTime(e, cfg)
    ensures OnTime(RefreshedEntry(e, lookup, now), cfg)
  {
    hide Find, MapRecordStatus, EventTime;
    forall record: OrderModel.Record ensures MappedStatus(record) {
      RecordStatus(record);
    }
  }

  lemma RefreshKeepsInv(m: Mgr, at: nat, lookup: Lookup, now: Time)
    requires Inv(m, now) && at < |m.history| && StandsForKey(m.history[at], m.latest)
    requires EndsInOrder(m.history[at], lookup, now)
    ensures Inv(WithRefreshed(m, at, lookup, now), now)
  {
    hide Live, Apart, RefreshedEntry, EndsInOrder, OnTime, Unfollowed;
    RefreshKeepsLive(m, at, lookup, now);
    RefreshKeepsApart(m, at, lookup, now);
    RefreshKeepsOnTime(m.history[at], lookup, m.cfg, now);
    BooksOfApart(m, now);
    RefreshKeepsStanding(m, at, lookup, now);
  }

  lemma RefreshKeepsStanding(m: Mgr, at: nat, lookup: Lookup, now: Time)
    requires Bookkept(m) && at < |m.history| && StandsForKey(m.history[at], m.latest)
    ensures StandsForKey(RefreshedEntry(m.history[at], lookup, now), m.latest)
  {
    hide Indexed, RefreshedEntry;
    RefreshKeepsRequest(m.history[at], lookup, now);
  }

  /** Every unresolved execution of the key was asked for that much longer ago. */
  predicate KeyResolved(m: Mgr, key: string, t: Time) {
    forall i | 0 <= i < |m.history| && m.history[i].Key() == key && m.history[i].Status() == Stale ::
      t - m.history[i].intent.createdAt > m.cfg.staleAfter + m.cfg.dedupeWindow
  }

  lemma StoreKeepsInv(m: Mgr, e: Entry, now: Time)
    requires Inv(m, now) && NamedEntry(e, m.nextId) && Unfollowed(e) && Dated(e, now) && LiveEntry(e, m.cfg, now)
    requires OnTime(e, m.cfg) && e.Status() != Stale
    requires forall i | 0 <= i < |m.history| :: m.history[i].Id() != e.Id()
    requires e.Status().Registers() ==>
      KeyIdle(m, e.Key()) && KeyApart(m, e.Key(), now) && KeyResolved(m, e.Key(), now)
    ensures Inv(Stored(m, e), now)
  {
    hide NamedEntry, LastOf, Unfollowed, Dated, LiveEntry, OnTime, KeyIdle, KeyApart, AloneInFlight, WindowAgo, LatestAgrees, Stored,
         IndexExact, UniqueIds;
    StoreKeepsLive(m, e, now);
    StoreKeepsApart(m, e, now);
    StoredHistory(m, e);
    var m' := Stored(m, e);
    var h := m.history + [e];
    var shift := if |h| > m.cfg.maxHistory then 1 else 0;
    assert m'.history == h[shift..];
    forall i | 0 <= i < |m'.history|
      ensures OnTime(m'.history[i], m'.cfg) && StaleAgo(m'.history[i], m', now)
    {
      assert m'.history[i] == h[i + shift];
      if i + shift < |m.history| {
        assert m'.history[i] == m.history[i + shift];
        assert Indexed(m) by { BooksOfApart(m, now); BooksAreIndexed(m); }
        StillStanding(m, e, i + shift);
      }
    }
  }

  lemma KeyResolvedWhenSent(m: Mgr, key: string, now: Time)
    requires Inv(m, now)
    requires StandingFor(m, key).Some? ==> m.history[StandingFor(m, key).value].Status() != Stale
    ensures KeyResolved(m, key, now)
  {
    hide NamedEntry, Unfollowed, LastOf, LiveEntry, Dated, WindowAgo, AloneInFlight, OnTime;
    forall i | 0 <= i < |m.history| && m.history[i].Key() == key && m.history[i].Status() == Stale
      ensures now - m.history[i].intent.createdAt > m.cfg.staleAfter + m.cfg.dedupeWindow
    {
      assert StaleAgo(m.history[i], m, now);
      PositionOfUnique(m, i);
    }
  }

  lemma DecisionKeepsInv(m: Mgr, t: Time, q: Request)
    requires Inv(m, t) && t <= q.Now() && q.Now() != ZERO_TIME && LooksInOrder(m, q)
    requires ReopensNoneSoon(m, q.before, q.Now())
    ensures var (m', d) := DecisionOn(m, q);
      Inv(m', q.Now()) && (d == Send ==> KeyResolved(m', KeyOf(m, q), q.Now()))
  {
    hide Inv, Validate, BuildDedupeKey, Swept, KeyResolved, EndsInOrder, Prepared, RefreshedEntry,
         StandsForKey, Bookkept, Indexed, Apart, Live, ReopensNoneSoon;
    var now, s, key := q.Now(), Opened(m, q), KeyOf(m, q);
    OpenedKeepsInv(m, t, q);
    InvIsApart(s, now);
    BooksOfApart(s, now);
    BooksAreIndexed(s);
    var at := StandingFor(s, key);
    if at.None? {
      KeyResolvedWhenSent(s, key, now);
    } else {
      StandingPosition(s, key);
      RefreshKeepsInv(s, at.value, q.before, now);
      var s' := WithRefreshed(s, at.value, q.before, now);
      RefreshKeepsBooks(s, at.value, q.before, now);
      SameStanding(s, s', at.value, key, q.before, now);
      if s'.history[at.value].Status() != Stale {
        KeyResolvedWhenSent(s', key, now);
      }
    }
  }

  lemma InvIsApart(m: Mgr, t: Time)
    requires Inv(m, t)
    ensures Apart(m, t) && Live(m, t)
  {
  }

  lemma OpenedKeepsInv(m: Mgr, t: Time, q: Request)
    requires Inv(m, t) && t <= q.Now() && q.Now() != ZERO_TIME && AllEndInOrder(m, q.before, q.Now())
    requires ReopensNoneSoon(m, q.before, q.Now())
    ensures Inv(Opened(m, q), q.Now())
  {
    hide Bookkept, Swept, Dated, EndsInOrder, StandsForKey, OnTime, LiveEntry, Apart, Live, ReopensNoneSoon, ReopensNoneEarly;
    SweepKeepsInv(m, q.before, t, q.Now());
    InvIsApart(m, t);
    BooksOfApart(m, t);
    SoonIsEarly(m, q.before, q.Now());
    OpenedKeepsApart(m, t, q);
    OpenedIsLive(m, t, q);
  }

  lemma ResultIsOnTime(m: Mgr, q: Request, d: Decision)
    ensures var i := Prepared(q.intent, m.nextId + 1, q.Now());
      var r := ResultOf(i, d, q.broker, q.after, q.Now());
      OnTime(Entry(i, r), m.cfg) && r.status != Stale
  {
    hide Find, MapPayloadStatus, MapRefusal, BuildDedupeKey, Shown, FillOf, MapRecordStatus, ClassifyAction, EventTime,
         TrimSpace, ExecutionId;
    var i := Prepared(q.intent, m.nextId + 1, q.Now());
    ResultIsFollowed(q, i, d);
  }

  /** Every request also keeps unresolved executions of a key the stale threshold further apart, if the order
      store reopens nothing that gave up its key lately. */
  lemma ExecuteKeepsInv(m: Mgr, t: Time, q: Request)
    requires Inv(m, t) && Usable(m, t, q) && ReopensNoneSoon(m, q.before, q.Now())
    ensures Inv(Executed(m, q).manager, q.Now())
  {
    hide Inv, Bookkept, Decided, Stored, ResultOf, BuildDedupeKey, NamedEntry, Dated, Trimmed, LooksInOrder, Unfollowed,
         UsableId, KeyIdle, KeyApart, KeyResolved, LiveEntry, OnTime, ReopensNoneSoon, SameRequests, SameShape, Prepared,
         Indexed, Apart, Live, ReopensNoneEarly;
    var i := Prepared(q.intent, m.nextId + 1, q.Now());
    var (m', d) := DecisionOn(m, q);
    var result := ResultOf(i, d, q.broker, q.after, q.Now());
    InvIsApart(m, t);
    BooksOfApart(m, t);
    BooksAreIndexed(m);
    SoonIsEarly(m, q.before, q.Now());
    DecisionKeepsBooks(m, q);
    DecisionKeepsLive(m, t, q);
    DecisionKeepsApart(m, t, q);
    DecisionKeepsInv(m, t, q);
    ResultIsFollowed(q, i, d);
    ResultIsDated(m, q, d);
    ResultIsLive(q, i, d, m.cfg);
    ResultIsOnTime(m, q, d);
    PreparedIsNamed(m, q, result);
    NewAfterDecision(m, m', i.intentId);
    StoreKeepsInv(m', Entry(i, result), q.Now());
  }

  /** The broker is asked only when every execution of the key that is still unresolved was asked for longer ago
      than the stale threshold and the dedupe window together. */
  lemma UnresolvedCallsAreApart(m: Mgr, t: Time, q: Request)
    requires Inv(m, t) && Usable(m, t, q) && ReopensNoneSoon(m, q.before, q.Now()) && CallsBroker(m, q)
    ensures KeyResolved(DecisionOn(m, q).0, KeyOf(m, q), q.Now())
  {
    hide Inv, Decided, BuildDedupeKey, ResultOf, Prepared, Stored, KeyResolved, ReopensNoneSoon, LooksInOrder, UsableId;
    DecisionKeepsInv(m, t, q);
  }
}
