/** What the caller of the manager is told: why a request was held back, what the broker made of it, what a look at
    the order store changes, and when an execution is given up as stale and its key released. */
module ExecutionOutcomes {
  import opened Basics
  import opened Text
  import OrderModel
  import OrderSpec
  import opened ExecutionModel
  import opened ExecutionSpec
  import opened ExecutionIndex
  import opened ExecutionGates

  // ---- Refusals ----

  predicate MentionsAt(text: string, word: string, k: nat) {
    k + |word| <= |text| && forall i | 0 <= i < |word| :: SameLetter(text[k + i], word[i])
  }

  /** The word occurs somewhere in the text, in any letter case. */
  predicate Mentions(text: string, word: string) {
    exists k: nat :: k <= |text| && MentionsAt(text, word, k)
  }

  lemma LowerLetter(c: char, d: char)
    requires LowerChar(d) == d
    ensures LowerChar(c) == d <==> SameLetter(c, d)
  {
  }

  lemma MentionedAt(text: string, word: string, k: nat)
    requires ToLower(word) == word && k <= |text|
    ensures word <= ToLower(text)[k..] <==> MentionsAt(text, word, k)
  {
    var lower := ToLower(text);
    if k + |word| <= |text| {
      forall i | 0 <= i < |word| ensures lower[k..][i] == word[i] <==> SameLetter(text[k + i], word[i]) {
        assert ToLower(word)[i] == word[i];
        LowerLetter(text[k + i], word[i]);
      }
      assert word <= lower[k..] <==> forall i | 0 <= i < |word| :: lower[k..][i] == word[i];
    }
  }

  /** A lower-case word is found in the lower-cased text exactly where the text mentions it. */
  lemma FoundIffMentioned(text: string, word: string)
    requires ToLower(word) == word
    ensures Contains(ToLower(text), word) <==> Mentions(text, word)
  {
    var lower := ToLower(text);
    assert |lower| == |text|;
    forall k: nat | k <= |text| ensures word <= lower[k..] <==> MentionsAt(text, word, k) {
      MentionedAt(text, word, k);
    }
    hide ToLower, MentionsAt;
    if Mentions(text, word) {
      var k: nat :| k <= |text| && MentionsAt(text, word, k);
      assert word <= lower[k..];
    }
  }

  lemma MentionStays(a: string, t: string, b: string, word: string, k: nat)
    requires MentionsAt(t, word, k)
    ensures MentionsAt(a + t + b, word, |a| + k)
  {
    hide SameLetter;
    forall i | 0 <= i < |word| ensures SameLetter((a + t + b)[|a| + k + i], word[i]) {
      assert (a + t + b)[|a| + k + i] == t[k + i];
    }
  }

  /** A word with no blank at its ends is mentioned between the blanks around a text. */
  lemma MentionIsInside(a: string, t: string, b: string, word: string, k: nat)
    requires Blanks(a) && Blanks(b) && MentionsAt(a + t + b, word, k)
    requires |word| > 0 && forall i | 0 <= i < |word| :: 'a' <= word[i] <= 'z'
    ensures k >= |a| && MentionsAt(t, word, k - |a|)
  {
    hide SameLetter, IsSpace, Blanks;
    var text, n := a + t + b, |word|;
    InTheMiddle(a, t, b);
    assert SameLetter(text[k + 0], word[0]) && SameLetter(text[k + (n - 1)], word[n - 1]);
    LetterIsNoBlank(text[k], word[0]);
    LetterIsNoBlank(text[k + (n - 1)], word[n - 1]);
    forall i | 0 <= i < n ensures SameLetter(t[k - |a| + i], word[i]) {
      assert text[k + i] == t[k + i - |a|];
    }
  }

  /** Trimming takes no mention of a word without blanks away. */
  lemma TrimKeepsMentions(text: string, word: string)
    requires |word| > 0 && forall i | 0 <= i < |word| :: 'a' <= word[i] <= 'z'
    ensures Mentions(TrimSpace(text), word) <==> Mentions(text, word)
  {
    hide TrimSpace, MentionsAt, Blanks;
    TrimSpaceStrips(text);
    var t := TrimSpace(text);
    var a: string, b: string :| text == a + t + b && Blanks(a) && Blanks(b);
    if Mentions(t, word) {
      var k: nat :| k <= |t| && MentionsAt(t, word, k);
      MentionStays(a, t, b, word, k);
    }
    if Mentions(text, word) {
      var k: nat :| k <= |text| && MentionsAt(text, word, k);
      MentionIsInside(a, t, b, word, k);
      FitsInside(t, word, k - |a|);
    }
  }

  lemma FitsInside(t: string, word: string, k: nat)
    requires MentionsAt(t, word, k)
    ensures k <= |t|
  {
  }

  lemma InTheMiddle(a: string, t: string, b: string)
    requires Blanks(a) && Blanks(b)
    ensures forall j | 0 <= j < |a + t + b| && !IsSpace((a + t + b)[j]) :: |a| <= j < |a| + |t|
  {
    hide IsSpace;
    var text := a + t + b;
    assert forall j | 0 <= j < |a| :: text[j] == a[j];
    assert forall j | |a| + |t| <= j < |text| :: text[j] == b[j - |a| - |t|];
  }

  lemma LetterIsNoBlank(c: char, d: char)
    requires SameLetter(c, d) && 'a' <= d <= 'z'
    ensures !IsSpace(c)
  {
  }

  /** A refusal is a rejection if it mentions "reject", else a cancellation if it mentions "cancel", else a failure. */
  lemma RefusalIsReadByWord(message: string)
    ensures MapRefusal(message)
         == if Mentions(message, "reject") then Rejected else if Mentions(message, "cancel") then Cancelled else Status.Failed
  {
    RefusalWords();
    TrimKeepsMentions(message, "reject");
    TrimKeepsMentions(message, "cancel");
    FoundIffMentioned(TrimSpace(message), "reject");
    FoundIffMentioned(TrimSpace(message), "cancel");
    hide TrimSpace, Contains, Mentions, ToLower;
  }

  lemma RefusalWords()
    ensures ToLower("reject") == "reject" && ToLower("cancel") == "cancel"
  {
  }

  // ---- What a request is told ----

  /** The order id as the broker gave it, trimmed; one it did not give is shown as such. */
  predicate ShownAs(field: Option<string>, text: string) {
    text == if field.Some? then TrimSpace(field.value) else "<nil>"
  }

  /** The part of a result that comes from the request. */
  predicate NamesRequest(r: Result, i: Intent) {
    && (r.intentId, r.symbol, r.actionType, r.increasesExposure, r.reduceOnly)
       == (i.intentId, i.symbol, i.actionType, i.increasesExposure, i.reduceOnly)
    && r.dedupeKey == BuildDedupeKey(i)
  }

  /** Never sent: nothing of an order is known, and the execution is over at once. */
  predicate Unheard(r: Result, now: Time) {
    && r.submittedAt == ZERO_TIME && r.completedAt == now && !r.success
    && r.localOrderId == r.brokerOrderId == r.observedStatus == "" && r.fillQuantity == r.averageFillPrice == 0.0
  }

  /** What the decision, and the broker if it is asked, make of a request. */
  predicate ToldOf(d: Decision, i: Intent, broker: Option<Reply>, r: Result, now: Time) {
    match d
    case Refuse(why) => r.status == Blocked && r.why == why && !r.stale && !r.duplicateSuppressed && Unheard(r, now)
    case SuppressInFlight =>
      r.status == DuplicateSuppressed && r.why == AlreadyInFlight && !r.stale && r.duplicateSuppressed && Unheard(r, now)
    case SuppressRecent =>
      r.status == DuplicateSuppressed && r.why == SubmittedRecently && !r.stale && r.duplicateSuppressed && Unheard(r, now)
    case BlockBehindStale =>
      r.status == Blocked && r.why == PriorStale && r.stale && !r.duplicateSuppressed && Unheard(r, now)
    case Send =>
      !r.duplicateSuppressed && !r.stale &&
      if broker.None? then r.status == Status.Failed && r.why == NoBroker && Unheard(r, now)
      else if !SaysOpen(i.actionType) && !SaysClose(i.actionType) then
        r.status == MapRefusal(i.actionType) && r.why == UnsupportedAction(i.actionType) && Unheard(r, now)
      else match broker.value
        case Refused(message) => r.status == MapRefusal(message) && r.why == BrokerRefused(message) && Unheard(r, now)
        case Taken(p) =>
          && r.status == MapPayloadStatus(p, i.quantity) && r.why == NoProblem && r.success
          && r.submittedAt == now && r.completedAt == (if r.status.Terminal() then now else ZERO_TIME)
          && ShownAs(p.localOrderId, r.localOrderId) && ShownAs(p.brokerOrderId, r.brokerOrderId)
          && ShownAs(p.status, r.observedStatus) && r.averageFillPrice == p.avgFillPrice
          && r.fillQuantity == (if Says(r.observedStatus, "FILLED") && p.fillQty <= 0.0 then i.quantity else p.fillQty)
  }

  /** The request as it is filed: numbered, timed, and with its order type and key filled in where it left them out. */
  predicate PreparedFrom(i: Intent, given: Intent, id: string, now: Time) {
    && i == given.(createdAt := i.createdAt, intentId := i.intentId, orderType := i.orderType,
                   localRequestKey := i.localRequestKey)
    && i.createdAt == now
    && i.intentId == (if Blanks(given.intentId) then id else given.intentId)
    && i.orderType == (if Blanks(given.orderType) then "market" else given.orderType)
    && i.localRequestKey == (if Blanks(given.localRequestKey) then LowerTrim(given.actionType) + ":" + UpperTrim(given.symbol)
                             else given.localRequestKey)
  }

  lemma PreparedIsFrom(given: Intent, n: nat, now: Time)
    ensures PreparedFrom(Prepared(given, n, now), given, ExecutionId(n), now)
  {
    BlankTrims(given.intentId);
    BlankTrims(given.orderType);
    BlankTrims(given.localRequestKey);
    hide ExecutionId, TrimSpace, UpperTrim, LowerTrim, Blanks;
  }

  lemma ShownIs(field: Option<string>)
    ensures ShownAs(field, Shown(field))
    ensures UpperOf(Shown(field)) == "FILLED" <==> Says(Shown(field), "FILLED")
  {
    TrimmedAsIs("<nil>");
    TrimmedAsIs(Shown(field));
    assert ToUpper("FILLED") == "FILLED";
    hide TrimSpace;
    FoldingIsSameText(Shown(field), "FILLED");
  }

  lemma TakenIsTold(i: Intent, p: Payload, now: Time)
    requires SaysOpen(i.actionType) || SaysClose(i.actionType)
    ensures var r := Accepted(NewResult(i), p, i.quantity, now);
      ToldOf(Send, i, Some(Taken(p)), r, now) && NamesRequest(r, i)
  {
    ShownIs(p.status);
    ShownIs(p.localOrderId);
    ShownIs(p.brokerOrderId);
    hide BuildDedupeKey, MapPayloadStatus, SaysOpen, SaysClose, Shown, UpperOf, Says, TrimSpace;
  }

  lemma UnseenIsTold(i: Intent, d: Decision, broker: Option<Reply>, now: Time)
    requires d.Refuse? ==> d.why != PriorStale
    ensures var r := ResultOf(i, d, broker, None, now); ToldOf(d, i, broker, r, now) && NamesRequest(r, i)
  {
    hide BuildDedupeKey, MapPayloadStatus, MapRefusal, SaysOpen, SaysClose, ClassifyAction, Accepted, FillOf, Shown, Says,
         TrimSpace;
    ActionIs(i.actionType);
    if broker.Some? && broker.value.Taken? && (SaysOpen(i.actionType) || SaysClose(i.actionType)) {
      assert broker == Some(Taken(broker.value.payload));
      TakenIsTold(i, broker.value.payload, now);
      NoLookChangesNothing(Accepted(NewResult(i), broker.value.payload, i.quantity, now), now);
    }
  }

  /** A request with no order store to look at afterwards is told exactly what the decision and the broker made of
      it, and is filed as it was prepared, under the next number. */
  lemma RequestIsTold(m: Mgr, q: Request)
    ensures var e := Executed(m, q.(after := None));
      && PreparedFrom(e.intent, q.intent, ExecutionId(m.nextId + 1), q.Now())
      && NamesRequest(e.result, e.intent) && ToldOf(e.decision, e.intent, q.broker, e.result, q.Now())
  {
    hide Prepared, Decided, ResultOf, Stored, Opened, ToldOf, NamesRequest, PreparedFrom;
    var q' := q.(after := None);
    RefusedIffMayNot(m, q');
    PreparedIsFrom(q.intent, m.nextId + 1, q.Now());
    UnseenIsTold(Executed(m, q').intent, Executed(m, q').decision, q.broker, q.Now());
  }

  // ---- A look at the order store ----

  /** The record a result leads to: by its local id, or failing that by its broker id through the index. */
  predicate LeadsTo(r: Result, store: OrderSpec.StoreValue, record: OrderModel.Record) {
    var localId, brokerId := TrimSpace(r.localOrderId), TrimSpace(r.brokerOrderId);
    if !Blanks(r.localOrderId) && localId in store.orders then record == store.orders[localId]
    else
      && !Blanks(r.brokerOrderId) && brokerId in store.index && store.index[brokerId] != ""
      && store.index[brokerId] in store.orders && record == store.orders[store.index[brokerId]]
  }

  lemma FindIsLead(r: Result, store: OrderSpec.StoreValue, record: OrderModel.Record)
    ensures Find(Some(store), r.localOrderId, r.brokerOrderId) == Some(record) <==> LeadsTo(r, store, record)
  {
    BlankTrims(r.localOrderId);
    BlankTrims(r.brokerOrderId);
    hide TrimSpace, Blanks;
  }

  /** The status of an execution for the status of its order. */
  predicate SameStatus(order: OrderModel.Status, status: Status) {
    match order
    case Filled => status == Filled
    case PartiallyFilled => status == PartiallyFilled
    case Cancelled => status == Cancelled
    case Rejected => status == Rejected
    case Accepted => status == Acknowledged
    case Submitted => status == Submitted
    case _ => false
  }

  predicate KnownToBroker(order: OrderModel.Status) {
    !order.Unknown? && !order.OtherStatus?
  }

  /** The result after it has taken over the record's state; it keeps the time it was completed at if it had one. */
  predicate Follows(r: Result, record: OrderModel.Record, r': Result, now: Time) {
    && SameStatus(record.status, r'.status)
    && (r'.fillQuantity, r'.averageFillPrice, r'.observedStatus)
       == (record.filledQty, record.avgFillPrice, record.rawBrokerStatus)
    && r'.localOrderId == (if Blanks(r.localOrderId) then record.localId else r.localOrderId)
    && r'.brokerOrderId == (if Blanks(r.brokerOrderId) then record.brokerOrderId else r.brokerOrderId)
    && (r'.success <==> record.status != OrderModel.Status.Cancelled && record.status != OrderModel.Status.Rejected)
    && !r'.stale
    && (r.completedAt != ZERO_TIME ==> r'.completedAt == r.completedAt)
    && (r.completedAt == ZERO_TIME ==>
          r'.completedAt ==
            if record.status !in {OrderModel.Status.Filled, OrderModel.Status.Cancelled, OrderModel.Status.Rejected} then ZERO_TIME
            else if record.updatedAt != ZERO_TIME then record.updatedAt
            else if record.lastSeenAt != ZERO_TIME then record.lastSeenAt
            else now)
    && r' == r.(status := r'.status, fillQuantity := r'.fillQuantity, averageFillPrice := r'.averageFillPrice,
                observedStatus := r'.observedStatus, localOrderId := r'.localOrderId, brokerOrderId := r'.brokerOrderId,
                success := r'.success, stale := r'.stale, completedAt := r'.completedAt)
  }

  /** A look takes over the state of the record the result leads to, if its status is a known one, and changes
      nothing otherwise. */
  lemma LookFollows(r: Result, store: OrderSpec.StoreValue, now: Time)
    ensures var r' := Refreshed(r, Some(store), now);
      && (forall record | LeadsTo(r, store, record) ::
            if KnownToBroker(record.status) then Follows(r, record, r', now) else r' == r)
      && ((forall record :: !LeadsTo(r, store, record)) ==> r' == r)
  {
    hide Find, LeadsTo, Blanks, TrimSpace;
    BlankTrims(r.localOrderId);
    BlankTrims(r.brokerOrderId);
    var found := Find(Some(store), r.localOrderId, r.brokerOrderId);
    forall record ensures found == Some(record) <==> LeadsTo(r, store, record) {
      FindIsLead(r, store, record);
    }
  }

  lemma NoLookChangesNothing(r: Result, now: Time)
    ensures Refreshed(r, None, now) == r
  {
  }

  /** With an order store to look at afterwards the same is told, followed by one look. */
  lemma ThenOneLook(m: Mgr, q: Request)
    ensures var unseen, e := Executed(m, q.(after := None)), Executed(m, q);
      && e.intent == unseen.intent && e.decision == unseen.decision
      && e.result == Refreshed(unseen.result, q.after, q.Now())
  {
    hide Prepared, Decided, Stored, Swept, ResultOf, Refreshed;
    var e := Executed(m, q);
    LookedAt(e.intent, e.decision, q.broker, q.after, q.Now());
  }

  lemma LookedAt(i: Intent, d: Decision, broker: Option<Reply>, after: Lookup, now: Time)
    ensures ResultOf(i, d, broker, after, now) == Refreshed(ResultOf(i, d, broker, None, now), after, now)
  {
    hide BuildDedupeKey, Accepted, MapRefusal, ClassifyAction, TrimSpace, MapRecordStatus, Followed;
    assert TrimSpace("") == "" by { TrimmedAsIs(""); }
  }

  // ---- Giving up ----

  predicate StillOpen(s: Status) {
    s in {Pending, Submitted, Acknowledged, PartiallyFilled} || s.OtherStatus?
  }

  /** Stale: no longer taken for a success, and over as of now, its order left to be looked into. */
  predicate GivenUp(r: Result, r': Result, now: Time) {
    && r'.status == Stale && r'.stale && !r'.success && r'.completedAt == now && r'.why == BeyondStaleThreshold
    && r' == r.(status := r'.status, stale := r'.stale, success := r'.success, completedAt := r'.completedAt, why := r'.why)
  }

  /** In a sweep each execution is looked at, and given up if it is still open as long after its submission as the
      threshold says. */
  lemma SweepGivesUp(m: Mgr, lookup: Lookup, now: Time, i: nat)
    requires i < |m.history|
    ensures var m' := Swept(m, lookup, now);
      && |m'.history| == |m.history| && m'.history[i].intent == m.history[i].intent
      && (var seen, after := Refreshed(m.history[i].result, lookup, now), m'.history[i].result;
          if StillOpen(seen.status) && seen.submittedAt != ZERO_TIME && now >= seen.submittedAt + m.cfg.staleAfter
          then GivenUp(seen, after, now) else after == seen)
  {
    hide Refreshed;
    var m' := Swept(m, lookup, now);
    assert m'.history[i] == SweptEntry(m.history[i], lookup, m.cfg, now);
  }

  /** Over for longer than the dedupe window, by the time it was completed or else asked for. */
  predicate LongOver(e: Entry, cfg: Config, now: Time) {
    var ended := if e.result.completedAt != ZERO_TIME then e.result.completedAt else e.intent.createdAt;
    !StillOpen(e.result.status) && ended != ZERO_TIME && now > ended + cfg.dedupeWindow
  }

  /** And a key stays with the execution it leads to until that is over for longer than the window. */
  lemma SweepReleases(m: Mgr, lookup: Lookup, now: Time, key: string)
    requires Bookkept(m)
    ensures var m' := Swept(m, lookup, now);
      && (key in m'.latest ==> key in m.latest && m'.latest[key] == m.latest[key])
      && (key in m'.latest <==>
            key in m.latest && exists i :: 0 <= i < |m'.history| && m'.history[i].Id() == m.latest[key]
                                           && !LongOver(m'.history[i], m.cfg, now))
  {
    hide SweptHistory, Unfollowed, NamedEntry, LatestAgrees, Bookkept;
    var m' := Swept(m, lookup, now);
    SweepKeepsBooks(m, lookup, now);
    SweptPositions(m, lookup, now);
    if key in m.latest {
      if i :| 0 <= i < |m'.history| && m'.history[i].Id() == m.latest[key] {
        assert StillStands(m.(history := m'.history), m.latest[key], now) <==> !LongOver(m'.history[i], m.cfg, now);
      }
    }
  }

  lemma SweptPositions(m: Mgr, lookup: Lookup, now: Time)
    requires Bookkept(m)
    ensures var m' := Swept(m, lookup, now);
      && m'.history == SweptHistory(m.history, lookup, m.cfg, now)
      && forall i | 0 <= i < |m'.history| :: PositionOf(m.(history := m'.history), m'.history[i].Id()) == Some(i)
    ensures var m' := Swept(m, lookup, now);
      forall id | PositionOf(m.(history := m'.history), id).Some? ::
        m'.history[PositionOf(m.(history := m'.history), id).value].Id() == id
  {
    hide SweptEntry, Unfollowed, NamedEntry, LatestAgrees;
    SweepKeepsBooks(m, lookup, now);
    SweptConfig(m, lookup, now);
  }

  /** Without settings the window is fifteen seconds, the threshold forty-five and the history two hundred and fifty;
      a positive setting is kept. */
  lemma UsualSettings(cfg: Config)
    ensures var c := NewManager(cfg).cfg;
      && c.dedupeWindow == (if cfg.dedupeWindow > 0 then cfg.dedupeWindow else 15_000_000_000)
      && c.staleAfter == (if cfg.staleAfter > 0 then cfg.staleAfter else 45_000_000_000)
      && c.maxHistory == (if cfg.maxHistory > 0 then cfg.maxHistory else 250)
  {
  }
}
