/** What the execution manager keeps whatever the clock and the order store do: its indexes agree with its
    history.  And what it keeps while the clock does not go back and closed orders stay closed: at most one
    execution per dedupe key is in flight. */
module ExecutionIndex {
  import opened Basics
  import opened Text
  import OrderModel
  import opened ExecutionModel
  import opened ExecutionSpec

  // ---- The indexes ----

  predicate NamedEntry(e: Entry, nextId: nat) {
    && Trimmed(e.Id()) && e.Id() != "" && ParseExecutionSequence(e.Id()) <= nextId
    && e.result.intentId == e.Id() && TrimSpace(e.Key()) != ""
  }

  predicate UniqueIds(history: seq<Entry>) {
    forall i, j | 0 <= i < j < |history| :: history[i].Id() != history[j].Id()
  }

  /** The position of the last execution that can stand for the key. */
  function LastOf(history: seq<Entry>, key: string): (r: Option<nat>)
    ensures r.Some? ==> r.value < |history| && history[r.value].Key() == key && history[r.value].Status().Registers()
  {
    if history == [] then None
    else
      var n := |history| - 1;
      if history[n].Key() == key && history[n].Status().Registers() then Some(n) else LastOf(history[..n], key)
  }

  /** Each key's standing execution is the last one of that key that can stand for it. */
  predicate LatestAgrees(history: seq<Entry>, latest: map<string, string>) {
    forall k | k in latest :: LastOf(history, k).Some? && latest[k] == history[LastOf(history, k).value].Id()
  }

  /** Each id leads to the execution that has it, and nowhere else. */
  predicate IndexExact(history: seq<Entry>, index: map<string, nat>) {
    && (forall i | 0 <= i < |history| :: history[i].Id() in index && index[history[i].Id()] == i)
    && forall id | id in index :: index[id] < |history| && history[index[id]].Id() == id
  }

  predicate Indexed(m: Mgr) {
    && m.cfg.dedupeWindow > 0 && m.cfg.staleAfter > 0 && m.cfg.maxHistory > 0
    && |m.history| <= m.cfg.maxHistory
    && (forall i | 0 <= i < |m.history| :: NamedEntry(m.history[i], m.nextId))
    && UniqueIds(m.history) && IndexExact(m.history, m.index)
    && LatestAgrees(m.history, m.latest)
  }

  /** An execution that was blocked or suppressed names no order, so no lookup can change it. */
  predicate Unfollowed(e: Entry) {
    !e.Status().Registers() ==> e.result.localOrderId == "" && e.result.brokerOrderId == ""
  }

  /** The indexes agree with the history, and stay so through any lookup. */
  predicate Bookkept(m: Mgr) {
    Indexed(m) && forall i | 0 <= i < |m.history| :: Unfollowed(m.history[i])
  }

  predicate StandsForKey(e: Entry, latest: map<string, string>) {
    e.Key() in latest && latest[e.Key()] == e.Id()
  }

  // ---- One entry ----

  /** The second entry is the first after some look at the order store: the same request under the same key. */
  predicate SameRequest(e: Entry, e': Entry) {
    && e'.intent == e.intent && e'.Key() == e.Key() && e'.result.intentId == e.result.intentId
    && e'.result.submittedAt == e.result.submittedAt && e'.Status().Registers() == e.Status().Registers()
  }

  lemma RefreshKeepsRequest(e: Entry, lookup: Lookup, now: Time)
    requires Unfollowed(e)
    ensures var e' := RefreshedEntry(e, lookup, now);
      SameRequest(e, e') && Unfollowed(e') && (!e.Status().Registers() ==> e' == e)
  {
    hide MapRecordStatus, EventTime;
  }

  lemma SweepKeepsRequest(e: Entry, lookup: Lookup, cfg: Config, now: Time)
    requires Unfollowed(e)
    ensures var e' := SweptEntry(e, lookup, cfg, now); SameRequest(e, e') && Unfollowed(e')
  {
    hide RefreshedEntry;
    RefreshKeepsRequest(e, lookup, now);
  }

  lemma SameRequestIsNamed(e: Entry, e': Entry, nextId: nat)
    requires NamedEntry(e, nextId) && SameRequest(e, e')
    ensures NamedEntry(e', nextId)
  {
  }

  // ---- Positions ----

  /** Histories whose entries agree in id, key and whether they can stand for it. */
  predicate SameShape(a: seq<Entry>, b: seq<Entry>) {
    && |a| == |b|
    && forall i | 0 <= i < |a| ::
         a[i].Id() == b[i].Id() && a[i].Key() == b[i].Key() && a[i].Status().Registers() == b[i].Status().Registers()
  }

  lemma {:induction false} SameShapeSameLast(a: seq<Entry>, b: seq<Entry>, key: string)
    requires SameShape(a, b)
    ensures LastOf(a, key) == LastOf(b, key)
  {
    if a != [] {
      SameShapeSameLast(a[..|a| - 1], b[..|b| - 1], key);
    }
  }

  lemma {:induction false} LastIsLast(history: seq<Entry>, key: string, i: nat)
    requires i < |history| && history[i].Key() == key && history[i].Status().Registers()
    ensures LastOf(history, key).Some? && i <= LastOf(history, key).value
  {
    var n := |history| - 1;
    if i < n && !(history[n].Key() == key && history[n].Status().Registers()) {
      LastIsLast(history[..n], key, i);
    }
  }

  lemma {:induction false} LastAfterEviction(history: seq<Entry>, key: string)
    requires history != []
    ensures LastOf(history[1..], key)
         == (match LastOf(history, key) case None => None case Some(n) => if n == 0 then None else Some(n - 1))
  {
    var n := |history| - 1;
    if n > 0 {
      assert history[1..][..n - 1] == history[..n][1..];
      LastAfterEviction(history[..n], key);
    }
  }

  lemma PositionOfUnique(m: Mgr, i: nat)
    requires IndexExact(m.history, m.index) && i < |m.history|
    ensures PositionOf(m, m.history[i].Id()) == Some(i)
  {
  }

  lemma IndexAfterEviction(m: Mgr)
    requires m.history != [] && IndexExact(m.history, m.index)
    ensures IndexExact(WithoutOldest(m).history, WithoutOldest(m).index)
  {
    var m' := WithoutOldest(m);
    forall i | 0 <= i < |m'.history|
      ensures m'.history[i].Id() in m'.index && m'.index[m'.history[i].Id()] == i
    {
      assert m'.history[i] == m.history[i + 1];
    }
  }

  lemma IndexAfterAppend(m: Mgr, e: Entry)
    requires IndexExact(m.history, m.index) && forall i | 0 <= i < |m.history| :: m.history[i].Id() != e.Id()
    ensures IndexExact(m.history + [e], m.index[e.Id() := |m.history|])
  {
  }

  lemma IndexAfterStore(m: Mgr, e: Entry)
    requires IndexExact(m.history, m.index) && forall i | 0 <= i < |m.history| :: m.history[i].Id() != e.Id()
    ensures IndexExact(Stored(m, e).history, Stored(m, e).index)
  {
    hide IndexExact;
    IndexAfterAppend(m, e);
    var m' := m.(history := m.history + [e], index := m.index[e.Id() := |m.history|]);
    if |m'.history| > m.cfg.maxHistory {
      IndexAfterEviction(m');
    }
  }

  // ---- Looks at the order store keep the books ----

  /** Every entry of the second history is the first's after looks at the order store. */
  predicate SameRequests(a: seq<Entry>, b: seq<Entry>) {
    |a| == |b| && forall i | 0 <= i < |a| :: SameRequest(a[i], b[i])
  }

  lemma SameShapeOf(a: seq<Entry>, b: seq<Entry>)
    requires SameRequests(a, b)
    ensures SameShape(a, b)
  {
  }

  /** Keys may be given up, and entries may change status, as long as they remain the same requests. */
  lemma LookKeepsBooks(m: Mgr, m': Mgr)
    requires Bookkept(m) && SameRequests(m.history, m'.history) && m'.cfg == m.cfg && m'.nextId >= m.nextId
    requires m'.index == m.index
    requires forall i | 0 <= i < |m'.history| :: Unfollowed(m'.history[i])
    requires forall k | k in m'.latest :: k in m.latest && m'.latest[k] == m.latest[k]
    ensures Bookkept(m')
  {
    hide NamedEntry, Unfollowed, LastOf, SameRequest;
    SameShapeOf(m.history, m'.history);
    forall i | 0 <= i < |m'.history| ensures NamedEntry(m'.history[i], m'.nextId) {
      SameRequestIsNamed(m.history[i], m'.history[i], m.nextId);
      NamedLater(m'.history[i], m.nextId, m'.nextId);
    }
    forall k | k in m'.latest ensures LastOf(m'.history, k) == LastOf(m.history, k) {
      SameShapeSameLast(m.history, m'.history, k);
    }
  }

  lemma NamedLater(e: Entry, nextId: nat, nextId': nat)
    requires NamedEntry(e, nextId) && nextId <= nextId'
    ensures NamedEntry(e, nextId')
  {
  }

  lemma SweptConfig(m: Mgr, lookup: Lookup, now: Time)
    ensures Swept(m, lookup, now).cfg == m.cfg && Swept(m, lookup, now).nextId == m.nextId
    ensures Swept(m, lookup, now).index == m.index
  {
  }

  lemma SweepKeepsBooks(m: Mgr, lookup: Lookup, now: Time)
    requires Bookkept(m)
    ensures Bookkept(Swept(m, lookup, now)) && SameRequests(m.history, Swept(m, lookup, now).history)
    ensures SameShape(m.history, Swept(m, lookup, now).history)
  {
    hide SweptEntry, Unfollowed, StillStands, SameRequest, Indexed;
    var m' := Swept(m, lookup, now);
    forall i | 0 <= i < |m.history| ensures SameRequest(m.history[i], m'.history[i]) && Unfollowed(m'.history[i]) {
      SweepKeepsRequest(m.history[i], lookup, m.cfg, now);
    }
    LookKeepsBooks(m, m');
    SameShapeOf(m.history, m'.history);
  }

  lemma RefreshKeepsBooks(m: Mgr, at: nat, lookup: Lookup, now: Time)
    requires Bookkept(m) && at < |m.history|
    ensures var m' := WithRefreshed(m, at, lookup, now);
      Bookkept(m') && SameRequests(m.history, m'.history) && SameShape(m.history, m'.history)
  {
    hide RefreshedEntry, Unfollowed, Indexed;
    var m' := WithRefreshed(m, at, lookup, now);
    RefreshKeepsRequest(m.history[at], lookup, now);
    LookKeepsBooks(m, m');
    SameShapeOf(m.history, m'.history);
  }

  // ---- Storing an execution ----

  lemma LastAfterAppend(history: seq<Entry>, e: Entry, key: string)
    ensures LastOf(history + [e], key)
         == if e.Key() == key && e.Status().Registers() then Some(|history|) else LastOf(history, key)
  {
    assert (history + [e])[..|history|] == history;
  }

  /** What stands for a key after an execution is stored, when the oldest may have been evicted. */
  lemma StoredLatest(m: Mgr, e: Entry, k: string)
    requires UniqueIds(m.history) && LatestAgrees(m.history, m.latest) && 0 < m.cfg.maxHistory
    requires k in Stored(m, e).latest
    ensures var m' := Stored(m, e);
      LastOf(m'.history, k).Some? && m'.latest[k] == m'.history[LastOf(m'.history, k).value].Id()
  {
    hide LastOf;
    var h := m.history + [e];
    LastAfterAppend(m.history, e, k);
    if |h| > m.cfg.maxHistory {
      LastAfterEviction(h, k);
      if !(e.Key() == k && e.Status().Registers()) {
        var n := LastOf(m.history, k).value;
        assert h[n] == m.history[n];
      }
    }
  }

  lemma StoredHistory(m: Mgr, e: Entry)
    ensures var h := m.history + [e];
      Stored(m, e).history == h[if |h| > m.cfg.maxHistory then 1 else 0..]
      && Stored(m, e).cfg == m.cfg && Stored(m, e).nextId == m.nextId
      && (e.Status().Registers() ==> StandsForKey(e, Stored(m, e).latest))
  {
  }

  /** Filing a new execution, with eviction of the oldest, keeps the books. */
  lemma StoreKeepsBooks(m: Mgr, e: Entry)
    requires Bookkept(m) && NamedEntry(e, m.nextId) && Unfollowed(e)
    requires forall i | 0 <= i < |m.history| :: m.history[i].Id() != e.Id()
    ensures Bookkept(Stored(m, e))
  {
    hide NamedEntry, LastOf, Unfollowed, IndexExact;
    IndexAfterStore(m, e);
    var m' := Stored(m, e);
    var h := m.history + [e];
    assert m'.history == if |h| <= m.cfg.maxHistory then h else h[1..];
    forall k | k in m'.latest
      ensures LastOf(m'.history, k).Some? && m'.latest[k] == m'.history[LastOf(m'.history, k).value].Id()
    {
      StoredLatest(m, e, k);
    }
  }

  /** An execution left in the history stands for its key as before, unless the new one takes the key. */
  lemma StillStanding(m: Mgr, e: Entry, i: nat)
    requires Indexed(m) && i < |m.history| && (|m.history| + 1 > m.cfg.maxHistory ==> i > 0)
    ensures !(e.Status().Registers() && e.Key() == m.history[i].Key()) ==>
              (StandsForKey(m.history[i], Stored(m, e).latest) <==> StandsForKey(m.history[i], m.latest))
  {
    hide NamedEntry, LastOf;
    var h := m.history + [e];
    if |h| > m.cfg.maxHistory {
      assert h[0].Id() == m.history[0].Id() != m.history[i].Id();
    }
  }

  // ---- Execute ----

  /** A caller's own id must be new, trimmed, and not ahead of the generated ones. */
  predicate UsableId(m: Mgr, id: string) {
    || TrimSpace(id) == ""
    || (Trimmed(id) && ParseExecutionSequence(id) <= m.nextId + 1
        && forall i | 0 <= i < |m.history| :: m.history[i].Id() != id)
  }

  lemma PreparedIsNamed(m: Mgr, q: Request, result: Result)
    requires Indexed(m) && UsableId(m, q.intent.intentId)
    requires var i := Prepared(q.intent, m.nextId + 1, q.Now());
      result.intentId == i.intentId && result.dedupeKey == BuildDedupeKey(i)
    ensures var i := Prepared(q.intent, m.nextId + 1, q.Now());
      NamedEntry(Entry(i, result), m.nextId + 1) && forall j | 0 <= j < |m.history| :: m.history[j].Id() != i.intentId
  {
    hide Trimmed, TrimSpace, ParseExecutionSequence, BuildDedupeKey, ExecutionId;
    var i := Prepared(q.intent, m.nextId + 1, q.Now());
    KeyIsNotBlank(i);
    ExecutionIdReadsBack(m.nextId + 1);
    BlankIsTrimmed(q.intent.intentId);
  }

  /** The id a request runs under is not in the history yet. */
  predicate RunsUnderNewId(m: Mgr, q: Request) {
    forall j | 0 <= j < |m.history| :: m.history[j].Id() != Prepared(q.intent, m.nextId + 1, q.Now()).intentId
  }

  /** A usable id is a new one, and a blank id always gets a new one. */
  lemma UsableIdIsNew(m: Mgr, q: Request)
    requires Indexed(m) && UsableId(m, q.intent.intentId)
    ensures RunsUnderNewId(m, q)
  {
    hide Trimmed, TrimSpace, ParseExecutionSequence, ExecutionId;
    ExecutionIdReadsBack(m.nextId + 1);
  }

  lemma BlankIsTrimmed(s: string)
    ensures TrimSpace("") == "" && (Trimmed(s) && s != "" ==> TrimSpace(s) != "")
  {
  }

  /** The manager and the decision of a request, once the standing execution has been looked up. */
  function DecisionOn(m: Mgr, q: Request): (Mgr, Decision) {
    Decided(Opened(m, q), Prepared(q.intent, m.nextId + 1, q.Now()), q.gate, q.before, q.Now())
  }

  /** The key a request runs under. */
  function KeyOf(m: Mgr, q: Request): string {
    BuildDedupeKey(Prepared(q.intent, m.nextId + 1, q.Now()))
  }

  lemma RefusalStatus(text: string)
    ensures MapRefusal(text).Closed()
  {
    hide Contains, LowerTrim;
  }

  lemma SubmissionStatus(p: Payload, quantity: real)
    ensures var s := MapPayloadStatus(p, quantity); (s.InFlight() || s.Closed()) && s != Stale
  {
    hide UpperOf;
  }

  /** A result is filed under its intent and key; it can stand for the key exactly when it was sent. */
  lemma ResultIsFollowed(q: Request, i: Intent, d: Decision)
    ensures var r := ResultOf(i, d, q.broker, q.after, q.Now());
      && Unfollowed(Entry(i, r)) && (r.status.Registers() <==> d == Send)
      && (d == Send ==> r.status.InFlight() || r.status.Closed())
      && r.intentId == i.intentId && r.dedupeKey == BuildDedupeKey(i)
  {
    hide Find, MapPayloadStatus, MapRefusal, MapRecordStatus, BuildDedupeKey, Shown, FillOf, ClassifyAction, EventTime;
    forall text: string ensures MapRefusal(text).Closed() {
      RefusalStatus(text);
    }
    forall record: OrderModel.Record ensures MappedStatus(record) {
      RecordStatus(record);
    }
    if q.broker.Some? && q.broker.value.Taken? {
      SubmissionStatus(q.broker.value.payload, i.quantity);
    }
  }

  predicate MappedStatus(record: OrderModel.Record) {
    var s := MapRecordStatus(record);
    && (s.Some? ==> (s.value.InFlight() || s.value.Closed()) && !s.value.Pending? && !s.value.Failed?)
    && (record.status.Terminal() <==> s.Some? && s.value.Closed())
  }

  lemma RecordStatus(record: OrderModel.Record)
    ensures MappedStatus(record)
  {
  }

  lemma OpenedKeepsBooks(m: Mgr, q: Request)
    requires Bookkept(m)
    ensures Bookkept(Opened(m, q)) && SameRequests(m.history, Opened(m, q).history)
    ensures SameShape(m.history, Opened(m, q).history)
  {
    hide Unfollowed, Indexed, SameRequest, Swept;
    SweepKeepsBooks(m, q.before, q.Now());
    SweptConfig(m, q.before, q.Now());
    var s := Swept(m, q.before, q.Now());
    assert SameRequests(s.history, s.history) by { SameAsItself(s.history); }
    LookKeepsBooks(s, Opened(m, q));
  }

  lemma SameAsItself(history: seq<Entry>)
    ensures SameRequests(history, history)
  {
  }

  lemma StandingPosition(m: Mgr, key: string)
    requires Indexed(m) && StandingFor(m, key).Some?
    ensures var at := StandingFor(m, key).value;
      && at < |m.history| && key in m.latest && m.latest[key] == m.history[at].Id()
      && m.history[at].Key() == key && StandsForKey(m.history[at], m.latest) && m.history[at].Status().Registers()
  {
    hide NamedEntry;
    PositionOfUnique(m, LastOf(m.history, key).value);
  }

  lemma DecisionKeepsBooks(m: Mgr, q: Request)
    requires Bookkept(m)
    ensures var (m', d) := DecisionOn(m, q);
      && Bookkept(m') && SameRequests(m.history, m'.history) && SameShape(m.history, m'.history)
      && m'.nextId == m.nextId + 1 && m'.cfg == m.cfg && m'.latest == Opened(m, q).latest
  {
    hide Bookkept, Validate, BuildDedupeKey, DecideAgainst, Swept, Prepared, Refreshed, SameRequest, SameShape;
    var s, key := Opened(m, q), KeyOf(m, q);
    OpenedKeepsBooks(m, q);
    SweptConfig(m, q.before, q.Now());
    if StandingFor(s, key).Some? {
      var at := StandingFor(s, key).value;
      RefreshKeepsBooks(s, at, q.before, q.Now());
      StillSameRequests(m.history, s.history, WithRefreshed(s, at, q.before, q.Now()).history);
    }
  }

  lemma StillSameRequests(a: seq<Entry>, b: seq<Entry>, c: seq<Entry>)
    requires SameRequests(a, b) && SameRequests(b, c)
    ensures SameRequests(a, c) && SameShape(a, c)
  {
  }

  /** Every request, however it ends and whatever the clock and the order store say, keeps the books. */
  lemma ExecuteKeepsBooks(m: Mgr, q: Request)
    requires Bookkept(m) && UsableId(m, q.intent.intentId)
    ensures Bookkept(Executed(m, q).manager)
  {
    hide Decided, Stored, ResultOf, BuildDedupeKey, NamedEntry, Trimmed, Unfollowed, UsableId, LatestAgrees, SameRequest;
    var i := Prepared(q.intent, m.nextId + 1, q.Now());
    var (m', d) := DecisionOn(m, q);
    var result := ResultOf(i, d, q.broker, q.after, q.Now());
    DecisionKeepsBooks(m, q);
    ResultIsFollowed(q, i, d);
    PreparedIsNamed(m, q, result);
    StoreKeepsBooks(m', Entry(i, result));
  }

  // ---- Why a request is held back ----

  /** The execution is a reason for the decision not to send another one of its key. */
  predicate HoldsBack(e: Entry, d: Decision, cfg: Config, now: Time) {
    && e.Status().Registers()
    && match d
       case SuppressInFlight => e.Status().InFlight()
       case BlockBehindStale => e.Status() == Stale
       case SuppressRecent => !e.Status().InFlight() && e.Status() != Stale && now - e.Reference() <= cfg.dedupeWindow
       case _ => false
  }

  /** A valid request that is not sent is held back by an execution of the same key that is in flight,
      stale, or finished within the dedupe window; with no execution of its key it is sent. */
  lemma HeldBackForACause(m: Mgr, q: Request)
    requires Bookkept(m)
    requires Validate(Prepared(q.intent, m.nextId + 1, q.Now()), q.gate) == NoProblem && DecisionOn(m, q).1 != Send
    ensures var (m', d) := DecisionOn(m, q);
      exists j :: 0 <= j < |m'.history| && HoldsBack(m'.history[j], d, m.cfg, q.Now())
                  && m'.history[j].Key() == KeyOf(m, q)
  {
    hide Validate, BuildDedupeKey, LastOf, Swept, Prepared, RefreshedEntry, StandsForKey, NamedEntry, Unfollowed;
    var now := q.Now();
    var s, key := Opened(m, q), KeyOf(m, q);
    OpenedKeepsBooks(m, q);
    SweptConfig(m, q.before, now);
    StandingPosition(s, key);
    var at := StandingFor(s, key).value;
    RefreshKeepsRequest(s.history[at], q.before, now);
    assert HoldsBack(RefreshedEntry(s.history[at], q.before, now), DecisionOn(m, q).1, m.cfg, now);
  }

  // ---- One execution in flight per key ----

  /** An execution in flight stands for its key. */
  predicate AloneInFlight(m: Mgr) {
    forall i | 0 <= i < |m.history| :: m.history[i].Status().InFlight() ==> StandsForKey(m.history[i], m.latest)
  }

  /** A stale execution is stale because it was submitted long enough ago. */
  predicate LiveEntry(e: Entry, cfg: Config, t: Time) {
    && !e.Status().OtherStatus?
    && (e.Status() == Stale ==> e.result.submittedAt != ZERO_TIME && t - e.result.submittedAt >= cfg.staleAfter)
  }

  predicate Live(m: Mgr, t: Time) {
    Bookkept(m) && AloneInFlight(m) && forall i | 0 <= i < |m.history| :: LiveEntry(m.history[i], m.cfg, t)
  }

  /** The status the lookup reports for an execution, if any. */
  function Reported(e: Entry, lookup: Lookup): Option<Status> {
    var found := Find(lookup, e.result.localOrderId, e.result.brokerOrderId);
    if found.None? then None else MapRecordStatus(found.value)
  }

  /** The lookup reports the order of a closed execution open. */
  predicate Reopens(e: Entry, lookup: Lookup) {
    e.Status().Closed() && Reported(e, lookup).Some? && !Reported(e, lookup).value.Closed()
  }

  /** Of the executions that have given up their key, the lookup reopens none submitted less than so long ago. */
  predicate ReopensNoneBefore(m: Mgr, lookup: Lookup, now: Time, age: int) {
    forall i | 0 <= i < |m.history| ::
      Reopens(m.history[i], lookup) && !StandsForKey(m.history[i], m.latest) ==>
        m.history[i].result.submittedAt != ZERO_TIME && now - m.history[i].result.submittedAt >= age
  }

  /** Those it reopens are old enough to go stale at once. */
  predicate ReopensNoneEarly(m: Mgr, lookup: Lookup, now: Time) {
    ReopensNoneBefore(m, lookup, now, m.cfg.staleAfter)
  }

  /** A sweep leaves nothing in flight that was not, unless the lookup reopens a closed execution. */
  lemma SweepKeepsLiveEntry(e: Entry, lookup: Lookup, cfg: Config, t: Time, now: Time)
    requires LiveEntry(e, cfg, t) && Unfollowed(e) && t <= now
    ensures var e' := SweptEntry(e, lookup, cfg, now);
      && LiveEntry(e', cfg, now)
      && (e'.Status().InFlight() ==>
            e.Status().InFlight() || Reopens(e, lookup))
  {
    hide Find, MapRecordStatus, EventTime;
    forall record: OrderModel.Record ensures MappedStatus(record) {
      RecordStatus(record);
    }
  }

  /** An execution that stood for its key and is in flight after the sweep still stands for it. */
  lemma InFlightStillStands(m: Mgr, lookup: Lookup, now: Time, i: nat)
    requires Bookkept(m) && i < |m.history| && StandsForKey(m.history[i], m.latest)
    requires Swept(m, lookup, now).history[i].Status().InFlight()
    ensures StandsForKey(Swept(m, lookup, now).history[i], Swept(m, lookup, now).latest)
  {
    hide SweptEntry, LastOf, NamedEntry, Unfollowed, IndexExact, UniqueIds, LatestAgrees;
    SweepKeepsBooks(m, lookup, now);
    PositionOfUnique(Swept(m, lookup, now), i);
  }

  lemma SweepKeepsLive(m: Mgr, lookup: Lookup, t: Time, now: Time)
    requires Live(m, t) && t <= now && ReopensNoneEarly(m, lookup, now)
    ensures Live(Swept(m, lookup, now), now)
  {
    hide Bookkept, AloneInFlight, LiveEntry, SameRequests, SameShape, ReopensNoneEarly, SweptEntry;
    var m' := Swept(m, lookup, now);
    BooksOfLive(m, t);
    SweepKeepsBooks(m, lookup, now);
    SweptConfig(m, lookup, now);
    SweepStaysAloneIff(m, lookup, t, now);
    forall i | 0 <= i < |m'.history| ensures LiveEntry(m'.history[i], m'.cfg, now) {
      SweptHistoryAt(m, lookup, now, i);
      EntryOfLive(m, t, i);
      SweepKeepsLiveEntry(m.history[i], lookup, m.cfg, t, now);
    }
  }

  lemma EntryOfLive(m: Mgr, t: Time, i: nat)
    requires Live(m, t) && i < |m.history|
    ensures Unfollowed(m.history[i]) && LiveEntry(m.history[i], m.cfg, t)
  {
    hide Indexed, Unfollowed, LiveEntry;
  }

  lemma ReopenedInSweep(e: Entry, lookup: Lookup, cfg: Config, now: Time)
    requires Reopens(e, lookup)
    ensures SweptEntry(e, lookup, cfg, now).Status().InFlight()
      <==> e.result.submittedAt == ZERO_TIME || now - e.result.submittedAt < cfg.staleAfter
  {
    hide Find, EventTime;
  }

  /** Exactly when a sweep keeps every execution in flight standing for its key. */
  lemma SweepStaysAloneIff(m: Mgr, lookup: Lookup, t: Time, now: Time)
    requires Live(m, t) && t <= now
    ensures AloneInFlight(Swept(m, lookup, now)) <==> ReopensNoneEarly(m, lookup, now)
  {
    hide SweptEntry, Indexed, Unfollowed, LiveEntry, StandsForKey, Reopens, Released;
    var m' := Swept(m, lookup, now);
    SweepKeepsBooks(m, lookup, now);
    forall i | 0 <= i < |m'.history|
      ensures m'.history[i].Status().InFlight() && !StandsForKey(m'.history[i], m'.latest) <==>
        && Reopens(m.history[i], lookup) && !StandsForKey(m.history[i], m.latest)
        && (m.history[i].result.submittedAt == ZERO_TIME || now - m.history[i].result.submittedAt < m.cfg.staleAfter)
    {
      StrayAfterSweep(m, lookup, t, now, i);
    }
  }

  lemma StrayAfterSweep(m: Mgr, lookup: Lookup, t: Time, now: Time, i: nat)
    requires Live(m, t) && t <= now && i < |m.history|
    ensures var m', e := Swept(m, lookup, now), m.history[i];
      && |m'.history| == |m.history|
      && (m'.history[i].Status().InFlight() && !StandsForKey(m'.history[i], m'.latest) <==>
            && Reopens(e, lookup) && !StandsForKey(e, m.latest)
            && (e.result.submittedAt == ZERO_TIME || now - e.result.submittedAt < m.cfg.staleAfter))
  {
    hide SweptEntry, Indexed, Unfollowed, LiveEntry, Reported, StillStands;
    var m', e := Swept(m, lookup, now), m.history[i];
    SweptHistoryAt(m, lookup, now, i);
    SweepKeepsRequest(e, lookup, m.cfg, now);
    SweepKeepsLiveEntry(e, lookup, m.cfg, t, now);
    if StandsForKey(e, m.latest) && m'.history[i].Status().InFlight() {
      InFlightStillStands(m, lookup, now, i);
    }
    if Reopens(e, lookup) {
      ReopenedInSweep(e, lookup, m.cfg, now);
    }
  }

  lemma SweptHistoryAt(m: Mgr, lookup: Lookup, now: Time, i: nat)
    requires i < |m.history|
    ensures |Swept(m, lookup, now).history| == |m.history|
    ensures Swept(m, lookup, now).history[i] == SweptEntry(m.history[i], lookup, m.cfg, now)
  {
    hide SweptEntry;
  }

  /** A look at the standing execution may revive it: it still stands. */
  lemma RefreshKeepsLive(m: Mgr, at: nat, lookup: Lookup, now: Time)
    requires Live(m, now) && at < |m.history| && StandsForKey(m.history[at], m.latest)
    ensures Live(WithRefreshed(m, at, lookup, now), now)
  {
    hide Indexed, Unfollowed, RefreshedEntry;
    RefreshKeepsBooks(m, at, lookup, now);
    RefreshKeepsRequest(m.history[at], lookup, now);
    RefreshKeepsLiveEntry(m.history[at], lookup, m.cfg, now);
  }

  lemma RefreshKeepsLiveEntry(e: Entry, lookup: Lookup, cfg: Config, now: Time)
    requires LiveEntry(e, cfg, now)
    ensures LiveEntry(RefreshedEntry(e, lookup, now), cfg, now)
  {
    hide Find, MapRecordStatus, EventTime;
    forall record: OrderModel.Record ensures MappedStatus(record) {
      RecordStatus(record);
    }
  }

  /** No execution of the key is in flight. */
  predicate KeyIdle(m: Mgr, key: string) {
    forall i | 0 <= i < |m.history| && m.history[i].Key() == key :: !m.history[i].Status().InFlight()
  }

  lemma StoreKeepsLive(m: Mgr, e: Entry, now: Time)
    requires Live(m, now) && NamedEntry(e, m.nextId) && Unfollowed(e) && LiveEntry(e, m.cfg, now)
    requires forall i | 0 <= i < |m.history| :: m.history[i].Id() != e.Id()
    requires e.Status().Registers() ==> KeyIdle(m, e.Key())
    ensures Live(Stored(m, e), now)
  {
    hide NamedEntry, LastOf, Unfollowed, LiveEntry, IndexExact, Stored;
    StoreKeepsBooks(m, e);
    StoredHistory(m, e);
    var m' := Stored(m, e);
    var h := m.history + [e];
    var shift := if |h| > m.cfg.maxHistory then 1 else 0;
    assert m'.history == h[shift..];
    forall i | 0 <= i < |m'.history|
      ensures LiveEntry(m'.history[i], m.cfg, now)
      ensures m'.history[i].Status().InFlight() ==> StandsForKey(m'.history[i], m'.latest)
    {
      assert m'.history[i] == h[i + shift];
      if i + shift < |m.history| {
        assert m'.history[i] == m.history[i + shift];
        StillStanding(m, e, i + shift);
      }
    }
  }

  lemma KeyIdleUnlessStanding(m: Mgr, key: string)
    requires Bookkept(m) && AloneInFlight(m) && (StandingFor(m, key).Some? ==>
      !m.history[StandingFor(m, key).value].Status().InFlight())
    ensures KeyIdle(m, key)
  {
    hide NamedEntry, Unfollowed, LastOf;
    forall i | 0 <= i < |m.history| && m.history[i].Key() == key && m.history[i].Status().InFlight() ensures false {
      PositionOfUnique(m, i);
    }
  }

  /** After the decision nothing new is in flight, and a request is sent on only when its key is idle. */
  lemma DecisionKeepsLive(m: Mgr, t: Time, q: Request)
    requires Live(m, t) && t <= q.Now() && ReopensNoneEarly(m, q.before, q.Now())
    ensures var (m', d) := DecisionOn(m, q);
      Live(m', q.Now()) && (d == Send ==> KeyIdle(m', KeyOf(m, q)))
  {
    hide Bookkept, Validate, BuildDedupeKey, Swept, Prepared, RefreshedEntry, LiveEntry, ReopensNoneEarly, KeyIdle,
         AloneInFlight, StandsForKey;
    var now, s, key := q.Now(), Opened(m, q), KeyOf(m, q);
    OpenedIsLive(m, t, q);
    var at := StandingFor(s, key);
    if at.None? {
      KeyIdleUnlessStanding(s, key);
    } else {
      BooksAreIndexed(s);
      StandingPosition(s, key);
      RefreshKeepsLive(s, at.value, q.before, now);
      var s' := WithRefreshed(s, at.value, q.before, now);
      if !s'.history[at.value].Status().InFlight() {
        SameStanding(s, s', at.value, key, q.before, now);
        KeyIdleUnlessStanding(s', key);
      }
    }
  }

  lemma BooksAreIndexed(m: Mgr)
    requires Bookkept(m)
    ensures Indexed(m)
  {
  }

  lemma SameStanding(m: Mgr, m': Mgr, at: nat, key: string, lookup: Lookup, now: Time)
    requires at < |m.history| && m' == WithRefreshed(m, at, lookup, now) && Bookkept(m') && StandingFor(m, key) == Some(at)
    ensures StandingFor(m', key) == Some(at)
  {
    hide NamedEntry, Unfollowed, LastOf, RefreshedEntry, LatestAgrees;
    RefreshKeepsIntent(m.history[at], lookup, now);
    PositionOfUnique(m', at);
  }

  lemma RefreshKeepsIntent(e: Entry, lookup: Lookup, now: Time)
    ensures RefreshedEntry(e, lookup, now).intent == e.intent
  {
  }

  lemma OpenedIsLive(m: Mgr, t: Time, q: Request)
    requires Live(m, t) && t <= q.Now() && ReopensNoneEarly(m, q.before, q.Now())
    ensures Live(Opened(m, q), q.Now())
  {
    hide Indexed, Unfollowed, LiveEntry, Swept, StandsForKey, ReopensNoneEarly;
    SweepKeepsLive(m, q.before, t, q.Now());
    OpenedKeepsBooks(m, q);
  }

  lemma ResultIsLive(q: Request, i: Intent, d: Decision, cfg: Config)
    ensures LiveEntry(Entry(i, ResultOf(i, d, q.broker, q.after, q.Now())), cfg, q.Now())
  {
    hide SubmissionResult;
    ResultIsFollowed(q, i, d);
  }

  /** Every request keeps at most one execution in flight per key, whatever the order store says of the
      execution it submits. */
  lemma ExecuteKeepsLive(m: Mgr, t: Time, q: Request)
    requires Live(m, t) && t <= q.Now() && ReopensNoneEarly(m, q.before, q.Now()) && UsableId(m, q.intent.intentId)
    ensures Live(Executed(m, q).manager, q.Now())
  {
    hide Decided, Stored, ResultOf, BuildDedupeKey, NamedEntry, Trimmed, Unfollowed, UsableId, LatestAgrees, SameRequest,
         LiveEntry, AloneInFlight, KeyIdle, ReopensNoneEarly;
    var i := Prepared(q.intent, m.nextId + 1, q.Now());
    var (m', d) := DecisionOn(m, q);
    var result := ResultOf(i, d, q.broker, q.after, q.Now());
    DecisionKeepsBooks(m, q);
    DecisionKeepsLive(m, t, q);
    ResultIsFollowed(q, i, d);
    ResultIsLive(q, i, d, m.cfg);
    PreparedIsNamed(m, q, result);
    StoreKeepsLive(m', Entry(i, result), q.Now());
  }

  /** The broker is not asked while an execution of the key in the history is in flight. */
  lemma BrokerNotAskedInFlight(m: Mgr, t: Time, q: Request)
    requires Live(m, t) && t <= q.Now() && ReopensNoneEarly(m, q.before, q.Now()) && CallsBroker(m, q)
    ensures var (m', _) := DecisionOn(m, q);
      && SameRequests(m.history, m'.history) && Executed(m, q).result.dedupeKey == KeyOf(m, q)
      && KeyIdle(m', KeyOf(m, q))
  {
    hide Decided, BuildDedupeKey, ResultOf, Prepared, KeyIdle, Live, Stored;
    DecisionKeepsLive(m, t, q);
    BooksOfLive(m, t);
    DecisionKeepsBooks(m, q);
    ResultIsFollowed(q, Prepared(q.intent, m.nextId + 1, q.Now()), Send);
  }

  lemma BooksOfLive(m: Mgr, t: Time)
    requires Live(m, t)
    ensures Bookkept(m)
  {
  }
}
