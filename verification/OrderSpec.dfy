/** What each store operation does, as functions from one store value to the next. */
module OrderSpec {
  import opened Basics
  import opened Text
  import opened OrderModel

  // ---- The store as a value ----

  datatype Tally = Tally(
    mismatches: nat, repairs: nat, unknownBroker: nat, localMissing: nat, fillMismatches: nat,
    imported: nat, resolved: nat, inferred: nat, unresolved: nat)
  {
    function Plus(t: Tally): Tally {
      Tally(mismatches + t.mismatches, repairs + t.repairs, unknownBroker + t.unknownBroker,
            localMissing + t.localMissing, fillMismatches + t.fillMismatches, imported + t.imported,
            resolved + t.resolved, inferred + t.inferred, unresolved + t.unresolved)
    }
  }

  const NO_TALLY := Tally(0, 0, 0, 0, 0, 0, 0, 0, 0)

  datatype Counts = Counts(
    tracked: nat, active: nat, pending: nat, confirmed: nat, inferred: nat, unresolved: nat, degraded: bool)

  const NO_COUNTS := Counts(0, 0, 0, 0, 0, 0, false)

  datatype Summary = Summary(
    lastRunAt: Time, lastSuccessAt: Time, lastError: string, totalRuns: nat, totals: Tally,
    counts: Counts, brokerOpen: nat, lastInferredAt: Time, lastUnresolvedAt: Time, lastIssues: seq<Issue>)

  const NO_SUMMARY := Summary(ZERO_TIME, ZERO_TIME, "", 0, NO_TALLY, NO_COUNTS, 0, ZERO_TIME, ZERO_TIME, [])

  type Orders = map<string, Record>

  datatype StoreValue = StoreValue(nextId: nat, orders: Orders, index: map<string, string>, summary: Summary)

  const EMPTY_STORE := StoreValue(0, map[], map[], NO_SUMMARY)

  /** The persisted form: the records in the order of their ids. */
  datatype Snapshot = Snapshot(version: int, nextId: nat, orders: seq<Record>, summary: Summary)

  const STATE_VERSION: int := 1

  // ---- Counting ----

  predicate HasAuthority(r: Record, a: Authority) {
    NormalizeAuthority(r) == a
  }

  function WithAuthority(orders: Orders, a: Authority): set<string> {
    set id | id in orders && HasAuthority(orders[id], a)
  }

  function ActiveIds(orders: Orders): set<string> {
    set id | id in orders && !orders[id].status.Terminal()
  }

  function Recount(orders: Orders): Counts {
    var inferred := |WithAuthority(orders, Inferred)|;
    var unresolved := |WithAuthority(orders, Unresolved)|;
    Counts(|orders|, |ActiveIds(orders)|, |WithAuthority(orders, LocalPending)|, |WithAuthority(orders, BrokerConfirmed)|,
           inferred, unresolved, inferred > 0 || unresolved > 0)
  }

  function Recounted(s: StoreValue, brokerOpen: nat): StoreValue {
    s.(summary := s.summary.(counts := Recount(s.orders), brokerOpen := brokerOpen))
  }

  // ---- Simple operations ----

  function NewRecord(localId: string, intent: Intent, symbol: string, side: string, positionSide: string, qty: real,
                     at: Time): Record
  {
    Record(localId, "", NormalizeIntent(intent), UpperTrim(symbol), UpperTrim(side), LowerTrim(positionSide),
           Submitted, "", qty, 0.0, qty, 0.0, LocalSubmission, AwaitingAck, LocalPending, Pending,
           AwaitingAck, false, at, at, ZERO_TIME)
  }

  function Registered(s: StoreValue, intent: Intent, symbol: string, side: string, positionSide: string, qty: real,
                      at: Time): StoreValue
  {
    var id := LocalOrderId(LOCAL_PREFIX, s.nextId + 1);
    Recounted(s.(nextId := s.nextId + 1,
                 orders := s.orders[id := NewRecord(id, intent, symbol, side, positionSide, qty, at)]), 0)
  }

  function RejectedRecord(r: Record, message: Note, at: Time): Record {
    r.(status := Rejected, lastMessage := message.Trim(), authority := BrokerConfirmed, confidence := ConfirmedTruth,
       reason := NoteOr(message, RejectedByBroker), needsReview := false, updatedAt := at, lastSeenAt := at)
  }

  function MarkedRejected(s: StoreValue, localId: string, message: Note, at: Time): StoreValue {
    if localId !in s.orders then s
    else Recounted(s.(orders := s.orders[localId := RejectedRecord(s.orders[localId], message, at)]), s.summary.brokerOpen)
  }

  function Lookup(s: StoreValue, localId: string, brokerOrderId: string): Option<Record> {
    var byLocal := TrimSpace(localId);
    var byBroker := TrimSpace(brokerOrderId);
    if byLocal != "" && byLocal in s.orders then Some(s.orders[byLocal])
    else if byBroker != "" && byBroker in s.index && s.index[byBroker] != "" && s.index[byBroker] in s.orders then
      Some(s.orders[s.index[byBroker]])
    else None
  }

  // ---- Restore ----

  function RestoredRecord(record: Record, clock: Time): Record {
    var r := record.(
      localId := TrimSpace(record.localId), intent := NormalizeIntent(record.intent), symbol := UpperTrim(record.symbol),
      side := UpperTrim(record.side), positionSide := LowerTrim(record.positionSide));
    var authority := NormalizeAuthority(r);
    r.(authority := authority,
       confidence := NormalizeConfidence(r.confidence, authority, r.lastMessage),
       reason := NormalizeReason(r.reason, authority, r.lastMessage),
       submittedAt := NormalizeTime(r.submittedAt, clock),
       updatedAt := NormalizeTime(r.updatedAt, clock))
  }

  function RestoredOne(s: StoreValue, record: Record, clock: Time): StoreValue {
    var r := RestoredRecord(record, clock);
    var brokerId := TrimSpace(r.brokerOrderId);
    s.(orders := s.orders[r.localId := r],
       index := if brokerId != "" then s.index[brokerId := r.localId] else s.index)
  }

  /** The store after loading the records in turn; loading stops at the first record without an id. */
  function Loaded(s: StoreValue, records: seq<Record>, clock: Time): StoreValue {
    if records == [] then s
    else
      var before := Loaded(s, records[..|records| - 1], clock);
      var last := records[|records| - 1];
      if AllNamed(records) then RestoredOne(before, last, clock) else before
  }

  predicate AllNamed(records: seq<Record>) {
    forall i | 0 <= i < |records| :: TrimSpace(records[i].localId) != ""
  }

  function SequenceOf(r: Record): nat {
    ParseOrderSequence(TrimSpace(r.localId))
  }

  /** The largest sequence number among the records, at least `floor`. */
  function HighestSequence(records: seq<Record>, floor: nat): (n: nat)
    ensures n >= floor
  {
    if records == [] then floor
    else
      var before := HighestSequence(records[..|records| - 1], floor);
      var last := SequenceOf(records[|records| - 1]);
      if last > before then last else before
  }

  lemma {:induction false} HighestSequenceBounds(records: seq<Record>, floor: nat)
    ensures forall r | r in records :: SequenceOf(r) <= HighestSequence(records, floor)
    ensures HighestSequence(records, floor) == floor
      || exists r :: r in records && SequenceOf(r) == HighestSequence(records, floor)
  {
    if records != [] {
      HighestSequenceBounds(records[..|records| - 1], floor);
      assert records == records[..|records| - 1] + [records[|records| - 1]];
    }
  }

  /** A failed restore has already replaced the records, keeping those read before the bad one. */
  function Restored(s: StoreValue, snapshot: Snapshot, clock: Time): StoreValue {
    if snapshot.version != STATE_VERSION then s
    else
      var blank := s.(nextId := snapshot.nextId, orders := map[], index := map[]);
      var loaded := Loaded(blank, snapshot.orders, clock);
      if AllNamed(snapshot.orders) then
        Recounted(loaded.(nextId := HighestSequence(snapshot.orders, snapshot.nextId), summary := snapshot.summary),
                  snapshot.summary.brokerOpen)
      else loaded
  }

  function RestoreOutcome(snapshot: Snapshot): Outcome {
    if snapshot.version == 0 then Done
    else if snapshot.version != STATE_VERSION then Failed("unsupported version")
    else if AllNamed(snapshot.orders) then Done
    else Failed("record with no local id")
  }

  // ---- Reconciliation ----

  /** The last broker order listed under each non-empty id. */
  function OpenById(open: seq<BrokerOrder>): (m: map<string, BrokerOrder>)
    ensures forall id | id in m :: id != "" && m[id] in open && m[id].orderId == id
    ensures forall o | o in open && o.orderId != "" :: o.orderId in m
  {
    if open == [] then map[]
    else
      var before := OpenById(open[..|open| - 1]);
      var last := open[|open| - 1];
      if last.orderId != "" then before[last.orderId := last] else before
  }

  datatype Env = Env(open: seq<BrokerOrder>, positions: seq<Position>, now: Time)

  /** What happened to one record. */
  datatype Verdict =
    | Untouched
    | Waiting
    | Confirmed(order: BrokerOrder, matched: bool, changed: bool, fillMismatch: bool)
    | Missing(resolution: Resolution)

  datatype Settlement = Settlement(record: Record, verdict: Verdict)

  predicate HeldAtBroker(r: Record, open: seq<BrokerOrder>) {
    r.brokerOrderId != "" && r.brokerOrderId in OpenById(open)
  }

  function ConfirmedBy(r: Record, o: BrokerOrder, matched: bool, now: Time): Settlement {
    var linked := if matched then r.(brokerOrderId := o.orderId) else r;
    var r' := WithBrokerTruth(linked, o, now);
    Settlement(r', Confirmed(o, matched, TruthOf(r') != TruthOf(linked), HasFillMismatch(linked, o)))
  }

  /** How a record is settled, given the broker ids used so far. */
  function Settle(env: Env, used: set<string>, r: Record): Settlement {
    if r.status.Terminal() then Settlement(r, Untouched)
    else if HeldAtBroker(r, env.open) then ConfirmedBy(r, OpenById(env.open)[r.brokerOrderId], false, env.now)
    else
      var m := FindPendingMatch(r, env.open, used);
      if m.Some? then ConfirmedBy(r, m.value, true, env.now)
      else
        var resolution := InferMissing(r, env.positions, env.now);
        if resolution.None? then Settlement(r, Waiting)
        else Settlement(WithResolution(r, resolution.value, env.now), Missing(resolution.value))
  }

  function One(b: bool): nat {
    if b then 1 else 0
  }

  /** What a settlement adds to the counters. */
  function TallyOf(s: Settlement): Tally {
    match s.verdict
    case Confirmed(_, matched, changed, fillMismatch) =>
      Tally(One(matched) + One(fillMismatch), One(matched) + One(changed), 0, 0, One(fillMismatch), 0,
            One(s.record.status.Terminal()), 0, 0)
    case Missing(resolution) =>
      Tally(1, One(resolution.repaired), 0, 1, 0, 0, One(resolution.status.Terminal()),
            One(resolution.authority == Inferred), One(resolution.authority == Unresolved))
    case _ => NO_TALLY
  }

  function IssuesOf(s: Settlement): seq<Issue> {
    var id := s.record.localId;
    match s.verdict
    case Confirmed(o, matched, _, fillMismatch) =>
      (if matched then [Issue(MatchedPendingOrder, id, o.orderId, true, BrokerConfirmed, ConfirmedTruth, false)] else [])
      + (if fillMismatch then [Issue(FillMismatch, id, o.orderId, true, BrokerConfirmed, ConfirmedTruth, false)] else [])
    case Missing(resolution) =>
      [Issue(LocalMissingAtBroker, id, s.record.brokerOrderId, resolution.repaired, resolution.authority,
             resolution.confidence, resolution.needsReview)]
    case _ => []
  }

  /** Issues are kept up to the cap; later ones are dropped. */
  function Capped(issues: seq<Issue>): seq<Issue> {
    if |issues| <= ISSUE_CAP then issues else issues[..ISSUE_CAP]
  }

  datatype Progress = Progress(
    orders: Orders, index: map<string, string>, used: set<string>, nextId: nat, tally: Tally, issues: seq<Issue>)

  /** The ids in use once a record's own broker order has been marked. */
  function Marked(used: set<string>, r: Record, open: seq<BrokerOrder>): set<string> {
    if HeldAtBroker(r, open) then used + {r.brokerOrderId} else used
  }

  function StepRecord(env: Env, p: Progress, id: string): Progress
    requires id in p.orders
  {
    var r := p.orders[id];
    var used := Marked(p.used, r, env.open);
    var s := Settle(env, used, r);
    p.(orders := p.orders[id := s.record],
       index := if s.verdict.Confirmed? && s.verdict.matched then p.index[s.verdict.order.orderId := r.localId] else p.index,
       used := if s.verdict.Confirmed? then used + {s.verdict.order.orderId} else used,
       tally := p.tally.Plus(TallyOf(s)),
       issues := p.issues + IssuesOf(s))
  }

  /** Settles the records in the given order. */
  function RecordPass(env: Env, p: Progress, ids: seq<string>): (p': Progress)
    requires forall id | id in ids :: id in p.orders
    ensures p'.orders.Keys == p.orders.Keys && p'.nextId == p.nextId
  {
    if ids == [] then p else StepRecord(env, RecordPass(env, p, ids[..|ids| - 1]), ids[|ids| - 1])
  }

  function ImportAs(p: Progress, o: BrokerOrder, id: string, now: Time): Progress {
    p.(nextId := p.nextId + 1,
       orders := p.orders[id := Imported(o, id, now)],
       index := if o.orderId != "" then p.index[o.orderId := id] else p.index,
       tally := p.tally.Plus(Tally(1, 1, 1, 0, 0, 1, 0, 0, 0)),
       issues := p.issues + [Issue(UnknownBrokerOrder, id, o.orderId, true, BrokerConfirmed, ConfirmedTruth, false)])
  }

  function StepImport(p: Progress, o: BrokerOrder, now: Time): Progress {
    if !Free(o, p.used) then p else ImportAs(p, o, LocalOrderId(BROKER_PREFIX, p.nextId + 1), now)
  }

  /** Imports the broker orders no record uses. */
  function ImportPass(p: Progress, open: seq<BrokerOrder>, now: Time): (p': Progress)
    ensures p'.used == p.used && p'.nextId >= p.nextId
  {
    if open == [] then p else StepImport(ImportPass(p, open[..|open| - 1], now), open[|open| - 1], now)
  }

  function Start(s: StoreValue): Progress {
    Progress(s.orders, s.index, {}, s.nextId, NO_TALLY, [])
  }

  /** The two passes of one reconciliation. */
  function Passes(s: StoreValue, ids: seq<string>, env: Env): Progress
    requires forall id | id in ids :: id in s.orders
  {
    ImportPass(RecordPass(env, Start(s), ids), env.open, env.now)
  }

  datatype Report = Report(
    ranAt: Time, localOrders: nat, activeLocal: nat, brokerOpen: nat, tally: Tally,
    needsReview: bool, tradingBlocked: bool, issues: seq<Issue>)

  /** A processing order: every record once, earliest submission first. */
  ghost predicate ProcessingOrder(ids: seq<string>, orders: Orders) {
    && (forall i, j | 0 <= i < j < |ids| :: ids[i] != ids[j])
    && (forall id :: id in ids <==> id in orders)
    && (forall i, j | 0 <= i < j < |ids| :: orders[ids[i]].submittedAt <= orders[ids[j]].submittedAt)
  }

  function SummaryAfter(summary: Summary, tally: Tally, issues: seq<Issue>, now: Time): Summary {
    summary.(
      lastRunAt := now, lastSuccessAt := now, lastError := "", totalRuns := summary.totalRuns + 1,
      totals := summary.totals.Plus(tally),
      lastInferredAt := if tally.inferred > 0 then now else summary.lastInferredAt,
      lastUnresolvedAt := if tally.unresolved > 0 then now else summary.lastUnresolvedAt,
      lastIssues := Capped(issues))
  }

  function Reconciled(s: StoreValue, ids: seq<string>, env: Env): StoreValue
    requires forall id | id in ids :: id in s.orders
  {
    var p := Passes(s, ids, env);
    Recounted(StoreValue(p.nextId, p.orders, p.index, SummaryAfter(s.summary, p.tally, p.issues, env.now)), |env.open|)
  }

  function ReportOf(s: StoreValue, ids: seq<string>, env: Env): Report
    requires forall id | id in ids :: id in s.orders
  {
    var p := Passes(s, ids, env);
    Report(env.now, |p.orders|, Recount(p.orders).active, |env.open|, p.tally,
           p.tally.inferred > 0 || p.tally.unresolved > 0, p.tally.unresolved > 0, Capped(p.issues))
  }
}
