/** What each operation of the execution manager does, as functions from one manager value to the next. */
module ExecutionSpec {
  import opened Basics
  import opened Text
  import opened ExecutionModel

  /** Bounded history, oldest first; for each id the place in it of the execution the id leads to; and for each
      dedupe key the id of the execution that stands for it. */
  datatype Mgr = Mgr(cfg: Config, nextId: nat, history: seq<Entry>, index: map<string, nat>, latest: map<string, string>)

  function NewManager(cfg: Config): Mgr {
    Mgr(ConfigOrDefaults(cfg), 0, [], map[], map[])
  }

  /** Where the execution is that the id leads to. */
  function PositionOf(m: Mgr, id: string): (r: Option<nat>)
    ensures r.Some? ==> r.value < |m.history|
  {
    if id in m.index && m.index[id] < |m.history| then Some(m.index[id]) else None
  }

  // ---- Sweep ----

  function RefreshedEntry(e: Entry, lookup: Lookup, now: Time): Entry {
    e.(result := Refreshed(e.result, lookup, now))
  }

  function MarkedStale(e: Entry, now: Time): Entry {
    e.(result := e.result.(status := Stale, stale := true, success := false, why := BeyondStaleThreshold,
                           completedAt := now))
  }

  /** An execution still open too long after submission becomes stale. */
  function SweptEntry(e: Entry, lookup: Lookup, cfg: Config, now: Time): Entry {
    var r := RefreshedEntry(e, lookup, now);
    if !r.Status().Terminal() && r.result.submittedAt != ZERO_TIME && now - r.result.submittedAt >= cfg.staleAfter then
      MarkedStale(r, now)
    else r
  }

  function SweptHistory(history: seq<Entry>, lookup: Lookup, cfg: Config, now: Time): (h: seq<Entry>)
    ensures |h| == |history|
    ensures forall i | 0 <= i < |h| :: h[i] == SweptEntry(history[i], lookup, cfg, now)
  {
    seq(|history|, i requires 0 <= i < |history| => SweptEntry(history[i], lookup, cfg, now))
  }

  /** A finished execution stops standing for its key once the dedupe window has passed. */
  predicate Expired(e: Entry, cfg: Config, now: Time) {
    e.Status().Terminal() && e.Reference() != ZERO_TIME && now - e.Reference() > cfg.dedupeWindow
  }

  predicate StillStands(m: Mgr, id: string, now: Time) {
    var at := PositionOf(m, id);
    at.Some? && !Expired(m.history[at.value], m.cfg, now)
  }

  /** Keys whose execution is gone or has expired are given up. */
  function Released(m: Mgr, now: Time): Mgr {
    m.(latest := map k | k in m.latest && StillStands(m, m.latest[k], now) :: m.latest[k])
  }

  function Swept(m: Mgr, lookup: Lookup, now: Time): Mgr {
    Released(m.(history := SweptHistory(m.history, lookup, m.cfg, now)), now)
  }

  // ---- Append and evict ----

  /** The history takes the execution, and its id leads to it; past the bound the oldest leaves. */
  function Appended(m: Mgr, e: Entry): Mgr {
    var m' := m.(history := m.history + [e], index := m.index[e.Id() := |m.history|]);
    if |m'.history| <= m.cfg.maxHistory then m' else WithoutOldest(m')
  }

  /** The oldest execution leaves the history, its id is forgotten, and its key given up if it stands for it. */
  function WithoutOldest(m: Mgr): Mgr
    requires m.history != []
  {
    var evicted := m.history[0];
    m.(history := m.history[1..],
       index := map id | id in m.index && id != evicted.Id() && m.index[id] > 0 :: m.index[id] - 1,
       latest := if evicted.Key() in m.latest && m.latest[evicted.Key()] == evicted.Id()
                 then m.latest - {evicted.Key()} else m.latest)
  }

  function Stored(m: Mgr, e: Entry): Mgr {
    var a := Appended(m, e);
    if e.Status().Registers() then a.(latest := a.latest[e.Key() := e.Id()]) else a
  }

  // ---- Execute ----

  function Prepared(i: Intent, n: nat, now: Time): Intent {
    i.(createdAt := now,
       intentId := if TrimSpace(i.intentId) == "" then ExecutionId(n) else i.intentId,
       orderType := if TrimSpace(i.orderType) == "" then "market" else i.orderType,
       localRequestKey :=
         if TrimSpace(i.localRequestKey) == "" then LowerTrim(i.actionType) + ":" + UpperTrim(i.symbol)
         else i.localRequestKey)
  }

  function NewResult(i: Intent): Result {
    Result(i.intentId, Pending, ZERO_TIME, ZERO_TIME, "", "", 0.0, 0.0, false, false, false, NoProblem,
           i.symbol, i.actionType, BuildDedupeKey(i), i.increasesExposure, i.reduceOnly, "")
  }

  function NotSent(result: Result, status: Status, why: Why, now: Time): Result {
    result.(status := status, why := why, completedAt := now, stale := why == PriorStale,
            duplicateSuppressed := status == DuplicateSuppressed)
  }

  datatype Decision = Refuse(why: Why) | SuppressInFlight | BlockBehindStale | SuppressRecent | Send

  /** What the execution standing for the key, once refreshed, decides about a new one. */
  function DecideAgainst(standing: Entry, cfg: Config, now: Time): Decision {
    if standing.Status().InFlight() then SuppressInFlight
    else if standing.Status() == Stale then BlockBehindStale
    else if standing.Reference() != ZERO_TIME && now - standing.Reference() <= cfg.dedupeWindow then SuppressRecent
    else Send
  }

  /** The position of the execution that stands for the key. */
  function StandingFor(m: Mgr, key: string): Option<nat> {
    if key in m.latest then PositionOf(m, m.latest[key]) else None
  }

  function WithRefreshed(m: Mgr, at: nat, lookup: Lookup, now: Time): Mgr
    requires at < |m.history|
  {
    m.(history := m.history[at := RefreshedEntry(m.history[at], lookup, now)])
  }

  /** The decision about a prepared intent, and the manager after looking up the standing execution. */
  function Decided(m: Mgr, i: Intent, gate: Gate, lookup: Lookup, now: Time): (Mgr, Decision) {
    if Validate(i, gate) != NoProblem then (m, Refuse(Validate(i, gate)))
    else
      var at := StandingFor(m, BuildDedupeKey(i));
      if at.None? then (m, Send)
      else
        var m' := WithRefreshed(m, at.value, lookup, now);
        (m', DecideAgainst(m'.history[at.value], m.cfg, now))
  }

  /** What the broker can be asked to do. */
  datatype Call =
    | OpenLong(symbol: string, quantity: real, leverage: int)
    | OpenShort(symbol: string, quantity: real, leverage: int)
    | CloseLong(symbol: string, quantity: real)
    | CloseShort(symbol: string, quantity: real)

  function CallFor(i: Intent): (call: Option<Call>)
    ensures call.Some? <==> ClassifyAction(i.actionType) != UnknownAction
  {
    var action := LowerTrim(i.actionType);
    if action == "open_long" then Some(OpenLong(i.symbol, i.quantity, i.leverage))
    else if action == "open_short" then Some(OpenShort(i.symbol, i.quantity, i.leverage))
    else if action == "close_long" then Some(CloseLong(i.symbol, i.quantity))
    else if action == "close_short" then Some(CloseShort(i.symbol, i.quantity))
    else None
  }

  /** The broker is asked when there is one and it knows the action. */
  predicate AsksBroker(i: Intent, broker: Option<Reply>) {
    broker.Some? && ClassifyAction(i.actionType) != UnknownAction
  }

  function CallMade(i: Intent, broker: Option<Reply>): (call: Option<Call>)
    ensures call.Some? <==> AsksBroker(i, broker)
  {
    if broker.None? then None else CallFor(i)
  }

  function Accepted(result: Result, p: Payload, quantity: real, now: Time): Result {
    var status := MapPayloadStatus(p, quantity);
    result.(status := status, submittedAt := now, success := true,
            localOrderId := Shown(p.localOrderId), brokerOrderId := Shown(p.brokerOrderId),
            observedStatus := Shown(p.status), fillQuantity := FillOf(p, quantity), averageFillPrice := p.avgFillPrice,
            completedAt := if status.Terminal() then now else result.completedAt)
  }

  function Unsent(result: Result, status: Status, why: Why, now: Time): Result {
    result.(status := status, why := why, completedAt := now, success := false)
  }

  /** The result of handing the intent to the broker, followed by a look at its order record. */
  function SubmissionResult(i: Intent, broker: Option<Reply>, after: Lookup, now: Time): Result {
    if broker.None? then Unsent(NewResult(i), Status.Failed, NoBroker, now)
    else if ClassifyAction(i.actionType) == UnknownAction then
      Unsent(NewResult(i), MapRefusal(i.actionType), UnsupportedAction(i.actionType), now)
    else match broker.value
      case Refused(message) => Unsent(NewResult(i), MapRefusal(message), BrokerRefused(message), now)
      case Taken(p) => Refreshed(Accepted(NewResult(i), p, i.quantity, now), after, now)
  }

  function ResultOf(i: Intent, d: Decision, broker: Option<Reply>, after: Lookup, now: Time): Result {
    match d
    case Refuse(why) => NotSent(NewResult(i), Blocked, why, now)
    case SuppressInFlight => NotSent(NewResult(i), DuplicateSuppressed, AlreadyInFlight, now)
    case BlockBehindStale => NotSent(NewResult(i), Blocked, PriorStale, now)
    case SuppressRecent => NotSent(NewResult(i), DuplicateSuppressed, SubmittedRecently, now)
    case Send => SubmissionResult(i, broker, after, now)
  }

  /** A request: the intent and gate, the order store before and after, and the broker's answer if asked. */
  datatype Request = Request(intent: Intent, gate: Gate, before: Lookup, broker: Option<Reply>, after: Lookup, clock: Time) {
    function Now(): Time {
      NormalizeTime(intent.createdAt, clock)
    }
  }

  datatype Execution = Execution(manager: Mgr, result: Result, intent: Intent, decision: Decision)

  /** The manager swept and with the next id taken, as a request is decided. */
  function Opened(m: Mgr, q: Request): Mgr {
    Swept(m, q.before, q.Now()).(nextId := m.nextId + 1)
  }

  function Executed(m: Mgr, q: Request): Execution {
    var i := Prepared(q.intent, m.nextId + 1, q.Now());
    var (m', d) := Decided(Opened(m, q), i, q.gate, q.before, q.Now());
    var result := ResultOf(i, d, q.broker, q.after, q.Now());
    Execution(Stored(m', Entry(i, result)), result, i, d)
  }

  /** Whether a request reaches the broker. */
  predicate CallsBroker(m: Mgr, q: Request) {
    Executed(m, q).decision == Send && AsksBroker(Executed(m, q).intent, q.broker)
  }

  /** What a request asks of the broker, if anything. */
  function AskedOf(m: Mgr, q: Request): (call: Option<Call>)
    ensures call.Some? <==> CallsBroker(m, q)
  {
    var e := Executed(m, q);
    if e.decision == Send then CallMade(e.intent, q.broker) else None
  }

  // ---- Snapshot and restore ----

  datatype ManagerState = ManagerState(version: int, nextId: nat, executions: seq<Entry>)

  const STATE_VERSION: int := 1

  /** A snapshot sweeps first. */
  function Snapshot(m: Mgr): ManagerState {
    ManagerState(STATE_VERSION, m.nextId, m.history)
  }

  function PersistedId(e: Entry): string {
    if TrimSpace(e.intent.intentId) != "" then TrimSpace(e.intent.intentId) else TrimSpace(e.result.intentId)
  }

  function RestoredEntry(e: Entry): Entry {
    var i := e.intent.(intentId := PersistedId(e));
    Entry(i, e.result.(intentId := if TrimSpace(e.result.intentId) == "" then i.intentId else e.result.intentId,
                       dedupeKey := if TrimSpace(e.result.dedupeKey) == "" then BuildDedupeKey(i) else e.result.dedupeKey))
  }

  /** The newest executions that fit the bound. */
  function Newest(executions: seq<Entry>, bound: int): seq<Entry> {
    if 0 <= bound < |executions| then executions[|executions| - bound..] else executions
  }

  /** The manager after filing the persisted executions in turn. */
  function Filed(m: Mgr, executions: seq<Entry>): Mgr {
    if executions == [] then m
    else
      var before := Filed(m, executions[..|executions| - 1]);
      var e := RestoredEntry(executions[|executions| - 1]);
      var sequence := ParseExecutionSequence(e.Id());
      before.(nextId := if sequence > before.nextId then sequence else before.nextId,
              history := before.history + [e],
              index := before.index[e.Id() := |before.history|],
              latest := if e.Status().Registers() then before.latest[e.Key() := e.Id()] else before.latest)
  }

  predicate Identified(e: Entry) {
    PersistedId(e) != ""
  }

  /** How many executions are filed before one without an id stops the restore. */
  function IdentifiedPrefix(executions: seq<Entry>): (n: nat)
    ensures n <= |executions|
  {
    if executions == [] then 0
    else
      var last := |executions| - 1;
      var n := IdentifiedPrefix(executions[..last]);
      if n == last && Identified(executions[last]) then |executions| else n
  }

  /** All executions before that point have an id, and the one at it has none. */
  lemma {:induction false} IdentifiedPrefixIsFirstGap(executions: seq<Entry>)
    ensures var n := IdentifiedPrefix(executions);
      && (forall i | 0 <= i < n :: Identified(executions[i]))
      && (n < |executions| ==> !Identified(executions[n]))
  {
    hide Identified;
    if executions != [] {
      IdentifiedPrefixIsFirstGap(executions[..|executions| - 1]);
    }
  }

  /** A restore that fails keeps the executions filed before the one without an id, under the persisted counter. */
  function Restored(m: Mgr, state: ManagerState, lookup: Lookup, now: Time): Mgr {
    if state.version != STATE_VERSION then m
    else
      var kept := Newest(state.executions, m.cfg.maxHistory);
      var n := IdentifiedPrefix(kept);
      var filed := Filed(Mgr(m.cfg, state.nextId, [], map[], map[]), kept[..n]);
      if n < |kept| then filed.(nextId := state.nextId) else Swept(filed, lookup, now)
  }

  function RestoreOutcome(m: Mgr, state: ManagerState): Outcome {
    if state.version == 0 then Done
    else if state.version != STATE_VERSION then Outcome.Failed("unsupported version")
    else
      var kept := Newest(state.executions, m.cfg.maxHistory);
      if IdentifiedPrefix(kept) < |kept| then Outcome.Failed("execution with no intent id") else Done
  }
}
