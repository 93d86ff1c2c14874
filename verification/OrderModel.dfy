/** Order records, broker orders, and the decisions reconciliation takes about one record. */
module OrderModel {
  import opened Basics
  import opened Text

  // ---- Entities ----

  datatype Status =
    | Submitted | Accepted | PartiallyFilled | Filled | Cancelled | Rejected | Unknown
    | OtherStatus(text: string)
  {
    predicate Terminal() {
      Filled? || Cancelled? || Rejected?
    }
  }

  datatype Authority = LocalPending | BrokerConfirmed | Inferred | Unresolved | OtherAuthority(text: string)

  datatype Confidence = Pending | ConfirmedTruth | High | Medium | UnresolvedTruth | OtherConfidence(text: string)

  datatype Intent =
    | EntryLong | EntryShort | ExitLong | ExitShort
    | StopLong | StopShort | TargetLong | TargetShort
    | UnknownIntent | OtherIntent(text: string)
  {
    predicate Protective() {
      StopLong? || StopShort? || TargetLong? || TargetShort?
    }
  }

  datatype Source = LocalSubmission | BrokerDiscovered | OtherSource(text: string)

  // ---- Explanations attached to a record ----

  /** The phrases that are looked for in an explanation when a restored record has no authority. */
  datatype Phrase = MissingAtActiveList | PositionEvidence | PartialFill

  datatype Finding =
    | EntryFilled | EntryPartlyFilled | EntryRemoved | EntryExpired | EntryOpen
    | ExitFilled | ExitPartlyFilled | ExitRemoved | ExitExpired | ExitOpen
    | ProtectionFilled | ProtectionOpen
    | OtherRemoved | OtherExpired | OtherOpen

  /** An explanation: free text, of which only the text and the phrases it contains matter,
      or one of the store's own templates with the values filled into it. */
  datatype Note =
    | Text(text: string, mentions: set<Phrase>)
    | AwaitingAck
    | DiscoveredActive
    | DiscoveredDirectly
    | RejectedByBroker
    | ConfirmedState
    | InferredFromPosition
    | PendingFollowUp
    | FromBrokerStatus(rawStatus: string)
    | About(finding: Finding, localId: string, qty: real)
  {
    predicate Blank() {
      Text? && TrimSpace(text) == ""
    }

    function Trim(): (n: Note)
      ensures Text? && Trimmed(text) ==> n == this
    {
      if Text? then Text(TrimSpace(text), mentions) else this
    }

    predicate Mentions(phrase: Phrase) {
      match this
      case Text(_, phrases) => phrase in phrases
      case About(f, _, _) =>
        (match phrase
         case MissingAtActiveList =>
           !(f in {EntryRemoved, EntryExpired, ExitRemoved, ExitExpired, OtherRemoved, OtherExpired})
         case PositionEvidence => f in {EntryFilled, EntryPartlyFilled, ExitFilled, ExitPartlyFilled, ProtectionFilled}
         case PartialFill => f in {EntryPartlyFilled, ExitPartlyFilled})
      case _ => false
    }

    /** As stored: template, or trimmed text that says something. */
    predicate Settled() {
      !Blank() && Trim() == this
    }
  }

  function NoteOr(note: Note, fallback: Note): (n: Note)
    requires fallback.Settled()
    ensures n.Settled()
    ensures note.Settled() ==> n == note
  {
    if note.Blank() then fallback else note.Trim()
  }

  datatype Record = Record(
    localId: string,
    brokerOrderId: string,
    intent: Intent,
    symbol: string,
    side: string,
    positionSide: string,
    status: Status,
    rawBrokerStatus: string,
    requestedQty: real,
    filledQty: real,
    remainingQty: real,
    avgFillPrice: real,
    source: Source,
    lastMessage: Note,
    authority: Authority,
    confidence: Confidence,
    reason: Note,
    needsReview: bool,
    submittedAt: Time,
    updatedAt: Time,
    lastSeenAt: Time)

  datatype BrokerOrder = BrokerOrder(
    orderId: string,
    symbol: string,
    side: string,
    positionSide: string,
    status: Status,
    rawStatus: string,
    quantity: real,
    filledQty: real,
    remainingQty: real,
    avgFillPrice: real,
    observedAt: Time)

  datatype Position = Position(symbol: string, side: string, quantity: real)

  datatype IssueType = UnknownBrokerOrder | LocalMissingAtBroker | FillMismatch | MatchedPendingOrder

  datatype Issue = Issue(
    kind: IssueType,
    localId: string,
    brokerOrderId: string,
    repaired: bool,
    authority: Authority,
    confidence: Confidence,
    needsReview: bool)

  const LOCAL_PREFIX := "local-"
  const BROKER_PREFIX := "broker-"

  const MATCH_WINDOW: int := 30 * SECOND
  const GRACE_WINDOW: int := 15 * SECOND
  const UNRESOLVED_LIMIT: int := 10 * MINUTE
  const QTY_TOLERANCE: real := 0.02
  const ISSUE_CAP: nat := 12

  // ---- Identifiers ----

  /** `local-000042`, `broker-000043`: one counter serves both kinds. */
  function LocalOrderId(prefix: string, n: nat): string {
    prefix + Padded(n, 6)
  }

  function ParseOrderSequence(localId: string): nat {
    var id := TrimSpace(localId);
    if LOCAL_PREFIX <= id then SequenceAfter(id, LOCAL_PREFIX)
    else if BROKER_PREFIX <= id then SequenceAfter(id, BROKER_PREFIX)
    else 0
  }

  /** A generated order id is trimmed, non-empty, and gives back its sequence number. */
  lemma OrderIdReadsBack(prefix: string, n: nat)
    requires prefix == LOCAL_PREFIX || prefix == BROKER_PREFIX
    ensures var id := LocalOrderId(prefix, n);
      Trimmed(id) && id != "" && ParseOrderSequence(id) == n
  {
    SequenceReadsBack(prefix, n, 6);
    var id := LocalOrderId(prefix, n);
    assert id[0] == prefix[0];
    assert id[|id| - 1] == Padded(n, 6)[|Padded(n, 6)| - 1];
    if prefix == BROKER_PREFIX {
      assert id[0] == 'b' && LOCAL_PREFIX[0] == 'l';
    }
  }

  /** The first million ids have six digits. */
  lemma OrderIdHasSixDigits(n: nat)
    requires n < 1_000_000
    ensures |LocalOrderId(LOCAL_PREFIX, n)| == |"local-000000"| && |LocalOrderId(BROKER_PREFIX, n)| == |"broker-000000"|
  {
    hide Padded;
    assert TenTo(6) == 1_000_000 by { SixDigits(); }
    PaddedHasWidth(n, 6);
  }

  lemma SixDigits()
    ensures TenTo(6) == 1_000_000
  {
    assert TenTo(3) == 1000;
  }

  /** An id has a sequence number exactly when it reads "local-" or "broker-" and that number. */
  lemma SequenceIsRead(localId: string, n: nat)
    requires n > 0
    ensures var id := TrimSpace(localId);
      ParseOrderSequence(localId) == n
      <==> ("local-" <= id && ReadsAs(id[6..], n)) || ("broker-" <= id && ReadsAs(id[7..], n))
  {
    hide TrimSpace, ParseSuffix, ReadsAs;
    var id := TrimSpace(localId);
    if "local-" <= id {
      assert id[0] == 'l' && "broker-"[0] == 'b';
      SuffixIsNumber(id[6..], n);
    } else if "broker-" <= id {
      SuffixIsNumber(id[7..], n);
    }
  }

  // ---- Normalization ----

  function NormalizeIntent(intent: Intent): Intent {
    if intent.OtherIntent? then UnknownIntent else intent
  }

  function NormalizeAuthority(r: Record): (a: Authority)
    ensures !a.OtherAuthority?
    ensures !r.authority.OtherAuthority? ==> a == r.authority
  {
    if !r.authority.OtherAuthority? then r.authority
    else if r.lastMessage.Mentions(MissingAtActiveList) then
      if r.lastMessage.Mentions(PositionEvidence) then Inferred else Unresolved
    else if r.status == Submitted || r.status == Accepted then LocalPending
    else if TrimSpace(r.rawBrokerStatus) != "" || TrimSpace(r.brokerOrderId) != "" || SaysDiscovered(r.source) then
      BrokerConfirmed
    else Unresolved
  }

  predicate SaysDiscovered(source: Source) {
    source == BrokerDiscovered || (source.OtherSource? && EqualFold(TrimSpace(source.text), "broker_discovered"))
  }

  function NormalizeConfidence(current: Confidence, authority: Authority, lastMessage: Note): (c: Confidence)
    ensures !c.OtherConfidence?
    ensures !current.OtherConfidence? ==> c == current
  {
    if !current.OtherConfidence? then current
    else match authority
      case LocalPending => Pending
      case BrokerConfirmed => ConfirmedTruth
      case Inferred => if lastMessage.Mentions(PartialFill) then Medium else High
      case _ => UnresolvedTruth
  }

  function NormalizeReason(current: Note, authority: Authority, lastMessage: Note): (reason: Note)
    ensures reason.Settled()
    ensures current.Settled() ==> reason == current
  {
    if !current.Blank() then current.Trim()
    else match authority
      case LocalPending => AwaitingAck
      case BrokerConfirmed => NoteOr(lastMessage, ConfirmedState)
      case Inferred => NoteOr(lastMessage, InferredFromPosition)
      case _ => NoteOr(lastMessage, PendingFollowUp)
  }

  // ---- Quantities ----

  function QtyApproxEqual(a: real, b: real): bool {
    Abs(a - b) <= Max(QTY_TOLERANCE, Max(Abs(a), Abs(b)) * QTY_TOLERANCE)
  }

  function TargetSide(r: Record): string {
    if r.positionSide != "" then r.positionSide
    else match r.intent
      case EntryLong | ExitLong | StopLong | TargetLong => "long"
      case EntryShort | ExitShort | StopShort | TargetShort => "short"
      case _ => ""
  }

  /** The quantity of the first position with the record's symbol and side. */
  function PositionQty(r: Record, positions: seq<Position>): real {
    if positions == [] then 0.0
    else if EqualFold(positions[0].symbol, r.symbol) && EqualFold(positions[0].side, TargetSide(r))
    then positions[0].quantity
    else PositionQty(r, positions[1..])
  }

  // ---- Matching a record with a broker order ----

  /** A broker order that could be the record's: same symbol and side, close in quantity,
      and not observed later than the match window after submission. */
  predicate Eligible(r: Record, o: BrokerOrder) {
    var total := if o.quantity <= 0.0 then o.filledQty + o.remainingQty else o.quantity;
    && EqualFold(r.symbol, o.symbol)
    && UpperTrim(r.side) == UpperTrim(o.side)
    && (r.submittedAt == ZERO_TIME || o.observedAt - r.submittedAt <= MATCH_WINDOW)
    && QtyApproxEqual(r.requestedQty, total)
  }

  predicate Free(o: BrokerOrder, used: set<string>) {
    o.orderId == "" || o.orderId !in used
  }

  /** The first free eligible broker order, if any. */
  function FindPendingMatch(r: Record, open: seq<BrokerOrder>, used: set<string>): (m: Option<BrokerOrder>)
    ensures m.Some? ==> m.value in open && Free(m.value, used) && Eligible(r, m.value)
    ensures m.None? <==> forall o | o in open :: !(Free(o, used) && Eligible(r, o))
  {
    if open == [] then None
    else if Free(open[0], used) && Eligible(r, open[0]) then Some(open[0])
    else FindPendingMatch(r, open[1..], used)
  }

  lemma {:induction false} NoneSoFar(r: Record, open: seq<BrokerOrder>, used: set<string>, i: nat)
    requires i <= |open| && forall k | 0 <= k < i :: !(Free(open[k], used) && Eligible(r, open[k]))
    ensures FindPendingMatch(r, open, used) == FindPendingMatch(r, open[i..], used)
  {
    hide Eligible;
    if i > 0 {
      assert open[1..][i - 1..] == open[i..];
      NoneSoFar(r, open[1..], used, i - 1);
    }
  }

  /** The match is the first order in the list that is free and fits. */
  method FindPendingBrokerMatch(r: Record, open: seq<BrokerOrder>, used: set<string>) returns (m: Option<BrokerOrder>)
    ensures m == FindPendingMatch(r, open, used)
    ensures m.Some? ==> exists i :: 0 <= i < |open| && m.value == open[i] && Free(open[i], used) && Eligible(r, open[i])
                          && forall k | 0 <= k < i :: !(Free(open[k], used) && Eligible(r, open[k]))
    ensures m.None? ==> forall k | 0 <= k < |open| :: !(Free(open[k], used) && Eligible(r, open[k]))
  {
    hide Eligible;
    for i := 0 to |open|
      invariant forall k | 0 <= k < i :: !(Free(open[k], used) && Eligible(r, open[k]))
    {
      if Free(open[i], used) && Eligible(r, open[i]) {
        NoneSoFar(r, open, used, i);
        return Some(open[i]);
      }
    }
    NoneSoFar(r, open, used, |open|);
    return None;
  }

  predicate IsPositionOf(p: Position, r: Record) {
    EqualFold(p.symbol, r.symbol) && EqualFold(p.side, TargetSide(r))
  }

  lemma {:induction false} NotSoFar(r: Record, positions: seq<Position>, i: nat)
    requires i <= |positions| && forall k | 0 <= k < i :: !IsPositionOf(positions[k], r)
    ensures PositionQty(r, positions) == PositionQty(r, positions[i..])
  {
    hide EqualFold;
    if i > 0 {
      assert positions[1..][i - 1..] == positions[i..];
      NotSoFar(r, positions[1..], i - 1);
    }
  }

  /** The first position of the record's symbol and side counts; none counts as nothing held. */
  method QuantityForIntentPosition(r: Record, positions: seq<Position>) returns (held: real)
    ensures held == PositionQty(r, positions)
  {
    hide EqualFold;
    for i := 0 to |positions|
      invariant forall k | 0 <= k < i :: !IsPositionOf(positions[k], r)
    {
      if IsPositionOf(positions[i], r) {
        NotSoFar(r, positions, i);
        return positions[i].quantity;
      }
    }
    NotSoFar(r, positions, |positions|);
    return 0.0;
  }

  // ---- Broker truth ----

  function BrokerReason(o: BrokerOrder): (reason: Note)
    ensures reason.Settled()
  {
    FromBrokerStatus(TrimRight(o.rawStatus))
  }

  /** What broker truth decides about a record, apart from when it was seen and the last message. */
  function TruthOf(r: Record): Record {
    r.(lastMessage := AwaitingAck, updatedAt := ZERO_TIME, lastSeenAt := ZERO_TIME)
  }

  function WithBrokerStatus(r: Record, o: BrokerOrder): Record {
    r.(brokerOrderId := if o.orderId != "" then o.orderId else r.brokerOrderId,
       rawBrokerStatus := o.rawStatus,
       status := o.status)
  }

  function WithBrokerQuantities(r: Record, o: BrokerOrder): Record {
    r.(filledQty := if QtyApproxEqual(r.filledQty, o.filledQty) then r.filledQty else o.filledQty,
       remainingQty := if QtyApproxEqual(r.remainingQty, o.remainingQty) then r.remainingQty else o.remainingQty,
       requestedQty :=
         if !QtyApproxEqual(r.requestedQty, o.quantity) && o.quantity > 0.0 then o.quantity else r.requestedQty,
       avgFillPrice :=
         if o.avgFillPrice > 0.0 && Abs(r.avgFillPrice - o.avgFillPrice) > 0.0001 then o.avgFillPrice else r.avgFillPrice)
  }

  function WithBrokerAuthority(r: Record, o: BrokerOrder): Record {
    r.(authority := BrokerConfirmed, confidence := ConfirmedTruth, reason := BrokerReason(o), needsReview := false)
  }

  /** The record after the broker's view of it has been applied. */
  function WithBrokerTruth(r: Record, o: BrokerOrder, now: Time): Record {
    WithBrokerAuthority(WithBrokerQuantities(WithBrokerStatus(r, o), o), o)
      .(lastSeenAt := now, updatedAt := now, lastMessage := BrokerReason(o))
  }

  predicate HasFillMismatch(r: Record, o: BrokerOrder) {
    !QtyApproxEqual(r.filledQty, o.filledQty) && (r.filledQty > 0.0 || o.filledQty > 0.0)
  }

  method ApplyBrokerStatus(record: Record, o: BrokerOrder) returns (r: Record, changed: bool)
    ensures r == WithBrokerStatus(record, o)
    ensures changed <==> r != record
  {
    r, changed := record, false;
    if r.brokerOrderId != o.orderId && o.orderId != "" {
      r, changed := r.(brokerOrderId := o.orderId), true;
    }
    if r.rawBrokerStatus != o.rawStatus {
      r, changed := r.(rawBrokerStatus := o.rawStatus), true;
    }
    if r.status != o.status {
      r, changed := r.(status := o.status), true;
    }
  }

  method ApplyBrokerQuantities(record: Record, o: BrokerOrder) returns (r: Record, changed: bool, fillMismatch: bool)
    ensures r == WithBrokerQuantities(record, o)
    ensures changed <==> r != record
    ensures fillMismatch <==> HasFillMismatch(record, o)
  {
    r, changed, fillMismatch := record, false, false;
    if !QtyApproxEqual(r.filledQty, o.filledQty) {
      fillMismatch := r.filledQty > 0.0 || o.filledQty > 0.0;
      r, changed := r.(filledQty := o.filledQty), true;
    }
    if !QtyApproxEqual(r.remainingQty, o.remainingQty) {
      r, changed := r.(remainingQty := o.remainingQty), true;
    }
    if !QtyApproxEqual(r.requestedQty, o.quantity) && o.quantity > 0.0 {
      r, changed := r.(requestedQty := o.quantity), true;
    }
    if o.avgFillPrice > 0.0 && Abs(r.avgFillPrice - o.avgFillPrice) > 0.0001 {
      r, changed := r.(avgFillPrice := o.avgFillPrice), true;
    }
  }

  method ApplyBrokerAuthority(record: Record, o: BrokerOrder) returns (r: Record, changed: bool)
    ensures r == WithBrokerAuthority(record, o)
    ensures changed <==> r != record
  {
    r, changed := record, false;
    if r.authority != BrokerConfirmed {
      r, changed := r.(authority := BrokerConfirmed), true;
    }
    if r.confidence != ConfirmedTruth {
      r, changed := r.(confidence := ConfirmedTruth), true;
    }
    if r.reason != BrokerReason(o) {
      r, changed := r.(reason := BrokerReason(o)), true;
    }
    if r.needsReview {
      r, changed := r.(needsReview := false), true;
    }
  }

  /** Applies the broker's view field by field, reporting whether anything of substance changed. */
  method ApplyBrokerTruth(record: Record, o: BrokerOrder, now: Time)
    returns (r: Record, changed: bool, fillMismatch: bool)
    ensures r == WithBrokerTruth(record, o, now)
    ensures changed <==> TruthOf(r) != TruthOf(record)
    ensures fillMismatch <==> HasFillMismatch(record, o)
  {
    var statusChanged, quantityChanged, authorityChanged;
    r, statusChanged := ApplyBrokerStatus(record, o);
    r, quantityChanged, fillMismatch := ApplyBrokerQuantities(r, o);
    r, authorityChanged := ApplyBrokerAuthority(r, o);
    changed := statusChanged || quantityChanged || authorityChanged;
    r := r.(lastSeenAt := now, updatedAt := now, lastMessage := BrokerReason(o));
  }

  // ---- Inference for a record the broker no longer lists ----

  datatype Resolution = Resolution(
    status: Status,
    filledQty: real,
    authority: Authority,
    confidence: Confidence,
    message: Note,
    repaired: bool,
    needsReview: bool)

  function InferredOutcome(r: Record, status: Status, filledQty: real, confidence: Confidence, finding: Finding): Resolution {
    Resolution(status, filledQty, Inferred, confidence, About(finding, r.localId, filledQty), true,
               finding !in {EntryRemoved, ExitRemoved, OtherRemoved})
  }

  function StillUnresolved(r: Record, finding: Finding): Resolution {
    Resolution(Unknown, 0.0, Unresolved, UnresolvedTruth, About(finding, r.localId, 0.0), false, true)
  }

  /** A record seen or submitted within the grace window is given time before inference. */
  predicate StillWaiting(r: Record, now: Time) {
    var reference := if r.lastSeenAt == ZERO_TIME then r.submittedAt else r.lastSeenAt;
    && reference != ZERO_TIME
    && (r.status == Submitted || r.status == Accepted || r.status == PartiallyFilled)
    && now - reference <= GRACE_WINDOW
  }

  /** Cancelled for an order found at the broker, or for one unresolved too long; else unresolved. */
  function NoEvidence(r: Record, now: Time, removed: Finding, expired: Finding, open: Finding): Resolution {
    if r.source == BrokerDiscovered then InferredOutcome(r, Cancelled, 0.0, High, removed)
    else if now - r.submittedAt > UNRESOLVED_LIMIT then InferredOutcome(r, Cancelled, 0.0, Medium, expired)
    else StillUnresolved(r, open)
  }

  /** The outcome for a record missing at the broker, given the position quantity held. */
  function Resolve(r: Record, held: real, now: Time): Resolution {
    match r.intent
    case EntryLong | EntryShort =>
      if held >= r.requestedQty * (1.0 - QTY_TOLERANCE) && r.requestedQty > 0.0 then
        InferredOutcome(r, Filled, r.requestedQty, High, EntryFilled)
      else if held > 0.0 then
        InferredOutcome(r, PartiallyFilled, Min(held, r.requestedQty), Medium, EntryPartlyFilled)
      else NoEvidence(r, now, EntryRemoved, EntryExpired, EntryOpen)
    case ExitLong | ExitShort =>
      if held <= QTY_TOLERANCE then
        InferredOutcome(r, Filled, r.requestedQty, High, ExitFilled)
      else if r.requestedQty > held + QTY_TOLERANCE then
        InferredOutcome(r, PartiallyFilled, Max(r.requestedQty - held, 0.0), Medium, ExitPartlyFilled)
      else NoEvidence(r, now, ExitRemoved, ExitExpired, ExitOpen)
    case StopLong | StopShort | TargetLong | TargetShort =>
      if held <= QTY_TOLERANCE then
        InferredOutcome(r, Filled, r.requestedQty, Medium, ProtectionFilled)
      else StillUnresolved(r, ProtectionOpen)
    case _ => NoEvidence(r, now, OtherRemoved, OtherExpired, OtherOpen)
  }

  /** The outcome of a record missing at the broker, or nothing while it is still waiting. */
  function InferMissing(r: Record, positions: seq<Position>, now: Time): Option<Resolution> {
    if StillWaiting(r, now) then None else Some(Resolve(r, PositionQty(r, positions), now))
  }

  function WithResolution(r: Record, resolution: Resolution, now: Time): Record {
    r.(status := resolution.status,
       filledQty := resolution.filledQty,
       remainingQty := Max(r.requestedQty - resolution.filledQty, 0.0),
       lastMessage := resolution.message,
       authority := resolution.authority,
       confidence := resolution.confidence,
       reason := resolution.message,
       needsReview := resolution.needsReview,
       updatedAt := now,
       lastSeenAt := now)
  }

  // ---- Import of a broker order with no record ----

  function InferIntent(o: BrokerOrder): (intent: Intent)
    ensures !intent.Protective() && !intent.OtherIntent?
  {
    var positionSide := LowerTrim(o.positionSide);
    var side := UpperTrim(o.side);
    if side == "BUY" && positionSide == "short" then ExitShort
    else if side == "SELL" && positionSide == "long" then ExitLong
    else if side == "BUY" then EntryLong
    else if side == "SELL" then EntryShort
    else UnknownIntent
  }

  function Imported(o: BrokerOrder, localId: string, now: Time): (r: Record)
    ensures r.localId == localId && r.brokerOrderId == o.orderId
  {
    Record(localId, o.orderId, InferIntent(o), UpperTrim(o.symbol), UpperTrim(o.side), LowerTrim(o.positionSide),
           o.status, o.rawStatus, o.quantity, o.filledQty, o.remainingQty, o.avgFillPrice,
           BrokerDiscovered, DiscoveredActive, BrokerConfirmed, ConfirmedTruth, DiscoveredDirectly,
           false, now, now, now)
  }

  // ---- Facts about one record ----

  /** Applying the same broker order again changes nothing. */
  lemma BrokerTruthIsStable(r: Record, o: BrokerOrder, now: Time)
    ensures var once := WithBrokerTruth(r, o, now);
      WithBrokerTruth(once, o, now) == once && !HasFillMismatch(once, o)
  {
    assert forall q: real :: QtyApproxEqual(q, q);
  }

  /** Afterwards the record agrees with the broker order: the same status, quantities and price within the
      tolerances, and nothing left to review. */
  lemma BrokerTruthAgrees(r: Record, o: BrokerOrder, now: Time)
    ensures var r' := WithBrokerTruth(r, o, now);
      && r'.status == o.status && r'.rawBrokerStatus == o.rawStatus
      && (o.orderId != "" ==> r'.brokerOrderId == o.orderId)
      && QtyApproxEqual(r'.filledQty, o.filledQty) && QtyApproxEqual(r'.remainingQty, o.remainingQty)
      && (o.quantity > 0.0 ==> QtyApproxEqual(r'.requestedQty, o.quantity))
      && (o.avgFillPrice > 0.0 ==> Abs(r'.avgFillPrice - o.avgFillPrice) <= 0.0001)
      && r'.authority == BrokerConfirmed && !r'.needsReview && r'.lastSeenAt == r'.updatedAt == now
      && (r'.localId, r'.intent, r'.symbol, r'.side, r'.positionSide, r'.source, r'.submittedAt)
         == (r.localId, r.intent, r.symbol, r.side, r.positionSide, r.source, r.submittedAt)
  {
    assert forall q: real :: QtyApproxEqual(q, q);
  }

  /** The explanation names the record and says what was found of it: filled, filled in part, removed or expired, or
      still open. */
  predicate Explains(r: Record, r': Record, explanation: Note) {
    var removed := r.source == BrokerDiscovered;
    && explanation.About? && explanation.localId == r.localId && explanation.qty == r'.filledQty
    && (match r.intent
        case EntryLong | EntryShort =>
          (match explanation.finding
           case EntryFilled => r'.status == Filled
           case EntryPartlyFilled => r'.status == PartiallyFilled
           case EntryRemoved => r'.status == Cancelled && removed
           case EntryExpired => r'.status == Cancelled && !removed
           case EntryOpen => r'.status == Unknown
           case _ => false)
        case ExitLong | ExitShort =>
          (match explanation.finding
           case ExitFilled => r'.status == Filled
           case ExitPartlyFilled => r'.status == PartiallyFilled
           case ExitRemoved => r'.status == Cancelled && removed
           case ExitExpired => r'.status == Cancelled && !removed
           case ExitOpen => r'.status == Unknown
           case _ => false)
        case StopLong | StopShort | TargetLong | TargetShort =>
          (match explanation.finding
           case ProtectionFilled => r'.status == Filled
           case ProtectionOpen => r'.status == Unknown
           case _ => false)
        case _ =>
          (match explanation.finding
           case OtherRemoved => r'.status == Cancelled && removed
           case OtherExpired => r'.status == Cancelled && !removed
           case OtherOpen => r'.status == Unknown
           case _ => false))
  }

  /** The record r' is r with an outcome borne out by the position held.  A filled entry is covered by it, a partial
      one has the lesser of it and the request; a filled exit or protection has emptied it, a partial exit and what
      is left make up the request; nothing else is filled, and it is cancelled if found at the broker or older than
      ten minutes, unless it is protective. */
  predicate FollowsEvidence(r: Record, held: real, r': Record, now: Time) {
    var covered := r.requestedQty > 0.0 && held >= 0.98 * r.requestedQty;
    && (r.intent.EntryLong? || r.intent.EntryShort? ==>
          && (r'.status == Filled <==> covered)
          && (r'.status == PartiallyFilled <==> held > 0.0 && !covered)
          && (r'.status == PartiallyFilled ==>
                r'.filledQty <= held && r'.filledQty <= r.requestedQty && r'.filledQty in {held, r.requestedQty}))
    && (r.intent.ExitLong? || r.intent.ExitShort? ==>
          && (r'.status == Filled <==> held <= 0.02)
          && (r'.status == PartiallyFilled <==> held > 0.02 && r.requestedQty - held > 0.02)
          && (r'.status == PartiallyFilled ==> r'.filledQty + held == r.requestedQty && r'.remainingQty == held))
    && (r.intent.Protective() ==> r'.status == (if held <= 0.02 then Filled else Unknown))
    && (r.intent.UnknownIntent? || r.intent.OtherIntent? ==> r'.status == Cancelled || r'.status == Unknown)
    && (r'.status == Filled ==> r'.filledQty == r.requestedQty)
    && (r'.status == Cancelled || r'.status == Unknown ==>
          && r'.filledQty == 0.0
          && (r'.status == Cancelled <==>
                !r.intent.Protective() && (r.source == BrokerDiscovered || now - r.submittedAt > 600_000_000_000)))
    && (r'.remainingQty >= 0.0 && r'.remainingQty + r'.filledQty >= r.requestedQty)
    && (r'.remainingQty == 0.0 || r'.remainingQty + r'.filledQty == r.requestedQty)
    && r'.status in {Filled, PartiallyFilled, Cancelled, Unknown}
    && r'.authority == (if r'.status == Unknown then Unresolved else Inferred)
    && r'.confidence == (
         if r'.status == Unknown then UnresolvedTruth
         else if r'.status == PartiallyFilled || (r'.status == Filled && r.intent.Protective())
              || (r'.status == Cancelled && r.source != BrokerDiscovered) then Medium
         else High)
    && (r'.needsReview <==> r'.status != Cancelled || r.source != BrokerDiscovered)
    && r'.reason == r'.lastMessage && Explains(r, r', r'.reason)
    && r'.updatedAt == r'.lastSeenAt == now
    && (r'.localId, r'.brokerOrderId, r'.intent, r'.symbol, r'.side, r'.positionSide, r'.source, r'.submittedAt)
       == (r.localId, r.brokerOrderId, r.intent, r.symbol, r.side, r.positionSide, r.source, r.submittedAt)
    && (r'.requestedQty, r'.avgFillPrice, r'.rawBrokerStatus) == (r.requestedQty, r.avgFillPrice, r.rawBrokerStatus)
  }

  lemma InferenceFollowsEvidence(r: Record, positions: seq<Position>, now: Time)
    requires InferMissing(r, positions, now).Some?
    ensures FollowsEvidence(r, PositionQty(r, positions), WithResolution(r, InferMissing(r, positions, now).value, now), now)
  {
    hide StillWaiting, PositionQty;
  }

  predicate QuantitiesBalance(r: Record) {
    0.0 <= r.filledQty <= r.requestedQty && r.filledQty + r.remainingQty == r.requestedQty
  }

  /** An inferred outcome splits the requested quantity into filled and remaining,
      exactly when the requested quantity is not negative. */
  lemma InferenceBalancesQuantities(r: Record, positions: seq<Position>, now: Time)
    requires InferMissing(r, positions, now).Some?
    ensures var resolved := WithResolution(r, InferMissing(r, positions, now).value, now);
      QuantitiesBalance(resolved) <==> r.requestedQty >= 0.0
  {
  }

  /** What stays unresolved is a protective order or a local order submitted at most ten minutes ago. */
  lemma UnresolvedIsRecent(r: Record, positions: seq<Position>, now: Time)
    requires InferMissing(r, positions, now).Some?
    requires InferMissing(r, positions, now).value.authority == Unresolved
    ensures r.intent.Protective() || (now - r.submittedAt <= UNRESOLVED_LIMIT && r.source != BrokerDiscovered)
    ensures InferMissing(r, positions, now).value.status == Unknown
  {
  }

  /** Repeating the inference at the same instant waits, or gives the same answer again. */
  lemma InferenceIsStable(r: Record, positions: seq<Position>, now: Time)
    requires now != ZERO_TIME
    requires InferMissing(r, positions, now).Some?
    ensures var resolution := InferMissing(r, positions, now).value;
      var resolved := WithResolution(r, resolution, now);
      || resolved.status.Terminal()
      || InferMissing(resolved, positions, now).None?
      || (&& resolution.authority == Unresolved
          && InferMissing(resolved, positions, now) == Some(resolution)
          && WithResolution(resolved, resolution, now) == resolved)
  {
    var resolved := WithResolution(r, InferMissing(r, positions, now).value, now);
    SamePosition(r, resolved, positions);
  }

  lemma {:induction false} SamePosition(r: Record, r': Record, positions: seq<Position>)
    requires r.symbol == r'.symbol && r.positionSide == r'.positionSide && r.intent == r'.intent
    ensures PositionQty(r, positions) == PositionQty(r', positions)
  {
    if positions != [] {
      SamePosition(r, r', positions[1..]);
    }
  }
}
