/** Execution intents, their results, validation, the dedupe key, and how a tracked execution
    follows the order store. */
module ExecutionModel {
  import opened Basics
  import opened Text
  import OrderModel
  import OrderSpec

  // ---- Entities ----

  datatype Status =
    | Pending | Blocked | DuplicateSuppressed | Submitted | Acknowledged | PartiallyFilled
    | Filled | Cancelled | Rejected | Stale | Failed | OtherStatus(text: string)
  {
    predicate Terminal() {
      Filled? || Cancelled? || Rejected? || Failed? || Blocked? || DuplicateSuppressed? || Stale?
    }

    predicate InFlight() {
      Pending? || Submitted? || Acknowledged? || PartiallyFilled?
    }

    /** Resolved at the broker, or never accepted by it. */
    predicate Closed() {
      Filled? || Cancelled? || Rejected? || Failed?
    }

    /** Blocked and suppressed executions never stand for their key. */
    predicate Registers() {
      !Blocked? && !DuplicateSuppressed?
    }
  }

  datatype Intent = Intent(
    intentId: string, traderId: string, symbol: string, side: string, actionType: string, quantity: real,
    orderType: string, limitPrice: real, stopPrice: real, tif: string, createdAt: Time,
    increasesExposure: bool, reduceOnly: bool, localRequestKey: string, leverage: int)

  datatype Gate = Gate(mode: string, tradingAllowed: bool, entriesAllowed: bool, exitsAllowed: bool, blockReason: string)

  /** Why an execution was not sent on, or did not finish. */
  datatype Why =
    | NoProblem
    | MissingSymbol | QuantityNotPositive | UnsupportedOrderType | LimitPriceMissing | StopPriceMissing
    | GateClosed(reason: string) | UncertainAction
    | AlreadyInFlight | PriorStale | SubmittedRecently
    | BeyondStaleThreshold
    | NoBroker | UnsupportedAction(action: string) | BrokerRefused(message: string)
    | OtherWhy(text: string)

  datatype Result = Result(
    intentId: string, status: Status, submittedAt: Time, completedAt: Time, localOrderId: string, brokerOrderId: string,
    fillQuantity: real, averageFillPrice: real, duplicateSuppressed: bool, stale: bool, success: bool, why: Why,
    symbol: string, actionType: string, dedupeKey: string, increasesExposure: bool, reduceOnly: bool,
    observedStatus: string)

  datatype Entry = Entry(intent: Intent, result: Result) {
    function Id(): string {
      intent.intentId
    }

    function Key(): string {
      result.dedupeKey
    }

    function Status(): Status {
      result.status
    }

    /** When the execution completed, or else when it was asked for. */
    function Reference(): Time {
      if result.completedAt == ZERO_TIME then intent.createdAt else result.completedAt
    }
  }

  datatype Config = Config(dedupeWindow: int, staleAfter: int, maxHistory: int)

  function ConfigOrDefaults(cfg: Config): (c: Config)
    ensures c.dedupeWindow > 0 && c.staleAfter > 0 && c.maxHistory > 0
  {
    Config(if cfg.dedupeWindow <= 0 then 15 * SECOND else cfg.dedupeWindow,
           if cfg.staleAfter <= 0 then 45 * SECOND else cfg.staleAfter,
           if cfg.maxHistory <= 0 then 250 else cfg.maxHistory)
  }

  const EXEC_PREFIX := "exec-"

  function ExecutionId(n: nat): string {
    EXEC_PREFIX + Padded(n, 6)
  }

  function ParseExecutionSequence(intentId: string): nat {
    var id := TrimSpace(intentId);
    if EXEC_PREFIX <= id then SequenceAfter(id, EXEC_PREFIX) else 0
  }

  lemma ExecutionIdReadsBack(n: nat)
    ensures var id := ExecutionId(n);
      Trimmed(id) && id != "" && ParseExecutionSequence(id) == n
  {
    hide Padded, AllDigits, Decimal, DigitsValue, ParseSuffix;
    SequenceReadsBack(EXEC_PREFIX, n, 6);
    var id := ExecutionId(n);
    assert id[0] == EXEC_PREFIX[0];
    assert id[|id| - 1] == Padded(n, 6)[|Padded(n, 6)| - 1];
    LastDigitIsNoSpace(Padded(n, 6));
  }

  /** An id has a sequence number exactly when it reads "exec-" and that number. */
  lemma SequenceIsRead(intentId: string, n: nat)
    requires n > 0
    ensures var id := TrimSpace(intentId);
      ParseExecutionSequence(intentId) == n <==> "exec-" <= id && ReadsAs(id[5..], n)
  {
    hide TrimSpace, ParseSuffix, ReadsAs;
    if "exec-" <= TrimSpace(intentId) {
      SuffixIsNumber(TrimSpace(intentId)[5..], n);
    }
  }

  lemma LastDigitIsNoSpace(s: string)
    requires s != "" && AllDigits(s)
    ensures !IsSpace(s[|s| - 1])
  {
  }

  // ---- The dedupe key ----

  const SEPARATOR := '|'

  /** Eight decimals, and a bare zero for zero. */
  function FormatFloatKey(x: real): string {
    if x == 0.0 then "0"
    else
      var scaled: nat := (Abs(x) * 100000000.0 + 0.5).Floor;
      (if x < 0.0 then "-" else "") + Decimal(scaled / 100000000) + "." + Padded(scaled % 100000000, 8)
  }

  function BoolKey(b: bool): string {
    if b then "1" else "0"
  }

  function KeyParts(i: Intent): (parts: seq<string>)
    ensures |parts| == 12
  {
    [TrimSpace(i.traderId), UpperTrim(i.symbol), LowerTrim(i.side), LowerTrim(i.actionType), FormatFloatKey(i.quantity),
     LowerTrim(i.orderType), FormatFloatKey(i.limitPrice), FormatFloatKey(i.stopPrice), LowerTrim(i.tif),
     BoolKey(i.increasesExposure), BoolKey(i.reduceOnly), TrimSpace(i.localRequestKey)]
  }

  function Join(parts: seq<string>): string {
    if |parts| == 0 then "" else if |parts| == 1 then parts[0] else parts[0] + [SEPARATOR] + Join(parts[1..])
  }

  function BuildDedupeKey(i: Intent): string {
    Join(KeyParts(i))
  }

  lemma TextIsNotBlank(s: string, k: nat)
    requires k < |s| && !IsSpace(s[k])
    ensures TrimSpace(s) != ""
  {
    LeftTrimKeeps(s, k);
    RightTrimKeeps(TrimLeft(s), s[k]);
  }

  lemma {:induction false} LeftTrimKeeps(s: string, k: nat)
    requires k < |s| && !IsSpace(s[k])
    ensures s[k] in TrimLeft(s)
  {
    if IsSpace(s[0]) {
      LeftTrimKeeps(s[1..], k - 1);
    }
  }

  lemma {:induction false} RightTrimKeeps(s: string, c: char)
    requires c in s && !IsSpace(c)
    ensures TrimRight(s) != ""
  {
    if IsSpace(s[|s| - 1]) {
      RightTrimKeeps(s[..|s| - 1], c);
    }
  }

  lemma KeyIsNotBlank(i: Intent)
    ensures TrimSpace(BuildDedupeKey(i)) != ""
  {
    hide FormatFloatKey, UpperTrim, LowerTrim, TrimSpace;
    var parts := KeyParts(i);
    var key := BuildDedupeKey(i);
    assert key == parts[0] + [SEPARATOR] + Join(parts[1..]);
    TextIsNotBlank(key, |parts[0]|);
  }

  predicate Plain(s: string) {
    SEPARATOR !in s
  }

  /** Joined texts split back into the same parts when no part contains the separator. */
  lemma {:induction false} JoinIsInjective(a: seq<string>, b: seq<string>)
    requires |a| == |b| && Join(a) == Join(b)
    requires forall i | 0 <= i < |a| :: Plain(a[i]) && Plain(b[i])
    ensures a == b
  {
    if |a| > 1 {
      var s := Join(a);
      assert s == a[0] + ([SEPARATOR] + Join(a[1..])) && s == b[0] + ([SEPARATOR] + Join(b[1..]));
      assert s[|a[0]|] == SEPARATOR && s[|b[0]|] == SEPARATOR;
      assert forall k | 0 <= k < |a[0]| :: s[k] == a[0][k];
      assert forall k | 0 <= k < |b[0]| :: s[k] == b[0][k];
      assert a[0] == s[..|a[0]|] == s[..|b[0]|] == b[0];
      assert Join(a[1..]) == s[|a[0]| + 1..] == Join(b[1..]);
      JoinIsInjective(a[1..], b[1..]);
      assert a == [a[0]] + a[1..] && b == [b[0]] + b[1..];
    }
  }

  /** The free-text parts of the key hold no separator. */
  predicate PlainIntent(i: Intent) {
    && Plain(TrimSpace(i.traderId)) && Plain(UpperTrim(i.symbol)) && Plain(LowerTrim(i.side))
    && Plain(LowerTrim(i.actionType)) && Plain(LowerTrim(i.orderType)) && Plain(LowerTrim(i.tif))
    && Plain(TrimSpace(i.localRequestKey))
  }

  lemma DigitsArePlain(s: string)
    requires AllDigits(s)
    ensures Plain(s)
  {
  }

  lemma FloatKeyIsPlain(x: real)
    ensures Plain(FormatFloatKey(x))
  {
    hide Decimal, Padded, AllDigits, DigitsValue;
    if x != 0.0 {
      var scaled: nat := (Abs(x) * 100000000.0 + 0.5).Floor;
      DecimalReadsBack(scaled / 100000000);
      SequenceReadsBack("", scaled % 100000000, 8);
      DigitsArePlain(Decimal(scaled / 100000000));
      DigitsArePlain(Padded(scaled % 100000000, 8));
    }
  }

  /** Two intents share a dedupe key exactly when each normalized part agrees, as long as no text
      in them contains the separator. */
  lemma SameKeyMeansSameParts(a: Intent, b: Intent)
    requires PlainIntent(a) && PlainIntent(b)
    ensures BuildDedupeKey(a) == BuildDedupeKey(b) <==> KeyParts(a) == KeyParts(b)
  {
    hide FormatFloatKey, UpperTrim, LowerTrim, TrimSpace, Join;
    forall i: Intent ensures Plain(FormatFloatKey(i.quantity)) && Plain(FormatFloatKey(i.limitPrice))
                             && Plain(FormatFloatKey(i.stopPrice))
    {
      FloatKeyIsPlain(i.quantity);
      FloatKeyIsPlain(i.limitPrice);
      FloatKeyIsPlain(i.stopPrice);
    }
    if BuildDedupeKey(a) == BuildDedupeKey(b) {
      JoinIsInjective(KeyParts(a), KeyParts(b));
    }
  }

  /** With the separator inside a text the key no longer tells the parts apart: the same key for two intents
      of different traders in different symbols. */
  lemma SeparatorCollides(i: Intent)
    ensures var a, b := i.(traderId := "T|A", symbol := "B"), i.(traderId := "T", symbol := "A|B");
      BuildDedupeKey(a) == BuildDedupeKey(b) && KeyParts(a) != KeyParts(b)
  {
    hide FormatFloatKey, LowerTrim, TrimSpace, UpperTrim, Join, BoolKey;
    var a, b := i.(traderId := "T|A", symbol := "B"), i.(traderId := "T", symbol := "A|B");
    PlainTexts();
    var rest := KeyParts(a)[2..];
    assert KeyParts(a) == ["T|A", "B"] + rest && KeyParts(b) == ["T", "A|B"] + rest;
    JoinedPair("T|A", "B", rest);
    JoinedPair("T", "A|B", rest);
    assert "T|A" + [SEPARATOR] + "B" == "T" + [SEPARATOR] + "A|B";
  }

  lemma PlainTexts()
    ensures TrimSpace("T|A") == "T|A" && TrimSpace("T") == "T" && UpperTrim("B") == "B" && UpperTrim("A|B") == "A|B"
  {
    assert ToUpper("B") == "B" && ToUpper("A|B") == "A|B";
  }

  lemma JoinedPair(a: string, b: string, rest: seq<string>)
    requires rest != []
    ensures Join([a, b] + rest) == a + [SEPARATOR] + b + [SEPARATOR] + Join(rest)
  {
    assert ([a, b] + rest)[1..] == [b] + rest && ([b] + rest)[1..] == rest;
  }

  // ---- Validation ----

  datatype Action = Entering | Leaving | UnknownAction

  function ClassifyAction(actionType: string): Action {
    var action := LowerTrim(actionType);
    if action == "open_long" || action == "open_short" then Entering
    else if action == "close_long" || action == "close_short" then Leaving
    else UnknownAction
  }

  predicate KnownOrderType(orderType: string) {
    orderType == "market" || orderType == "limit" || orderType == "stop" || orderType == "stop_limit"
  }

  function Validate(i: Intent, gate: Gate): Why {
    var orderType := if LowerTrim(i.orderType) == "" then "market" else LowerTrim(i.orderType);
    if TrimSpace(i.symbol) == "" then MissingSymbol
    else if i.quantity <= 0.0 then QuantityNotPositive
    else if !KnownOrderType(orderType) then UnsupportedOrderType
    else if (orderType == "limit" || orderType == "stop_limit") && i.limitPrice <= 0.0 then LimitPriceMissing
    else if (orderType == "stop" || orderType == "stop_limit") && i.stopPrice <= 0.0 then StopPriceMissing
    else if !gate.tradingAllowed then GateClosed(TrimSpace(gate.blockReason))
    else match ClassifyAction(i.actionType)
      case UnknownAction => if gate.entriesAllowed && gate.exitsAllowed then NoProblem else UncertainAction
      case Entering => if gate.entriesAllowed then NoProblem else GateClosed(TrimSpace(gate.blockReason))
      case Leaving => if gate.exitsAllowed then NoProblem else GateClosed(TrimSpace(gate.blockReason))
  }

  // ---- The broker's answer ----

  /** What the broker returned for an accepted submission; absent fields are none. */
  datatype Payload = Payload(
    status: Option<string>, fillQty: real, avgFillPrice: real, localOrderId: Option<string>, brokerOrderId: Option<string>)

  datatype Reply = Refused(message: string) | Taken(payload: Payload)

  /** An absent field is rendered, not left blank. */
  function Shown(field: Option<string>): string {
    match field
    case Some(text) => TrimSpace(text)
    case None => "<nil>"
  }

  function UpperOf(raw: string): string {
    ToUpper(raw)
  }

  /** A submission is reported by its named status, or else by how much was filled. */
  function MapPayloadStatus(p: Payload, requestedQty: real): (s: Status)
    ensures s.InFlight() || s.Closed()
    ensures !s.Failed? && !s.Pending?
  {
    var named := UpperOf(Shown(p.status));
    if named == "FILLED" then Filled
    else if named == "PARTIALLY_FILLED" || named == "PARTIAL" || named == "PARTIAL_FILL" then PartiallyFilled
    else if named == "CANCELLED" || named == "CANCELED" then Cancelled
    else if named == "REJECTED" then Rejected
    else if named == "ACCEPTED" || named == "PRESUBMITTED" || named == "PRE_SUBMITTED" then Acknowledged
    else if named == "SUBMITTED" || named == "PENDING" || named == "PENDING_SUBMIT" then Submitted
    else if p.fillQty > 0.0 && requestedQty > 0.0 then
      if p.fillQty >= requestedQty then Filled else PartiallyFilled
    else Submitted
  }

  /** The words for a status, in the broker's spellings. */
  function StatusWords(s: Status): set<string> {
    match s
    case Filled => {"FILLED"}
    case PartiallyFilled => {"PARTIALLY_FILLED", "PARTIAL", "PARTIAL_FILL"}
    case Cancelled => {"CANCELLED", "CANCELED"}
    case Rejected => {"REJECTED"}
    case Acknowledged => {"ACCEPTED", "PRESUBMITTED", "PRE_SUBMITTED"}
    case Submitted => {"SUBMITTED", "PENDING", "PENDING_SUBMIT"}
    case _ => {}
  }

  /** An answer that names a status in any letter case and with any padding is read as that status, whatever
      it says of the fill. */
  lemma StatusWordsReadBack(p: Payload, text: string, s: Status, quantity: real)
    requires p.status == Some(text) && ToUpper(TrimSpace(text)) in StatusWords(s)
    ensures MapPayloadStatus(p, quantity) == s
  {
    hide TrimSpace, ToUpper;
  }

  /** An answer that names none of these, or nothing at all, is read by its fill: all of the request, some of it,
      or none. */
  lemma FillReadsStatus(p: Payload, quantity: real)
    requires forall s :: UpperOf(Shown(p.status)) !in StatusWords(s)
    ensures var s := MapPayloadStatus(p, quantity); var reported := p.fillQty > 0.0 && quantity > 0.0;
      && (s == Filled <==> reported && p.fillQty >= quantity)
      && (s == PartiallyFilled <==> reported && p.fillQty < quantity)
      && (s == Submitted <==> !reported)
  {
    var word := UpperOf(Shown(p.status));
    hide UpperOf, Shown;
    assert word !in StatusWords(Filled) && word !in StatusWords(PartiallyFilled) && word !in StatusWords(Cancelled)
           && word !in StatusWords(Rejected) && word !in StatusWords(Acknowledged) && word !in StatusWords(Submitted);
  }

  /** An absent status names nothing. */
  lemma AbsentNamesNothing()
    ensures forall s :: UpperOf(Shown(None)) !in StatusWords(s)
  {
    assert |UpperOf("<nil>")| == 5;
  }

  /** A fill reported without its quantity is a fill of the whole request. */
  function FillOf(p: Payload, requestedQty: real): real {
    if UpperOf(Shown(p.status)) == "FILLED" && p.fillQty <= 0.0 then requestedQty else p.fillQty
  }

  function MapRefusal(message: string): (s: Status)
    ensures s.Closed() && !s.Filled?
  {
    var text := LowerTrim(message);
    if Contains(text, "reject") then Rejected else if Contains(text, "cancel") then Cancelled else Status.Failed
  }

  // ---- Following the order store ----

  type Lookup = Option<OrderSpec.StoreValue>

  /** The order record an execution refers to, when a lookup is installed. */
  function Find(lookup: Lookup, localOrderId: string, brokerOrderId: string): (r: Option<OrderModel.Record>)
    ensures lookup.None? ==> r.None?
    ensures TrimSpace(localOrderId) == "" && TrimSpace(brokerOrderId) == "" ==> r.None?
  {
    match lookup
    case None => None
    case Some(store) => OrderSpec.Lookup(store, localOrderId, brokerOrderId)
  }

  /** The order status an execution status stands for, read back. */
  function OrderStatusOf(s: Status): OrderModel.Status {
    match s
    case Filled => OrderModel.Status.Filled
    case PartiallyFilled => OrderModel.Status.PartiallyFilled
    case Cancelled => OrderModel.Status.Cancelled
    case Rejected => OrderModel.Status.Rejected
    case Acknowledged => OrderModel.Status.Accepted
    case Submitted => OrderModel.Status.Submitted
    case _ => OrderModel.Status.Unknown
  }

  function MapRecordStatus(r: OrderModel.Record): (s: Option<Status>)
    ensures s.Some? ==> s.value.Submitted? || s.value.Acknowledged? || s.value.PartiallyFilled?
                        || s.value.Filled? || s.value.Cancelled? || s.value.Rejected?
    ensures r.status.Terminal() <==> s.Some? && s.value.Closed()
    ensures s.Some? ==> OrderStatusOf(s.value) == r.status
    ensures s.None? <==> r.status.Unknown? || r.status.OtherStatus?
  {
    match r.status
    case Filled => Some(Filled)
    case PartiallyFilled => Some(PartiallyFilled)
    case Cancelled => Some(Cancelled)
    case Rejected => Some(Rejected)
    case Accepted => Some(Acknowledged)
    case Submitted => Some(Submitted)
    case _ => None
  }

  function EventTime(r: OrderModel.Record, now: Time): Time {
    if r.updatedAt != ZERO_TIME then r.updatedAt else if r.lastSeenAt != ZERO_TIME then r.lastSeenAt else now
  }

  /** The result after a look at the order record; a completion time once set is kept. */
  function Refreshed(result: Result, lookup: Lookup, now: Time): Result {
    var found := Find(lookup, result.localOrderId, result.brokerOrderId);
    if found.None? then result
    else
      var mapped := MapRecordStatus(found.value);
      if mapped.None? then result else Followed(result, found.value, mapped.value, now)
  }

  /** The result with the record's state taken over under the given status. */
  function Followed(result: Result, record: OrderModel.Record, status: Status, now: Time): Result {
    result.(
      observedStatus := record.rawBrokerStatus,
      fillQuantity := record.filledQty,
      averageFillPrice := record.avgFillPrice,
      localOrderId := if TrimSpace(result.localOrderId) == "" then record.localId else result.localOrderId,
      brokerOrderId := if TrimSpace(result.brokerOrderId) == "" then record.brokerOrderId else result.brokerOrderId,
      status := status,
      success := !(status.Cancelled? || status.Rejected?),
      stale := false,
      completedAt :=
        if status.Closed() && result.completedAt == ZERO_TIME then EventTime(record, now) else result.completedAt)
  }
}
