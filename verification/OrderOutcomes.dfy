/** What a run makes of every record and of every listed order, said without the store's own tests: which order a
    record is given, what it takes from it, and what is made of a record with no order. */
module OrderOutcomes {
  import opened Basics
  import opened Text
  import opened OrderModel
  import opened OrderSpec
  import opened ReconcileLaws
  import opened ReconcileStability
  import opened OrderSharing

  // ---- When an order could be the record's ----

  function Gap(a: real, b: real): real {
    if a < b then b - a else a - b
  }

  /** Within 0.02 of each other, or within 2% of either. */
  predicate Near(a: real, b: real) {
    Gap(a, b) <= 0.02 || Gap(a, b) <= 0.02 * Gap(a, 0.0) || Gap(a, b) <= 0.02 * Gap(b, 0.0)
  }

  /** The same symbol and side, nearly the same quantity, and seen at most thirty seconds after submission. */
  predicate CouldBe(r: Record, o: BrokerOrder) {
    && SameText(r.symbol, o.symbol)
    && SameText(TrimSpace(r.side), TrimSpace(o.side))
    && Near(r.requestedQty, if o.quantity > 0.0 then o.quantity else o.filledQty + o.remainingQty)
    && (r.submittedAt == 0 || o.observedAt <= r.submittedAt + 30_000_000_000)
  }

  lemma NearIsApprox(a: real, b: real)
    ensures Near(a, b) <==> QtyApproxEqual(a, b)
  {
  }

  lemma CouldBeIsEligible(r: Record, o: BrokerOrder)
    ensures CouldBe(r, o) <==> Eligible(r, o)
  {
    hide Near, QtyApproxEqual, SameText, EqualFold;
    FoldingIsSameText(r.symbol, o.symbol);
    FoldingIsSameText(TrimSpace(r.side), TrimSpace(o.side));
    NearIsApprox(r.requestedQty, if o.quantity > 0.0 then o.quantity else o.filledQty + o.remainingQty);
  }

  // ---- What a record takes from its order ----

  /** What is near enough stays, anything else is taken over. */
  predicate Taken(mine: real, theirs: real, after: real) {
    after == if Near(mine, theirs) then mine else theirs
  }

  /** The explanation quotes the broker's status, without white space at its end. */
  predicate Quotes(reason: Note, rawStatus: string) {
    && reason.FromBrokerStatus? && reason.rawStatus <= rawStatus
    && Blanks(rawStatus[|reason.rawStatus|..])
    && (reason.rawStatus != "" ==> !IsSpace(reason.rawStatus[|reason.rawStatus| - 1]))
  }

  lemma BrokerReasonQuotes(o: BrokerOrder)
    ensures Quotes(BrokerReason(o), o.rawStatus)
  {
    hide IsSpace;
    var _ := TrimRightStrips(o.rawStatus);
  }

  /** The record after it has taken over a broker order. */
  predicate TakesOver(r: Record, o: BrokerOrder, r': Record, now: Time) {
    && r'.brokerOrderId == o.orderId && r'.status == o.status && r'.rawBrokerStatus == o.rawStatus
    && Taken(r.filledQty, o.filledQty, r'.filledQty) && Taken(r.remainingQty, o.remainingQty, r'.remainingQty)
    && (if o.quantity > 0.0 then Taken(r.requestedQty, o.quantity, r'.requestedQty) else r'.requestedQty == r.requestedQty)
    && r'.avgFillPrice == (if o.avgFillPrice > 0.0 && Gap(r.avgFillPrice, o.avgFillPrice) > 0.0001 then o.avgFillPrice
                           else r.avgFillPrice)
    && r'.authority == BrokerConfirmed && r'.confidence == ConfirmedTruth && !r'.needsReview
    && r'.reason == r'.lastMessage && Quotes(r'.reason, o.rawStatus)
    && r'.updatedAt == r'.lastSeenAt == now
    && (r'.localId, r'.intent, r'.symbol, r'.side, r'.positionSide, r'.source, r'.submittedAt)
       == (r.localId, r.intent, r.symbol, r.side, r.positionSide, r.source, r.submittedAt)
  }

  lemma ConfirmedTakesOver(r: Record, o: BrokerOrder, matched: bool, now: Time)
    requires o.orderId == "" ==> matched
    requires !matched ==> r.brokerOrderId == o.orderId
    ensures TakesOver(r, o, ConfirmedBy(r, o, matched, now).record, now)
  {
    hide Near, QtyApproxEqual, Quotes, BrokerReason;
    BrokerReasonQuotes(o);
    NearIsApprox(r.filledQty, o.filledQty);
    NearIsApprox(r.remainingQty, o.remainingQty);
    NearIsApprox(r.requestedQty, o.quantity);
  }

  // ---- What is held of a record's position ----

  /** The position is in the record's symbol and on its side, or on the side of its intent if it names none. */
  predicate Answers(p: Position, r: Record) {
    && SameText(p.symbol, r.symbol)
    && (if r.positionSide != "" then SameText(p.side, r.positionSide)
        else if r.intent in {EntryLong, ExitLong, StopLong, TargetLong} then SameText(p.side, "long")
        else if r.intent in {EntryShort, ExitShort, StopShort, TargetShort} then SameText(p.side, "short")
        else p.side == "")
  }

  /** The quantity of the first position that answers the record, and none if none does. */
  predicate Held(r: Record, positions: seq<Position>, qty: real) {
    || (qty == 0.0 && forall i | 0 <= i < |positions| :: !Answers(positions[i], r))
    || (exists i :: 0 <= i < |positions| && Answers(positions[i], r) && qty == positions[i].quantity
                    && forall k | 0 <= k < i :: !Answers(positions[k], r))
  }

  lemma AnswersIsPosition(p: Position, r: Record)
    ensures Answers(p, r) <==> IsPositionOf(p, r)
  {
    hide EqualFold, SameText;
    FoldingIsSameText(p.symbol, r.symbol);
    FoldingIsSameText(p.side, TargetSide(r));
    OnlyNothingSaysNothing(p.side);
  }

  lemma OnlyNothingSaysNothing(s: string)
    ensures SameText(s, "") <==> s == ""
  {
  }

  lemma {:induction false} HeldIsPositionQty(r: Record, positions: seq<Position>)
    ensures Held(r, positions, PositionQty(r, positions))
  {
    hide Answers;
    if positions != [] {
      AnswersIsPosition(positions[0], r);
      HeldIsPositionQty(r, positions[1..]);
      var rest, qty := positions[1..], PositionQty(r, positions);
      if !Answers(positions[0], r) {
        if i :| 0 <= i < |rest| && Answers(rest[i], r) && qty == rest[i].quantity
                && forall k | 0 <= k < i :: !Answers(rest[k], r) {
          assert positions[i + 1] == rest[i];
          assert forall k | 0 < k <= i :: positions[k] == rest[k - 1];
        }
      }
    }
  }

  /** The record has been seen, or else submitted, at most fifteen seconds ago and is not known to be over. */
  predicate GivenTime(r: Record, now: Time) {
    && r.status in {Submitted, Accepted, PartiallyFilled}
    && (if r.lastSeenAt != 0 then now <= r.lastSeenAt + 15_000_000_000
        else r.submittedAt != 0 && now <= r.submittedAt + 15_000_000_000)
  }

  /** A record with no order is given time, or an outcome borne out by what is held. */
  ghost predicate LeftToEvidence(r: Record, env: Env, r': Record) {
    if GivenTime(r, env.now) then r' == r
    else exists held :: Held(r, env.positions, held) && FollowsEvidence(r, held, r', env.now)
  }

  lemma UnmatchedIsLeftToEvidence(env: Env, used: set<string>, r: Record)
    requires !r.status.Terminal() && !HeldAtBroker(r, env.open) && FindPendingMatch(r, env.open, used).None?
    ensures LeftToEvidence(r, env, Settle(env, used, r).record)
  {
    hide PositionQty, FollowsEvidence, FindPendingMatch, Resolve, Held, WithResolution;
    HeldIsPositionQty(r, env.positions);
    if InferMissing(r, env.positions, env.now).Some? {
      InferenceFollowsEvidence(r, env.positions, env.now);
    }
  }

  // ---- The orders on offer ----

  predicate ListedId(b: string, open: seq<BrokerOrder>) {
    b != "" && exists i :: 0 <= i < |open| && open[i].orderId == b
  }

  lemma ListedIdIsListed(b: string, open: seq<BrokerOrder>)
    ensures ListedId(b, open) <==> b != "" && b in OpenById(open)
  {
    if b != "" && b in OpenById(open) {
      var i :| 0 <= i < |open| && open[i] == OpenById(open)[b];
    }
    if ListedId(b, open) {
      var i :| 0 <= i < |open| && open[i].orderId == b;
      assert open[i] in open;
    }
  }

  /** The last order listed under the id. */
  predicate LastListed(open: seq<BrokerOrder>, i: nat, b: string) {
    i < |open| && open[i].orderId == b && forall k | i < k < |open| :: open[k].orderId != b
  }

  lemma OneMoreListed(open: seq<BrokerOrder>, n: nat)
    requires n <= |open|
    ensures n == 0 ==> OpenById(open[..n]) == map[]
    ensures n > 0 ==>
      var last, before := open[n - 1], OpenById(open[..n - 1]);
      OpenById(open[..n]) == if last.orderId != "" then before[last.orderId := last] else before
  {
    if n > 0 {
      assert open[..n][..n - 1] == open[..n - 1];
    }
  }

  lemma {:induction false} ListedLast(open: seq<BrokerOrder>, n: nat, b: string) returns (i: nat)
    requires n <= |open| && b != "" && b in OpenById(open[..n])
    ensures i < n && open[i].orderId == b && (forall k | i < k < n :: open[k].orderId != b)
    ensures OpenById(open[..n])[b] == open[i]
  {
    hide OpenById;
    OneMoreListed(open, n);
    if open[n - 1].orderId == b {
      i := n - 1;
    } else {
      i := ListedLast(open, n - 1, b);
    }
  }

  /** The order could be the record's, and no record settled before it ends up with it. */
  predicate OnOffer(s: StoreValue, ids: seq<string>, env: Env, j: nat, i: nat)
    requires j < |ids| && i < |env.open| && forall k | k in ids :: k in s.orders
  {
    && CouldBe(s.orders[ids[j]], env.open[i])
    && (env.open[i].orderId == "" || !TakenBefore(s, ids, env, j, env.open[i].orderId))
  }

  predicate FirstOnOffer(s: StoreValue, ids: seq<string>, env: Env, j: nat, i: nat)
    requires j < |ids| && i < |env.open| && forall k | k in ids :: k in s.orders
  {
    OnOffer(s, ids, env, j, i) && forall k: nat | k < i :: !OnOffer(s, ids, env, j, k)
  }

  lemma OnOfferIsFreeAndFits(s: StoreValue, ids: seq<string>, env: Env, j: nat, i: nat)
    requires IdsBounded(s.orders, s.nextId) && ProcessingOrder(ids, s.orders) && j < |ids| && i < |env.open|
    requires !HeldAtBroker(s.orders[ids[j]], env.open)
    ensures OnOffer(s, ids, env, j, i)
      <==> Free(env.open[i], UsedBefore(env, Start(s), ids, j)) && Eligible(s.orders[ids[j]], env.open[i])
  {
    hide Eligible, CouldBe, RecordPass, IdsBounded, UsedBefore, ProcessingOrder, TakenBefore, OpenById;
    var o := env.open[i];
    DistinctDone(s, ids, j);
    CouldBeIsEligible(s.orders[ids[j]], o);
    if o.orderId != "" {
      UsedInTurnIs(s, ids, env, j, o.orderId);
      assert o in env.open;
      NotHeldBefore(s, ids, env, j, o.orderId);
    }
  }

  lemma NotHeldBefore(s: StoreValue, ids: seq<string>, env: Env, j: nat, b: string)
    requires ProcessingOrder(ids, s.orders) && j < |ids| && Listed(b, env) && !HeldAtBroker(s.orders[ids[j]], env.open)
    ensures !HeldBefore(s, ids[j], b)
  {
  }

  // ---- The outcome of every record ----

  predicate IsOver(status: Status) {
    status in {Filled, Cancelled, Rejected}
  }

  /** The record as the run leaves it. */
  function After(s: StoreValue, ids: seq<string>, env: Env, j: nat): Record
    requires IdsBounded(s.orders, s.nextId) && ProcessingOrder(ids, s.orders) && j < |ids|
  {
    SettledInTurn(s, ids, env, j);
    Reconciled(s, ids, env).orders[ids[j]]
  }

  lemma AfterIsSettled(s: StoreValue, ids: seq<string>, env: Env, j: nat)
    requires IdsBounded(s.orders, s.nextId) && ProcessingOrder(ids, s.orders) && j < |ids|
    ensures After(s, ids, env, j) == Settle(env, UsedBefore(env, Start(s), ids, j), s.orders[ids[j]]).record
  {
    hide Settle, Reconciled, RecordPass, IdsBounded, UsedBefore;
    SettledEarlier(s, ids, env, j, |ids|);
  }

  /** A record that is over stays as it is. */
  lemma OverIsUntouched(s: StoreValue, ids: seq<string>, env: Env, j: nat)
    requires IdsBounded(s.orders, s.nextId) && ProcessingOrder(ids, s.orders) && j < |ids|
    requires IsOver(s.orders[ids[j]].status)
    ensures After(s, ids, env, j) == s.orders[ids[j]]
  {
    hide RecordPass, IdsBounded, UsedBefore, After, HeldAtBroker, FindPendingMatch, InferMissing;
    AfterIsSettled(s, ids, env, j);
  }

  /** An open record holding a listed order takes over the last order listed under its id. */
  lemma HolderTakesOver(s: StoreValue, ids: seq<string>, env: Env, j: nat)
    requires IdsBounded(s.orders, s.nextId) && ProcessingOrder(ids, s.orders) && j < |ids|
    requires !IsOver(s.orders[ids[j]].status) && ListedId(s.orders[ids[j]].brokerOrderId, env.open)
    ensures exists i: nat :: LastListed(env.open, i, s.orders[ids[j]].brokerOrderId)
                             && TakesOver(s.orders[ids[j]], env.open[i], After(s, ids, env, j), env.now)
  {
    hide RecordPass, IdsBounded, UsedBefore, After, FindPendingMatch, InferMissing, ConfirmedBy, TakesOver;
    var r := s.orders[ids[j]];
    AfterIsSettled(s, ids, env, j);
    ListedIdIsListed(r.brokerOrderId, env.open);
    assert env.open[..|env.open|] == env.open;
    var i := ListedLast(env.open, |env.open|, r.brokerOrderId);
    ConfirmedTakesOver(r, env.open[i], false, env.now);
  }

  /** An open record holding no listed order takes over the first order on offer: one with its symbol and side,
      near its quantity, seen soon after its submission, that no record settled before it ends up with. */
  lemma FirstOnOfferIsTaken(s: StoreValue, ids: seq<string>, env: Env, j: nat, i: nat)
    requires IdsBounded(s.orders, s.nextId) && ProcessingOrder(ids, s.orders) && j < |ids| && i < |env.open|
    requires !IsOver(s.orders[ids[j]].status) && !ListedId(s.orders[ids[j]].brokerOrderId, env.open)
    requires FirstOnOffer(s, ids, env, j, i)
    ensures TakesOver(s.orders[ids[j]], env.open[i], After(s, ids, env, j), env.now)
  {
    hide RecordPass, IdsBounded, UsedBefore, After, InferMissing, ConfirmedBy, TakesOver, OnOffer, Eligible, Free, OpenById;
    var r, used := s.orders[ids[j]], UsedBefore(env, Start(s), ids, j);
    AfterIsSettled(s, ids, env, j);
    ListedIdIsListed(r.brokerOrderId, env.open);
    forall k: nat | k <= i ensures OnOffer(s, ids, env, j, k) <==> Free(env.open[k], used) && Eligible(r, env.open[k]) {
      OnOfferIsFreeAndFits(s, ids, env, j, k);
    }
    FirstIsFound(r, env.open, used, i);
    ConfirmedTakesOver(r, env.open[i], true, env.now);
  }

  lemma FirstIsFound(r: Record, open: seq<BrokerOrder>, used: set<string>, i: nat)
    requires i < |open| && Free(open[i], used) && Eligible(r, open[i])
    requires forall k: nat | k < i :: !(Free(open[k], used) && Eligible(r, open[k]))
    ensures FindPendingMatch(r, open, used) == Some(open[i])
  {
    hide Eligible, Free;
    NoneSoFar(r, open, used, i);
    assert open[i..][0] == open[i];
  }

  /** With no order on offer it is left to the evidence. */
  lemma NoneOnOfferIsInferred(s: StoreValue, ids: seq<string>, env: Env, j: nat)
    requires IdsBounded(s.orders, s.nextId) && ProcessingOrder(ids, s.orders) && j < |ids|
    requires !IsOver(s.orders[ids[j]].status) && !ListedId(s.orders[ids[j]].brokerOrderId, env.open)
    requires forall i: nat | i < |env.open| :: !OnOffer(s, ids, env, j, i)
    ensures LeftToEvidence(s.orders[ids[j]], env, After(s, ids, env, j))
  {
    hide RecordPass, IdsBounded, UsedBefore, After, InferMissing, ConfirmedBy, OnOffer, Eligible, Free, OpenById, LeftToEvidence;
    var r, used := s.orders[ids[j]], UsedBefore(env, Start(s), ids, j);
    AfterIsSettled(s, ids, env, j);
    ListedIdIsListed(r.brokerOrderId, env.open);
    forall o | o in env.open ensures !(Free(o, used) && Eligible(r, o)) {
      var i: nat :| i < |env.open| && env.open[i] == o;
      OnOfferIsFreeAndFits(s, ids, env, j, i);
    }
    UnmatchedIsLeftToEvidence(env, used, r);
  }

  /** So a record that comes to hold another broker id than before was given an order that could be its own, and
      one that some order on offer could be is not left without. */
  lemma MatchedIffOnOffer(s: StoreValue, ids: seq<string>, env: Env, j: nat)
    requires IdsBounded(s.orders, s.nextId) && ProcessingOrder(ids, s.orders) && j < |ids|
    requires !IsOver(s.orders[ids[j]].status) && !ListedId(s.orders[ids[j]].brokerOrderId, env.open)
    ensures (exists i: nat :: i < |env.open| && OnOffer(s, ids, env, j, i))
      <==> (exists i: nat :: i < |env.open| && FirstOnOffer(s, ids, env, j, i)
                             && TakesOver(s.orders[ids[j]], env.open[i], After(s, ids, env, j), env.now))
    ensures After(s, ids, env, j).brokerOrderId != s.orders[ids[j]].brokerOrderId ==>
              exists i: nat :: i < |env.open| && OnOffer(s, ids, env, j, i)
                               && env.open[i].orderId == After(s, ids, env, j).brokerOrderId
  {
    hide IdsBounded, After, OnOffer, TakesOver, LeftToEvidence;
    if i: nat :| i < |env.open| && OnOffer(s, ids, env, j, i) {
      var k := LeastOnOffer(s, ids, env, j, i);
      FirstOnOfferIsTaken(s, ids, env, j, k);
      TakenOverId(s.orders[ids[j]], env.open[k], After(s, ids, env, j), env.now);
    } else {
      NoneOnOfferIsInferred(s, ids, env, j);
      EvidenceKeepsId(s.orders[ids[j]], env, After(s, ids, env, j));
    }
  }

  lemma {:induction false} LeastOnOffer(s: StoreValue, ids: seq<string>, env: Env, j: nat, i: nat) returns (k: nat)
    requires j < |ids| && i < |env.open| && (forall id | id in ids :: id in s.orders) && OnOffer(s, ids, env, j, i)
    ensures k <= i && FirstOnOffer(s, ids, env, j, k)
  {
    hide OnOffer;
    k := i;
    if e: nat :| e < i && OnOffer(s, ids, env, j, e) {
      k := LeastOnOffer(s, ids, env, j, e);
    }
  }

  lemma TakenOverId(r: Record, o: BrokerOrder, r': Record, now: Time)
    requires TakesOver(r, o, r', now)
    ensures r'.brokerOrderId == o.orderId
  {
  }

  lemma EvidenceKeepsId(r: Record, env: Env, r': Record)
    requires LeftToEvidence(r, env, r')
    ensures r'.brokerOrderId == r.brokerOrderId
  {
  }

  // ---- The outcome of every listed order ----

  /** The intent read off an order nobody submitted here: selling a long or buying back a short closes it. */
  predicate ReadsIntent(o: BrokerOrder, intent: Intent) {
    match intent
    case ExitShort => Says(o.side, "BUY") && Says(o.positionSide, "short")
    case ExitLong => Says(o.side, "SELL") && Says(o.positionSide, "long")
    case EntryLong => Says(o.side, "BUY") && !Says(o.positionSide, "short")
    case EntryShort => Says(o.side, "SELL") && !Says(o.positionSide, "long")
    case UnknownIntent => !Says(o.side, "BUY") && !Says(o.side, "SELL")
    case _ => false
  }

  /** The record made of an order nobody holds. */
  predicate ReadsOff(o: BrokerOrder, r: Record, now: Time) {
    && r.brokerOrderId == o.orderId && ReadsIntent(o, r.intent)
    && Says(o.symbol, r.symbol) && Says(o.side, r.side) && Says(o.positionSide, r.positionSide)
    && r.status == o.status && r.rawBrokerStatus == o.rawStatus
    && (r.requestedQty, r.filledQty, r.remainingQty, r.avgFillPrice)
       == (o.quantity, o.filledQty, o.remainingQty, o.avgFillPrice)
    && r.lastMessage == DiscoveredActive && r.reason == DiscoveredDirectly
    && r.source == BrokerDiscovered && r.authority == BrokerConfirmed && r.confidence == ConfirmedTruth && !r.needsReview
    && r.submittedAt == r.updatedAt == r.lastSeenAt == now
  }

  lemma UpperTrimSays(s: string, word: string)
    ensures Says(s, UpperTrim(s)) && Says(s, LowerTrim(s))
    ensures ToUpper(word) == word ==> (UpperTrim(s) == word <==> Says(s, word))
  {
    var t := TrimSpace(s);
    hide TrimSpace;
    FoldingIsSameText(t, ToUpper(t));
    FoldingIsSameText(t, word);
    assert ToUpper(ToUpper(t)) == ToUpper(t);
  }

  lemma ImportReadsIntent(o: BrokerOrder)
    ensures ReadsIntent(o, InferIntent(o))
  {
    hide UpperTrim, LowerTrim, Says;
    assert ToUpper("BUY") == "BUY" && ToUpper("SELL") == "SELL" && ToLower("short") == "short" && ToLower("long") == "long";
    UpperTrimSays(o.side, "BUY");
    UpperTrimSays(o.side, "SELL");
    LowerTrimSays(o.positionSide, "short");
    LowerTrimSays(o.positionSide, "long");
  }

  lemma ImportReadsOff(o: BrokerOrder, id: string, now: Time)
    ensures ReadsOff(o, Imported(o, id, now), now)
  {
    hide UpperTrim, LowerTrim, InferIntent, ReadsIntent, Says;
    ImportReadsIntent(o);
    UpperTrimSays(o.symbol, "");
    UpperTrimSays(o.side, "");
    UpperTrimSays(o.positionSide, "");
  }

  /** Every record the run adds is read off a listed order that no record present before ends up with. */
  lemma AddedIsReadOff(s: StoreValue, ids: seq<string>, env: Env, id: string)
    requires IdsBounded(s.orders, s.nextId) && ProcessingOrder(ids, s.orders)
    requires id in Reconciled(s, ids, env).orders && id !in s.orders
    ensures exists i :: 0 <= i < |env.open| && ReadsOff(env.open[i], Reconciled(s, ids, env).orders[id], env.now)
                        && (env.open[i].orderId == ""
                            || forall j | 0 <= j < |ids| :: !HoldsAfter(s, ids, env, ids[j], env.open[i].orderId))
  {
    hide RecordPass, IdsBounded, Reconciled, Imported, ReadsOff, Settle, OpenById;
    ReconcileSettlesEach(s, ids, env, id);
    var used := RecordPass(env, Start(s), ids).used;
    var i :| 0 <= i < |env.open| && Free(env.open[i], used)
             && Reconciled(s, ids, env).orders[id] == Imported(env.open[i], id, env.now);
    ImportReadsOff(env.open[i], id, env.now);
    if env.open[i].orderId != "" {
      forall j | 0 <= j < |ids| ensures !HoldsAfter(s, ids, env, ids[j], env.open[i].orderId) {
        if HoldsAfter(s, ids, env, ids[j], env.open[i].orderId) {
          assert env.open[i] in env.open;
          SettledEarlier(s, ids, env, j, |ids|);
          assert ids[..|ids|] == ids;
          HeldIsUsed(env, Start(s), ids, ids[j]);
        }
      }
    }
  }
}
