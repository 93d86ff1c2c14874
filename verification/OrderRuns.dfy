/** What every operation of the order store keeps, and what holds after any run of them. */
module OrderRuns {
  import opened Basics
  import opened Text
  import opened OrderModel
  import opened OrderSpec
  import opened ReconcileLaws

  // ---- The invariant ----

  /** A record in stored form: restoring it would change nothing. */
  predicate NormalRecord(r: Record) {
    && !r.intent.OtherIntent?
    && UpperTrimmed(r.symbol) && UpperTrimmed(r.side) && LowerTrimmed(r.positionSide)
    && !r.authority.OtherAuthority? && !r.confidence.OtherConfidence?
    && r.reason.Settled()
    && r.submittedAt != ZERO_TIME && r.updatedAt != ZERO_TIME
  }

  predicate Normal(orders: Orders) {
    forall id | id in orders :: NormalRecord(orders[id])
  }

  /** Unresolved means unknown at the broker, and a discovered order is never protective. */
  predicate HonestRecord(r: Record) {
    && (r.authority == Unresolved ==> r.status == Unknown)
    && (r.source == BrokerDiscovered ==> !r.intent.Protective())
  }

  predicate Honest(orders: Orders) {
    forall id | id in orders :: HonestRecord(orders[id])
  }

  /** The broker index points at records only, and knows every trimmed broker id in use. */
  predicate IndexCovers(orders: Orders, index: map<string, string>) {
    && (forall b | b in index :: index[b] in orders)
    && (forall id | id in orders ::
          orders[id].brokerOrderId != "" && Trimmed(orders[id].brokerOrderId) ==> orders[id].brokerOrderId in index)
  }

  predicate CountsAgree(s: StoreValue) {
    s.summary.counts == Recount(s.orders)
  }

  predicate Inv(s: StoreValue) {
    IdsBounded(s.orders, s.nextId) && Normal(s.orders) && IndexCovers(s.orders, s.index) && CountsAgree(s)
  }

  predicate Closed(r: Record) {
    r.status.Terminal()
  }

  /** No record has gone, the counter has not gone back, and no closed record is open again. */
  predicate Advances(s: StoreValue, s': StoreValue) {
    && s.nextId <= s'.nextId
    && forall id | id in s.orders :: id in s'.orders && (Closed(s.orders[id]) ==> Closed(s'.orders[id]))
  }

  // ---- What the invariant gives ----

  lemma AuthoritiesCover(orders: Orders)
    ensures orders.Keys == WithAuthority(orders, LocalPending) + WithAuthority(orders, BrokerConfirmed)
                         + WithAuthority(orders, Inferred) + WithAuthority(orders, Unresolved)
  {
    hide NormalizeAuthority;
    forall id | id in orders
      ensures || HasAuthority(orders[id], LocalPending) || HasAuthority(orders[id], BrokerConfirmed)
              || HasAuthority(orders[id], Inferred) || HasAuthority(orders[id], Unresolved)
    {
      assert !NormalizeAuthority(orders[id]).OtherAuthority?;
    }
  }

  lemma AuthoritiesDiffer(orders: Orders, a: Authority, b: Authority)
    requires a != b
    ensures WithAuthority(orders, a) !! WithAuthority(orders, b)
  {
    hide NormalizeAuthority;
  }

  /** Every record is counted under exactly one authority. */
  lemma AuthoritiesPartition(orders: Orders)
    ensures var c := Recount(orders);
      c.pending + c.confirmed + c.inferred + c.unresolved == c.tracked
  {
    hide WithAuthority, ActiveIds;
    var pending, confirmed := WithAuthority(orders, LocalPending), WithAuthority(orders, BrokerConfirmed);
    var inferred, unresolved := WithAuthority(orders, Inferred), WithAuthority(orders, Unresolved);
    AuthoritiesCover(orders);
    forall a, b | a != b ensures WithAuthority(orders, a) !! WithAuthority(orders, b) {
      AuthoritiesDiffer(orders, a, b);
    }
    DisjointSizes(pending, confirmed, inferred, unresolved);
  }

  lemma DisjointSizes(a: set<string>, b: set<string>, c: set<string>, d: set<string>)
    requires a !! b !! c !! d
    ensures |a + b + c + d| == |a| + |b| + |c| + |d|
  {
    assert |a + b| == |a| + |b|;
    assert |a + b + c| == |a + b| + |c|;
  }

  /** A submission is on file under a new id with everything still to fill, and nothing else has changed. */
  lemma SubmissionIsOnFile(s: StoreValue, intent: Intent, symbol: string, side: string, positionSide: string, qty: real,
                           at: Time)
    requires Inv(s)
    ensures var s' := Registered(s, intent, symbol, side, positionSide, qty, at);
      var id := LocalOrderId(LOCAL_PREFIX, s.nextId + 1);
      && id !in s.orders && s'.orders.Keys == s.orders.Keys + {id} && s'.index == s.index
      && (forall k | k in s.orders :: s'.orders[k] == s.orders[k])
      && Lookup(s', id, "").Some?
      && (var r := Lookup(s', id, "").value;
          && r.localId == id && r.brokerOrderId == "" && r.status == Submitted && r.rawBrokerStatus == ""
          && r.authority == LocalPending && r.confidence == Pending && r.reason == r.lastMessage == AwaitingAck
          && r.intent == (if intent.OtherIntent? then UnknownIntent else intent) && r.source == LocalSubmission
          && r.filledQty == r.avgFillPrice == 0.0 && r.filledQty + r.remainingQty == r.requestedQty == qty
          && EqualFold(TrimSpace(symbol), r.symbol) && EqualFold(TrimSpace(side), r.side)
          && EqualFold(TrimSpace(positionSide), r.positionSide)
          && r.submittedAt == r.updatedAt == at && r.lastSeenAt == ZERO_TIME && !r.needsReview)
  {
    hide ParseOrderSequence, NormalRecord, Recount, LocalOrderId, TrimSpace;
    GeneratedIdIsNext(LOCAL_PREFIX, s.nextId);
    TrimmedAsIs(LocalOrderId(LOCAL_PREFIX, s.nextId + 1));
    CaseIsFolded(TrimSpace(symbol));
    CaseIsFolded(TrimSpace(side));
    CaseIsFolded(TrimSpace(positionSide));
  }

  /** A rejection is on file under the id of the order: rejected on the broker's word, for the reason it gives or
      the usual one, with everything the order was kept.  No other record, index entry or counter changes, the order
      is not counted active any more, and an id that is not on file changes nothing. */
  lemma RejectionIsOnFile(s: StoreValue, id: string, message: Note, at: Time)
    requires Inv(s)
    ensures var s' := MarkedRejected(s, id, message, at);
      && (id !in s.orders ==> s' == s)
      && (id in s.orders ==>
            && s'.orders.Keys == s.orders.Keys && s'.index == s.index && s'.nextId == s.nextId
            && (forall k | k in s.orders && k != id :: s'.orders[k] == s.orders[k])
            && s'.summary.(counts := s.summary.counts) == s.summary
            && s'.summary.counts.tracked == s.summary.counts.tracked
            && s.summary.counts.active == s'.summary.counts.active + One(!s.orders[id].status.Terminal())
            && Lookup(s', id, "").Some?
            && IsRejection(s.orders[id], message, at, Lookup(s', id, "").value))
  {
    hide ParseOrderSequence, NormalRecord, NormalizeAuthority, WithAuthority, TrimSpace;
    if id in s.orders {
      TrimmedAsIs(id);
      var r := RejectedRecord(s.orders[id], message, at);
      RejectionIs(s.orders[id], message, at);
      assert ActiveIds(s.orders[id := r]) == ActiveIds(s.orders) - {id};
    }
  }

  /** The record r' is r rejected by the broker. */
  predicate IsRejection(r: Record, message: Note, at: Time, r': Record) {
    && r'.status == Rejected && r'.authority == BrokerConfirmed && r'.confidence == ConfirmedTruth && !r'.needsReview
    && r'.lastMessage == (if message.Text? then Text(TrimSpace(message.text), message.mentions) else message)
    && r'.reason == (if message.Text? && Blanks(message.text) then RejectedByBroker else r'.lastMessage)
    && r'.updatedAt == r'.lastSeenAt == at
    && (r'.localId, r'.brokerOrderId, r'.intent, r'.symbol, r'.side, r'.positionSide, r'.source, r'.rawBrokerStatus)
       == (r.localId, r.brokerOrderId, r.intent, r.symbol, r.side, r.positionSide, r.source, r.rawBrokerStatus)
    && (r'.requestedQty, r'.filledQty, r'.remainingQty, r'.avgFillPrice, r'.submittedAt)
       == (r.requestedQty, r.filledQty, r.remainingQty, r.avgFillPrice, r.submittedAt)
  }

  lemma RejectionIs(r: Record, message: Note, at: Time)
    ensures IsRejection(r, message, at, RejectedRecord(r, message, at))
  {
    hide TrimSpace, Blanks;
    if message.Text? {
      BlankTrims(message.text);
    }
  }

  lemma CaseIsFolded(s: string)
    ensures EqualFold(s, ToUpper(s)) && EqualFold(s, ToLower(s))
  {
    assert ToLower(ToUpper(s)) == ToLower(s) && ToLower(ToLower(s)) == ToLower(s);
  }

  // ---- Preservation, operation by operation ----

  lemma RegisterKeepsInv(s: StoreValue, intent: Intent, symbol: string, side: string, positionSide: string, qty: real,
                         at: Time)
    requires Inv(s) && at != ZERO_TIME
    ensures var s' := Registered(s, intent, symbol, side, positionSide, qty, at);
      && Inv(s') && Advances(s, s') && (Honest(s.orders) ==> Honest(s'.orders))
      && LocalOrderId(LOCAL_PREFIX, s.nextId + 1) !in s.orders
  {
    hide Inv, NewRecord, NormalRecord, HonestRecord, NextId, LocalOrderId, Recount;
    GeneratedIdIsNext(LOCAL_PREFIX, s.nextId);
    var id := LocalOrderId(LOCAL_PREFIX, s.nextId + 1);
    NewRecordIsNormal(id, intent, symbol, side, positionSide, qty, at);
    AddRecordKeepsInv(s, id, NewRecord(id, intent, symbol, side, positionSide, qty, at));
  }

  lemma NewRecordIsNormal(id: string, intent: Intent, symbol: string, side: string, positionSide: string, qty: real,
                          at: Time)
    requires at != ZERO_TIME
    ensures var r := NewRecord(id, intent, symbol, side, positionSide, qty, at);
      NormalRecord(r) && HonestRecord(r) && r.localId == id && r.brokerOrderId == ""
  {
  }

  lemma AddRecordKeepsInv(s: StoreValue, id: string, r: Record)
    requires Inv(s) && NextId(id, s.nextId)
    requires r.localId == id && r.brokerOrderId == "" && NormalRecord(r) && HonestRecord(r)
    ensures var s' := Recounted(s.(nextId := s.nextId + 1, orders := s.orders[id := r]), 0);
      Inv(s') && id !in s.orders && Advances(s, s') && (Honest(s.orders) ==> Honest(s'.orders))
  {
    hide UpperTrimmed, LowerTrimmed, ParseOrderSequence, Trimmed, Recount;
  }

  lemma RejectKeepsInv(s: StoreValue, localId: string, message: Note, at: Time)
    requires Inv(s) && at != ZERO_TIME
    ensures var s' := MarkedRejected(s, localId, message, at);
      Inv(s') && Advances(s, s') && (Honest(s.orders) ==> Honest(s'.orders))
  {
    hide UpperTrimmed, LowerTrimmed, ParseOrderSequence, Trimmed, Recount;
  }

  lemma TruthKeepsNormal(r: Record, o: BrokerOrder, now: Time)
    requires NormalRecord(r) && now != ZERO_TIME
    ensures NormalRecord(WithBrokerTruth(r, o, now))
    ensures HonestRecord(r) ==> HonestRecord(WithBrokerTruth(r, o, now))
  {
    hide UpperTrimmed, LowerTrimmed;
  }

  lemma ResolutionKeepsNormal(r: Record, positions: seq<Position>, now: Time)
    requires NormalRecord(r) && now != ZERO_TIME && InferMissing(r, positions, now).Some?
    ensures var r' := WithResolution(r, InferMissing(r, positions, now).value, now);
      NormalRecord(r') && (HonestRecord(r) ==> HonestRecord(r'))
  {
    hide UpperTrimmed, LowerTrimmed, PositionQty;
  }

  lemma SettleKeepsNormal(env: Env, used: set<string>, r: Record)
    requires NormalRecord(r) && env.now != ZERO_TIME
    ensures NormalRecord(Settle(env, used, r).record)
    ensures HonestRecord(r) ==> HonestRecord(Settle(env, used, r).record)
  {
    hide UpperTrimmed, LowerTrimmed, HeldAtBroker, FindPendingMatch, InferMissing, WithBrokerTruth, WithResolution;
    var s := Settle(env, used, r);
    if s.verdict.Confirmed? {
      var linked := if s.verdict.matched then r.(brokerOrderId := s.verdict.order.orderId) else r;
      TruthKeepsNormal(linked, s.verdict.order, env.now);
    } else if s.verdict.Missing? {
      ResolutionKeepsNormal(r, env.positions, env.now);
    }
  }

  lemma ImportedIsNormal(o: BrokerOrder, id: string, now: Time)
    requires now != ZERO_TIME
    ensures NormalRecord(Imported(o, id, now)) && HonestRecord(Imported(o, id, now))
  {
  }

  lemma {:induction false} PassKeepsIndex(env: Env, p: Progress, ids: seq<string>)
    requires (forall id | id in ids :: id in p.orders) && IdsBounded(p.orders, p.nextId)
    requires IndexCovers(p.orders, p.index)
    ensures var p' := RecordPass(env, p, ids); IndexCovers(p'.orders, p'.index)
  {
    if ids != [] {
      var before, last := PassStep(env, p, ids);
      PassKeepsIndex(env, p, ids[..|ids| - 1]);
      PassKeepsIds(env, p, ids[..|ids| - 1]);
      SettleTracksBroker(env, Marked(before.used, before.orders[last], env.open), before.orders[last]);
    }
  }

  lemma SettleTracksBroker(env: Env, used: set<string>, r: Record)
    ensures var s := Settle(env, used, r);
      s.record.brokerOrderId
      == if s.verdict.Confirmed? && s.verdict.matched then s.verdict.order.orderId else r.brokerOrderId
  {
    hide FindPendingMatch, InferMissing, QtyApproxEqual, BrokerReason;
  }

  lemma {:induction false} ImportsKeepIndex(p: Progress, open: seq<BrokerOrder>, now: Time)
    requires IndexCovers(p.orders, p.index)
    ensures var p' := ImportPass(p, open, now); IndexCovers(p'.orders, p'.index)
  {
    if open != [] {
      ImportsKeepIndex(p, open[..|open| - 1], now);
    }
  }

  lemma ReconcileKeepsInv(s: StoreValue, ids: seq<string>, env: Env)
    requires Inv(s) && ProcessingOrder(ids, s.orders) && env.now != ZERO_TIME
    ensures var s' := Reconciled(s, ids, env);
      Inv(s') && Advances(s, s') && (Honest(s.orders) ==> Honest(s'.orders))
  {
    hide Settle, RecordPass, NormalRecord, HonestRecord, IdsBounded, Recount;
    var s' := Reconciled(s, ids, env);
    ReconcileLosesNothing(s, ids, env);
    PassKeepsIndex(env, Start(s), ids);
    ImportsKeepIndex(RecordPass(env, Start(s), ids), env.open, env.now);
    forall id | id in s'.orders
      ensures NormalRecord(s'.orders[id]) && (Honest(s.orders) ==> HonestRecord(s'.orders[id]))
    {
      ReconciledRecord(s, ids, env, id);
    }
    forall id | id in s.orders && Closed(s.orders[id]) ensures Closed(s'.orders[id]) {
      ReconcileKeepsClosed(s, ids, env, id);
    }
  }

  lemma ReconciledRecord(s: StoreValue, ids: seq<string>, env: Env, id: string)
    requires Inv(s) && ProcessingOrder(ids, s.orders) && env.now != ZERO_TIME
    requires id in Reconciled(s, ids, env).orders
    ensures var r := Reconciled(s, ids, env).orders[id];
      NormalRecord(r) && (Honest(s.orders) ==> HonestRecord(r))
  {
    ReconcileSettlesEach(s, ids, env, id);
    if id in s.orders {
      var used :| Reconciled(s, ids, env).orders[id] == Settle(env, used, s.orders[id]).record;
      SettleKeepsNormal(env, used, s.orders[id]);
    } else {
      var i :| 0 <= i < |env.open| && Reconciled(s, ids, env).orders[id] == Imported(env.open[i], id, env.now);
      ImportedIsNormal(env.open[i], id, env.now);
    }
  }

  // ---- Snapshot and restore ----

  ghost predicate Enumerates(keys: seq<string>, orders: Orders) {
    Distinct(keys) && forall id :: id in keys <==> id in orders
  }

  function SnapshotOf(s: StoreValue, keys: seq<string>): Snapshot
    requires forall id | id in keys :: id in s.orders
  {
    Snapshot(STATE_VERSION, s.nextId, RecordsUnder(s.orders, keys), s.summary)
  }

  function RecordsUnder(orders: Orders, keys: seq<string>): seq<Record>
    requires forall id | id in keys :: id in orders
  {
    seq(|keys|, i requires 0 <= i < |keys| => orders[keys[i]])
  }

  lemma OneMoreRecord(orders: Orders, keys: seq<string>, i: nat)
    requires i < |keys| && forall id | id in keys :: id in orders
    ensures RecordsUnder(orders, keys[..i + 1]) == RecordsUnder(orders, keys[..i]) + [orders[keys[i]]]
  {
  }

  /** Each record of the store is listed once for its id. */
  lemma RecordsUnderAll(orders: Orders, keys: seq<string>)
    requires Enumerates(keys, orders)
    ensures |RecordsUnder(orders, keys)| == |orders|
    ensures forall r :: r in RecordsUnder(orders, keys) <==> r in orders.Values
  {
    var records := RecordsUnder(orders, keys);
    DistinctKeysCount(keys, orders.Keys);
    forall r | r in orders.Values ensures r in records {
      var id :| id in orders && orders[id] == r;
      var i :| 0 <= i < |keys| && keys[i] == id;
      assert records[i] == r;
    }
  }

  lemma {:induction false} DistinctKeysCount(keys: seq<string>, ids: set<string>)
    requires Distinct(keys) && forall id :: id in keys <==> id in ids
    ensures |keys| == |ids|
  {
    if keys == [] {
      assert ids == {};
    } else {
      var front, last := keys[..|keys| - 1], keys[|keys| - 1];
      assert keys == front + [last];
      DistinctKeysCount(front, ids - {last});
    }
  }

  lemma RestoringNormalRecord(r: Record, clock: Time)
    requires NormalRecord(r) && Trimmed(r.localId)
    ensures RestoredRecord(r, clock) == r
  {
  }

  /** `s` holds exactly the records of `orders` named by `keys`, and indexes them. */
  predicate HoldsJust(s: StoreValue, orders: Orders, keys: seq<string>) {
    && (forall id :: id in s.orders ==> id in keys && id in orders && s.orders[id] == orders[id])
    && (forall id | id in keys :: id in s.orders)
    && IndexCovers(s.orders, s.index)
  }

  lemma LoadingOneMore(s: StoreValue, orders: Orders, keys: seq<string>, id: string, clock: Time)
    requires HoldsJust(s, orders, keys) && id in orders
    requires orders[id].localId == id && NormalRecord(orders[id]) && Trimmed(id)
    ensures var s' := RestoredOne(s, orders[id], clock);
      s'.nextId == s.nextId && s'.summary == s.summary && HoldsJust(s', orders, keys + [id])
  {
    hide NormalRecord, RestoredRecord, TrimSpace, IndexCovers;
    RestoringNormalRecord(orders[id], clock);
    IndexingOneMore(s.orders, s.index, orders[id]);
    var s' := RestoredOne(s, orders[id], clock);
    assert s'.orders == s.orders[id := orders[id]];
    assert forall k :: k in keys + [id] <==> k in keys || k == id;
  }

  lemma IndexingOneMore(orders: Orders, index: map<string, string>, r: Record)
    requires IndexCovers(orders, index)
    ensures var brokerId := TrimSpace(r.brokerOrderId);
      IndexCovers(orders[r.localId := r], if brokerId != "" then index[brokerId := r.localId] else index)
  {
    hide TrimSpace;
  }

  lemma StoredRecordsAreNamed(orders: Orders, keys: seq<string>, records: seq<Record>)
    requires |records| == |keys|
    requires forall i | 0 <= i < |keys| :: keys[i] in orders && records[i] == orders[keys[i]]
    requires forall id | id in orders :: orders[id].localId == id && id != "" && Trimmed(id)
    ensures AllNamed(records)
  {
    hide Trimmed;
  }

  /** Loading records that are already in stored form files each under its own id. */
  lemma {:induction false} LoadingNormalRecords(s: StoreValue, orders: Orders, keys: seq<string>, records: seq<Record>,
                                                clock: Time)
    requires |records| == |keys| && s.orders == map[] && s.index == map[]
    requires forall i | 0 <= i < |keys| :: keys[i] in orders && records[i] == orders[keys[i]]
    requires Normal(orders)
    requires forall id | id in orders :: orders[id].localId == id && id != "" && Trimmed(id)
    ensures AllNamed(records)
    ensures var s' := Loaded(s, records, clock);
      s'.nextId == s.nextId && s'.summary == s.summary && HoldsJust(s', orders, keys)
  {
    hide NormalRecord, Trimmed, HoldsJust, RestoredOne, AllNamed;
    StoredRecordsAreNamed(orders, keys, records);
    if keys == [] {
      LoadingNothing(s, orders);
    } else {
      var n := |keys| - 1;
      LoadingNormalRecords(s, orders, keys[..n], records[..n], clock);
      LoadingOneMore(Loaded(s, records[..n], clock), orders, keys[..n], keys[n], clock);
      assert keys == keys[..n] + [keys[n]];
    }
  }

  lemma LoadingNothing(s: StoreValue, orders: Orders)
    requires s.orders == map[] && s.index == map[]
    ensures HoldsJust(s, orders, [])
  {
  }

  lemma SnapshotKeepsCounter(s: StoreValue, keys: seq<string>)
    requires IdsBounded(s.orders, s.nextId) && forall id | id in keys :: id in s.orders
    ensures HighestSequence(SnapshotOf(s, keys).orders, s.nextId) == s.nextId
  {
    hide ParseOrderSequence, TrimSpace;
    var records := SnapshotOf(s, keys).orders;
    HighestSequenceBounds(records, s.nextId);
    forall r | r in records ensures SequenceOf(r) <= s.nextId {
      var i :| 0 <= i < |records| && records[i] == r;
      assert r == s.orders[keys[i]];
    }
  }

  /** Restoring a snapshot into any store gives back the records, the counter and the summary. */
  lemma RestoreUndoesSnapshot(s: StoreValue, into: StoreValue, keys: seq<string>, clock: Time)
    requires Inv(s) && Enumerates(keys, s.orders)
    ensures var s' := Restored(into, SnapshotOf(s, keys), clock);
      && s'.orders == s.orders && s'.nextId == s.nextId && s'.summary == s.summary && Inv(s') && Advances(s, s')
      && RestoreOutcome(SnapshotOf(s, keys)) == Done
  {
    hide NormalRecord, ParseOrderSequence, Trimmed, Recount, AllNamed, Loaded, HighestSequence, HoldsJust, IndexCovers;
    var snapshot := SnapshotOf(s, keys);
    var blank := into.(nextId := snapshot.nextId, orders := map[], index := map[]);
    LoadingNormalRecords(blank, s.orders, keys, snapshot.orders, clock);
    SnapshotKeepsCounter(s, keys);
    HoldsAll(Loaded(blank, snapshot.orders, clock), s.orders, keys);
  }

  lemma HoldsAll(s: StoreValue, orders: Orders, keys: seq<string>)
    requires HoldsJust(s, orders, keys) && forall id :: id in keys <==> id in orders
    ensures s.orders == orders && IndexCovers(orders, s.index)
  {
  }

  // ---- Runs ----

  datatype Op =
    | Register(intent: Intent, symbol: string, side: string, positionSide: string, qty: real, at: Time)
    | MarkRejected(localId: string, message: Note, at: Time)
    | Reconcile(ids: seq<string>, env: Env)
    | RecordError(text: string, at: Time)
    | Restart(keys: seq<string>, clock: Time)

  function ErrorRecorded(s: StoreValue, text: string, at: Time): StoreValue {
    s.(summary := s.summary.(lastRunAt := at, lastError := TrimSpace(text)))
  }

  /** The operation's times are set, and it visits the records it ought to. */
  ghost predicate Fits(s: StoreValue, op: Op) {
    match op
    case Register(_, _, _, _, _, at) => at != ZERO_TIME
    case MarkRejected(_, _, at) => at != ZERO_TIME
    case Reconcile(ids, env) => ProcessingOrder(ids, s.orders) && env.now != ZERO_TIME
    case RecordError(_, at) => at != ZERO_TIME
    case Restart(keys, clock) => Enumerates(keys, s.orders) && clock != ZERO_TIME
  }

  ghost function Apply(s: StoreValue, op: Op): StoreValue
    requires Fits(s, op)
  {
    match op
    case Register(intent, symbol, side, positionSide, qty, at) =>
      Registered(s, intent, symbol, side, positionSide, qty, at)
    case MarkRejected(localId, message, at) => MarkedRejected(s, localId, message, at)
    case Reconcile(ids, env) => Reconciled(s, ids, env)
    case RecordError(text, at) => ErrorRecorded(s, text, at)
    case Restart(keys, clock) => Restored(EMPTY_STORE, SnapshotOf(s, keys), clock)
  }

  /** `s'` is reached from `s` by the operations, in order. */
  ghost predicate Run(s: StoreValue, ops: seq<Op>, s': StoreValue)
    decreases |ops|
  {
    if ops == [] then s == s'
    else Fits(s, ops[0]) && Run(Apply(s, ops[0]), ops[1..], s')
  }

  /** One operation keeps the invariant and every record, and never reopens a closed one. */
  lemma ApplyKeeps(s: StoreValue, op: Op)
    requires Inv(s) && Honest(s.orders) && Fits(s, op)
    ensures Inv(Apply(s, op)) && Honest(Apply(s, op).orders) && Advances(s, Apply(s, op))
  {
    hide Registered, MarkedRejected, Reconciled, Restored, SnapshotOf, ProcessingOrder, Enumerates, NormalRecord,
         HonestRecord, IdsBounded, IndexCovers;
    match op
    case Register(intent, symbol, side, positionSide, qty, at) =>
      RegisterKeepsInv(s, intent, symbol, side, positionSide, qty, at);
    case MarkRejected(localId, message, at) => RejectKeepsInv(s, localId, message, at);
    case Reconcile(ids, env) => ReconcileKeepsInv(s, ids, env);
    case RecordError(_, _) =>
    case Restart(keys, clock) => RestoreUndoesSnapshot(s, EMPTY_STORE, keys, clock);
  }

  /** In every run the caches agree with the records, no record disappears, and a closed record stays closed. */
  lemma {:induction false} RunKeeps(s: StoreValue, ops: seq<Op>, s': StoreValue)
    requires Inv(s) && Honest(s.orders) && Run(s, ops, s')
    ensures Inv(s') && Honest(s'.orders) && Advances(s, s')
    decreases |ops|
  {
    hide Inv, Honest, Apply, Fits;
    if ops != [] {
      ApplyKeeps(s, ops[0]);
      RunKeeps(Apply(s, ops[0]), ops[1..], s');
    }
  }

  ghost predicate Reachable(s: StoreValue) {
    exists ops :: Run(EMPTY_STORE, ops, s)
  }

  /** The invariant holds in every store reached from the empty one. */
  lemma ReachableInv(s: StoreValue)
    requires Reachable(s)
    ensures Inv(s) && Honest(s.orders)
  {
    var ops :| Run(EMPTY_STORE, ops, s);
    RunKeeps(EMPTY_STORE, ops, s);
  }

  // ---- Trading is blocked exactly while something is unresolved ----

  predicate IsUnresolved(r: Record) {
    r.authority == Unresolved
  }

  lemma SettleCountsUnresolved(env: Env, used: set<string>, r: Record)
    requires HonestRecord(r)
    ensures var s := Settle(env, used, r);
      TallyOf(s).unresolved == One(IsUnresolved(s.record))
  {
  }

  function UnresolvedAmong(ids: seq<string>, orders: Orders): set<string> {
    set id | id in ids && id in orders && IsUnresolved(orders[id])
  }

  lemma UnresolvedAmongGrows(prefix: seq<string>, last: string, orders: Orders, r: Record)
    requires last !in prefix
    ensures |UnresolvedAmong(prefix + [last], orders[last := r])|
         == |UnresolvedAmong(prefix, orders)| + One(IsUnresolved(r))
  {
    var earlier, later := UnresolvedAmong(prefix, orders), UnresolvedAmong(prefix + [last], orders[last := r]);
    assert later == if IsUnresolved(r) then earlier + {last} else earlier;
  }

  lemma {:induction false} PassCountsUnresolved(env: Env, p: Progress, ids: seq<string>)
    requires Distinct(ids) && (forall id | id in ids :: id in p.orders) && Honest(p.orders)
    ensures var p' := RecordPass(env, p, ids);
      p'.tally.unresolved == p.tally.unresolved + |UnresolvedAmong(ids, p'.orders)|
  {
    hide Settle, TallyOf, IssuesOf, Marked, UnresolvedAmong;
    if ids != [] {
      var before, last := PassStep(env, p, ids);
      var prefix := ids[..|ids| - 1];
      PassCountsUnresolved(env, p, prefix);
      PassLeavesOthers(env, p, prefix, last);
      var used := Marked(before.used, before.orders[last], env.open);
      SettleCountsUnresolved(env, used, before.orders[last]);
      UnresolvedAmongGrows(prefix, last, before.orders, Settle(env, used, before.orders[last]).record);
      assert ids == prefix + [last];
    } else {
      NoneUnresolvedAmong(p.orders);
    }
  }

  lemma NoneUnresolvedAmong(orders: Orders)
    ensures UnresolvedAmong([], orders) == {}
  {
  }

  lemma {:induction false} ImportsAreResolved(p: Progress, open: seq<BrokerOrder>, now: Time)
    ensures ImportPass(p, open, now).tally.unresolved == p.tally.unresolved
    ensures ImportPass(p, open, now).tally.inferred == p.tally.inferred
  {
    if open != [] {
      ImportsAreResolved(p, open[..|open| - 1], now);
    }
  }

  /** Reconciliation leaves unresolved exactly the records its first pass left so. */
  lemma UnresolvedAreSettled(s: StoreValue, ids: seq<string>, env: Env)
    requires Inv(s) && ProcessingOrder(ids, s.orders)
    ensures WithAuthority(Reconciled(s, ids, env).orders, Unresolved)
         == UnresolvedAmong(ids, RecordPass(env, Start(s), ids).orders)
  {
    hide Settle, ParseOrderSequence, Trimmed, NormalizeAuthority, NormalRecord, Recount, RecordPass, ImportPass,
         LocalOrderId, IndexCovers;
    var settled := RecordPass(env, Start(s), ids);
    PassKeepsIds(env, Start(s), ids);
    ImportsAreFresh(settled, env.open, env.now);
    var done := Passes(s, ids, env);
    forall id | id in done.orders
      ensures HasAuthority(done.orders[id], Unresolved) <==> id in ids && IsUnresolved(settled.orders[id])
    {
      DoneAuthority(s, ids, env, id);
    }
  }

  lemma DoneAuthority(s: StoreValue, ids: seq<string>, env: Env, id: string)
    requires Inv(s) && ProcessingOrder(ids, s.orders) && id in Passes(s, ids, env).orders
    ensures HasAuthority(Passes(s, ids, env).orders[id], Unresolved)
      <==> id in ids && IsUnresolved(RecordPass(env, Start(s), ids).orders[id])
  {
    hide Settle, ParseOrderSequence, Trimmed, NormalizeAuthority, UpperTrimmed, LowerTrimmed, IndexCovers, Recount,
         LocalOrderId, RecordPass, ImportPass;
    var settled := RecordPass(env, Start(s), ids);
    PassKeepsIds(env, Start(s), ids);
    ImportsAreFresh(settled, env.open, env.now);
    if id in s.orders {
      var j :| 0 <= j < |ids| && ids[j] == id;
      PassSettlesEach(env, Start(s), ids, j);
      KnownAuthority(env, UsedBefore(env, Start(s), ids, j), s.orders[id]);
    } else {
      ImportsComeFromOrders(settled, env.open, env.now, id);
    }
  }

  lemma KnownAuthority(env: Env, used: set<string>, r: Record)
    requires !r.authority.OtherAuthority?
    ensures var r' := Settle(env, used, r).record;
      !r'.authority.OtherAuthority? && (HasAuthority(r', Unresolved) <==> IsUnresolved(r'))
  {
    hide FindPendingMatch, HeldAtBroker, StillWaiting, PositionQty;
  }

  /** The unresolved outcomes a reconciliation reports are the unresolved records it leaves,
      so trading is blocked exactly while the store holds one. */
  lemma BlockedIffUnresolved(s: StoreValue, ids: seq<string>, env: Env)
    requires Inv(s) && Honest(s.orders) && ProcessingOrder(ids, s.orders)
    ensures var s', report := Reconciled(s, ids, env), ReportOf(s, ids, env);
      && report.tally.unresolved == s'.summary.counts.unresolved
      && (report.tradingBlocked <==> WithAuthority(s'.orders, Unresolved) != {})
  {
    hide Settle, NormalizeAuthority, ParseOrderSequence, Trimmed, UpperTrimmed, LowerTrimmed, UnresolvedAmong;
    PassCountsUnresolved(env, Start(s), ids);
    ImportsAreResolved(RecordPass(env, Start(s), ids), env.open, env.now);
    UnresolvedAreSettled(s, ids, env);
    var left := WithAuthority(Reconciled(s, ids, env).orders, Unresolved);
    assert left != {} <==> |left| > 0;
  }

  lemma SettledUnresolvedIsRecent(env: Env, used: set<string>, r: Record)
    requires HonestRecord(r) && IsUnresolved(Settle(env, used, r).record)
    ensures r.source != BrokerDiscovered
    ensures r.intent.Protective() || env.now - r.submittedAt <= UNRESOLVED_LIMIT
  {
  }

  /** Blocking is bounded: what a reconciliation leaves unresolved is a protective order or was
      submitted at most ten minutes ago, and is never an order discovered at the broker. */
  lemma BlockingIsBounded(s: StoreValue, ids: seq<string>, env: Env, id: string)
    requires Inv(s) && Honest(s.orders) && ProcessingOrder(ids, s.orders)
    requires id in Reconciled(s, ids, env).orders && IsUnresolved(Reconciled(s, ids, env).orders[id])
    ensures var r := Reconciled(s, ids, env).orders[id];
      && r.source != BrokerDiscovered
      && (r.intent.Protective() || env.now - r.submittedAt <= UNRESOLVED_LIMIT)
  {
    hide Settle, Reconciled, ParseOrderSequence, Trimmed, UpperTrimmed, LowerTrimmed;
    ReconcileSettlesEach(s, ids, env, id);
    var r := Reconciled(s, ids, env).orders[id];
    if id in s.orders {
      var used :| r == Settle(env, used, s.orders[id]).record;
      SettleKeepsIdentity(env, used, s.orders[id]);
      SettledUnresolvedIsRecent(env, used, s.orders[id]);
    } else {
      assert false;
    }
  }
}
