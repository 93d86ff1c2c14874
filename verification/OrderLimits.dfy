/** Where the order store's promises begin and end: any restored snapshot, padded broker ids, shared
    broker orders, and records submitted at the same instant. */
module OrderLimits {
  import opened Basics
  import opened Text
  import opened OrderModel
  import opened OrderSpec
  import opened ReconcileLaws
  import opened ReconcileStability
  import opened OrderRuns

  // ---- Restoring any snapshot ----

  lemma RestoredIsNormal(record: Record, clock: Time)
    requires clock != ZERO_TIME && TrimSpace(record.localId) != ""
    ensures var r := RestoredRecord(record, clock);
      NormalRecord(r) && r.localId == TrimSpace(record.localId) && Trimmed(r.localId)
  {
    hide UpperTrimmed, LowerTrimmed, NormalizeAuthority;
  }

  /** What has been loaded so far is in stored form, under its own ids, and indexed. */
  predicate WellLoaded(s: StoreValue, highest: nat) {
    IdsBounded(s.orders, highest) && Normal(s.orders) && IndexCovers(s.orders, s.index)
  }

  lemma LoadOneMore(s: StoreValue, record: Record, clock: Time, highest: nat)
    requires WellLoaded(s, highest) && clock != ZERO_TIME && TrimSpace(record.localId) != ""
    ensures WellLoaded(RestoredOne(s, record, clock), if SequenceOf(record) > highest then SequenceOf(record) else highest)
  {
    hide NormalRecord, RestoredRecord, TrimSpace, IndexCovers, ParseOrderSequence;
    RestoredIsNormal(record, clock);
    IndexingOneMore(s.orders, s.index, RestoredRecord(record, clock));
  }

  lemma {:induction false} LoadAnyRecords(s: StoreValue, records: seq<Record>, clock: Time, floor: nat)
    requires s.orders == map[] && s.index == map[] && clock != ZERO_TIME && AllNamed(records)
    ensures WellLoaded(Loaded(s, records, clock), HighestSequence(records, floor))
  {
    hide RestoredOne, SequenceOf;
    if records != [] {
      var n := |records| - 1;
      LoadAnyRecords(s, records[..n], clock, floor);
      LoadOneMore(Loaded(s, records[..n], clock), records[n], clock, HighestSequence(records[..n], floor));
    }
  }

  /** A restore that succeeds establishes the invariant, whatever the snapshot holds: ids that repeat or are
      padded, texts in any case, numbers above the saved counter.  New ids are fresh from then on. */
  lemma RestoreEstablishesInv(s: StoreValue, snapshot: Snapshot, clock: Time)
    requires snapshot.version == STATE_VERSION && RestoreOutcome(snapshot) == Done && clock != ZERO_TIME
    ensures var s' := Restored(s, snapshot, clock);
      && Inv(s') && s'.nextId >= snapshot.nextId
      && LocalOrderId(LOCAL_PREFIX, s'.nextId + 1) !in s'.orders
      && LocalOrderId(BROKER_PREFIX, s'.nextId + 1) !in s'.orders
  {
    hide Loaded, AllNamed, HighestSequence, Normal, IndexCovers, Recount, LocalOrderId, ParseOrderSequence;
    LoadAnyRecords(s.(nextId := snapshot.nextId, orders := map[], index := map[]), snapshot.orders, clock, snapshot.nextId);
    var s' := Restored(s, snapshot, clock);
    GeneratedIdIsNext(LOCAL_PREFIX, s'.nextId);
    GeneratedIdIsNext(BROKER_PREFIX, s'.nextId);
  }

  // ---- Padded broker ids ----

  lemma TrimmedStaysTrimmed(s: string)
    ensures TrimSpace(s) == s <==> Trimmed(s)
  {
  }

  /** A broker id leads to a record exactly when its trimmed form is not blank and in the index. */
  lemma BrokerIdIsFoundIffIndexed(s: StoreValue, b: string)
    requires OrderRuns.Inv(s)
    ensures Lookup(s, "", b).Some? <==> TrimSpace(b) != "" && TrimSpace(b) in s.index
  {
    hide NormalRecord, ParseOrderSequence, Recount;
    assert TrimSpace("") == "";
  }

  /** The index gains listed ids only, and loses none. */
  predicate IndexGrows(index: map<string, string>, index': map<string, string>, open: seq<BrokerOrder>) {
    index.Keys <= index'.Keys && forall b | b in index' && b !in index && b != "" :: b in OpenById(open)
  }

  lemma {:induction false} PassGrowsIndex(env: Env, p: Progress, ids: seq<string>)
    requires forall id | id in ids :: id in p.orders
    ensures IndexGrows(p.index, RecordPass(env, p, ids).index, env.open)
  {
    hide Settle, OpenById;
    if ids != [] {
      var before, last := PassStep(env, p, ids);
      PassGrowsIndex(env, p, ids[..|ids| - 1]);
      MatchIsListed(env, Marked(before.used, before.orders[last], env.open), before.orders[last]);
    }
  }

  lemma MatchIsListed(env: Env, used: set<string>, r: Record)
    ensures var v := Settle(env, used, r).verdict;
      v.Confirmed? && v.matched && v.order.orderId != "" ==> v.order.orderId in OpenById(env.open)
  {
  }

  lemma {:induction false} ImportsGrowIndex(p: Progress, open: seq<BrokerOrder>, now: Time)
    ensures IndexGrows(p.index, ImportPass(p, open, now).index, open)
  {
    if open != [] {
      var n := |open| - 1;
      ImportsGrowIndex(p, open[..n], now);
      assert open[n] in open;
      assert forall b | b in OpenById(open[..n]) :: b in OpenById(open);
    }
  }

  /** After a reconciliation of any store, a broker id leads to a record exactly when its trimmed form is not
      blank and was in the index before, or is listed by the broker.  So an order listed under a padded id is
      not found by it, unless its trimmed id is known for another reason. */
  lemma BrokerIdIsFoundAfter(s: StoreValue, ids: seq<string>, env: Env, b: string)
    requires OrderRuns.Inv(s) && ProcessingOrder(ids, s.orders) && env.now != ZERO_TIME
    ensures var x := TrimSpace(b);
      Lookup(Reconciled(s, ids, env), "", b).Some? <==> x != "" && (x in s.index || x in OpenById(env.open))
  {
    hide Inv, Settle, RecordPass, ImportPass, NormalRecord, IdsBounded, Recount, OpenById, TrimSpace, Lookup;
    var x, s' := TrimSpace(b), Reconciled(s, ids, env);
    ReconcileKeepsInv(s, ids, env);
    BrokerIdIsFoundIffIndexed(s', b);
    PassGrowsIndex(env, Start(s), ids);
    ImportsGrowIndex(RecordPass(env, Start(s), ids), env.open, env.now);
    if x != "" && x in OpenById(env.open) {
      ListedIsIndexed(s, ids, env, x);
    }
  }

  lemma ListedIsIndexed(s: StoreValue, ids: seq<string>, env: Env, b: string)
    requires OrderRuns.Inv(s) && ProcessingOrder(ids, s.orders) && env.now != ZERO_TIME
    requires b != "" && Trimmed(b) && b in OpenById(env.open)
    ensures b in Reconciled(s, ids, env).index
  {
    hide Settle, RecordPass, ImportPass, NormalRecord, IdsBounded, Recount, Reconciled, Trimmed;
    ReconcileKeepsInv(s, ids, env);
    ReconcileLosesNothing(s, ids, env);
    var o := OpenById(env.open)[b];
    assert HeldInStore(o.orderId, Reconciled(s, ids, env).orders);
  }

  /** An order just imported is found by its id exactly when the id came trimmed, or is not blank and its
      trimmed form was in the index before or is listed as well. */
  lemma ImportIsFoundIff(s: StoreValue, ids: seq<string>, env: Env, id: string)
    requires OrderRuns.Inv(s) && ProcessingOrder(ids, s.orders) && env.now != ZERO_TIME
    requires id in Reconciled(s, ids, env).orders && id !in s.orders
    requires Reconciled(s, ids, env).orders[id].brokerOrderId != ""
    ensures var b := Reconciled(s, ids, env).orders[id].brokerOrderId; var x := TrimSpace(b);
      Lookup(Reconciled(s, ids, env), "", b).Some?
      <==> Trimmed(b) || (x != "" && (x in s.index || x in OpenById(env.open)))
  {
    hide Settle, RecordPass, NormalRecord, Reconciled, OrderRuns.Inv, TrimSpace, Lookup;
    IdsOf(s);
    var b := Reconciled(s, ids, env).orders[id].brokerOrderId;
    ReconcileSettlesEach(s, ids, env, id);
    BrokerIdIsFoundAfter(s, ids, env, b);
    TrimmedStaysTrimmed(b);
    var i :| 0 <= i < |env.open| && Reconciled(s, ids, env).orders[id] == Imported(env.open[i], id, env.now);
    assert env.open[i] in env.open;
  }

  lemma IdsOf(s: StoreValue)
    requires OrderRuns.Inv(s)
    ensures IdsBounded(s.orders, s.nextId)
  {
  }

  // ---- Broker ids across a restart ----

  /** The id of the last of the records that carries the trimmed broker id. */
  function LastCarrier(records: seq<Record>, b: string): Option<string> {
    if records == [] then None
    else
      var last := records[|records| - 1];
      if TrimSpace(last.brokerOrderId) == b then Some(TrimSpace(last.localId))
      else LastCarrier(records[..|records| - 1], b)
  }

  lemma {:induction false} LoadedIndex(s: StoreValue, records: seq<Record>, clock: Time, b: string)
    requires s.index == map[] && AllNamed(records) && b != ""
    ensures var index := Loaded(s, records, clock).index;
      match LastCarrier(records, b)
      case None => b !in index
      case Some(id) => b in index && index[b] == id
  {
    hide TrimSpace, NormalizeAuthority, NormalizeConfidence, NormalizeReason, NormalizeIntent, UpperTrim, LowerTrim;
    if records != [] {
      LoadedIndex(s, records[..|records| - 1], clock, b);
    }
  }

  /** A restart leaves what a broker id leads to as it was exactly when the id is blank, or nobody carries it
      and it was not in the index, or the index led to the last record to carry it.  It may differ: a record
      matched to another order keeps its old index key until a restart drops it. */
  lemma RestartKeepsLookupIff(s: StoreValue, into: StoreValue, keys: seq<string>, clock: Time, b: string)
    requires OrderRuns.Inv(s) && Enumerates(keys, s.orders)
    ensures var x := TrimSpace(b);
      Lookup(Restored(into, SnapshotOf(s, keys), clock), "", b) == Lookup(s, "", b)
      <==> x == "" || match LastCarrier(RecordsUnder(s.orders, keys), x)
                      case None => x !in s.index
                      case Some(id) => x in s.index && s.index[x] == id
  {
    hide NormalRecord, ParseOrderSequence, Trimmed, Recount, AllNamed, Loaded, HighestSequence, TrimSpace, RecordsUnder,
         LastCarrier;
    var x := TrimSpace(b);
    var snapshot := SnapshotOf(s, keys);
    var s' := Restored(into, snapshot, clock);
    RestoreUndoesSnapshot(s, into, keys, clock);
    NamedWhenDone(snapshot);
    NothingToTrim();
    if x != "" {
      LoadedIndex(into.(nextId := snapshot.nextId, orders := map[], index := map[]), snapshot.orders, clock, x);
    }
  }

  lemma NothingToTrim()
    ensures TrimSpace("") == ""
  {
  }

  lemma NamedWhenDone(snapshot: Snapshot)
    requires RestoreOutcome(snapshot) == Done && snapshot.version == STATE_VERSION
    ensures AllNamed(snapshot.orders)
  {
    hide AllNamed;
  }

  lemma ImportPassOfOne(p: Progress, o: BrokerOrder, now: Time)
    ensures ImportPass(p, [o], now) == StepImport(p, o, now)
  {
    assert [o][..0] == [];
  }

  // ---- One broker order, two records ----

  lemma OpenOne(o: BrokerOrder)
    requires o.orderId != ""
    ensures OpenById([o]) == map[o.orderId := o]
  {
    assert [o][..0] == [];
  }

  /** A record with no broker id that fits the only broker order takes it, or waits if it is taken. */
  lemma PendingStep(env: Env, p: Progress, id: string, o: BrokerOrder)
    requires env.open == [o] && o.orderId != "" && id in p.orders && Eligible(p.orders[id], o)
    requires !p.orders[id].status.Terminal() && p.orders[id].brokerOrderId == ""
    ensures var r, p' := p.orders[id], StepRecord(env, p, id);
      && (o.orderId !in p.used ==>
            && p'.orders == p.orders[id := WithBrokerTruth(r.(brokerOrderId := o.orderId), o, env.now)]
            && p'.used == p.used + {o.orderId} && p'.tally.localMissing == p.tally.localMissing
            && p'.tally.mismatches > p.tally.mismatches)
      && (o.orderId in p.used && StillWaiting(r, env.now) ==> p'.orders == p.orders && p'.used == p.used)
  {
    hide Eligible, StillWaiting, WithBrokerTruth, TruthOf, HasFillMismatch, OpenById;
    var r := p.orders[id];
    assert FindPendingMatch(r, [o], p.used) == if o.orderId in p.used then None else Some(o);
  }

  lemma HeldStep(env: Env, p: Progress, id: string, o: BrokerOrder)
    requires env.open == [o] && o.orderId != "" && id in p.orders && p.orders[id].brokerOrderId == o.orderId
    requires !p.orders[id].status.Terminal()
    ensures var p' := StepRecord(env, p, id);
      && p'.orders == p.orders[id := WithBrokerTruth(p.orders[id], o, env.now)] && p'.used == p.used + {o.orderId}
      && p'.tally.localMissing == p.tally.localMissing && p'.tally.mismatches >= p.tally.mismatches
  {
    hide WithBrokerTruth, TruthOf, HasFillMismatch, FindPendingMatch;
    OpenOne(o);
  }

  /** Two records visited in turn, when one of them has used the only broker order. */
  lemma TwoVisited(env: Env, s: StoreValue, a: string, b: string, o: BrokerOrder)
    requires env.open == [o] && o.orderId != "" && s.orders.Keys == {a, b}
    requires o.orderId in StepRecord(env, StepRecord(env, Start(s), a), b).used
    ensures Passes(s, [a, b], env) == StepRecord(env, StepRecord(env, Start(s), a), b)
  {
    hide StepRecord;
    assert [a, b][..1] == [a] && [a][..0] == [];
    assert RecordPass(env, Start(s), [a]) == StepRecord(env, Start(s), a);
    ImportPassOfOne(RecordPass(env, Start(s), [a, b]), o, env.now);
  }

  lemma TruthKeepsBroker(r: Record, o: BrokerOrder, now: Time)
    requires r.brokerOrderId == o.orderId
    ensures var r' := WithBrokerTruth(r, o, now);
      r'.brokerOrderId == o.orderId && r'.submittedAt == r.submittedAt && r'.status == o.status
  {
  }

  /** A pending record submitted earlier takes a broker order that a later record already holds: the later
      record's claim is only known once its turn comes.  Both then carry the same broker order. */
  lemma EarlierPendingTakesHeldOrder(s: StoreValue, pending: string, holder: string, o: BrokerOrder, env: Env)
    requires pending != holder && s.orders.Keys == {pending, holder} && env.open == [o] && o.orderId != ""
    requires s.orders[pending].submittedAt < s.orders[holder].submittedAt
    requires !s.orders[pending].status.Terminal() && s.orders[pending].brokerOrderId == "" && Eligible(s.orders[pending], o)
    requires !s.orders[holder].status.Terminal() && s.orders[holder].brokerOrderId == o.orderId
    ensures ProcessingOrder([pending, holder], s.orders)
    ensures var s' := Reconciled(s, [pending, holder], env);
      && s'.orders.Keys == s.orders.Keys
      && s'.orders[pending].brokerOrderId == o.orderId && s'.orders[holder].brokerOrderId == o.orderId
  {
    hide Eligible, WithBrokerTruth, Recount, StepRecord, Passes;
    PendingStep(env, Start(s), pending, o);
    HeldStep(env, StepRecord(env, Start(s), pending), holder, o);
    TwoVisited(env, s, pending, holder, o);
    TruthKeepsBroker(s.orders[pending].(brokerOrderId := o.orderId), o, env.now);
    TruthKeepsBroker(s.orders[holder], o, env.now);
  }

  // ---- Records submitted at the same instant ----

  /** Two open records that fit the only broker order, submitted at the same instant, neither holding it. */
  predicate Tied(s: StoreValue, a: string, b: string, o: BrokerOrder, env: Env) {
    && a != b && s.orders.Keys == {a, b} && env.open == [o] && o.orderId != "" && !o.status.Terminal()
    && s.orders[a].submittedAt == s.orders[b].submittedAt
    && forall id | id in s.orders ::
         && !s.orders[id].status.Terminal() && s.orders[id].brokerOrderId == ""
         && Eligible(s.orders[id], o) && StillWaiting(s.orders[id], env.now)
  }

  /** Tied records may be visited in either order, and another order the second time gives the broker order
      to the second record as well: a second run need not be quiet when rivals were submitted at the same instant. */
  lemma TiesAreNotStable(s: StoreValue, a: string, b: string, o: BrokerOrder, env: Env)
    requires Tied(s, a, b, o, env)
    ensures ProcessingOrder([a, b], s.orders)
    ensures var s1 := Reconciled(s, [a, b], env);
      && ProcessingOrder([b, a], s1.orders) && s1.orders[b] == s.orders[b]
      && !QuietTally(ReportOf(s1, [b, a], env).tally)
      && b in Reconciled(s1, [b, a], env).orders && Reconciled(s1, [b, a], env).orders[b] != s1.orders[b]
  {
    hide Tied, QuietTally, Reconciled, ReportOf, ProcessingOrder;
    FirstVisit(s, a, b, o, env);
    assert forall id | id in [a, b] :: id in s.orders;
    SecondVisit(s, Reconciled(s, [a, b], env), a, b, o, env);
  }

  lemma VisitingTwo(orders: Orders, a: string, b: string)
    requires a != b && orders.Keys == {a, b} && orders[a].submittedAt <= orders[b].submittedAt
    ensures ProcessingOrder([a, b], orders) && forall id | id in [a, b] :: id in orders
  {
  }

  lemma FirstVisit(s: StoreValue, a: string, b: string, o: BrokerOrder, env: Env)
    requires Tied(s, a, b, o, env)
    ensures ProcessingOrder([a, b], s.orders) && forall id | id in [a, b] :: id in s.orders
    ensures Reconciled(s, [a, b], env).orders
         == s.orders[a := WithBrokerTruth(s.orders[a].(brokerOrderId := o.orderId), o, env.now)]
  {
    hide Eligible, StillWaiting, WithBrokerTruth, Recount, StepRecord, Passes, ProcessingOrder;
    VisitingTwo(s.orders, a, b);
    PendingStep(env, Start(s), a, o);
    PendingStep(env, StepRecord(env, Start(s), a), b, o);
    TwoVisited(env, s, a, b, o);
  }

  lemma SecondVisit(s: StoreValue, s1: StoreValue, a: string, b: string, o: BrokerOrder, env: Env)
    requires Tied(s, a, b, o, env)
    requires s1.orders == s.orders[a := WithBrokerTruth(s.orders[a].(brokerOrderId := o.orderId), o, env.now)]
    ensures ProcessingOrder([b, a], s1.orders) && (forall id | id in [b, a] :: id in s1.orders)
    ensures s1.orders[b] == s.orders[b]
    ensures !QuietTally(ReportOf(s1, [b, a], env).tally)
    ensures b in Reconciled(s1, [b, a], env).orders && Reconciled(s1, [b, a], env).orders[b] != s1.orders[b]
  {
    hide Eligible, StillWaiting, WithBrokerTruth, Recount, StepRecord, Passes, ProcessingOrder;
    TruthKeepsBroker(s.orders[a].(brokerOrderId := o.orderId), o, env.now);
    VisitingTwo(s1.orders, b, a);
    SecondPasses(s1, a, b, o, env);
  }

  lemma SecondPasses(s1: StoreValue, a: string, b: string, o: BrokerOrder, env: Env)
    requires a != b && s1.orders.Keys == {a, b} && env.open == [o] && o.orderId != "" && forall id | id in [b, a] :: id in s1.orders
    requires !s1.orders[b].status.Terminal() && s1.orders[b].brokerOrderId == "" && Eligible(s1.orders[b], o)
    requires !s1.orders[a].status.Terminal() && s1.orders[a].brokerOrderId == o.orderId
    ensures var p := Passes(s1, [b, a], env);
      p.tally.mismatches > 0 && p.tally.localMissing == 0 && b in p.orders && p.orders[b] != s1.orders[b]
  {
    hide Eligible, WithBrokerTruth, StepRecord, Passes;
    TruthKeepsBroker(s1.orders[b].(brokerOrderId := o.orderId), o, env.now);
    PendingStep(env, Start(s1), b, o);
    HeldStep(env, StepRecord(env, Start(s1), b), a, o);
    TwoVisited(env, s1, b, a, o);
  }

  /** An order of one share at the broker, and submissions it fits. */
  const ORDER := BrokerOrder("7", "", "", "", Status.Accepted, "", 1.0, 0.0, 1.0, 0.0, SECOND)

  function Submission(id: string): Record {
    Record(id, "", EntryLong, "", "", "", Submitted, "", 1.0, 0.0, 1.0, 0.0, LocalSubmission, AwaitingAck, LocalPending,
           Pending, AwaitingAck, false, SECOND, SECOND, ZERO_TIME)
  }

  lemma TiesHappen()
    ensures var s := EMPTY_STORE.(nextId := 2, orders := map["a" := Submission("a"), "b" := Submission("b")]);
      Tied(s, "a", "b", ORDER, Env([ORDER], [], SECOND))
  {
  }
}
