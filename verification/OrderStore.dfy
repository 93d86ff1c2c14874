/** The order lifecycle store as it is kept in memory: records, broker index and cached counters
    updated in place by each operation, and proved to follow the transitions of `OrderSpec`. */
module OrderStore {
  import opened Basics
  import opened Text
  import opened Arrange
  import opened OrderModel
  import opened OrderSpec
  import opened ReconcileLaws
  import opened OrderRuns

  /** Adds an issue unless the list is full. */
  function AppendIssue(issues: seq<Issue>, issue: Issue): seq<Issue> {
    if |issues| >= ISSUE_CAP then issues else issues + [issue]
  }

  lemma AppendKeepsCap(all: seq<Issue>, issue: Issue)
    ensures AppendIssue(Capped(all), issue) == Capped(all + [issue])
  {
    if |all| >= ISSUE_CAP {
      assert (all + [issue])[..ISSUE_CAP] == all[..ISSUE_CAP];
    }
  }

  /** The visited ids whose record has the authority. */
  function Visited(orders: Orders, done: set<string>, a: Authority): set<string> {
    set id | id in done && id in orders && HasAuthority(orders[id], a)
  }

  function VisitedActive(orders: Orders, done: set<string>): set<string> {
    set id | id in done && id in orders && !orders[id].status.Terminal()
  }

  lemma VisitOne(orders: Orders, done: set<string>, id: string, a: Authority)
    requires id in orders && id !in done
    ensures |Visited(orders, done + {id}, a)| == |Visited(orders, done, a)| + One(HasAuthority(orders[id], a))
  {
    hide NormalizeAuthority;
    var before, after := Visited(orders, done, a), Visited(orders, done + {id}, a);
    assert after == if HasAuthority(orders[id], a) then before + {id} else before;
  }

  lemma VisitOneActive(orders: Orders, done: set<string>, id: string)
    requires id in orders && id !in done
    ensures |VisitedActive(orders, done + {id})| == |VisitedActive(orders, done)| + One(!orders[id].status.Terminal())
  {
    var before, after := VisitedActive(orders, done), VisitedActive(orders, done + {id});
    assert after == if orders[id].status.Terminal() then before else before + {id};
  }

  lemma NoneVisited(orders: Orders)
    ensures forall a :: Visited(orders, {}, a) == {}
    ensures VisitedActive(orders, {}) == {}
  {
  }

  lemma VisitedAll(orders: Orders)
    ensures forall a :: Visited(orders, orders.Keys, a) == WithAuthority(orders, a)
    ensures VisitedActive(orders, orders.Keys) == ActiveIds(orders)
  {
    hide NormalizeAuthority;
  }

  lemma LoadOneMore(s: StoreValue, records: seq<Record>, i: nat, clock: Time)
    requires i < |records| && AllNamed(records[..i]) && TrimSpace(records[i].localId) != ""
    ensures AllNamed(records[..i + 1])
    ensures Loaded(s, records[..i + 1], clock) == RestoredOne(Loaded(s, records[..i], clock), records[i], clock)
  {
    hide RestoredOne, TrimSpace;
    assert records[..i + 1][..i] == records[..i];
    assert records[..i + 1] == records[..i] + [records[i]];
  }

  lemma NothingLoaded(clock: Time, floor: nat)
    ensures AllNamed([]) && HighestSequence([], floor) == floor
    ensures forall s: StoreValue :: Loaded(s, [], clock) == s
  {
  }

  lemma HighestOneMore(records: seq<Record>, i: nat, floor: nat)
    requires i < |records|
    ensures HighestSequence(records[..i + 1], floor)
         == (var before := HighestSequence(records[..i], floor);
             if SequenceOf(records[i]) > before then SequenceOf(records[i]) else before)
  {
    hide SequenceOf;
    assert records[..i + 1][..i] == records[..i];
  }

  class Store {
    var nextId: nat
    var ordersByLocal: map<string, Record>
    var localByBroker: map<string, string>
    var summary: Summary

    function Value(): StoreValue
      reads this
    {
      StoreValue(nextId, ordersByLocal, localByBroker, summary)
    }

    constructor ()
      ensures Value() == EMPTY_STORE && Inv(Value()) && Honest(ordersByLocal)
    {
      nextId, ordersByLocal, localByBroker, summary := 0, map[], map[], NO_SUMMARY;
    }

    /** Recounts the cached counters from the records. */
    method RefreshSummaryCounts(brokerOpen: nat)
      modifies this`summary
      ensures Value() == Recounted(old(Value()), brokerOpen)
    {
      hide NormalizeAuthority, Visited, VisitedActive, WithAuthority, ActiveIds;
      NoneVisited(ordersByLocal);
      var active, pending, confirmed, inferred, unresolved := 0, 0, 0, 0, 0;
      var rest := ordersByLocal.Keys;
      ghost var done := {};
      while rest != {}
        invariant rest <= ordersByLocal.Keys && done == ordersByLocal.Keys - rest && summary == old(summary)
        invariant active == |VisitedActive(ordersByLocal, done)|
        invariant pending == |Visited(ordersByLocal, done, LocalPending)|
        invariant confirmed == |Visited(ordersByLocal, done, BrokerConfirmed)|
        invariant inferred == |Visited(ordersByLocal, done, Inferred)|
        invariant unresolved == |Visited(ordersByLocal, done, Unresolved)|
        decreases rest
      {
        var id :| id in rest;
        var record := ordersByLocal[id];
        VisitOneActive(ordersByLocal, done, id);
        VisitOne(ordersByLocal, done, id, LocalPending);
        VisitOne(ordersByLocal, done, id, BrokerConfirmed);
        VisitOne(ordersByLocal, done, id, Inferred);
        VisitOne(ordersByLocal, done, id, Unresolved);
        if !record.status.Terminal() { active := active + 1; }
        match NormalizeAuthority(record) {
          case LocalPending => pending := pending + 1;
          case BrokerConfirmed => confirmed := confirmed + 1;
          case Inferred => inferred := inferred + 1;
          case Unresolved => unresolved := unresolved + 1;
          case OtherAuthority(_) =>
        }
        rest, done := rest - {id}, done + {id};
      }
      assert done == ordersByLocal.Keys;
      VisitedAll(ordersByLocal);
      assert Recount(ordersByLocal)
          == Counts(|ordersByLocal|, active, pending, confirmed, inferred, unresolved, inferred > 0 || unresolved > 0);
      summary := summary.(
        counts := Counts(|ordersByLocal|, active, pending, confirmed, inferred, unresolved, inferred > 0 || unresolved > 0),
        brokerOpen := brokerOpen);
    }

    method RegisterSubmitted(intent: Intent, symbol: string, side: string, positionSide: string, requestedQty: real,
                             submittedAt: Time, clock: Time)
      returns (localId: string)
      requires clock != ZERO_TIME
      modifies this
      ensures Value() == Registered(old(Value()), intent, symbol, side, positionSide, requestedQty,
                                    NormalizeTime(submittedAt, clock))
      ensures localId == LocalOrderId(LOCAL_PREFIX, old(nextId) + 1) && localId in ordersByLocal
      ensures ordersByLocal[localId].submittedAt == if submittedAt == ZERO_TIME then clock else submittedAt
      ensures old(Inv(Value())) ==> Inv(Value()) && localId !in old(ordersByLocal)
    {
      hide Inv, Advances, Recount, LocalOrderId;
      ghost var was := Value();
      var at := NormalizeTime(submittedAt, clock);
      nextId := nextId + 1;
      localId := LocalOrderId(LOCAL_PREFIX, nextId);
      var record := Record(localId, "", NormalizeIntent(intent), UpperTrim(symbol), UpperTrim(side), LowerTrim(positionSide),
                           Submitted, "", requestedQty, 0.0, requestedQty, 0.0, LocalSubmission, AwaitingAck, LocalPending,
                           Pending, AwaitingAck, false, at, at, ZERO_TIME);
      ordersByLocal := ordersByLocal[localId := record];
      RefreshSummaryCounts(0);
      if Inv(was) {
        RegisterKeepsInv(was, intent, symbol, side, positionSide, requestedQty, at);
      }
    }

    method MarkRejected(localId: string, message: Note, at: Time, clock: Time)
      requires clock != ZERO_TIME
      modifies this
      ensures Value() == MarkedRejected(old(Value()), localId, message, NormalizeTime(at, clock))
      ensures localId in old(ordersByLocal) ==>
                && localId in ordersByLocal
                && IsRejection(old(ordersByLocal[localId]), message, if at == ZERO_TIME then clock else at, ordersByLocal[localId])
      ensures old(Inv(Value())) ==> Inv(Value())
    {
      hide Inv, Advances, Recount, IsRejection;
      ghost var was := Value();
      if Inv(was) {
        RejectKeepsInv(was, localId, message, NormalizeTime(at, clock));
      }
      if localId !in ordersByLocal {
        return;
      }
      var record := ordersByLocal[localId];
      RejectionIs(record, message, NormalizeTime(at, clock));
      record := record.(status := Rejected, lastMessage := message.Trim());
      record := record.(authority := BrokerConfirmed, confidence := ConfirmedTruth, needsReview := false);
      record := record.(reason := NoteOr(message, RejectedByBroker));
      record := record.(updatedAt := NormalizeTime(at, clock), lastSeenAt := NormalizeTime(at, clock));
      ordersByLocal := ordersByLocal[localId := record];
      RefreshSummaryCounts(summary.brokerOpen);
    }

    method RecordReconciliationError(text: string, at: Time, clock: Time)
      requires clock != ZERO_TIME
      modifies this`summary
      ensures Value() == ErrorRecorded(old(Value()), text, NormalizeTime(at, clock))
    {
      summary := summary.(lastRunAt := NormalizeTime(at, clock), lastError := TrimSpace(text));
    }

    /** Finds a record by its own id, or else by the broker's. */
    method LookupRecord(localId: string, brokerOrderId: string) returns (r: Option<Record>)
      ensures r == Lookup(Value(), localId, brokerOrderId)
    {
      var id := TrimSpace(localId);
      if id != "" && id in ordersByLocal {
        return Some(ordersByLocal[id]);
      }
      var brokerId := TrimSpace(brokerOrderId);
      if brokerId != "" && brokerId in localByBroker {
        var mapped := localByBroker[brokerId];
        if mapped != "" && mapped in ordersByLocal {
          return Some(ordersByLocal[mapped]);
        }
      }
      return None;
    }

    /** The records in the order of their ids, with the counter and the summary. */
    method SnapshotState() returns (snapshot: Snapshot, ghost keys: seq<string>)
      ensures Enumerates(keys, ordersByLocal) && Arranged(keys, TextLeq)
      ensures snapshot == SnapshotOf(Value(), keys)
      ensures |snapshot.orders| == |ordersByLocal|
      ensures forall r :: r in snapshot.orders <==> r in ordersByLocal.Values
    {
      TextOrdersKeys(ordersByLocal.Keys);
      var ids := ListKeys(ordersByLocal.Keys, TextLeq);
      var orders := ordersByLocal;
      var records := [];
      assert RecordsUnder(orders, ids[..0]) == [];
      hide RecordsUnder;
      for i := 0 to |ids|
        invariant records == RecordsUnder(orders, ids[..i])
      {
        OneMoreRecord(orders, ids, i);
        records := records + [orders[ids[i]]];
      }
      keys := ids;
      assert ids[..|ids|] == ids;
      snapshot := Snapshot(STATE_VERSION, nextId, records, summary);
      RecordsUnderAll(orders, ids);
    }

    /** Replaces the store's contents; a record with no id stops the restore part-way. */
    method RestoreState(snapshot: Snapshot, clock: Time) returns (outcome: Outcome)
      requires clock != ZERO_TIME
      modifies this
      ensures Value() == Restored(old(Value()), snapshot, clock) && outcome == RestoreOutcome(snapshot)
    {
      hide RestoredRecord, SequenceOf, Recount, AllNamed, HighestSequence, Loaded;
      NothingLoaded(clock, snapshot.nextId);
      if snapshot.version == 0 {
        return Done;
      }
      if snapshot.version != STATE_VERSION {
        return Failed("unsupported version");
      }
      nextId, ordersByLocal, localByBroker := snapshot.nextId, map[], map[];
      ghost var blank := Value();
      var maxId := snapshot.nextId;
      var i := 0;
      while i < |snapshot.orders|
        invariant 0 <= i <= |snapshot.orders|
        invariant AllNamed(snapshot.orders[..i])
        invariant Value() == Loaded(blank, snapshot.orders[..i], clock)
        invariant nextId == snapshot.nextId && summary == blank.summary
        invariant maxId == HighestSequence(snapshot.orders[..i], snapshot.nextId)
      {
        var record := snapshot.orders[i];
        if TrimSpace(record.localId) == "" {
          StopsAtUnnamed(blank, snapshot.orders, i, clock);
          return Failed("record with no local id");
        }
        LoadOneMore(blank, snapshot.orders, i, clock);
        HighestOneMore(snapshot.orders, i, snapshot.nextId);
        var restored := RestoredRecord(record, clock);
        ordersByLocal := ordersByLocal[restored.localId := restored];
        var brokerId := TrimSpace(restored.brokerOrderId);
        if brokerId != "" {
          localByBroker := localByBroker[brokerId := restored.localId];
        }
        var sequence := SequenceOf(record);
        if sequence > maxId {
          maxId := sequence;
        }
        i := i + 1;
      }
      assert snapshot.orders[..i] == snapshot.orders;
      summary := snapshot.summary;
      nextId := maxId;
      RefreshSummaryCounts(summary.brokerOpen);
      return Done;
    }

    // ---- Reconciliation ----

    /** The store and the local counters stand where the pass does. */
    ghost predicate At(p: Progress, used: set<string>, tally: Tally, issues: seq<Issue>)
      reads this
    {
      && ordersByLocal == p.orders && localByBroker == p.index && nextId == p.nextId
      && used == p.used && tally == p.tally && issues == Capped(p.issues)
    }

    /** Settles one record: against its own broker order, a pending match, or the evidence of positions. */
    method ReconcileRecord(id: string, byId: map<string, BrokerOrder>, env: Env, used: set<string>, tally: Tally,
                           issues: seq<Issue>, ghost p: Progress)
      returns (used': set<string>, tally': Tally, issues': seq<Issue>)
      requires id in ordersByLocal && byId == OpenById(env.open) && At(p, used, tally, issues)
      modifies this`ordersByLocal, this`localByBroker
      ensures At(StepRecord(env, p, id), used', tally', issues')
    {
      hide FindPendingMatch, WithBrokerTruth, InferMissing, HasFillMismatch, OpenById;
      used', tally', issues' := used, tally, issues;
      var record := ordersByLocal[id];
      var held := record.brokerOrderId != "" && record.brokerOrderId in byId;
      if held {
        used' := used' + {record.brokerOrderId};
      }
      if record.status.Terminal() {
        assert p.orders[id := record] == p.orders;
        return;
      }
      var found: Option<BrokerOrder> := None;
      if held {
        found := Some(byId[record.brokerOrderId]);
        used' := used' + {found.value.orderId};
      } else {
        found := FindPendingBrokerMatch(record, env.open, used');
        if found.Some? {
          record := record.(brokerOrderId := found.value.orderId);
          localByBroker := localByBroker[found.value.orderId := record.localId];
          used' := used' + {found.value.orderId};
          tally' := tally'.(repairs := tally'.repairs + 1, mismatches := tally'.mismatches + 1);
          AppendKeepsCap(p.issues, Issue(MatchedPendingOrder, record.localId, found.value.orderId, true,
                                         BrokerConfirmed, ConfirmedTruth, false));
          issues' := AppendIssue(issues', Issue(MatchedPendingOrder, record.localId, found.value.orderId, true,
                                                BrokerConfirmed, ConfirmedTruth, false));
        }
      }
      if found.Some? {
        tally', issues' := ConfirmRecord(id, record, found.value, !held, env, used, tally', issues', p);
      } else {
        tally', issues' := InferRecord(id, record, env, used', tally', issues', p);
      }
    }

    /** Applies broker truth to a record that its broker order has been found for. */
    method ConfirmRecord(id: string, linked: Record, o: BrokerOrder, matched: bool, env: Env, ghost used: set<string>,
                         tally: Tally, issues: seq<Issue>, ghost p: Progress)
      returns (tally': Tally, issues': seq<Issue>)
      requires id in p.orders && ordersByLocal == p.orders && nextId == p.nextId && p.used == used
      requires !p.orders[id].status.Terminal()
      requires var r := p.orders[id];
        && linked == (if matched then r.(brokerOrderId := o.orderId) else r)
        && (matched ==> !HeldAtBroker(r, env.open) && FindPendingMatch(r, env.open, used) == Some(o)
                        && localByBroker == p.index[o.orderId := r.localId])
        && (!matched ==> HeldAtBroker(r, env.open) && OpenById(env.open)[r.brokerOrderId] == o && localByBroker == p.index)
      requires tally == p.tally.(repairs := p.tally.repairs + One(matched), mismatches := p.tally.mismatches + One(matched))
      requires issues == Capped(p.issues + (if matched then
        [Issue(MatchedPendingOrder, linked.localId, o.orderId, true, BrokerConfirmed, ConfirmedTruth, false)] else []))
      modifies this`ordersByLocal
      ensures At(StepRecord(env, p, id), StepRecord(env, p, id).used, tally', issues')
    {
      hide FindPendingMatch, OpenById, WithBrokerTruth, HasFillMismatch, StepRecord, Settle, Capped, TallyOf, IssuesOf;
      ghost var s := ConfirmedBy(p.orders[id], o, matched, env.now);
      ConfirmedStep(env, p, id, o, matched);
      ConfirmedTally(p.tally, s);
      var record, changed, fillMismatch := ApplyBrokerTruth(linked, o, env.now);
      tally', issues' := CountConfirmed(record, o, changed, fillMismatch, tally, issues);
      ordersByLocal := ordersByLocal[id := record];
      ConfirmedIssues(p.issues, s);
      TruthKeepsLocalId(linked, o, env.now);
    }

    /** Infers what became of a record the broker does not list. */
    method InferRecord(id: string, record: Record, env: Env, used: set<string>, tally: Tally, issues: seq<Issue>,
                       ghost p: Progress)
      returns (tally': Tally, issues': seq<Issue>)
      requires id in ordersByLocal && At(p, used, tally, issues) && record == p.orders[id]
      requires !record.status.Terminal() && !HeldAtBroker(record, env.open)
      requires FindPendingMatch(record, env.open, used).None?
      modifies this`ordersByLocal
      ensures At(StepRecord(env, p, id), used, tally', issues')
    {
      hide FindPendingMatch, StillWaiting, Resolve, TallyOf, IssuesOf, Capped;
      tally', issues' := tally, issues;
      NothingToTally(p.tally, record);
      assert p.issues + [] == p.issues;
      if StillWaiting(record, env.now) {
        assert p.orders[id := record] == p.orders;
        return;
      }
      var held := QuantityForIntentPosition(record, env.positions);
      var resolution := Resolve(record, held, env.now);
      MissingTally(p.tally, p.issues, WithResolution(record, resolution, env.now), resolution);
      ordersByLocal := ordersByLocal[id := WithResolution(record, resolution, env.now)];
      tally' := tally'.(localMissing := tally'.localMissing + 1, mismatches := tally'.mismatches + 1);
      match resolution.authority {
        case Inferred => tally' := tally'.(inferred := tally'.inferred + 1);
        case Unresolved => tally' := tally'.(unresolved := tally'.unresolved + 1);
        case _ =>
      }
      if resolution.repaired {
        tally' := tally'.(repairs := tally'.repairs + 1);
      }
      if resolution.status.Terminal() {
        tally' := tally'.(resolved := tally'.resolved + 1);
      }
      var issue := Issue(LocalMissingAtBroker, record.localId, record.brokerOrderId, resolution.repaired,
                         resolution.authority, resolution.confidence, resolution.needsReview);
      AppendKeepsCap(p.issues, issue);
      issues' := AppendIssue(issues', issue);
    }

    /** Imports a broker order that no record uses. */
    method ImportOrder(o: BrokerOrder, now: Time, used: set<string>, tally: Tally, issues: seq<Issue>, ghost p: Progress)
      returns (tally': Tally, issues': seq<Issue>)
      requires At(p, used, tally, issues)
      modifies this`ordersByLocal, this`localByBroker, this`nextId
      ensures At(StepImport(p, o, now), used, tally', issues')
    {
      hide Imported, LocalOrderId;
      tally', issues' := tally, issues;
      if o.orderId != "" && o.orderId in used {
        return;
      }
      tally' := tally'.(unknownBroker := tally'.unknownBroker + 1, mismatches := tally'.mismatches + 1,
                        repairs := tally'.repairs + 1, imported := tally'.imported + 1);
      nextId := nextId + 1;
      var localId := LocalOrderId(BROKER_PREFIX, nextId);
      ordersByLocal := ordersByLocal[localId := Imported(o, localId, now)];
      if o.orderId != "" {
        localByBroker := localByBroker[o.orderId := localId];
      }
      var issue := Issue(UnknownBrokerOrder, localId, o.orderId, true, BrokerConfirmed, ConfirmedTruth, false);
      AppendKeepsCap(p.issues, issue);
      issues' := AppendIssue(issues', issue);
    }

    /** Settles the records in the order of their submission. */
    method ReconcileRecords(env: Env, ids: seq<string>, ghost was: StoreValue)
      returns (used: set<string>, tally: Tally, issues: seq<Issue>)
      requires At(Start(was), {}, NO_TALLY, []) && forall id | id in ids :: id in was.orders
      modifies this`ordersByLocal, this`localByBroker
      ensures At(RecordPass(env, Start(was), ids), used, tally, issues)
    {
      hide StepRecord;
      var byId := IndexOpenOrders(env.open);
      used, tally, issues := {}, NO_TALLY, [];
      for i := 0 to |ids|
        invariant At(RecordPass(env, Start(was), ids[..i]), used, tally, issues)
      {
        PrefixStep(env, Start(was), ids, i + 1);
        used, tally, issues :=
          ReconcileRecord(ids[i], byId, env, used, tally, issues, RecordPass(env, Start(was), ids[..i]));
      }
      assert ids[..|ids|] == ids;
    }

    /** Imports the broker orders left over. */
    method ImportOrders(open: seq<BrokerOrder>, now: Time, used: set<string>, tally: Tally, issues: seq<Issue>,
                        ghost p: Progress)
      returns (tally': Tally, issues': seq<Issue>)
      requires At(p, used, tally, issues)
      modifies this`ordersByLocal, this`localByBroker, this`nextId
      ensures At(ImportPass(p, open, now), used, tally', issues')
    {
      hide StepImport;
      tally', issues' := tally, issues;
      for i := 0 to |open|
        invariant At(ImportPass(p, open[..i], now), used, tally', issues')
      {
        assert open[..i + 1][..i] == open[..i];
        tally', issues' := ImportOrder(open[i], now, used, tally', issues', ImportPass(p, open[..i], now));
      }
      assert open[..|open|] == open;
    }

    /** Matches the records with the broker's open orders, infers the fate of those it no longer
        lists, and imports the orders no record stands for. */
    method Reconcile(open: seq<BrokerOrder>, positions: seq<Position>, at: Time, clock: Time)
      returns (report: Report, ghost order: seq<string>)
      requires clock != ZERO_TIME
      modifies this
      ensures ProcessingOrder(order, old(ordersByLocal))
      ensures Value() == Reconciled(old(Value()), order, Env(open, positions, NormalizeTime(at, clock)))
      ensures report == ReportOf(old(Value()), order, Env(open, positions, NormalizeTime(at, clock)))
      ensures old(Inv(Value())) ==> Inv(Value()) && Advances(old(Value()), Value())
    {
      hide Inv, Advances, RecordPass, ImportPass, Recount;
      ghost var was := Value();
      var now := NormalizeTime(at, clock);
      var env := Env(open, positions, now);
      summary := summary.(totalRuns := summary.totalRuns + 1, lastRunAt := now, lastError := "");
      var ids := SubmissionOrder();
      order := ids;
      var used, tally, issues := ReconcileRecords(env, ids, was);
      tally, issues := ImportOrders(open, now, used, tally, issues, RecordPass(env, Start(was), ids));
      RefreshSummaryCounts(|open|);
      report := Report(now, |ordersByLocal|, summary.counts.active, |open|, tally,
                       tally.inferred > 0 || tally.unresolved > 0, tally.unresolved > 0, issues);
      summary := summary.(lastSuccessAt := now, totals := summary.totals.Plus(tally));
      if tally.inferred > 0 {
        summary := summary.(lastInferredAt := now);
      }
      if tally.unresolved > 0 {
        summary := summary.(lastUnresolvedAt := now);
      }
      summary := summary.(lastIssues := issues);
      if Inv(was) {
        ReconcileKeepsInv(was, ids, env);
      }
    }

    /** The record ids, earliest submission first; equal times come out in any order. */
    method SubmissionOrder() returns (ids: seq<string>)
      ensures ProcessingOrder(ids, ordersByLocal)
    {
      var orders := ordersByLocal;
      var earlier := (a: string, b: string) =>
        a in orders && b in orders && orders[a].submittedAt <= orders[b].submittedAt;
      ids := ListKeys(orders.Keys, earlier);
    }
  }

  /** The broker orders with an id, the last one listed under each. */
  method IndexOpenOrders(open: seq<BrokerOrder>) returns (byId: map<string, BrokerOrder>)
    ensures byId == OpenById(open)
  {
    byId := map[];
    for i := 0 to |open|
      invariant byId == OpenById(open[..i])
    {
      assert open[..i + 1][..i] == open[..i];
      if open[i].orderId != "" {
        byId := byId[open[i].orderId := open[i]];
      }
    }
    assert open[..|open|] == open;
  }

  lemma ConfirmedStep(env: Env, p: Progress, id: string, o: BrokerOrder, matched: bool)
    requires id in p.orders && !p.orders[id].status.Terminal()
    requires var r := p.orders[id];
      if matched then !HeldAtBroker(r, env.open) && FindPendingMatch(r, env.open, Marked(p.used, r, env.open)) == Some(o)
      else HeldAtBroker(r, env.open) && OpenById(env.open)[r.brokerOrderId] == o
    ensures var r := p.orders[id];
      var s := ConfirmedBy(r, o, matched, env.now);
      var used := Marked(p.used, r, env.open);
      StepRecord(env, p, id) ==
        p.(orders := p.orders[id := s.record],
           index := if matched then p.index[o.orderId := r.localId] else p.index,
           used := used + {o.orderId},
           tally := p.tally.Plus(TallyOf(s)),
           issues := p.issues + IssuesOf(s))
  {
    hide FindPendingMatch, OpenById, WithBrokerTruth, HasFillMismatch;
  }

  lemma NothingToTally(t: Tally, r: Record)
    ensures t.Plus(TallyOf(Settlement(r, Waiting))) == t && IssuesOf(Settlement(r, Waiting)) == []
  {
  }

  lemma MissingTally(t: Tally, all: seq<Issue>, r: Record, resolution: Resolution)
    ensures var s := Settlement(r, Missing(resolution));
      && t.Plus(TallyOf(s)) ==
           t.(mismatches := t.mismatches + 1, localMissing := t.localMissing + 1,
              repairs := t.repairs + One(resolution.repaired),
              resolved := t.resolved + One(resolution.status.Terminal()),
              inferred := t.inferred + One(resolution.authority == Inferred),
              unresolved := t.unresolved + One(resolution.authority == Unresolved))
      && all + IssuesOf(s) == all + [Issue(LocalMissingAtBroker, r.localId, r.brokerOrderId, resolution.repaired,
                                           resolution.authority, resolution.confidence, resolution.needsReview)]
  {
  }

  /** Counts a confirmed record. */
  method CountConfirmed(record: Record, o: BrokerOrder, changed: bool, fillMismatch: bool, tally: Tally, issues: seq<Issue>)
    returns (tally': Tally, issues': seq<Issue>)
    ensures tally' == tally.(mismatches := tally.mismatches + One(fillMismatch),
                             fillMismatches := tally.fillMismatches + One(fillMismatch),
                             repairs := tally.repairs + One(changed),
                             resolved := tally.resolved + One(record.status.Terminal()))
    ensures issues' == if fillMismatch then AppendIssue(issues, Issue(FillMismatch, record.localId, o.orderId, true,
                                                                      BrokerConfirmed, ConfirmedTruth, false)) else issues
  {
    tally', issues' := tally, issues;
    if fillMismatch {
      tally' := tally'.(fillMismatches := tally'.fillMismatches + 1, mismatches := tally'.mismatches + 1);
      issues' := AppendIssue(issues', Issue(FillMismatch, record.localId, o.orderId, true,
                                            BrokerConfirmed, ConfirmedTruth, false));
    }
    if changed {
      tally' := tally'.(repairs := tally'.repairs + 1);
    }
    if record.status.Terminal() {
      tally' := tally'.(resolved := tally'.resolved + 1);
    }
  }

  lemma ConfirmedTally(t: Tally, s: Settlement)
    requires s.verdict.Confirmed?
    ensures t.Plus(TallyOf(s)) ==
      t.(mismatches := t.mismatches + One(s.verdict.matched) + One(s.verdict.fillMismatch),
         repairs := t.repairs + One(s.verdict.matched) + One(s.verdict.changed),
         fillMismatches := t.fillMismatches + One(s.verdict.fillMismatch),
         resolved := t.resolved + One(s.record.status.Terminal()))
  {
  }

  lemma ConfirmedIssues(all: seq<Issue>, s: Settlement)
    requires s.verdict.Confirmed?
    ensures var o := s.verdict.order;
      var matchedPart := if s.verdict.matched then
        [Issue(MatchedPendingOrder, s.record.localId, o.orderId, true, BrokerConfirmed, ConfirmedTruth, false)] else [];
      var fill := Issue(FillMismatch, s.record.localId, o.orderId, true, BrokerConfirmed, ConfirmedTruth, false);
      Capped(all + IssuesOf(s))
      == if s.verdict.fillMismatch then AppendIssue(Capped(all + matchedPart), fill) else Capped(all + matchedPart)
  {
    var o := s.verdict.order;
    var matchedPart := if s.verdict.matched then
      [Issue(MatchedPendingOrder, s.record.localId, o.orderId, true, BrokerConfirmed, ConfirmedTruth, false)] else [];
    var fill := Issue(FillMismatch, s.record.localId, o.orderId, true, BrokerConfirmed, ConfirmedTruth, false);
    AppendKeepsCap(all + matchedPart, fill);
    assert all + (matchedPart + [fill]) == (all + matchedPart) + [fill];
    assert IssuesOf(s) == matchedPart + if s.verdict.fillMismatch then [fill] else [];
  }

  lemma TruthKeepsLocalId(r: Record, o: BrokerOrder, now: Time)
    ensures WithBrokerTruth(r, o, now).localId == r.localId
  {
  }

  /** Loading stops at the first record without an id. */
  lemma {:induction false} StopsAtUnnamed(s: StoreValue, records: seq<Record>, i: nat, clock: Time)
    requires i < |records| && TrimSpace(records[i].localId) == ""
    ensures !AllNamed(records) && Loaded(s, records, clock) == Loaded(s, records[..i], clock)
  {
    hide RestoredOne;
    if i < |records| - 1 {
      StopsAtUnnamed(s, records[..|records| - 1], i, clock);
      assert records[..|records| - 1][..i] == records[..i];
    }
    assert TrimSpace(records[i].localId) == "";
  }
}
