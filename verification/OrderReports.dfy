/** What the report of a run counts and says: each counter is the number of records that something happened to, and
    each issue is true of one of them. */
module OrderReports {
  import opened Basics
  import opened Text
  import opened OrderModel
  import opened OrderSpec
  import opened ReconcileLaws
  import opened ReconcileStability
  import opened OrderSharing
  import opened OrderOutcomes
  import opened OrderRuns

  // ---- What happens to a record ----

  predicate SomeOnOffer(s: StoreValue, ids: seq<string>, env: Env, j: nat)
    requires j < |ids| && forall k | k in ids :: k in s.orders
  {
    exists i: nat :: i < |env.open| && OnOffer(s, ids, env, j, i)
  }

  /** The record is open and holds no listed order. */
  predicate WithoutOrder(s: StoreValue, ids: seq<string>, env: Env, j: nat)
    requires j < |ids| && forall k | k in ids :: k in s.orders
  {
    !IsOver(s.orders[ids[j]].status) && !ListedId(s.orders[ids[j]].brokerOrderId, env.open)
  }

  predicate TakesOverSome(s: StoreValue, ids: seq<string>, env: Env, j: nat)
    requires j < |ids| && forall k | k in ids :: k in s.orders
  {
    !IsOver(s.orders[ids[j]].status) && (ListedId(s.orders[ids[j]].brokerOrderId, env.open) || SomeOnOffer(s, ids, env, j))
  }

  datatype Event = Matched | Changed | FillDiffers | GoneMissing | IsInferred | IsLeftOpen | Resolved

  /** Whether the event happens to the j-th record visited. */
  predicate Happens(e: Event, s: StoreValue, ids: seq<string>, env: Env, j: nat)
    requires IdsBounded(s.orders, s.nextId) && ProcessingOrder(ids, s.orders) && j < |ids|
  {
    var r, r' := s.orders[ids[j]], After(s, ids, env, j);
    match e
    case Matched => WithoutOrder(s, ids, env, j) && SomeOnOffer(s, ids, env, j)
    case Changed =>
      TakesOverSome(s, ids, env, j)
      && r' != r.(brokerOrderId := r'.brokerOrderId, lastMessage := r'.lastMessage, updatedAt := r'.updatedAt,
                  lastSeenAt := r'.lastSeenAt)
    case FillDiffers =>
      TakesOverSome(s, ids, env, j) && r'.filledQty != r.filledQty && (r.filledQty > 0.0 || r'.filledQty > 0.0)
    case GoneMissing => WithoutOrder(s, ids, env, j) && !SomeOnOffer(s, ids, env, j) && !GivenTime(r, env.now)
    case IsInferred =>
      WithoutOrder(s, ids, env, j) && !SomeOnOffer(s, ids, env, j) && !GivenTime(r, env.now) && r'.authority == Inferred
    case IsLeftOpen =>
      WithoutOrder(s, ids, env, j) && !SomeOnOffer(s, ids, env, j) && !GivenTime(r, env.now) && r'.authority == Unresolved
    case Resolved => !IsOver(r.status) && IsOver(r'.status)
  }

  /** How many of the first k records the event happens to. */
  function Times(e: Event, s: StoreValue, ids: seq<string>, env: Env, k: nat): nat
    requires IdsBounded(s.orders, s.nextId) && ProcessingOrder(ids, s.orders) && k <= |ids|
  {
    |set j: nat | j < k && Happens(e, s, ids, env, j)|
  }

  lemma OneMoreTime(e: Event, s: StoreValue, ids: seq<string>, env: Env, k: nat)
    requires IdsBounded(s.orders, s.nextId) && ProcessingOrder(ids, s.orders) && k < |ids|
    ensures Times(e, s, ids, env, k + 1) == Times(e, s, ids, env, k) + One(Happens(e, s, ids, env, k))
  {
    hide Happens, IdsBounded;
    var before := set j: nat | j < k && Happens(e, s, ids, env, j);
    var after := set j: nat | j < k + 1 && Happens(e, s, ids, env, j);
    assert after == if Happens(e, s, ids, env, k) then before + {k} else before;
  }

  lemma NoTimes(e: Event, s: StoreValue, ids: seq<string>, env: Env)
    requires IdsBounded(s.orders, s.nextId) && ProcessingOrder(ids, s.orders)
    ensures Times(e, s, ids, env, 0) == 0
  {
    hide Happens, IdsBounded;
  }

  // ---- One settlement ----

  /** The settlement of the j-th record. */
  function SettlementAt(s: StoreValue, ids: seq<string>, env: Env, j: nat): Settlement
    requires j < |ids| && forall k | k in ids :: k in s.orders
  {
    Settle(env, UsedBefore(env, Start(s), ids, j), s.orders[ids[j]])
  }

  lemma OfferIsMatch(s: StoreValue, ids: seq<string>, env: Env, j: nat)
    requires IdsBounded(s.orders, s.nextId) && ProcessingOrder(ids, s.orders) && j < |ids|
    requires !HeldAtBroker(s.orders[ids[j]], env.open)
    ensures SomeOnOffer(s, ids, env, j)
      <==> FindPendingMatch(s.orders[ids[j]], env.open, UsedBefore(env, Start(s), ids, j)).Some?
  {
    hide Eligible, OnOffer, RecordPass, IdsBounded, UsedBefore, Free;
    var r, used := s.orders[ids[j]], UsedBefore(env, Start(s), ids, j);
    forall i: nat | i < |env.open| ensures OnOffer(s, ids, env, j, i) <==> Free(env.open[i], used) && Eligible(r, env.open[i]) {
      OnOfferIsFreeAndFits(s, ids, env, j, i);
    }
    if FindPendingMatch(r, env.open, used).Some? {
      var i: nat :| i < |env.open| && env.open[i] == FindPendingMatch(r, env.open, used).value;
      assert OnOffer(s, ids, env, j, i);
    }
    if i: nat :| i < |env.open| && OnOffer(s, ids, env, j, i) {
      assert env.open[i] in env.open;
    }
  }

  /** What the settlement is called goes by what happens to the record. */
  lemma VerdictSays(s: StoreValue, ids: seq<string>, env: Env, j: nat)
    requires IdsBounded(s.orders, s.nextId) && ProcessingOrder(ids, s.orders) && j < |ids|
    ensures var st, r := SettlementAt(s, ids, env, j), s.orders[ids[j]];
      && st.record == After(s, ids, env, j)
      && (st.verdict.Confirmed? <==> TakesOverSome(s, ids, env, j))
      && (st.verdict.Confirmed? && st.verdict.matched <==> WithoutOrder(s, ids, env, j) && SomeOnOffer(s, ids, env, j))
      && (st.verdict.Missing? <==>
            WithoutOrder(s, ids, env, j) && !SomeOnOffer(s, ids, env, j) && !GivenTime(r, env.now))
  {
    hide RecordPass, IdsBounded, UsedBefore, After, SomeOnOffer, ConfirmedBy, WithResolution, Resolve, FindPendingMatch,
         OpenById;
    var r := s.orders[ids[j]];
    AfterIsSettled(s, ids, env, j);
    ListedIdIsListed(r.brokerOrderId, env.open);
    if !HeldAtBroker(r, env.open) {
      OfferIsMatch(s, ids, env, j);
    }
    ConfirmedByIs(env, UsedBefore(env, Start(s), ids, j), r);
  }

  lemma ConfirmedByIs(env: Env, used: set<string>, r: Record)
    ensures !r.status.Terminal() && HeldAtBroker(r, env.open) ==>
              var v := Settle(env, used, r).verdict; v.Confirmed? && !v.matched
    ensures !r.status.Terminal() && !HeldAtBroker(r, env.open) && FindPendingMatch(r, env.open, used).Some? ==>
              var v := Settle(env, used, r).verdict; v.Confirmed? && v.matched
  {
    hide WithBrokerTruth, FindPendingMatch, OpenById, HasFillMismatch;
  }

  /** The flags of a confirmation, said of the record before and after. */
  lemma ConfirmationSays(env: Env, used: set<string>, r: Record)
    requires Settle(env, used, r).verdict.Confirmed?
    ensures var st := Settle(env, used, r); var r' := st.record;
      && (st.verdict.changed <==>
            r' != r.(brokerOrderId := r'.brokerOrderId, lastMessage := r'.lastMessage, updatedAt := r'.updatedAt,
                     lastSeenAt := r'.lastSeenAt))
      && (st.verdict.fillMismatch <==> r'.filledQty != r.filledQty && (r.filledQty > 0.0 || r'.filledQty > 0.0))
      && st.verdict.order.orderId == r'.brokerOrderId
  {
    hide FindPendingMatch, BrokerReason, QtyApproxEqual;
    assert forall q: real :: QtyApproxEqual(q, q) by { SelfApprox(); }
  }

  lemma SelfApprox()
    ensures forall q: real :: QtyApproxEqual(q, q)
  {
  }

  lemma MissingSays(env: Env, used: set<string>, r: Record)
    requires Settle(env, used, r).verdict.Missing?
    ensures var st := Settle(env, used, r);
      && st.verdict.resolution.authority == st.record.authority && st.verdict.resolution.status == st.record.status
      && (st.verdict.resolution.repaired <==> st.record.authority == Inferred)
      && (st.record.authority == Inferred || st.record.authority == Unresolved)
      && st.verdict.resolution.confidence == st.record.confidence
      && st.verdict.resolution.needsReview == st.record.needsReview
      && st.record.brokerOrderId == r.brokerOrderId
  {
    hide FindPendingMatch, PositionQty, HeldAtBroker, StillWaiting;
  }

  /** So what it adds to the counters is one for each event. */
  lemma TallySays(s: StoreValue, ids: seq<string>, env: Env, j: nat)
    requires IdsBounded(s.orders, s.nextId) && ProcessingOrder(ids, s.orders) && j < |ids|
    ensures var t := TallyOf(SettlementAt(s, ids, env, j));
      && t.repairs == One(Happens(Matched, s, ids, env, j)) + One(Happens(Changed, s, ids, env, j))
                      + One(Happens(IsInferred, s, ids, env, j))
      && t.fillMismatches == One(Happens(FillDiffers, s, ids, env, j))
      && t.localMissing == One(Happens(GoneMissing, s, ids, env, j))
      && t.inferred == One(Happens(IsInferred, s, ids, env, j))
      && t.unresolved == One(Happens(IsLeftOpen, s, ids, env, j))
      && t.resolved == One(Happens(Resolved, s, ids, env, j))
  {
    hide RecordPass, IdsBounded, UsedBefore, After, SomeOnOffer, Settle, ListedId, GivenTime;
    var used, r, st := UsedBefore(env, Start(s), ids, j), s.orders[ids[j]], SettlementAt(s, ids, env, j);
    VerdictSays(s, ids, env, j);
    if st.verdict.Confirmed? {
      ConfirmationSays(env, used, r);
    } else if st.verdict.Missing? {
      MissingSays(env, used, r);
    } else {
      QuietVerdict(env, used, r);
    }
  }

  lemma QuietVerdict(env: Env, used: set<string>, r: Record)
    requires !Settle(env, used, r).verdict.Confirmed? && !Settle(env, used, r).verdict.Missing?
    ensures Settle(env, used, r).record == r
  {
    hide FindPendingMatch, HeldAtBroker, InferMissing;
  }

  // ---- The whole run ----

  predicate CountsEvents(t: Tally, s: StoreValue, ids: seq<string>, env: Env, k: nat)
    requires IdsBounded(s.orders, s.nextId) && ProcessingOrder(ids, s.orders) && k <= |ids|
  {
    && t.repairs == t.imported + Times(Matched, s, ids, env, k) + Times(Changed, s, ids, env, k)
                    + Times(IsInferred, s, ids, env, k)
    && t.fillMismatches == Times(FillDiffers, s, ids, env, k)
    && t.localMissing == Times(GoneMissing, s, ids, env, k)
    && t.inferred == Times(IsInferred, s, ids, env, k)
    && t.unresolved == Times(IsLeftOpen, s, ids, env, k)
    && t.resolved == Times(Resolved, s, ids, env, k)
  }

  lemma PassAt(s: StoreValue, ids: seq<string>, env: Env, k: nat)
    requires IdsBounded(s.orders, s.nextId) && ProcessingOrder(ids, s.orders) && k < |ids|
    ensures var before, after := RecordPass(env, Start(s), ids[..k]), RecordPass(env, Start(s), ids[..k + 1]);
      && after.tally == before.tally.Plus(TallyOf(SettlementAt(s, ids, env, k)))
      && after.issues == before.issues + IssuesOf(SettlementAt(s, ids, env, k))
  {
    hide Settle, IdsBounded, TallyOf, IssuesOf;
    PrefixStep(env, Start(s), ids, k + 1);
    PassLeavesOthers(env, Start(s), ids[..k], ids[k]);
  }

  lemma {:induction false} PassCountsEvents(s: StoreValue, ids: seq<string>, env: Env, k: nat)
    requires IdsBounded(s.orders, s.nextId) && ProcessingOrder(ids, s.orders) && k <= |ids|
    ensures CountsEvents(RecordPass(env, Start(s), ids[..k]).tally, s, ids, env, k)
    ensures RecordPass(env, Start(s), ids[..k]).tally.imported == 0
  {
    hide Times, Happens, IdsBounded, RecordPass, TallyOf, SettlementAt;
    if k == 0 {
      PassOverNothing(env, Start(s));
      assert ids[..0] == [];
      forall e ensures Times(e, s, ids, env, 0) == 0 {
        NoTimes(e, s, ids, env);
      }
    } else {
      PassCountsEvents(s, ids, env, k - 1);
      PassAt(s, ids, env, k - 1);
      TallySays(s, ids, env, k - 1);
      SettlingImportsNothing(s, ids, env, k - 1);
      forall e ensures Times(e, s, ids, env, k) == Times(e, s, ids, env, k - 1) + One(Happens(e, s, ids, env, k - 1)) {
        OneMoreTime(e, s, ids, env, k - 1);
      }
    }
  }

  lemma SettlingImportsNothing(s: StoreValue, ids: seq<string>, env: Env, j: nat)
    requires j < |ids| && forall k | k in ids :: k in s.orders
    ensures TallyOf(SettlementAt(s, ids, env, j)).imported == 0
  {
    hide Settle;
  }

  lemma {:induction false} ImportsAddRepairs(p: Progress, open: seq<BrokerOrder>, now: Time)
    ensures var t, t' := p.tally, ImportPass(p, open, now).tally;
      && t'.imported >= t.imported && t'.repairs - t.repairs == t'.imported - t.imported
      && (t'.fillMismatches, t'.localMissing, t'.inferred, t'.unresolved, t'.resolved)
         == (t.fillMismatches, t.localMissing, t.inferred, t.unresolved, t.resolved)
  {
    hide LocalOrderId, Imported;
    if open != [] {
      ImportsAddRepairs(p, open[..|open| - 1], now);
    }
  }

  /** The report of a run counts, besides the imports, the records that were matched, changed, found missing, inferred,
      left unresolved and resolved, and those whose fill differs; it calls for review when one is missing, and blocks
      trading when one is left unresolved. */
  lemma ReportCountsEvents(s: StoreValue, ids: seq<string>, env: Env)
    requires IdsBounded(s.orders, s.nextId) && ProcessingOrder(ids, s.orders)
    ensures var report, s' := ReportOf(s, ids, env), Reconciled(s, ids, env);
      && CountsEvents(report.tally, s, ids, env, |ids|)
      && report.ranAt == env.now && report.localOrders == |s'.orders| && report.brokerOpen == |env.open|
      && report.activeLocal == |set id | id in s'.orders && !IsOver(s'.orders[id].status)|
      && (report.needsReview <==> Times(GoneMissing, s, ids, env, |ids|) > 0)
      && (report.tradingBlocked <==> Times(IsLeftOpen, s, ids, env, |ids|) > 0)
  {
    ReconcileConservesCounts(s, ids, env);
    OpenIsNotOver(Passes(s, ids, env).orders);
    hide Times, Happens, IdsBounded, RecordPass, ImportPass, WithAuthority, ActiveIds, MatchCount;
    assert ids[..|ids|] == ids;
    PassCountsEvents(s, ids, env, |ids|);
    ImportsAddRepairs(RecordPass(env, Start(s), ids), env.open, env.now);
  }

  lemma OpenIsNotOver(orders: Orders)
    ensures ActiveIds(orders) == set id | id in orders && !IsOver(orders[id].status)
  {
  }

  // ---- The issues ----

  /** The issue is true of the j-th record visited. */
  predicate TrueOfRecord(issue: Issue, s: StoreValue, ids: seq<string>, env: Env, j: nat)
    requires IdsBounded(s.orders, s.nextId) && ProcessingOrder(ids, s.orders) && j < |ids|
  {
    var r' := After(s, ids, env, j);
    && issue.localId == r'.localId && issue.brokerOrderId == r'.brokerOrderId
    && (issue.authority, issue.confidence, issue.needsReview) == (r'.authority, r'.confidence, r'.needsReview)
    && (match issue.kind
        case MatchedPendingOrder => Happens(Matched, s, ids, env, j) && issue.repaired
        case FillMismatch => Happens(FillDiffers, s, ids, env, j) && issue.repaired
        case LocalMissingAtBroker => Happens(GoneMissing, s, ids, env, j) && (issue.repaired <==> r'.authority == Inferred)
        case UnknownBrokerOrder => false)
  }

  /** Or of a record added for a listed order. */
  predicate TrueOfImport(issue: Issue, s: StoreValue, s': StoreValue) {
    && issue.kind == UnknownBrokerOrder && issue.localId !in s.orders && issue.localId in s'.orders && issue.repaired
    && issue.brokerOrderId == s'.orders[issue.localId].brokerOrderId
    && issue.authority == BrokerConfirmed && issue.confidence == ConfirmedTruth && !issue.needsReview
  }

  lemma SettlementIssuesAreTrue(s: StoreValue, ids: seq<string>, env: Env, j: nat, issue: Issue)
    requires IdsBounded(s.orders, s.nextId) && ProcessingOrder(ids, s.orders) && j < |ids|
    requires issue in IssuesOf(SettlementAt(s, ids, env, j))
    ensures TrueOfRecord(issue, s, ids, env, j)
  {
    hide RecordPass, IdsBounded, UsedBefore, After, SomeOnOffer, Settle, ListedId, GivenTime;
    var used, r, st := UsedBefore(env, Start(s), ids, j), s.orders[ids[j]], SettlementAt(s, ids, env, j);
    VerdictSays(s, ids, env, j);
    if st.verdict.Confirmed? {
      ConfirmationSays(env, used, r);
      ConfirmedIsBrokers(env, used, r);
    } else if st.verdict.Missing? {
      MissingSays(env, used, r);
    }
  }

  lemma ConfirmedIsBrokers(env: Env, used: set<string>, r: Record)
    requires Settle(env, used, r).verdict.Confirmed?
    ensures var r' := Settle(env, used, r).record;
      r'.authority == BrokerConfirmed && r'.confidence == ConfirmedTruth && !r'.needsReview
  {
    hide FindPendingMatch, BrokerReason, QtyApproxEqual;
  }

  lemma NothingReported(s: StoreValue, ids: seq<string>, env: Env)
    requires forall k | k in ids :: k in s.orders
    ensures RecordPass(env, Start(s), ids[..0]).issues == []
  {
    PassOverNothing(env, Start(s));
    assert ids[..0] == [];
  }

  lemma {:induction false} PassIssuesAreTrue(s: StoreValue, ids: seq<string>, env: Env, k: nat, issue: Issue)
    requires IdsBounded(s.orders, s.nextId) && ProcessingOrder(ids, s.orders) && k <= |ids|
    requires issue in RecordPass(env, Start(s), ids[..k]).issues
    ensures exists j: nat :: j < k && TrueOfRecord(issue, s, ids, env, j)
  {
    hide IdsBounded, RecordPass, SettlementAt, TrueOfRecord, IssuesOf;
    NothingReported(s, ids, env);
    if k > 0 {
      PassAt(s, ids, env, k - 1);
      if issue in IssuesOf(SettlementAt(s, ids, env, k - 1)) {
        SettlementIssuesAreTrue(s, ids, env, k - 1, issue);
      } else {
        PassIssuesAreTrue(s, ids, env, k - 1, issue);
      }
    }
  }

  lemma {:induction false} ImportIssuesAreTrue(p: Progress, open: seq<BrokerOrder>, now: Time, issue: Issue)
    requires IdsBounded(p.orders, p.nextId) && issue in ImportPass(p, open, now).issues && issue !in p.issues
    ensures var p' := ImportPass(p, open, now);
      && issue.kind == UnknownBrokerOrder && issue.localId !in p.orders && issue.localId in p'.orders && issue.repaired
      && issue.brokerOrderId == p'.orders[issue.localId].brokerOrderId
      && issue.authority == BrokerConfirmed && issue.confidence == ConfirmedTruth && !issue.needsReview
  {
    hide LocalOrderId, IdsBounded;
    if open != [] {
      var n := |open| - 1;
      var before := ImportPass(p, open[..n], now);
      ImportsAreFresh(p, open[..n], now);
      StepImportGrows(before, open[n], now);
      if issue in before.issues {
        ImportIssuesAreTrue(p, open[..n], now, issue);
      } else {
        FreshImport(before, open[n], now);
      }
    }
  }

  lemma FreshImport(p: Progress, o: BrokerOrder, now: Time)
    requires IdsBounded(p.orders, p.nextId) && Free(o, p.used)
    ensures LocalOrderId(BROKER_PREFIX, p.nextId + 1) !in p.orders
  {
    GeneratedIdIsNext(BROKER_PREFIX, p.nextId);
  }

  /** Every issue reported is true of a record the run settled, or of one it added. */
  lemma IssuesAreTrue(s: StoreValue, ids: seq<string>, env: Env, issue: Issue)
    requires IdsBounded(s.orders, s.nextId) && ProcessingOrder(ids, s.orders)
    requires issue in ReportOf(s, ids, env).issues
    ensures || TrueOfImport(issue, s, Reconciled(s, ids, env))
            || exists j: nat :: j < |ids| && TrueOfRecord(issue, s, ids, env, j)
  {
    hide IdsBounded, RecordPass, ImportPass, TrueOfRecord, Recount;
    var settled := RecordPass(env, Start(s), ids);
    assert ids[..|ids|] == ids;
    assert issue in Passes(s, ids, env).issues;
    PassKeepsIds(env, Start(s), ids);
    if issue in settled.issues {
      PassIssuesAreTrue(s, ids, env, |ids|, issue);
    } else {
      ImportIssuesAreTrue(settled, env.open, env.now, issue);
    }
  }

  // ---- The summary kept between runs ----

  /** Each total of the second summary is that of the first and the run's. */
  predicate Adds(before: Tally, run: Tally, after: Tally) {
    && after.mismatches == before.mismatches + run.mismatches && after.repairs == before.repairs + run.repairs
    && after.unknownBroker == before.unknownBroker + run.unknownBroker
    && after.localMissing == before.localMissing + run.localMissing
    && after.fillMismatches == before.fillMismatches + run.fillMismatches
    && after.imported == before.imported + run.imported && after.resolved == before.resolved + run.resolved
    && after.inferred == before.inferred + run.inferred && after.unresolved == before.unresolved + run.unresolved
  }

  /** The counts are those of the records: by status and, in a store in stored form, by authority. */
  predicate CountsRecords(c: Counts, orders: Orders) {
    && c.tracked == |orders| && c.active == |set id | id in orders && !IsOver(orders[id].status)|
    && c.pending == |set id | id in orders && orders[id].authority == LocalPending|
    && c.confirmed == |set id | id in orders && orders[id].authority == BrokerConfirmed|
    && c.inferred == |set id | id in orders && orders[id].authority == Inferred|
    && c.unresolved == |set id | id in orders && orders[id].authority == Unresolved|
    && (c.degraded <==> exists id :: id in orders && orders[id].authority in {Inferred, Unresolved})
  }

  lemma AuthorityAsRecorded(orders: Orders, a: Authority)
    requires Normal(orders)
    ensures WithAuthority(orders, a) == set id | id in orders && orders[id].authority == a
  {
    hide UpperTrimmed, LowerTrimmed;
  }

  lemma RecountCounts(orders: Orders)
    requires Normal(orders)
    ensures CountsRecords(Recount(orders), orders)
  {
    OpenIsNotOver(orders);
    AuthorityAsRecorded(orders, LocalPending);
    AuthorityAsRecorded(orders, BrokerConfirmed);
    AuthorityAsRecorded(orders, Inferred);
    AuthorityAsRecorded(orders, Unresolved);
    hide WithAuthority, ActiveIds, Normal;
    var inferred := set id | id in orders && orders[id].authority == Inferred;
    var unresolved := set id | id in orders && orders[id].authority == Unresolved;
    assert |inferred| > 0 <==> inferred != {};
    assert |unresolved| > 0 <==> unresolved != {};
    if id :| id in orders && orders[id].authority in {Inferred, Unresolved} {
      assert id in inferred || id in unresolved;
    }
  }

  /** A run adds its counters to the totals, dates itself, keeps the dates of earlier outcomes unless it has one of
      its own, and leaves counts that are those of the records. */
  lemma SummaryFollowsReport(s: StoreValue, ids: seq<string>, env: Env)
    requires Inv(s) && ProcessingOrder(ids, s.orders) && env.now != ZERO_TIME
    ensures var report, before, after := ReportOf(s, ids, env), s.summary, Reconciled(s, ids, env).summary;
      && after.lastRunAt == after.lastSuccessAt == env.now && after.lastError == ""
      && after.totalRuns == before.totalRuns + 1 && Adds(before.totals, report.tally, after.totals)
      && after.lastInferredAt == (if report.tally.inferred > 0 then env.now else before.lastInferredAt)
      && after.lastUnresolvedAt == (if report.tally.unresolved > 0 then env.now else before.lastUnresolvedAt)
      && after.brokerOpen == |env.open| && after.lastIssues == report.issues
      && CountsRecords(after.counts, Reconciled(s, ids, env).orders)
  {
    hide RecordPass, ImportPass, Recount, CountsRecords, IdsBounded, NormalRecord, IndexCovers;
    ReconcileKeepsInv(s, ids, env);
    RecountCounts(Reconciled(s, ids, env).orders);
  }

  /** A store that was never used has counted nothing. */
  lemma NewStoreHasCountedNothing()
    ensures var summary := EMPTY_STORE.summary;
      && EMPTY_STORE.nextId == 0 && EMPTY_STORE.orders == map[] && EMPTY_STORE.index == map[]
      && summary.totals == Tally(0, 0, 0, 0, 0, 0, 0, 0, 0) && summary.counts == Counts(0, 0, 0, 0, 0, 0, false)
      && summary.lastRunAt == summary.lastSuccessAt == summary.lastInferredAt == summary.lastUnresolvedAt == 0
      && summary.lastError == "" && summary.totalRuns == summary.brokerOpen == 0 && summary.lastIssues == []
  {
  }
}
