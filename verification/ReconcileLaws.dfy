/** Laws of one reconciliation: nothing is lost, counts are conserved, closed records are left
    alone, and what stays unresolved is recent. */
module ReconcileLaws {
  import opened Basics
  import opened Text
  import opened OrderModel
  import opened OrderSpec

  predicate Distinct(ids: seq<string>) {
    forall i, j | 0 <= i < j < |ids| :: ids[i] != ids[j]
  }

  /** Every record sits under its own trimmed id, whose sequence number is at most the counter. */
  predicate IdsBounded(orders: Orders, nextId: nat) {
    forall id | id in orders ::
      orders[id].localId == id && id != "" && Trimmed(id) && ParseOrderSequence(id) <= nextId
  }

  // ---- One record ----

  lemma SettleKeepsIdentity(env: Env, used: set<string>, r: Record)
    ensures var r' := Settle(env, used, r).record;
      && r'.localId == r.localId && r'.symbol == r.symbol && r'.side == r.side && r'.positionSide == r.positionSide
      && r'.intent == r.intent && r'.source == r.source && r'.submittedAt == r.submittedAt
  {
    hide FindPendingMatch, InferMissing, QtyApproxEqual;
  }

  function UsedAfter(used: set<string>, s: Settlement): set<string> {
    if s.verdict.Confirmed? then used + {s.verdict.order.orderId} else used
  }

  /** Settling a record marks exactly the broker order it ends up holding. */
  lemma SettleMarksHeld(env: Env, used: set<string>, r: Record, b: string)
    requires b != ""
    ensures var marked := Marked(used, r, env.open);
      var s := Settle(env, marked, r);
      b in UsedAfter(marked, s) <==> b in used || (b == s.record.brokerOrderId && b in OpenById(env.open))
  {
  }

  // ---- The record pass ----

  /** Splits off the last record of a pass. */
  lemma PassStep(env: Env, p: Progress, ids: seq<string>) returns (before: Progress, last: string)
    requires ids != [] && forall id | id in ids :: id in p.orders
    ensures last == ids[|ids| - 1] && last in ids
    ensures forall id | id in ids[..|ids| - 1] :: id in ids && id in p.orders
    ensures before == RecordPass(env, p, ids[..|ids| - 1]) && last in before.orders
    ensures RecordPass(env, p, ids) == StepRecord(env, before, last)
  {
    last := ids[|ids| - 1];
    before := RecordPass(env, p, ids[..|ids| - 1]);
  }

  lemma {:induction false} PassLeavesOthers(env: Env, p: Progress, ids: seq<string>, id: string)
    requires forall i | i in ids :: i in p.orders
    requires id in p.orders && id !in ids
    ensures RecordPass(env, p, ids).orders[id] == p.orders[id]
  {
    if ids != [] {
      var before, last := PassStep(env, p, ids);
      PassLeavesOthers(env, p, ids[..|ids| - 1], id);
    }
  }

  function UsedBefore(env: Env, p: Progress, ids: seq<string>, j: nat): set<string>
    requires j < |ids| && forall id | id in ids :: id in p.orders
  {
    Marked(RecordPass(env, p, ids[..j]).used, p.orders[ids[j]], env.open)
  }

  /** The pass settles each record once, against the broker ids used by the records before it. */
  lemma {:induction false} PassSettlesEach(env: Env, p: Progress, ids: seq<string>, j: nat)
    requires j < |ids| && Distinct(ids) && forall id | id in ids :: id in p.orders
    ensures RecordPass(env, p, ids).orders[ids[j]]
         == Settle(env, UsedBefore(env, p, ids, j), p.orders[ids[j]]).record
  {
    hide Settle, TallyOf, IssuesOf;
    var before, last := PassStep(env, p, ids);
    var n := |ids| - 1;
    if j == n {
      PassLeavesOthers(env, p, ids[..n], last);
    } else {
      PassSettlesEach(env, p, ids[..n], j);
      assert ids[..n][..j] == ids[..j];
    }
  }

  predicate HeldBySome(b: string, orders: Orders, ids: seq<string>) {
    exists id :: id in ids && id in orders && orders[id].brokerOrderId == b
  }

  /** The used ids are exactly the listed broker ids held by the records settled so far. */
  lemma {:induction false} UsedIsHeld(env: Env, p: Progress, ids: seq<string>, b: string)
    requires Distinct(ids) && (forall id | id in ids :: id in p.orders) && b != "" && b !in p.used
    ensures b in RecordPass(env, p, ids).used
      <==> b in OpenById(env.open) && HeldBySome(b, RecordPass(env, p, ids).orders, ids)
  {
    hide Settle, TallyOf, IssuesOf;
    if ids != [] {
      var before, last := PassStep(env, p, ids);
      var prefix := ids[..|ids| - 1];
      UsedIsHeld(env, p, prefix, b);
      SettleMarksHeld(env, before.used, before.orders[last], b);
      var after := RecordPass(env, p, ids);
      assert ids == prefix + [last];
      assert forall id | id in prefix :: after.orders[id] == before.orders[id];
      assert HeldBySome(b, after.orders, ids)
        <==> HeldBySome(b, before.orders, prefix) || after.orders[last].brokerOrderId == b;
    }
  }

  lemma HeldIsUsed(env: Env, p: Progress, ids: seq<string>, id: string)
    requires Distinct(ids) && (forall i | i in ids :: i in p.orders) && p.used == {} && id in ids
    requires RecordPass(env, p, ids).orders[id].brokerOrderId != ""
    requires RecordPass(env, p, ids).orders[id].brokerOrderId in OpenById(env.open)
    ensures RecordPass(env, p, ids).orders[id].brokerOrderId in RecordPass(env, p, ids).used
  {
    hide RecordPass;
    UsedIsHeld(env, p, ids, RecordPass(env, p, ids).orders[id].brokerOrderId);
  }

  /** Unfolds the last step of a pass over a prefix. */
  lemma PrefixStep(env: Env, p: Progress, ids: seq<string>, k: nat)
    requires 0 < k <= |ids| && forall id | id in ids :: id in p.orders
    ensures ids[..k] == ids[..k - 1] + [ids[k - 1]]
    ensures RecordPass(env, p, ids[..k]) == StepRecord(env, RecordPass(env, p, ids[..k - 1]), ids[k - 1])
  {
    assert ids[..k][..k - 1] == ids[..k - 1];
  }

  // ---- The import pass ----

  /** An id above the counter: not in use, and in bounds once the counter has moved to it. */
  predicate NextId(id: string, nextId: nat) {
    id != "" && Trimmed(id) && ParseOrderSequence(id) == nextId + 1
  }

  lemma GeneratedIdIsNext(prefix: string, nextId: nat)
    requires prefix == LOCAL_PREFIX || prefix == BROKER_PREFIX
    ensures NextId(LocalOrderId(prefix, nextId + 1), nextId)
  {
    OrderIdReadsBack(prefix, nextId + 1);
  }

  /** `after` keeps all of `before` and adds records only under higher ids, one per counter step. */
  predicate Grown(before: Progress, after: Progress) {
    && IdsBounded(after.orders, after.nextId)
    && after.nextId >= before.nextId
    && (forall id | id in before.orders :: id in after.orders && after.orders[id] == before.orders[id])
    && |after.orders| == |before.orders| + (after.nextId - before.nextId)
    && after.tally.imported == before.tally.imported + (after.nextId - before.nextId)
    && (forall id | id in after.orders && id !in before.orders :: ParseOrderSequence(id) > before.nextId)
  }

  lemma GrowsByOne(p: Progress, p': Progress, id: string, r: Record)
    requires IdsBounded(p.orders, p.nextId) && NextId(id, p.nextId) && r.localId == id
    requires p'.orders == p.orders[id := r] && p'.nextId == p.nextId + 1
    requires p'.tally.imported == p.tally.imported + 1
    ensures id !in p.orders && Grown(p, p')
  {
    assert p'.orders.Keys == p.orders.Keys + {id};
  }

  predicate HeldInStore(b: string, orders: Orders) {
    exists id :: id in orders && orders[id].brokerOrderId == b
  }

  lemma StepImportGrows(p: Progress, o: BrokerOrder, now: Time)
    requires IdsBounded(p.orders, p.nextId)
    ensures Grown(p, StepImport(p, o, now))
    ensures Free(o, p.used) ==> HeldInStore(o.orderId, StepImport(p, o, now).orders)
  {
    if Free(o, p.used) {
      var id := LocalOrderId(BROKER_PREFIX, p.nextId + 1);
      GeneratedIdIsNext(BROKER_PREFIX, p.nextId);
      var p' := ImportAs(p, o, id, now);
      GrowsByOne(p, p', id, p'.orders[id]);
      assert p'.orders[id].brokerOrderId == o.orderId;
    }
  }

  lemma GrownTransitive(p: Progress, q: Progress, r: Progress)
    requires Grown(p, q) && Grown(q, r)
    ensures Grown(p, r)
  {
  }

  /** Imports add records under fresh ids, one for each step of the counter, and touch nothing else. */
  lemma {:induction false} ImportsAreFresh(p: Progress, open: seq<BrokerOrder>, now: Time)
    requires IdsBounded(p.orders, p.nextId)
    ensures Grown(p, ImportPass(p, open, now))
  {
    if open != [] {
      var before := ImportPass(p, open[..|open| - 1], now);
      ImportsAreFresh(p, open[..|open| - 1], now);
      StepImportGrows(before, open[|open| - 1], now);
      GrownTransitive(p, before, ImportPass(p, open, now));
    }
  }

  predicate ImportedFrom(r: Record, id: string, open: seq<BrokerOrder>, used: set<string>, now: Time) {
    exists i :: 0 <= i < |open| && Free(open[i], used) && r == Imported(open[i], id, now)
  }

  /** Every record the import pass writes is made from a free broker order. */
  lemma {:induction false} ImportsComeFromOrders(p: Progress, open: seq<BrokerOrder>, now: Time, id: string)
    requires id in ImportPass(p, open, now).orders
    ensures var r := ImportPass(p, open, now).orders[id];
      (id in p.orders && r == p.orders[id]) || ImportedFrom(r, id, open, p.used, now)
  {
    if open != [] {
      var n := |open| - 1;
      var before := ImportPass(p, open[..n], now);
      var after := StepImport(before, open[n], now);
      if id in before.orders && after.orders[id] == before.orders[id] {
        ImportsComeFromOrders(p, open[..n], now, id);
        if ImportedFrom(before.orders[id], id, open[..n], p.used, now) {
          var i :| 0 <= i < n && Free(open[..n][i], p.used) && before.orders[id] == Imported(open[..n][i], id, now);
          assert open[i] == open[..n][i];
        }
      } else {
        assert Free(open[n], p.used) && after.orders[id] == Imported(open[n], id, now);
      }
    }
  }

  /** A broker order no record uses ends up held by an imported record. */
  lemma {:induction false} ImportsCover(p: Progress, open: seq<BrokerOrder>, now: Time, o: BrokerOrder)
    requires IdsBounded(p.orders, p.nextId)
    requires o in open && Free(o, p.used)
    ensures HeldInStore(o.orderId, ImportPass(p, open, now).orders)
  {
    var n := |open| - 1;
    assert open == open[..n] + [open[n]];
    var before := ImportPass(p, open[..n], now);
    ImportsAreFresh(p, open[..n], now);
    StepImportGrows(before, open[n], now);
    var after := StepImport(before, open[n], now);
    if o in open[..n] {
      ImportsCover(p, open[..n], now, o);
      var id :| id in before.orders && before.orders[id].brokerOrderId == o.orderId;
      assert after.orders[id].brokerOrderId == o.orderId;
    }
  }

  // ---- The whole reconciliation ----

  lemma {:induction false} PassKeepsIds(env: Env, p: Progress, ids: seq<string>)
    requires (forall id | id in ids :: id in p.orders) && IdsBounded(p.orders, p.nextId)
    ensures IdsBounded(RecordPass(env, p, ids).orders, p.nextId)
    ensures RecordPass(env, p, ids).tally.imported == p.tally.imported
  {
    if ids != [] {
      var before, last := PassStep(env, p, ids);
      PassKeepsIds(env, p, ids[..|ids| - 1]);
      SettleKeepsIdentity(env, Marked(before.used, before.orders[last], env.open), before.orders[last]);
    }
  }

  /** After reconciliation every listed broker order is held by a record, no record has gone,
      and the store has grown by the imported orders, under ids above every earlier one. */
  lemma ReconcileLosesNothing(s: StoreValue, ids: seq<string>, env: Env)
    requires IdsBounded(s.orders, s.nextId) && ProcessingOrder(ids, s.orders)
    ensures var s', report := Reconciled(s, ids, env), ReportOf(s, ids, env);
      && IdsBounded(s'.orders, s'.nextId)
      && s.orders.Keys <= s'.orders.Keys
      && |s'.orders| == |s.orders| + report.tally.imported
      && s'.nextId == s.nextId + report.tally.imported
      && (forall id | id in s'.orders && id !in s.orders :: ParseOrderSequence(id) > s.nextId)
      && (forall o | o in env.open && o.orderId != "" :: HeldInStore(o.orderId, s'.orders))
  {
    var settled := RecordPass(env, Start(s), ids);
    PassKeepsIds(env, Start(s), ids);
    ImportsAreFresh(settled, env.open, env.now);
    var done := Passes(s, ids, env);
    assert |settled.orders.Keys| == |s.orders.Keys|;
    forall o | o in env.open && o.orderId != ""
      ensures HeldInStore(o.orderId, done.orders)
    {
      if o.orderId in settled.used {
        UsedIsHeld(env, Start(s), ids, o.orderId);
        var id :| id in ids && settled.orders[id].brokerOrderId == o.orderId;
        assert done.orders[id].brokerOrderId == o.orderId;
      } else {
        ImportsCover(settled, env.open, env.now, o);
      }
    }
  }

  /** Each record present before is settled once; each other record is an import. */
  lemma ReconcileSettlesEach(s: StoreValue, ids: seq<string>, env: Env, id: string)
    requires IdsBounded(s.orders, s.nextId) && ProcessingOrder(ids, s.orders)
    requires id in Reconciled(s, ids, env).orders
    ensures id in s.orders ==> exists used ::
              Reconciled(s, ids, env).orders[id] == Settle(env, used, s.orders[id]).record
    ensures id !in s.orders ==>
              ImportedFrom(Reconciled(s, ids, env).orders[id], id, env.open, RecordPass(env, Start(s), ids).used, env.now)
  {
    PassKeepsIds(env, Start(s), ids);
    ImportsAreFresh(RecordPass(env, Start(s), ids), env.open, env.now);
    if id in s.orders {
      var j :| 0 <= j < |ids| && ids[j] == id;
      PassSettlesEach(env, Start(s), ids, j);
    } else {
      ImportsComeFromOrders(RecordPass(env, Start(s), ids), env.open, env.now, id);
    }
  }

  /** A filled, cancelled or rejected record is never altered. */
  lemma ReconcileKeepsClosed(s: StoreValue, ids: seq<string>, env: Env, id: string)
    requires IdsBounded(s.orders, s.nextId) && ProcessingOrder(ids, s.orders)
    requires id in s.orders && s.orders[id].status.Terminal()
    ensures id in Reconciled(s, ids, env).orders && Reconciled(s, ids, env).orders[id] == s.orders[id]
  {
    ReconcileLosesNothing(s, ids, env);
    ReconcileSettlesEach(s, ids, env, id);
  }

  // ---- Conservation of counts ----

  /** Settling a record adds one issue for each mismatch it counts, and every missing record
      is either inferred or unresolved. */
  lemma SettlementBalances(env: Env, used: set<string>, r: Record)
    ensures var s := Settle(env, used, r); var t := TallyOf(s);
      && |IssuesOf(s)| == t.mismatches
      && t.inferred + t.unresolved == t.localMissing
      && t.mismatches == t.unknownBroker + t.localMissing + t.fillMismatches + One(s.verdict.Confirmed? && s.verdict.matched)
  {
  }

  function MatchCount(issues: seq<Issue>): nat {
    if issues == [] then 0
    else MatchCount(issues[..|issues| - 1]) + One(issues[|issues| - 1].kind == MatchedPendingOrder)
  }

  lemma {:induction false} MatchCountAppends(a: seq<Issue>, b: seq<Issue>)
    ensures MatchCount(a + b) == MatchCount(a) + MatchCount(b)
  {
    if b == [] {
      assert a + b == a;
    } else {
      assert (a + b)[..|a + b| - 1] == a + b[..|b| - 1];
      MatchCountAppends(a, b[..|b| - 1]);
    }
  }

  /** The counters agree with one another and with the full list of issues. */
  predicate Conserved(p: Progress) {
    && p.tally.mismatches
       == p.tally.unknownBroker + p.tally.localMissing + p.tally.fillMismatches + MatchCount(p.issues)
    && p.tally.inferred + p.tally.unresolved == p.tally.localMissing
    && p.tally.unknownBroker == p.tally.imported
    && |p.issues| == p.tally.mismatches
  }

  lemma MatchCountOfSettlement(s: Settlement)
    ensures MatchCount(IssuesOf(s)) == One(s.verdict.Confirmed? && s.verdict.matched)
  {
    var issues := IssuesOf(s);
    assert issues != [] ==> MatchCount(issues) == MatchCount(issues[..|issues| - 1])
                                                + One(issues[|issues| - 1].kind == MatchedPendingOrder);
    if |issues| == 2 {
      assert issues[..1] == [issues[0]] && [issues[0]][..0] == [];
    }
  }

  lemma {:induction false} PassConserves(env: Env, p: Progress, ids: seq<string>)
    requires (forall id | id in ids :: id in p.orders) && Conserved(p)
    ensures Conserved(RecordPass(env, p, ids))
  {
    if ids != [] {
      var before, last := PassStep(env, p, ids);
      PassConserves(env, p, ids[..|ids| - 1]);
      var used := Marked(before.used, before.orders[last], env.open);
      var s := Settle(env, used, before.orders[last]);
      SettlementBalances(env, used, before.orders[last]);
      MatchCountOfSettlement(s);
      MatchCountAppends(before.issues, IssuesOf(s));
    }
  }

  lemma {:induction false} ImportsConserve(p: Progress, open: seq<BrokerOrder>, now: Time)
    requires Conserved(p)
    ensures Conserved(ImportPass(p, open, now))
  {
    if open != [] {
      ImportsConserve(p, open[..|open| - 1], now);
      var before := ImportPass(p, open[..|open| - 1], now);
      var p' := ImportPass(p, open, now);
      if p' != before {
        MatchCountAppends(before.issues, [p'.issues[|p'.issues| - 1]]);
      }
    }
  }

  /** Mismatches are the sum of their kinds, missing orders are inferred or unresolved,
      and the reported issues are as many as the mismatches, up to the cap. */
  lemma ReconcileConservesCounts(s: StoreValue, ids: seq<string>, env: Env)
    requires ProcessingOrder(ids, s.orders)
    ensures var report := ReportOf(s, ids, env); var t := report.tally;
      && t.mismatches
         == t.unknownBroker + t.localMissing + t.fillMismatches + MatchCount(Passes(s, ids, env).issues)
      && t.inferred + t.unresolved == t.localMissing
      && t.unknownBroker == t.imported
      && |report.issues| == (if t.mismatches < 12 then t.mismatches else 12)
  {
    PassConserves(env, Start(s), ids);
    ImportsConserve(RecordPass(env, Start(s), ids), env.open, env.now);
  }
}
