/** Reconciling twice against the same broker orders, positions and instant: the second run finds
    nothing new and leaves every record as it was. */
module ReconcileStability {
  import opened Basics
  import opened Text
  import opened OrderModel
  import opened OrderSpec
  import opened ReconcileLaws

  /** Every listed broker order has an id, and no two share one. */
  predicate DistinctOrders(open: seq<BrokerOrder>) {
    && (forall i | 0 <= i < |open| :: open[i].orderId != "")
    && (forall i, j | 0 <= i < j < |open| :: open[i].orderId != open[j].orderId)
  }

  /** The second record, open and holding no listed order, fits one that the first holds or, being open, fits
      as well: which of the two is visited first makes a difference. */
  predicate Rivals(r: Record, r': Record, env: Env) {
    && !r'.status.Terminal() && !HeldAtBroker(r', env.open)
    && exists i :: 0 <= i < |env.open| && Eligible(r', env.open[i])
         && (r.brokerOrderId == env.open[i].orderId || (!r.status.Terminal() && Eligible(r, env.open[i])))
  }

  /** No two rivals were submitted at the same instant. */
  predicate DistinctRivals(orders: Orders, env: Env) {
    forall id, id' | id in orders && id' in orders && id != id' && Rivals(orders[id], orders[id'], env) ::
      orders[id].submittedAt != orders[id'].submittedAt
  }

  lemma {:induction false} ListedUnderItsId(open: seq<BrokerOrder>, o: BrokerOrder)
    requires DistinctOrders(open) && o in open
    ensures o.orderId in OpenById(open) && OpenById(open)[o.orderId] == o
  {
    var n := |open| - 1;
    var i :| 0 <= i <= n && open[i] == o;
    var before := open[..n];
    assert forall k | 0 <= k < n :: before[k] == open[k];
    if i < n {
      assert before[i] == o && open[n].orderId != o.orderId;
      ListedUnderItsId(before, o);
    }
  }

  // ---- A record that has been settled once ----

  /** The record once more confirmed by the broker order it holds. */
  function Refreshed(r: Record, env: Env): Record {
    if !r.status.Terminal() && HeldAtBroker(r, env.open) then
      r.(reason := BrokerReason(OpenById(env.open)[r.brokerOrderId]),
         lastMessage := BrokerReason(OpenById(env.open)[r.brokerOrderId]))
    else r
  }

  /** A settlement that changes nothing and reports at most an outcome that is still unresolved. */
  predicate Quiet(s: Settlement, r: Record, r': Record) {
    && s.record == r'
    && (|| (r' == r && (s.verdict.Untouched? || s.verdict.Waiting?))
        || (&& s.verdict.Confirmed? && !s.verdict.matched && !s.verdict.fillMismatch
            && !r'.status.Terminal() && (r' == r <==> !s.verdict.changed))
        || (&& r' == r && s.verdict.Missing? && s.verdict.resolution.authority == Unresolved
            && s.verdict.resolution.status == Unknown && !s.verdict.resolution.repaired))
  }

  /** Among the orders that could match the record, the second used set has every one the first has. */
  predicate NoFreer(r: Record, open: seq<BrokerOrder>, used: set<string>, used': set<string>) {
    forall o | o in open && Eligible(r, o) && o.orderId in used :: o.orderId in used'
  }

  lemma MatchStaysNone(r: Record, r': Record, open: seq<BrokerOrder>, used: set<string>, used': set<string>)
    requires FindPendingMatch(r, open, used).None? && NoFreer(r, open, used, used')
    requires DistinctOrders(open)
    requires r.symbol == r'.symbol && r.side == r'.side && r.submittedAt == r'.submittedAt
          && r.requestedQty == r'.requestedQty
    ensures FindPendingMatch(r', open, used').None?
  {
    hide EqualFold, UpperTrim, QtyApproxEqual;
    forall o | o in open ensures !(Free(o, used') && Eligible(r', o)) {
      assert Eligible(r', o) == Eligible(r, o);
    }
  }

  /** A held record, or one just confirmed, is confirmed again without change. */
  lemma ConfirmedAgain(env: Env, linked: Record, o: BrokerOrder, used: set<string>)
    requires DistinctOrders(env.open) && o in env.open
    ensures var r := WithBrokerTruth(linked, o, env.now);
      Quiet(Settle(env, used, r), r, r) && Refreshed(r, env) == r
  {
    hide QtyApproxEqual, FindPendingMatch, TrimRight;
    ListedUnderItsId(env.open, o);
    BrokerTruthIsStable(linked, o, env.now);
  }

  /** An imported record is confirmed by its own broker order, which only rewrites the explanation. */
  lemma ImportedAgain(env: Env, o: BrokerOrder, id: string, used: set<string>)
    requires DistinctOrders(env.open) && o in env.open
    ensures var r := Imported(o, id, env.now);
      Quiet(Settle(env, used, r), r, Refreshed(r, env))
  {
    hide FindPendingMatch, TrimRight, InferIntent, UpperTrim, LowerTrim;
    ListedUnderItsId(env.open, o);
    assert forall q: real :: QtyApproxEqual(q, q);
  }

  /** What settling left of a record is settled to itself by a second run. */
  lemma SettledAgain(env: Env, used: set<string>, used': set<string>, r: Record)
    requires DistinctOrders(env.open) && env.now != ZERO_TIME
    requires !HeldAtBroker(r, env.open) && !r.status.Terminal() ==> NoFreer(r, env.open, used, used')
    ensures var once := Settle(env, used, r).record;
      Quiet(Settle(env, used', once), once, once) && Refreshed(once, env) == once
  {
    hide QtyApproxEqual, UpperTrim, EqualFold, TrimRight, PositionQty, StillWaiting, WithBrokerTruth, NoFreer;
    var s := Settle(env, used, r);
    if r.status.Terminal() {
    } else if s.verdict.Confirmed? {
      var linked := if s.verdict.matched then r.(brokerOrderId := s.verdict.order.orderId) else r;
      ConfirmedAgain(env, linked, s.verdict.order, used');
    } else {
      MatchStaysNone(r, s.record, env.open, used, used');
      if s.verdict.Missing? {
        InferenceIsStable(r, env.positions, env.now);
        UnresolvedRepeats(r, env);
      }
    }
  }

  lemma UnresolvedRepeats(r: Record, env: Env)
    requires InferMissing(r, env.positions, env.now).Some?
    ensures var resolution := InferMissing(r, env.positions, env.now).value;
      resolution.authority == Unresolved ==> resolution.status == Unknown && !resolution.repaired
  {
  }

  // ---- The second pass ----

  /** Nothing is reported but outcomes that are still unresolved. */
  predicate QuietTally(t: Tally) {
    && t.mismatches == t.localMissing == t.unresolved
    && t.fillMismatches == t.unknownBroker == t.imported == t.inferred == t.resolved == 0
  }

  /** What the second run leaves under an id. */
  function Second(s0: StoreValue, s1: StoreValue, env: Env, id: string): Record
    requires id in s1.orders
  {
    if id in s0.orders then s1.orders[id] else Refreshed(s1.orders[id], env)
  }

  /** The records whose explanation the second run rewrites. */
  function Rewritten(s0: StoreValue, s1: StoreValue, env: Env, done: seq<string>): set<string> {
    set id | id in done && id in s1.orders && Second(s0, s1, env, id) != s1.orders[id]
  }

  /** The state of the second pass when it has settled the given ids. */
  predicate Steady(s0: StoreValue, s1: StoreValue, env: Env, done: seq<string>, p: Progress) {
    && p.orders.Keys == s1.orders.Keys && p.nextId == s1.nextId && p.index == s1.index
    && (forall id | id in s1.orders :: p.orders[id] == if id in done then Second(s0, s1, env, id) else s1.orders[id])
    && QuietTally(p.tally)
    && p.tally.repairs == |Rewritten(s0, s1, env, done)|
  }

  /** The second order visits a record after the rivals that the first visits before it. */
  predicate KeepsOrder(orders: Orders, ids1: seq<string>, ids2: seq<string>, env: Env)
    requires forall id | id in ids1 :: id in orders
  {
    forall i, j, k | 0 <= i < j < |ids1| && 0 <= k < |ids2| && ids2[k] == ids1[j]
                     && Rivals(orders[ids1[i]], orders[ids1[j]], env) ::
      ids1[i] in ids2[..k]
  }

  lemma SteadyKeepsBroker(s0: StoreValue, s1: StoreValue, env: Env, done: seq<string>, p: Progress, id: string)
    requires Steady(s0, s1, env, done, p) && id in s1.orders
    ensures id in p.orders && p.orders[id].brokerOrderId == s1.orders[id].brokerOrderId
  {
    hide QuietTally, HeldAtBroker;
  }

  /** `s1` comes from reconciling `s0`, and `ids2` processes it, old records in their old order. */
  ghost predicate Twice(s0: StoreValue, ids1: seq<string>, s1: StoreValue, ids2: seq<string>, env: Env) {
    && IdsBounded(s0.orders, s0.nextId) && DistinctOrders(env.open) && env.now != ZERO_TIME
    && ProcessingOrder(ids1, s0.orders) && s1 == Reconciled(s0, ids1, env)
    && Distinct(ids2) && (forall id :: id in ids2 <==> id in s1.orders)
    && KeepsOrder(s0.orders, ids1, ids2, env)
  }

  /** A broker order used before a record in the first run is held by an earlier record. */
  lemma EarlierHolder(s0: StoreValue, ids1: seq<string>, env: Env, j: nat, b: string) returns (id: string)
    requires IdsBounded(s0.orders, s0.nextId) && ProcessingOrder(ids1, s0.orders) && j < |ids1|
    requires b != "" && b in RecordPass(env, Start(s0), ids1[..j]).used
    ensures id in ids1[..j] && id in Reconciled(s0, ids1, env).orders && id in s0.orders
    ensures Reconciled(s0, ids1, env).orders[id].brokerOrderId == b && b in OpenById(env.open)
  {
    hide Settle, StepRecord, IdsBounded, OpenById, Reconciled;
    UsedIsHeld(env, Start(s0), ids1[..j], b);
    id :| id in ids1[..j] && RecordPass(env, Start(s0), ids1[..j]).orders[id].brokerOrderId == b;
    var i :| 0 <= i < j && ids1[i] == id;
    SettledEarlier(s0, ids1, env, i, j);
  }

  /** A record ends up with a listed order if it held it or, being open, fits it. */
  lemma HolderHeldOrFits(env: Env, used: set<string>, r: Record, b: string)
    requires b != "" && Settle(env, used, r).record.brokerOrderId == b && r.brokerOrderId != b
    ensures !r.status.Terminal() && exists i :: 0 <= i < |env.open| && env.open[i].orderId == b && Eligible(r, env.open[i])
  {
    hide Eligible, StillWaiting, Resolve;
  }

  lemma SameIdSameOrder(open: seq<BrokerOrder>, i: nat, j: nat)
    requires DistinctOrders(open) && i < |open| && j < |open| && open[i].orderId == open[j].orderId
    ensures i == j
  {
  }

  lemma EarlierIsRival(s0: StoreValue, ids1: seq<string>, env: Env, i: nat, j: nat, o: BrokerOrder)
    requires IdsBounded(s0.orders, s0.nextId) && ProcessingOrder(ids1, s0.orders) && i < j < |ids1|
    requires DistinctOrders(env.open) && o in env.open && Eligible(s0.orders[ids1[j]], o)
    requires !s0.orders[ids1[j]].status.Terminal() && !HeldAtBroker(s0.orders[ids1[j]], env.open)
    requires ids1[i] in Reconciled(s0, ids1, env).orders
    requires Reconciled(s0, ids1, env).orders[ids1[i]].brokerOrderId == o.orderId
    ensures Rivals(s0.orders[ids1[i]], s0.orders[ids1[j]], env)
  {
    hide Eligible, Settle, Reconciled, RecordPass, IdsBounded, OpenById;
    var r := s0.orders[ids1[i]];
    SettledEarlier(s0, ids1, env, i, |ids1|);
    var k :| 0 <= k < |env.open| && env.open[k] == o;
    if r.brokerOrderId != o.orderId {
      HolderHeldOrFits(env, UsedBefore(env, Start(s0), ids1, i), r, o.orderId);
      var l :| 0 <= l < |env.open| && env.open[l].orderId == o.orderId && Eligible(r, env.open[l]);
      SameIdSameOrder(env.open, k, l);
    }
  }

  /** So it is used before that record in the second run too. */
  lemma UsedAgain(s0: StoreValue, ids1: seq<string>, s1: StoreValue, ids2: seq<string>, env: Env, j: nat, k: nat,
                  p: Progress, o: BrokerOrder)
    requires Twice(s0, ids1, s1, ids2, env) && j < |ids1| && k < |ids2| && ids1[j] == ids2[k]
    requires p == RecordPass(env, Start(s1), ids2[..k]) && Steady(s0, s1, env, ids2[..k], p)
    requires o in env.open && o.orderId in RecordPass(env, Start(s0), ids1[..j]).used
    requires Eligible(s0.orders[ids1[j]], o)
    requires !s0.orders[ids1[j]].status.Terminal() && !HeldAtBroker(s0.orders[ids1[j]], env.open)
    ensures o.orderId in p.used
  {
    hide RecordPass, StepRecord, Settle, IdsBounded, HeldBySome, OpenById, QuietTally, Reconciled, Refreshed, Steady,
         Eligible, Rivals;
    var id := EarlierHolder(s0, ids1, env, j, o.orderId);
    var i :| 0 <= i < j && ids1[i] == id;
    EarlierIsRival(s0, ids1, env, i, j, o);
    assert id in ids2[..k];
    SteadyKeepsBroker(s0, s1, env, ids2[..k], p, id);
    HeldIsUsed(env, Start(s1), ids2[..k], id);
  }

  lemma KeptByImports(s0: StoreValue, ids1: seq<string>, env: Env, id: string)
    requires IdsBounded(s0.orders, s0.nextId) && ProcessingOrder(ids1, s0.orders) && id in s0.orders
    ensures id in Reconciled(s0, ids1, env).orders
    ensures Reconciled(s0, ids1, env).orders[id] == RecordPass(env, Start(s0), ids1).orders[id]
  {
    hide Settle, ParseOrderSequence, Trimmed, Recount;
    PassKeepsIds(env, Start(s0), ids1);
    ImportsAreFresh(RecordPass(env, Start(s0), ids1), env.open, env.now);
  }

  /** A record settled in the first pass is not touched again. */
  lemma SettledEarlier(s0: StoreValue, ids1: seq<string>, env: Env, i: nat, j: nat)
    requires i < j <= |ids1| && IdsBounded(s0.orders, s0.nextId) && ProcessingOrder(ids1, s0.orders)
    ensures ids1[i] in Reconciled(s0, ids1, env).orders
    ensures Reconciled(s0, ids1, env).orders[ids1[i]] == RecordPass(env, Start(s0), ids1[..j]).orders[ids1[i]]
    ensures Reconciled(s0, ids1, env).orders[ids1[i]]
         == Settle(env, UsedBefore(env, Start(s0), ids1, i), s0.orders[ids1[i]]).record
  {
    hide RecordPass, Settle, IdsBounded, Reconciled;
    KeptByImports(s0, ids1, env, ids1[i]);
    PassSettlesEach(env, Start(s0), ids1, i);
    PassSettlesEach(env, Start(s0), ids1[..j], i);
    assert ids1[..j][..i] == ids1[..i];
  }

  lemma StaysQuiet(s0: StoreValue, ids1: seq<string>, s1: StoreValue, ids2: seq<string>, env: Env, k: nat, p: Progress)
    requires Twice(s0, ids1, s1, ids2, env) && k < |ids2|
    requires p == RecordPass(env, Start(s1), ids2[..k]) && Steady(s0, s1, env, ids2[..k], p)
    ensures var r := s1.orders[ids2[k]];
      && p.orders[ids2[k]] == r
      && Quiet(Settle(env, Marked(p.used, r, env.open), r), r, Second(s0, s1, env, ids2[k]))
  {
    hide KeepsOrder, Settle, StepRecord, Quiet, IdsBounded, QuietTally, Reconciled, Refreshed, Eligible;
    var id := ids2[k];
    var used' := Marked(p.used, s1.orders[id], env.open);
    assert id !in ids2[..k];
    if id in s0.orders {
      var j :| 0 <= j < |ids1| && ids1[j] == id;
      var used := UsedBefore(env, Start(s0), ids1, j);
      SettledEarlier(s0, ids1, env, j, |ids1|);
      if !HeldAtBroker(s0.orders[id], env.open) && !s0.orders[id].status.Terminal() {
        forall o | o in env.open && Eligible(s0.orders[id], o) && o.orderId in used ensures o.orderId in used' {
          UsedAgain(s0, ids1, s1, ids2, env, j, k, p, o);
        }
      }
      SettledAgain(env, used, used', s0.orders[id]);
    } else {
      ReconcileSettlesEach(s0, ids1, env, id);
      var i :| 0 <= i < |env.open| && s1.orders[id] == Imported(env.open[i], id, env.now);
      ImportedAgain(env, env.open[i], id, used');
    }
  }

  lemma QuietStep(env: Env, p: Progress, id: string, r: Record, r': Record)
    requires id in p.orders && p.orders[id] == r && QuietTally(p.tally)
    requires Quiet(Settle(env, Marked(p.used, r, env.open), r), r, r')
    ensures var p' := StepRecord(env, p, id);
      && p'.orders == p.orders[id := r'] && p'.index == p.index && p'.nextId == p.nextId
      && QuietTally(p'.tally)
      && p'.tally.repairs == p.tally.repairs + One(r' != r)
  {
    hide Settle, Marked;
  }

  lemma RewrittenGrows(s0: StoreValue, s1: StoreValue, env: Env, done: seq<string>, id: string)
    requires id in s1.orders && id !in done
    ensures |Rewritten(s0, s1, env, done + [id])|
         == |Rewritten(s0, s1, env, done)| + One(Second(s0, s1, env, id) != s1.orders[id])
  {
    hide Second;
    var before, after := Rewritten(s0, s1, env, done), Rewritten(s0, s1, env, done + [id]);
    assert after == if Second(s0, s1, env, id) != s1.orders[id] then before + {id} else before;
  }

  lemma SteadyGrows(s0: StoreValue, s1: StoreValue, env: Env, done: seq<string>, id: string, p: Progress, p': Progress)
    requires Steady(s0, s1, env, done, p) && id in s1.orders && id !in done
    requires p'.orders == p.orders[id := Second(s0, s1, env, id)] && p'.index == p.index && p'.nextId == p.nextId
    requires QuietTally(p'.tally)
    requires p'.tally.repairs == p.tally.repairs + One(Second(s0, s1, env, id) != s1.orders[id])
    ensures Steady(s0, s1, env, done + [id], p')
  {
    hide QuietTally, Second, Rewritten;
    RewrittenGrows(s0, s1, env, done, id);
    assert forall k :: k in done + [id] <==> k in done || k == id;
  }

  lemma {:induction false} SecondPassIsQuiet(s0: StoreValue, ids1: seq<string>, s1: StoreValue, ids2: seq<string>,
                                             env: Env, k: nat)
    requires Twice(s0, ids1, s1, ids2, env) && k <= |ids2|
    ensures Steady(s0, s1, env, ids2[..k], RecordPass(env, Start(s1), ids2[..k]))
  {
    hide KeepsOrder, RecordPass, StepRecord, Settle, Quiet, QuietTally, Second, ProcessingOrder, IdsBounded, DistinctOrders,
         Reconciled, Marked;
    if k == 0 {
      QuietStart(s0, s1, env);
      assert ids2[..k] == [];
      PassOverNothing(env, Start(s1));
    } else {
      var done, id := ids2[..k - 1], ids2[k - 1];
      SecondPassIsQuiet(s0, ids1, s1, ids2, env, k - 1);
      PrefixStep(env, Start(s1), ids2, k);
      var p := RecordPass(env, Start(s1), done);
      StaysQuiet(s0, ids1, s1, ids2, env, k - 1, p);
      assert id !in done;
      QuietStep(env, p, id, s1.orders[id], Second(s0, s1, env, id));
      SteadyGrows(s0, s1, env, done, id, p, StepRecord(env, p, id));
    }
  }

  lemma PassOverNothing(env: Env, p: Progress)
    ensures RecordPass(env, p, []) == p
  {
  }

  lemma QuietStart(s0: StoreValue, s1: StoreValue, env: Env)
    ensures Steady(s0, s1, env, [], Start(s1))
  {
    assert Rewritten(s0, s1, env, []) == {};
  }

  lemma {:induction false} NothingToImport(p: Progress, open: seq<BrokerOrder>, now: Time)
    requires forall o | o in open :: !Free(o, p.used)
    ensures ImportPass(p, open, now) == p
  {
    if open != [] {
      NothingToImport(p, open[..|open| - 1], now);
      assert open[|open| - 1] in open;
    }
  }

  lemma AllUsedAgain(s0: StoreValue, ids1: seq<string>, s1: StoreValue, ids2: seq<string>, env: Env, p: Progress,
                     o: BrokerOrder)
    requires Twice(s0, ids1, s1, ids2, env) && p == RecordPass(env, Start(s1), ids2) && Steady(s0, s1, env, ids2, p)
    requires o in env.open
    ensures !Free(o, p.used)
  {
    hide Steady, RecordPass, HeldBySome, OpenById, KeepsOrder, Settle, StepRecord, QuietTally, IdsBounded, Refreshed, ProcessingOrder, Reconciled;
    ReconcileLosesNothing(s0, ids1, env);
    assert HeldInStore(o.orderId, s1.orders);
    var id :| id in s1.orders && s1.orders[id].brokerOrderId == o.orderId;
    SteadyKeepsBroker(s0, s1, env, ids2, p, id);
    ListedUnderItsId(env.open, o);
    HeldIsUsed(env, Start(s1), ids2, id);
  }

  lemma SecondRunIsQuiet(s0: StoreValue, ids1: seq<string>, s1: StoreValue, ids2: seq<string>, env: Env)
    requires Twice(s0, ids1, s1, ids2, env)
    ensures Steady(s0, s1, env, ids2, Passes(s1, ids2, env))
  {
    hide KeepsOrder, Steady, Free, Settle, StepRecord, ProcessingOrder, IdsBounded, Reconciled;
    assert ids2[..|ids2|] == ids2;
    SecondPassIsQuiet(s0, ids1, s1, ids2, env, |ids2|);
    var p := RecordPass(env, Start(s1), ids2);
    forall o | o in env.open ensures !Free(o, p.used) {
      AllUsedAgain(s0, ids1, s1, ids2, env, p, o);
    }
    NothingToImport(p, env.open, env.now);
  }

  // ---- The theorem ----

  /** Apart from the explanation, two records are the same. */
  predicate SameButExplanation(r: Record, r': Record) {
    r'.(reason := r.reason, lastMessage := r.lastMessage) == r
  }

  /** The orders the first run imported that are still open. */
  function OpenImports(s0: StoreValue, s1: StoreValue): set<string> {
    set id | id in s1.orders && id !in s0.orders && !s1.orders[id].status.Terminal()
  }

  /** With broker ids given and distinct, and no two rivals submitted at the same instant, a second
      reconciliation with the same inputs imports and matches nothing and reports only what is still
      unresolved.  It leaves every old record as it is, and rewrites the explanation of the open orders the
      first run imported from the broker's status: these rewrites are all its repairs. */
  lemma ReconcileTwiceIsStable(s0: StoreValue, ids1: seq<string>, env: Env, ids2: seq<string>)
    requires IdsBounded(s0.orders, s0.nextId) && ProcessingOrder(ids1, s0.orders) && env.now != ZERO_TIME
    requires DistinctOrders(env.open) && DistinctRivals(s0.orders, env)
    requires ProcessingOrder(ids2, Reconciled(s0, ids1, env).orders)
    ensures var s1 := Reconciled(s0, ids1, env);
      var s2, report := Reconciled(s1, ids2, env), ReportOf(s1, ids2, env);
      && s0.orders.Keys <= s1.orders.Keys == s2.orders.Keys && s2.nextId == s1.nextId && s2.index == s1.index
      && QuietTally(report.tally)
      && (forall id | id in s1.orders :: SameButExplanation(s1.orders[id], s2.orders[id]))
      && (forall id | id in s1.orders ::
            s2.orders[id] == if id in s0.orders then s1.orders[id] else Refreshed(s1.orders[id], env))
      && report.tally.repairs == |OpenImports(s0, s1)|
  {
    hide KeepsOrder, Settle, Recount, Steady, QuietTally, SameButExplanation, IdsBounded, DistinctOrders, Passes, Refreshed,
         OpenImports, Rewritten;
    var s1 := Reconciled(s0, ids1, env);
    ReconcileLosesNothing(s0, ids1, env);
    SubmissionOrderIsKept(s0, ids1, env, ids2);
    SecondRunIsQuiet(s0, ids1, s1, ids2, env);
    SteadyIsStable(s0, s1, env, ids2, Passes(s1, ids2, env));
    RewrittenAreOpenImports(s0, ids1, env, ids2);
  }

  lemma SteadyIsStable(s0: StoreValue, s1: StoreValue, env: Env, ids: seq<string>, p: Progress)
    requires Steady(s0, s1, env, ids, p) && (forall id :: id in ids <==> id in s1.orders)
    requires s0.orders.Keys <= s1.orders.Keys
    ensures p.orders.Keys == s1.orders.Keys && p.nextId == s1.nextId && p.index == s1.index && QuietTally(p.tally)
    ensures forall id | id in s1.orders :: SameButExplanation(s1.orders[id], p.orders[id])
    ensures forall id | id in s1.orders ::
      p.orders[id] == if id in s0.orders then s1.orders[id] else Refreshed(s1.orders[id], env)
    ensures p.tally.repairs == |Rewritten(s0, s1, env, ids)|
  {
    hide QuietTally;
  }

  /** An open order just imported is listed, and its explanation is not the one the broker's status gives. */
  lemma ImportIsRewritten(env: Env, o: BrokerOrder, id: string)
    requires DistinctOrders(env.open) && o in env.open
    ensures var r := Imported(o, id, env.now);
      Refreshed(r, env) != r <==> !r.status.Terminal()
  {
    hide TrimRight, InferIntent, UpperTrim, LowerTrim;
    ListedUnderItsId(env.open, o);
  }

  lemma RewrittenAreOpenImports(s0: StoreValue, ids1: seq<string>, env: Env, ids2: seq<string>)
    requires IdsBounded(s0.orders, s0.nextId) && ProcessingOrder(ids1, s0.orders) && DistinctOrders(env.open)
    requires forall id :: id in ids2 <==> id in Reconciled(s0, ids1, env).orders
    ensures var s1 := Reconciled(s0, ids1, env);
      Rewritten(s0, s1, env, ids2) == OpenImports(s0, s1)
  {
    hide Settle, Reconciled, Refreshed, IdsBounded, DistinctOrders;
    var s1 := Reconciled(s0, ids1, env);
    forall id | id in s1.orders && id !in s0.orders
      ensures Refreshed(s1.orders[id], env) != s1.orders[id] <==> !s1.orders[id].status.Terminal()
    {
      ReconcileSettlesEach(s0, ids1, env, id);
      var i :| 0 <= i < |env.open| && s1.orders[id] == Imported(env.open[i], id, env.now);
      ImportIsRewritten(env, env.open[i], id);
    }
  }

  /** The second run visits the old records in the order of the first. */
  lemma SubmissionOrderIsKept(s0: StoreValue, ids1: seq<string>, env: Env, ids2: seq<string>)
    requires IdsBounded(s0.orders, s0.nextId) && ProcessingOrder(ids1, s0.orders)
    requires DistinctRivals(s0.orders, env) && ProcessingOrder(ids2, Reconciled(s0, ids1, env).orders)
    ensures KeepsOrder(s0.orders, ids1, ids2, env)
  {
    hide Settle, Reconciled, ParseOrderSequence, Trimmed, Rivals;
    var s1 := Reconciled(s0, ids1, env);
    forall i, j, k | 0 <= i < j < |ids1| && 0 <= k < |ids2| && ids2[k] == ids1[j]
                     && Rivals(s0.orders[ids1[i]], s0.orders[ids1[j]], env)
      ensures ids1[i] in ids2[..k]
    {
      KeptSubmission(s0, ids1, env, ids1[i]);
      KeptSubmission(s0, ids1, env, ids1[j]);
      var m :| 0 <= m < |ids2| && ids2[m] == ids1[i];
      assert s1.orders[ids2[m]].submittedAt < s1.orders[ids2[k]].submittedAt;
      assert m < k;
      assert ids2[..k][m] == ids1[i];
    }
  }

  lemma KeptSubmission(s0: StoreValue, ids1: seq<string>, env: Env, id: string)
    requires IdsBounded(s0.orders, s0.nextId) && ProcessingOrder(ids1, s0.orders) && id in s0.orders
    ensures id in Reconciled(s0, ids1, env).orders
    ensures Reconciled(s0, ids1, env).orders[id].submittedAt == s0.orders[id].submittedAt
  {
    hide Settle, Reconciled, ParseOrderSequence, Trimmed;
    ReconcileLosesNothing(s0, ids1, env);
    ReconcileSettlesEach(s0, ids1, env, id);
    var used :| Reconciled(s0, ids1, env).orders[id] == Settle(env, used, s0.orders[id]).record;
    SettleKeepsIdentity(env, used, s0.orders[id]);
  }
}
