/** The order store as the execution manager's lookup: what it keeps of what the manager expects of it. */
module OrderLookup {
  import opened Basics
  import opened Text
  import OrderModel
  import OrderSpec
  import OrderRuns
  import opened ReconcileLaws
  import opened ExecutionModel
  import opened ExecutionSpec
  import opened ExecutionIndex
  import opened ExecutionLaws

  // ---- A lookup the manager can trust ----

  /** The lookup does not reopen a closed order, and closes none before it was asked for. */
  predicate Trustworthy(e: ExecutionModel.Entry, lookup: Lookup, now: Time) {
    var found := Find(lookup, e.result.localOrderId, e.result.brokerOrderId);
    && (e.Status().Closed() && Reported(e, lookup).Some? ==> Reported(e, lookup).value.Closed())
    && (found.Some? && found.value.status.Terminal() ==>
          EventTime(found.value, now) >= e.intent.createdAt && EventTime(found.value, now) != ZERO_TIME)
  }

  /** The order store files each record under its own id. */
  predicate FiledById(lookup: Lookup) {
    lookup.Some? ==> IdsBounded(lookup.value.orders, lookup.value.nextId)
  }

  predicate TrustworthyFor(m: Mgr, lookup: Lookup, now: Time) {
    FiledById(lookup) && forall i | 0 <= i < |m.history| :: Trustworthy(m.history[i], lookup, now)
  }

  lemma FindsTheSame(r: Result, lookup: Lookup, now: Time)
    requires FiledById(lookup)
    ensures var r' := Refreshed(r, lookup, now);
      Find(lookup, r'.localOrderId, r'.brokerOrderId) == Find(lookup, r.localOrderId, r.brokerOrderId)
  {
    hide Trimmed, OrderModel.ParseOrderSequence;
  }

  lemma SweptIsTrustworthy(e: ExecutionModel.Entry, lookup: Lookup, cfg: Config, now: Time)
    requires FiledById(lookup) && Trustworthy(e, lookup, now)
    ensures Trustworthy(SweptEntry(e, lookup, cfg, now), lookup, now)
  {
    hide Find, MapRecordStatus, IdsBounded;
    FindsTheSame(e.result, lookup, now);
  }

  lemma TrustworthyIsInOrder(m: Mgr, lookup: Lookup, now: Time)
    requires TrustworthyFor(m, lookup, now)
    ensures AllEndInOrder(m, lookup, now) && ReopensNoneSoon(m, lookup, now) && ReopensNoneEarly(m, lookup, now)
  {
    hide Find, Reported;
  }

  /** A trustworthy lookup is all a request asks of the order store, at both looks before submission. */
  lemma TrustworthySuffices(m: Mgr, q: Request)
    requires Bookkept(m) && TrustworthyFor(m, q.before, q.Now())
    ensures AllEndInOrder(m, q.before, q.Now()) && AllEndInOrder(Opened(m, q), q.before, q.Now())
    ensures ReopensNoneSoon(m, q.before, q.Now()) && ReopensNoneEarly(m, q.before, q.Now())
  {
    hide Bookkept, Trustworthy, FiledById, SweptEntry, Swept, ReopensNoneSoon, ReopensNoneEarly, AllEndInOrder, SameRequest,
         SameShape;
    var s := Opened(m, q);
    TrustworthyIsInOrder(m, q.before, q.Now());
    OpenedKeepsBooks(m, q);
    forall i | 0 <= i < |s.history| ensures Trustworthy(s.history[i], q.before, q.Now()) {
      SweptHistoryAt(m, q.before, q.Now(), i);
      SweptIsTrustworthy(m.history[i], q.before, m.cfg, q.Now());
    }
    TrustworthyIsInOrder(s, q.before, q.Now());
  }

  // ---- What the order store keeps of it ----

  /** Once the order an execution names is closed in the order store, every later lookup reports it closed. */
  lemma OrderStoreNeverReopens(s: OrderSpec.StoreValue, ops: seq<OrderRuns.Op>, s': OrderSpec.StoreValue, e: ExecutionModel.Entry)
    requires OrderRuns.Inv(s) && OrderRuns.Honest(s.orders) && OrderRuns.Run(s, ops, s')
    requires var id := TrimSpace(e.result.localOrderId);
      id != "" && id in s.orders && s.orders[id].status.Terminal()
    ensures FiledById(Some(s')) && Reported(e, Some(s')).Some? && Reported(e, Some(s')).value.Closed()
  {
    hide OrderRuns.Honest, OrderRuns.Run, OrderRuns.Normal, OrderRuns.IndexCovers, OrderRuns.CountsAgree, IdsBounded, TrimSpace;
    OrderRuns.RunKeeps(s, ops, s');
    assert OrderRuns.Closed(s.orders[TrimSpace(e.result.localOrderId)]);
  }

  // ---- When a record was last written ----

  /** No operation of the store is dated before the instant. */
  predicate NoneBefore(ops: seq<OrderRuns.Op>, t: Time) {
    forall i | 0 <= i < |ops| :: OpTime(ops[i]) >= t
  }

  function OpTime(op: OrderRuns.Op): Time {
    match op
    case Register(_, _, _, _, _, at) => at
    case MarkRejected(_, _, at) => at
    case Reconcile(_, env) => env.now
    case RecordError(_, at) => at
    case Restart(_, clock) => clock
  }

  predicate WrittenSince(s: OrderSpec.StoreValue, id: string, t: Time) {
    id in s.orders && s.orders[id].updatedAt >= t
  }

  lemma SettleWrites(env: OrderSpec.Env, used: set<string>, r: OrderModel.Record)
    ensures OrderSpec.Settle(env, used, r).record.updatedAt in {r.updatedAt, env.now}
  {
  }

  lemma ReconcileWrites(s: OrderSpec.StoreValue, ids: seq<string>, env: OrderSpec.Env, id: string, t: Time)
    requires OrderRuns.Inv(s) && OrderSpec.ProcessingOrder(ids, s.orders) && env.now >= t && WrittenSince(s, id, t)
    ensures WrittenSince(OrderSpec.Reconciled(s, ids, env), id, t)
  {
    hide OrderSpec.Settle, OrderSpec.Reconciled, IdsBounded, OrderRuns.Normal, OrderRuns.IndexCovers, OrderRuns.CountsAgree;
    ReconcileLosesNothing(s, ids, env);
    ReconcileSettlesEach(s, ids, env, id);
    var used :| OrderSpec.Reconciled(s, ids, env).orders[id] == OrderSpec.Settle(env, used, s.orders[id]).record;
    SettleWrites(env, used, s.orders[id]);
  }

  lemma ApplyWrites(s: OrderSpec.StoreValue, op: OrderRuns.Op, id: string, t: Time)
    requires OrderRuns.Inv(s) && OrderRuns.Fits(s, op) && OpTime(op) >= t && WrittenSince(s, id, t)
    ensures WrittenSince(OrderRuns.Apply(s, op), id, t)
  {
    hide OrderRuns.Inv, OrderSpec.Reconciled, OrderSpec.Restored, OrderRuns.SnapshotOf, OrderSpec.Recount,
         OrderModel.LocalOrderId, OrderSpec.NewRecord, OrderRuns.Enumerates, OrderSpec.ProcessingOrder;
    match op
    case Register(intent, symbol, side, positionSide, qty, at) =>
      OrderRuns.RegisterKeepsInv(s, intent, symbol, side, positionSide, qty, at);
    case MarkRejected(_, _, _) =>
    case Reconcile(ids, env) => ReconcileWrites(s, ids, env, id, t);
    case RecordError(_, _) =>
    case Restart(keys, clock) => OrderRuns.RestoreUndoesSnapshot(s, OrderSpec.EMPTY_STORE, keys, clock);
  }

  lemma {:induction false} RunWrites(s: OrderSpec.StoreValue, ops: seq<OrderRuns.Op>, s': OrderSpec.StoreValue, id: string,
                                     t: Time)
    requires OrderRuns.Inv(s) && OrderRuns.Honest(s.orders) && OrderRuns.Run(s, ops, s') && NoneBefore(ops, t)
    requires WrittenSince(s, id, t)
    ensures WrittenSince(s', id, t)
    decreases |ops|
  {
    hide OrderRuns.Inv, OrderRuns.Honest, OrderRuns.Fits, OrderRuns.Apply, WrittenSince, OpTime;
    if ops != [] {
      OrderRuns.ApplyKeeps(s, ops[0]);
      ApplyWrites(s, ops[0], id, t);
      RunWrites(OrderRuns.Apply(s, ops[0]), ops[1..], s', id, t);
    }
  }

  /** The order store is a lookup the manager can trust for an execution that names its record: if the record
      was written since the execution was asked for, and is closed when the execution is, then after any
      run of the store dated no earlier the lookup neither reopens the execution nor dates its end before it. */
  lemma OrderStoreIsTrustworthy(s: OrderSpec.StoreValue, ops: seq<OrderRuns.Op>, s': OrderSpec.StoreValue,
                                e: ExecutionModel.Entry, now: Time)
    requires OrderRuns.Inv(s) && OrderRuns.Honest(s.orders) && OrderRuns.Run(s, ops, s')
    requires NoneBefore(ops, e.intent.createdAt)
    requires var id := TrimSpace(e.result.localOrderId);
      && id != "" && WrittenSince(s, id, e.intent.createdAt)
      && (e.Status().Closed() ==> s.orders[id].status.Terminal())
    ensures FiledById(Some(s')) && Trustworthy(e, Some(s'), now)
  {
    hide OrderRuns.Honest, OrderRuns.Run, OrderRuns.IndexCovers, OrderRuns.CountsAgree, IdsBounded, TrimSpace;
    var id := TrimSpace(e.result.localOrderId);
    OrderRuns.RunKeeps(s, ops, s');
    RunWrites(s, ops, s', id, e.intent.createdAt);
    if e.Status().Closed() {
      assert OrderRuns.Closed(s.orders[id]);
      RecordStatus(s'.orders[id]);
    }
    assert s'.orders[id].updatedAt != ZERO_TIME by { assert OrderRuns.NormalRecord(s'.orders[id]); }
  }
}
