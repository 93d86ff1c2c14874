/** When one broker order ends up with two records: a record keeps the order it holds even if an earlier
    one takes it, because the claim of a record is only known once its turn comes. */
module OrderSharing {
  import opened Basics
  import opened Text
  import opened OrderModel
  import opened OrderSpec
  import opened ReconcileLaws
  import opened ReconcileStability

  /** A listed broker order, by its id. */
  predicate Listed(b: string, env: Env) {
    b != "" && b in OpenById(env.open)
  }

  /** A record keeps the listed order it holds, and comes to hold another only if that is not used yet. */
  lemma SettleKeepsOrTakes(env: Env, used: set<string>, r: Record, b: string)
    requires Listed(b, env)
    ensures var r' := Settle(env, used, r).record;
      && (r.brokerOrderId == b ==> r'.brokerOrderId == b)
      && (r'.brokerOrderId == b && r.brokerOrderId != b ==> b !in used && Wants(r, env, b))
  {
    hide StillWaiting, Resolve, EqualFold, UpperTrim, QtyApproxEqual;
  }

  /** The record is open, holds no listed order, and fits the listed order b. */
  predicate Wants(r: Record, env: Env, b: string) {
    && !r.status.Terminal() && !HeldAtBroker(r, env.open)
    && exists i :: 0 <= i < |env.open| && env.open[i].orderId == b && Eligible(r, env.open[i])
  }

  /** And fits no listed order with another id. */
  predicate WantsOnly(r: Record, env: Env, b: string) {
    Wants(r, env, b) && forall i | 0 <= i < |env.open| && Eligible(r, env.open[i]) :: env.open[i].orderId == b
  }

  predicate HoldsAfter(s: StoreValue, ids: seq<string>, env: Env, id: string, b: string)
    requires forall k | k in ids :: k in s.orders
  {
    id in Reconciled(s, ids, env).orders && Reconciled(s, ids, env).orders[id].brokerOrderId == b
  }

  predicate HeldBefore(s: StoreValue, id: string, b: string) {
    id in s.orders && s.orders[id].brokerOrderId == b
  }

  /** The order b cannot be matched when the turn of record j comes: it is listed, and j holds it itself or a
      record before j ends up with it. */
  predicate UsedInTurn(s: StoreValue, ids: seq<string>, env: Env, j: nat, b: string)
    requires j < |ids| && forall k | k in ids :: k in s.orders
  {
    Listed(b, env) && (HeldBefore(s, ids[j], b) || TakenBefore(s, ids, env, j, b))
  }

  /** Some record before j ends up with the order b. */
  predicate TakenBefore(s: StoreValue, ids: seq<string>, env: Env, j: nat, b: string)
    requires j < |ids| && forall k | k in ids :: k in s.orders
  {
    exists i :: 0 <= i < j && HoldsAfter(s, ids, env, ids[i], b)
  }

  lemma HoldsAfterIs(s: StoreValue, ids: seq<string>, env: Env, i: nat, j: nat, b: string)
    requires IdsBounded(s.orders, s.nextId) && ProcessingOrder(ids, s.orders) && i < j < |ids|
    ensures ids[i] in RecordPass(env, Start(s), ids[..j]).orders && ids[..j][i] == ids[i]
    ensures RecordPass(env, Start(s), ids[..j]).orders[ids[i]].brokerOrderId == b <==> HoldsAfter(s, ids, env, ids[i], b)
  {
    hide Settle, Reconciled, RecordPass, IdsBounded;
    SettledEarlier(s, ids, env, i, j);
  }

  lemma HeldByDone(s: StoreValue, ids: seq<string>, env: Env, j: nat, b: string)
    requires IdsBounded(s.orders, s.nextId) && ProcessingOrder(ids, s.orders) && j < |ids|
    ensures HeldBySome(b, RecordPass(env, Start(s), ids[..j]).orders, ids[..j]) <==> TakenBefore(s, ids, env, j, b)
  {
    hide RecordPass, IdsBounded, HoldsAfter;
    var done := ids[..j];
    var orders := RecordPass(env, Start(s), done).orders;
    if HeldBySome(b, orders, done) {
      var id :| id in done && id in orders && orders[id].brokerOrderId == b;
      var i :| 0 <= i < j && done[i] == id;
      HoldsAfterIs(s, ids, env, i, j, b);
    }
    if TakenBefore(s, ids, env, j, b) {
      var i :| 0 <= i < j && HoldsAfter(s, ids, env, ids[i], b);
      HoldsAfterIs(s, ids, env, i, j, b);
      assert ids[i] in done;
    }
  }

  lemma UsedInTurnIs(s: StoreValue, ids: seq<string>, env: Env, j: nat, b: string)
    requires IdsBounded(s.orders, s.nextId) && ProcessingOrder(ids, s.orders) && j < |ids| && b != ""
    ensures b in UsedBefore(env, Start(s), ids, j) <==> UsedInTurn(s, ids, env, j, b)
  {
    hide RecordPass, IdsBounded, OpenById, HeldBySome, TakenBefore, ProcessingOrder;
    var done := ids[..j];
    DistinctDone(s, ids, j);
    UsedIsHeld(env, Start(s), done, b);
    HeldByDone(s, ids, env, j, b);
  }

  lemma DistinctDone(s: StoreValue, ids: seq<string>, j: nat)
    requires ProcessingOrder(ids, s.orders) && j < |ids|
    ensures Distinct(ids[..j]) && Distinct(ids) && ids[j] in s.orders && (forall id | id in ids[..j] :: id in s.orders)
  {
  }

  /** Each record is settled in turn, against the listed orders the records before it end up with. */
  lemma SettledInTurn(s: StoreValue, ids: seq<string>, env: Env, j: nat)
    requires IdsBounded(s.orders, s.nextId) && ProcessingOrder(ids, s.orders) && j < |ids|
    ensures ids[j] in Reconciled(s, ids, env).orders
    ensures exists used :: Reconciled(s, ids, env).orders[ids[j]] == Settle(env, used, s.orders[ids[j]]).record
                           && forall b | b != "" :: b in used <==> UsedInTurn(s, ids, env, j, b)
  {
    hide Settle, Reconciled, RecordPass, IdsBounded, OpenById, UsedInTurn, UsedBefore;
    SettledEarlier(s, ids, env, j, |ids|);
    var used := UsedBefore(env, Start(s), ids, j);
    forall b | b != "" ensures b in used <==> UsedInTurn(s, ids, env, j, b) {
      UsedInTurnIs(s, ids, env, j, b);
    }
  }

  /** One record's claim: it keeps a listed order, and takes one only if it wants it and no record before it
      ends up with it. */
  lemma ClaimOf(s: StoreValue, ids: seq<string>, env: Env, j: nat, b: string)
    requires IdsBounded(s.orders, s.nextId) && ProcessingOrder(ids, s.orders) && j < |ids| && Listed(b, env)
    ensures HeldBefore(s, ids[j], b) ==> HoldsAfter(s, ids, env, ids[j], b)
    ensures HoldsAfter(s, ids, env, ids[j], b) && !HeldBefore(s, ids[j], b) ==>
              Wants(s.orders[ids[j]], env, b) && forall i | 0 <= i < j :: !HoldsAfter(s, ids, env, ids[i], b)
  {
    hide Settle, Reconciled, RecordPass, IdsBounded, OpenById, Wants;
    SettledEarlier(s, ids, env, j, |ids|);
    SettleKeepsOrTakes(env, UsedBefore(env, Start(s), ids, j), s.orders[ids[j]], b);
    forall i | 0 <= i < j && HoldsAfter(s, ids, env, ids[i], b)
      ensures b in UsedBefore(env, Start(s), ids, j)
    {
      SettledEarlier(s, ids, env, i, j);
      assert ids[..j][i] == ids[i];
      HeldIsUsed(env, Start(s), ids[..j], ids[i]);
    }
  }

  /** Two records end up with one listed order exactly when the earlier ends up with it and the later held
      it before: only an earlier record can come to share a later one's order. */
  lemma SharedIffHeldBefore(s: StoreValue, ids: seq<string>, env: Env, i: nat, j: nat, b: string)
    requires IdsBounded(s.orders, s.nextId) && ProcessingOrder(ids, s.orders) && i < j < |ids| && Listed(b, env)
    ensures HoldsAfter(s, ids, env, ids[i], b) && HoldsAfter(s, ids, env, ids[j], b)
      <==> HoldsAfter(s, ids, env, ids[i], b) && HeldBefore(s, ids[j], b)
  {
    hide HoldsAfter, HeldBefore, Listed, IdsBounded, Wants;
    ClaimOf(s, ids, env, j, b);
  }

  /** A record that wants one listed order only ends up with it, unless an earlier record does. */
  lemma WantedIsTaken(s: StoreValue, ids: seq<string>, env: Env, i: nat, b: string)
    requires IdsBounded(s.orders, s.nextId) && ProcessingOrder(ids, s.orders) && i < |ids| && Listed(b, env)
    requires WantsOnly(s.orders[ids[i]], env, b)
    ensures exists k :: 0 <= k <= i && HoldsAfter(s, ids, env, ids[k], b)
  {
    hide Settle, Reconciled, RecordPass, IdsBounded, OpenById, WantsOnly;
    var used := UsedBefore(env, Start(s), ids, i);
    assert !HeldAtBroker(s.orders[ids[i]], env.open) by { assert WantsOnly(s.orders[ids[i]], env, b); WantsNothingHeld(s.orders[ids[i]], env, b); }
    if b in used {
      var id := EarlierHolder(s, ids, env, i, b);
      var k :| 0 <= k < i && ids[k] == id;
      assert HoldsAfter(s, ids, env, ids[k], b);
    } else {
      SettledEarlier(s, ids, env, i, |ids|);
      FreeIsTaken(env, used, s.orders[ids[i]], b);
      assert HoldsAfter(s, ids, env, ids[i], b);
    }
  }

  lemma WantsNothingHeld(r: Record, env: Env, b: string)
    requires WantsOnly(r, env, b)
    ensures !HeldAtBroker(r, env.open)
  {
  }

  lemma FreeIsTaken(env: Env, used: set<string>, r: Record, b: string)
    requires Listed(b, env) && WantsOnly(r, env, b) && b !in used
    ensures Settle(env, used, r).record.brokerOrderId == b
  {
    hide StillWaiting, Resolve, Eligible;
    var m := FindPendingMatch(r, env.open, used);
    var i :| 0 <= i < |env.open| && env.open[i].orderId == b && Eligible(r, env.open[i]);
    assert env.open[i] in env.open && Free(env.open[i], used);
    var k :| 0 <= k < |env.open| && env.open[k] == m.value;
  }

  predicate WantedBefore(s: StoreValue, ids: seq<string>, env: Env, j: nat, b: string)
    requires j < |ids| && forall k | k in ids :: k in s.orders
  {
    exists i :: 0 <= i < j && Wants(s.orders[ids[i]], env, b)
  }

  /** The order of the first holder comes to be shared exactly when an earlier record wants it, as long as
      those that want it want no other; whatever else they want, it is not shared unless one wants it. */
  lemma SharedIffWanted(s: StoreValue, ids: seq<string>, env: Env, j: nat, b: string)
    requires IdsBounded(s.orders, s.nextId) && ProcessingOrder(ids, s.orders) && j < |ids| && Listed(b, env)
    requires HeldBefore(s, ids[j], b) && forall i | 0 <= i < j :: !HeldBefore(s, ids[i], b)
    ensures TakenBefore(s, ids, env, j, b) ==> WantedBefore(s, ids, env, j, b)
    ensures (forall i | 0 <= i < j && Wants(s.orders[ids[i]], env, b) :: WantsOnly(s.orders[ids[i]], env, b)) ==>
              (TakenBefore(s, ids, env, j, b) <==> WantedBefore(s, ids, env, j, b))
  {
    hide HoldsAfter, HeldBefore, Listed, IdsBounded, Wants, WantsOnly;
    if TakenBefore(s, ids, env, j, b) {
      var i :| 0 <= i < j && HoldsAfter(s, ids, env, ids[i], b);
      ClaimOf(s, ids, env, i, b);
    }
    if WantedBefore(s, ids, env, j, b) {
      var i :| 0 <= i < j && Wants(s.orders[ids[i]], env, b);
      if WantsOnly(s.orders[ids[i]], env, b) {
        WantedIsTaken(s, ids, env, i, b);
        var k :| 0 <= k <= i && HoldsAfter(s, ids, env, ids[k], b);
      }
    }
  }

  /** A listed order held by one record only stays its alone if no open record submitted before it that holds
      no listed order fits that order: something to be checked before the run. */
  lemma SoleHolderStays(s: StoreValue, ids: seq<string>, env: Env, j: nat, b: string)
    requires IdsBounded(s.orders, s.nextId) && ProcessingOrder(ids, s.orders) && j < |ids| && Listed(b, env)
    requires forall id | id in s.orders :: HeldBefore(s, id, b) <==> id == ids[j]
    requires forall id | id in s.orders && s.orders[id].submittedAt <= s.orders[ids[j]].submittedAt :: !Wants(s.orders[id], env, b)
    ensures forall id :: HoldsAfter(s, ids, env, id, b) <==> id == ids[j]
  {
    hide HeldBefore, Listed, IdsBounded, Wants, RecordPass, Settle, Reconciled;
    ClaimOf(s, ids, env, j, b);
    forall id | HoldsAfter(s, ids, env, id, b) ensures id == ids[j] {
      if id in s.orders {
        var k :| 0 <= k < |ids| && ids[k] == id;
        ClaimOf(s, ids, env, k, b);
        if k < j {
          assert s.orders[ids[k]].submittedAt <= s.orders[ids[j]].submittedAt;
        }
      } else {
        ImportTakesUnused(s, ids, env, id, j, b);
      }
    }
  }

  lemma ImportTakesUnused(s: StoreValue, ids: seq<string>, env: Env, id: string, j: nat, b: string)
    requires IdsBounded(s.orders, s.nextId) && ProcessingOrder(ids, s.orders) && j < |ids| && Listed(b, env)
    requires id !in s.orders && id in Reconciled(s, ids, env).orders && HoldsAfter(s, ids, env, ids[j], b)
    ensures !HoldsAfter(s, ids, env, id, b)
  {
    hide RecordPass, Settle, Reconciled, IdsBounded, OpenById;
    ReconcileSettlesEach(s, ids, env, id);
    SettledEarlier(s, ids, env, j, |ids|);
    assert ids[..|ids|] == ids;
    HeldIsUsed(env, Start(s), ids, ids[j]);
  }
}
