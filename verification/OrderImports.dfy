/** What the import pass makes of the list as it comes: ids listed more than once, and ids left blank. */
module OrderImports {
  import opened Basics
  import opened OrderModel
  import opened OrderSpec
  import opened ReconcileLaws
  import opened ReconcileStability
  import opened OrderSharing

  /** How often the list has the id. */
  function Occurrences(open: seq<BrokerOrder>, b: string): nat {
    if open == [] then 0
    else Occurrences(open[..|open| - 1], b) + One(open[|open| - 1].orderId == b)
  }

  /** The records of the second map that the first does not have and that carry the broker order. */
  function NewHolders(before: Orders, after: Orders, b: string): set<string> {
    set id | id in after && id !in before && after[id].brokerOrderId == b
  }

  /** An id no record uses is imported as often as it is listed, one that is used not at all. */
  lemma {:induction false} ImportsByOccurrence(p: Progress, open: seq<BrokerOrder>, now: Time, b: string)
    requires IdsBounded(p.orders, p.nextId) && b != ""
    ensures |NewHolders(p.orders, ImportPass(p, open, now).orders, b)| == if b in p.used then 0 else Occurrences(open, b)
  {
    hide IdsBounded, StepImport;
    if open == [] {
      assert NewHolders(p.orders, p.orders, b) == {};
    } else {
      var n := |open| - 1;
      var before := ImportPass(p, open[..n], now);
      ImportsByOccurrence(p, open[..n], now, b);
      ImportsAreFresh(p, open[..n], now);
      OneImport(p, before, open[n], now, b);
    }
  }

  lemma OneImport(p: Progress, before: Progress, o: BrokerOrder, now: Time, b: string)
    requires IdsBounded(before.orders, before.nextId) && before.used == p.used && b != ""
    requires forall id | id in p.orders :: id in before.orders
    ensures |NewHolders(p.orders, StepImport(before, o, now).orders, b)|
         == |NewHolders(p.orders, before.orders, b)| + One(o.orderId == b && b !in p.used)
  {
    hide IdsBounded, LocalOrderId, NewHolders;
    if Free(o, before.used) {
      GeneratedIdIsNext(BROKER_PREFIX, before.nextId);
      var id := LocalOrderId(BROKER_PREFIX, before.nextId + 1);
      NextIdIsNew(before, id);
      OneMoreHolder(p.orders, before.orders, id, Imported(o, id, now), b);
    }
  }

  lemma OneMoreHolder(first: Orders, orders: Orders, id: string, r: Record, b: string)
    requires id !in orders && forall k | k in first :: k in orders
    ensures |NewHolders(first, orders[id := r], b)| == |NewHolders(first, orders, b)| + One(r.brokerOrderId == b)
  {
    var earlier, later := NewHolders(first, orders, b), NewHolders(first, orders[id := r], b);
    assert later == if r.brokerOrderId == b then earlier + {id} else earlier;
  }

  lemma NextIdIsNew(p: Progress, id: string)
    requires IdsBounded(p.orders, p.nextId) && NextId(id, p.nextId)
    ensures id !in p.orders
  {
  }

  /** Some record present before the run ends up with the order. */
  predicate Taken(s: StoreValue, ids: seq<string>, env: Env, b: string)
    requires forall k | k in ids :: k in s.orders
  {
    exists i :: 0 <= i < |ids| && HoldsAfter(s, ids, env, ids[i], b)
  }

  /** A listed id that no record present before ends up with gains a new record each time it is listed: an id
      listed twice is imported twice, and the two records share it.  One that a record ends up with gains none. */
  lemma ImportedAsOftenAsListed(s: StoreValue, ids: seq<string>, env: Env, b: string)
    requires IdsBounded(s.orders, s.nextId) && ProcessingOrder(ids, s.orders) && b != ""
    ensures |NewHolders(s.orders, Reconciled(s, ids, env).orders, b)|
         == if Taken(s, ids, env, b) then 0 else Occurrences(env.open, b)
  {
    hide RecordPass, ImportPass, IdsBounded, Settle, OpenById, HoldsAfter, NewHolders, StepRecord;
    var settled := RecordPass(env, Start(s), ids);
    PassKeepsIds(env, Start(s), ids);
    ImportsByOccurrence(settled, env.open, env.now, b);
    SameKeysSameHolders(s.orders, settled.orders, ImportPass(settled, env.open, env.now).orders, b);
    UsedIsHeld(env, Start(s), ids, b);
    TakenIsHeld(s, ids, env, b);
    if b !in OpenById(env.open) {
      UnlistedOccursNever(env.open, b);
    }
  }

  lemma SameKeysSameHolders(before: Orders, before': Orders, after: Orders, b: string)
    requires before.Keys == before'.Keys
    ensures NewHolders(before, after, b) == NewHolders(before', after, b)
  {
  }

  lemma TakenIsHeld(s: StoreValue, ids: seq<string>, env: Env, b: string)
    requires IdsBounded(s.orders, s.nextId) && ProcessingOrder(ids, s.orders)
    ensures Taken(s, ids, env, b) <==> HeldBySome(b, RecordPass(env, Start(s), ids).orders, ids)
  {
    hide RecordPass, IdsBounded, Settle, Reconciled;
    var orders := RecordPass(env, Start(s), ids).orders;
    forall i | 0 <= i < |ids|
      ensures ids[i] in orders && (HoldsAfter(s, ids, env, ids[i], b) <==> orders[ids[i]].brokerOrderId == b)
    {
      KeptByImports(s, ids, env, ids[i]);
    }
    if HeldBySome(b, orders, ids) {
      var id :| id in ids && id in orders && orders[id].brokerOrderId == b;
      var i :| 0 <= i < |ids| && ids[i] == id;
      assert HoldsAfter(s, ids, env, ids[i], b);
    }
    if i :| 0 <= i < |ids| && HoldsAfter(s, ids, env, ids[i], b) {
      assert ids[i] in ids;
    }
  }

  lemma {:induction false} UnlistedOccursNever(open: seq<BrokerOrder>, b: string)
    requires b != "" && b !in OpenById(open)
    ensures Occurrences(open, b) == 0
  {
    if open != [] {
      UnlistedOccursNever(open[..|open| - 1], b);
    }
  }

  // ---- Reconciling twice against any list ----

  lemma {:induction false} OnlyBlanksAreImported(p: Progress, open: seq<BrokerOrder>, now: Time)
    requires forall o | o in open && o.orderId != "" :: o.orderId in p.used
    ensures ImportPass(p, open, now).tally.imported == p.tally.imported + Occurrences(open, "")
  {
    hide LocalOrderId, Imported;
    if open != [] {
      var n := |open| - 1;
      assert open[n] in open;
      OnlyBlanksAreImported(p, open[..n], now);
    }
  }

  /** Every listed id that is not blank is used in the second run's record pass. */
  lemma ListedIsUsedAgain(s: StoreValue, ids: seq<string>, env: Env, ids2: seq<string>, b: string)
    requires IdsBounded(s.orders, s.nextId) && ProcessingOrder(ids, s.orders) && Listed(b, env)
    requires ProcessingOrder(ids2, Reconciled(s, ids, env).orders)
    ensures b in RecordPass(env, Start(Reconciled(s, ids, env)), ids2).used
  {
    hide Settle, Reconciled, RecordPass, IdsBounded, OpenById, HoldsAfter, HeldBefore;
    var s1 := Reconciled(s, ids, env);
    ReconcileLosesNothing(s, ids, env);
    var o := OpenById(env.open)[b];
    assert o in env.open && o.orderId == b;
    assert HeldInStore(b, s1.orders);
    var id :| id in s1.orders && s1.orders[id].brokerOrderId == b;
    var j :| 0 <= j < |ids2| && ids2[j] == id;
    assert HeldBefore(s1, ids2[j], b) by { HeldIs(s1, id, b); }
    ClaimOf(s1, ids2, env, j, b);
    TakenIsHeld(s1, ids2, env, b);
    UsedIsHeld(env, Start(s1), ids2, b);
  }

  lemma HeldIs(s: StoreValue, id: string, b: string)
    requires id in s.orders && s.orders[id].brokerOrderId == b
    ensures HeldBefore(s, id, b)
  {
  }

  /** A second run against the same list, blanks, repeats and ties included, imports exactly the orders listed
      without an id. */
  lemma SecondRunImportsBlanks(s: StoreValue, ids: seq<string>, env: Env, ids2: seq<string>)
    requires IdsBounded(s.orders, s.nextId) && ProcessingOrder(ids, s.orders)
    requires ProcessingOrder(ids2, Reconciled(s, ids, env).orders)
    ensures ReportOf(Reconciled(s, ids, env), ids2, env).tally.imported == Occurrences(env.open, "")
  {
    hide Settle, Reconciled, RecordPass, IdsBounded, OpenById, Recount, Capped;
    var s1 := Reconciled(s, ids, env);
    forall o | o in env.open && o.orderId != "" ensures o.orderId in RecordPass(env, Start(s1), ids2).used {
      ListedIsUsedAgain(s, ids, env, ids2, o.orderId);
    }
    ReconcileLosesNothing(s, ids, env);
    PassKeepsIds(env, Start(s1), ids2);
    OnlyBlanksAreImported(RecordPass(env, Start(s1), ids2), env.open, env.now);
  }
}
