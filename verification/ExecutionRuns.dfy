/** Runs of the execution manager: requests, sweeps and restarts in any order. */
module ExecutionRuns {
  import opened Basics
  import opened Text
  import opened ExecutionModel
  import opened ExecutionSpec
  import opened ExecutionIndex
  import opened ExecutionLaws

  // ---- Restoring what a snapshot holds ----

  lemma RestoringNamedEntry(e: Entry, nextId: nat)
    requires NamedEntry(e, nextId)
    ensures RestoredEntry(e) == e && Identified(e)
  {
    hide ParseExecutionSequence, BuildDedupeKey;
  }

  /** For each key of the history, the last execution that can stand for it. */
  ghost predicate StandsByHistory(history: seq<Entry>, latest: map<string, string>) {
    LatestAgrees(history, latest) && forall k :: LastOf(history, k).Some? ==> k in latest
  }

  lemma FilingOneMore(history: seq<Entry>, latest: map<string, string>, e: Entry)
    requires StandsByHistory(history, latest)
    ensures StandsByHistory(history + [e], if e.Status().Registers() then latest[e.Key() := e.Id()] else latest)
  {
    hide LastOf;
    forall k ensures LastOf(history + [e], k)
      == if e.Key() == k && e.Status().Registers() then Some(|history|) else LastOf(history, k)
    {
      LastAfterAppend(history, e, k);
    }
  }

  /** Filing a manager's own history gives it back, every key standing for its last execution. */
  lemma {:induction false} FilingOwnHistory(m: Mgr, history: seq<Entry>)
    requires m.history == [] && m.latest == map[] && m.index == map[] && UniqueIds(history)
    requires forall i | 0 <= i < |history| :: NamedEntry(history[i], m.nextId)
    ensures var filed := Filed(m, history);
      filed.history == history && filed.nextId == m.nextId && filed.cfg == m.cfg && StandsByHistory(history, filed.latest)
      && IndexExact(history, filed.index)
    ensures IdentifiedPrefix(history) == |history|
  {
    hide NamedEntry, Identified, RestoredEntry, LastOf, StandsByHistory;
    if history == [] {
      NothingFiled(m);
    } else {
      var n := |history| - 1;
      FilingOwnHistory(m, history[..n]);
      RestoringNamedEntry(history[n], m.nextId);
      NamedSequence(history[n], m.nextId);
      FilingOneMore(history[..n], Filed(m, history[..n]).latest, history[n]);
      IndexAfterAppend(Filed(m, history[..n]), history[n]);
      assert history == history[..n] + [history[n]];
    }
  }

  lemma NothingFiled(m: Mgr)
    requires m.latest == map[]
    ensures StandsByHistory([], m.latest)
  {
  }

  lemma NamedSequence(e: Entry, nextId: nat)
    requires NamedEntry(e, nextId)
    ensures ParseExecutionSequence(e.Id()) <= nextId
  {
  }

  lemma ExactIsUnique(history: seq<Entry>, index: map<string, nat>, index': map<string, nat>)
    requires IndexExact(history, index) && IndexExact(history, index')
    ensures index == index'
  {
    forall id | id in index ensures id in index' && index'[id] == index[id] {
      assert history[index[id]].Id() == id;
    }
    forall id | id in index' ensures id in index {
      assert history[index'[id]].Id() == id;
    }
  }

  /** The manager as restored from its own snapshot, before the restore sweeps. */
  function Reloaded(m: Mgr): Mgr {
    Filed(Mgr(m.cfg, m.nextId, [], map[], map[]), m.history)
  }

  lemma RestoreIsReload(m: Mgr, lookup: Lookup, now: Time)
    requires Indexed(m)
    ensures Restored(NewManager(m.cfg), Snapshot(m), lookup, now) == Swept(Reloaded(m), lookup, now)
    ensures RestoreOutcome(NewManager(m.cfg), Snapshot(m)) == Done
    ensures Reloaded(m).history == m.history && Reloaded(m).nextId == m.nextId && Reloaded(m).cfg == m.cfg
    ensures Reloaded(m).index == m.index
    ensures StandsByHistory(m.history, Reloaded(m).latest)
  {
    hide NamedEntry, Swept, Filed, StandsByHistory, Identified;
    FilingOwnHistory(Mgr(m.cfg, m.nextId, [], map[], map[]), m.history);
    ExactIsUnique(m.history, m.index, Reloaded(m).index);
    assert m.history[..|m.history|] == m.history;
  }

  lemma ReloadedIs(m: Mgr)
    requires Bookkept(m)
    ensures Reloaded(m).history == m.history && Reloaded(m).nextId == m.nextId && Reloaded(m).cfg == m.cfg
    ensures Reloaded(m).index == m.index
  {
    hide Restored, Swept, Snapshot, RestoreOutcome, StandsByHistory, Indexed, Reloaded, NewManager;
    BooksAreIndexed(m);
    RestoreIsReload(m, None, ZERO_TIME);
  }

  /** What stood for its key still does when every key stands for its last execution. */
  lemma StandsAfterReload(history: seq<Entry>, latest: map<string, string>, reloaded: map<string, string>, i: nat)
    requires LatestAgrees(history, latest) && StandsByHistory(history, reloaded) && i < |history|
    requires StandsForKey(history[i], latest)
    ensures StandsForKey(history[i], reloaded)
  {
    hide LastOf;
  }

  /** Filing the history again keeps the books. */
  lemma ReloadKeepsBooks(m: Mgr)
    requires Bookkept(m)
    ensures Bookkept(Reloaded(m))
    ensures forall i | 0 <= i < |m.history| && StandsForKey(m.history[i], m.latest) ::
      StandsForKey(m.history[i], Reloaded(m).latest)
  {
    hide NamedEntry, Unfollowed, StandsForKey, StandsByHistory, LatestAgrees, UniqueIds, Reloaded, Restored, Swept,
         Snapshot, RestoreOutcome;
    RestoreIsReload(m, None, ZERO_TIME);
    StandingAfterReload(m, Reloaded(m).latest);
    HistoryAgrees(m.history, Reloaded(m).latest);
  }

  /** More executions stand for their key than before, none fewer. */
  lemma ReloadReopensNone(m: Mgr, lookup: Lookup, now: Time, age: int)
    requires Bookkept(m) && ReopensNoneBefore(m, lookup, now, age)
    ensures ReopensNoneBefore(Reloaded(m), lookup, now, age)
  {
    hide Bookkept, StandsForKey, Reloaded, Reopens;
    ReloadedIs(m);
    ReloadKeepsBooks(m);
  }

  lemma ReloadKeepsLive(m: Mgr, t: Time)
    requires Live(m, t)
    ensures Live(Reloaded(m), t)
  {
    hide Indexed, Unfollowed, LiveEntry, StandsForKey, Reloaded;
    ReloadedIs(m);
    ReloadKeepsBooks(m);
  }

  lemma ReloadKeepsApart(m: Mgr, t: Time)
    requires Apart(m, t)
    ensures Apart(Reloaded(m), t)
  {
    hide Indexed, Unfollowed, Dated, StandsForKey, Reloaded;
    ReloadedIs(m);
    ReloadKeepsBooks(m);
  }

  lemma ReloadKeepsInv(m: Mgr, t: Time)
    requires Inv(m, t)
    ensures Inv(Reloaded(m), t)
  {
    hide Bookkept, Live, Apart, OnTime, StandsForKey, Reloaded;
    BooksOfApart(m, t);
    ReloadedIs(m);
    ReloadKeepsBooks(m);
    ReloadKeepsLive(m, t);
    ReloadKeepsApart(m, t);
  }

  lemma StandingAfterReload(m: Mgr, reloaded: map<string, string>)
    requires LatestAgrees(m.history, m.latest) && StandsByHistory(m.history, reloaded)
    ensures forall i | 0 <= i < |m.history| && StandsForKey(m.history[i], m.latest) :: StandsForKey(m.history[i], reloaded)
  {
    hide StandsForKey, StandsByHistory, LatestAgrees;
    forall i | 0 <= i < |m.history| && StandsForKey(m.history[i], m.latest) ensures StandsForKey(m.history[i], reloaded) {
      StandsAfterReload(m.history, m.latest, reloaded, i);
    }
  }

  lemma HistoryAgrees(history: seq<Entry>, latest: map<string, string>)
    requires StandsByHistory(history, latest)
    ensures LatestAgrees(history, latest)
  {
  }

  // ---- Runs ----

  datatype Op =
    | Execute(request: Request)
    | Sweep(lookup: Lookup, now: Time)
    | Restart(saving: Lookup, savedAt: Time, loading: Lookup, loadedAt: Time)

  function OpTime(op: Op): Time {
    match op
    case Execute(q) => q.Now()
    case Sweep(_, now) => now
    case Restart(_, _, _, loadedAt) => loadedAt
  }

  function Apply(m: Mgr, op: Op): Mgr {
    match op
    case Execute(q) => Executed(m, q).manager
    case Sweep(lookup, now) => Swept(m, lookup, now)
    case Restart(saving, savedAt, loading, loadedAt) =>
      Restored(NewManager(m.cfg), Snapshot(Swept(m, saving, savedAt)), loading, loadedAt)
  }

  /** The manager after the operations, in order. */
  function After(m: Mgr, ops: seq<Op>): Mgr
    decreases |ops|
  {
    if ops == [] then m else After(Apply(m, ops[0]), ops[1..])
  }

  /** The time of the last operation. */
  function ClockAfter(t: Time, ops: seq<Op>): Time {
    if ops == [] then t else OpTime(ops[|ops| - 1])
  }

  lemma ClockAfterFirst(t: Time, ops: seq<Op>)
    requires ops != []
    ensures ClockAfter(t, ops) == ClockAfter(OpTime(ops[0]), ops[1..])
  {
  }

  // ---- In every run the indexes agree with the history ----

  predicate UsableOp(m: Mgr, op: Op) {
    op.Execute? ==> UsableId(m, op.request.intent.intentId)
  }

  /** Ids chosen by callers are new.  Nothing is said of the clock or the order store. */
  predicate UsableRun(m: Mgr, ops: seq<Op>)
    decreases |ops|
  {
    ops == [] || (UsableOp(m, ops[0]) && UsableRun(Apply(m, ops[0]), ops[1..]))
  }

  lemma ApplyKeepsBooks(m: Mgr, op: Op)
    requires Bookkept(m) && UsableOp(m, op)
    ensures Bookkept(Apply(m, op))
  {
    hide Bookkept, UsableId, Executed, Swept, Restored, Snapshot, NewManager, Reloaded, SameShape, SameRequests;
    match op
    case Execute(q) => ExecuteKeepsBooks(m, q);
    case Sweep(lookup, now) => SweepKeepsBooks(m, lookup, now);
    case Restart(saving, savedAt, loading, loadedAt) =>
      SweepKeepsBooks(m, saving, savedAt);
      SweptConfig(m, saving, savedAt);
      RestartKeepsBooks(Swept(m, saving, savedAt), loading, loadedAt);
  }

  lemma RestartKeepsBooks(m: Mgr, lookup: Lookup, now: Time)
    requires Bookkept(m)
    ensures Bookkept(Restored(NewManager(m.cfg), Snapshot(m), lookup, now))
  {
    hide Bookkept, Restored, Reloaded, Snapshot, NewManager, StandsByHistory;
    BooksAreIndexed(m);
    RestoreIsReload(m, lookup, now);
    ReloadKeepsBooks(m);
    SweepKeepsBooks(Reloaded(m), lookup, now);
  }

  /** In every run, at any times and with any order stores, the history is within its bound with unique ids
      up to the counter, and each key stands for the last execution of its own that can. */
  lemma {:induction false} RunKeepsBooks(m: Mgr, ops: seq<Op>)
    requires Bookkept(m) && UsableRun(m, ops)
    ensures Bookkept(After(m, ops))
    decreases |ops|
  {
    hide Bookkept, UsableOp, Apply;
    if ops != [] {
      ApplyKeepsBooks(m, ops[0]);
      RunKeepsBooks(Apply(m, ops[0]), ops[1..]);
    }
  }

  // ---- One execution in flight per key ----

  /** The clock does not go back, and of the closed executions that have given up their key the lookups reopen
      none but those old enough to go stale at once. */
  predicate Orderly(m: Mgr, t: Time, op: Op) {
    match op
    case Execute(q) => t <= q.Now() && UsableId(m, q.intent.intentId) && ReopensNoneEarly(m, q.before, q.Now())
    case Sweep(lookup, now) => t <= now && ReopensNoneEarly(m, lookup, now)
    case Restart(saving, savedAt, loading, loadedAt) =>
      && t <= savedAt <= loadedAt && ReopensNoneEarly(m, saving, savedAt)
      && ReopensNoneEarly(Swept(m, saving, savedAt), loading, loadedAt)
  }

  predicate OrderlyRun(m: Mgr, t: Time, ops: seq<Op>)
    decreases |ops|
  {
    ops == [] || (Orderly(m, t, ops[0]) && OrderlyRun(Apply(m, ops[0]), OpTime(ops[0]), ops[1..]))
  }

  lemma RestartKeepsLive(m: Mgr, t: Time, lookup: Lookup, now: Time)
    requires Live(m, t) && t <= now && ReopensNoneEarly(m, lookup, now)
    ensures Live(Restored(NewManager(m.cfg), Snapshot(m), lookup, now), now)
  {
    hide Bookkept, AloneInFlight, LiveEntry, Restored, Reloaded, Snapshot, NewManager, StandsByHistory, ReopensNoneBefore;
    BooksOfLive(m, t);
    BooksAreIndexed(m);
    RestoreIsReload(m, lookup, now);
    ReloadKeepsLive(m, t);
    ReloadReopensNone(m, lookup, now, m.cfg.staleAfter);
    SweepKeepsLive(Reloaded(m), lookup, t, now);
  }

  lemma ApplyKeepsLive(m: Mgr, t: Time, op: Op)
    requires Live(m, t) && Orderly(m, t, op)
    ensures Live(Apply(m, op), OpTime(op))
  {
    hide Live, UsableId, Executed, Swept, Restored, Snapshot, NewManager, Reloaded, ReopensNoneEarly;
    match op
    case Execute(q) => ExecuteKeepsLive(m, t, q);
    case Sweep(lookup, now) => SweepKeepsLive(m, lookup, t, now);
    case Restart(saving, savedAt, loading, loadedAt) =>
      SweepKeepsLive(m, saving, t, savedAt);
      SweptConfig(m, saving, savedAt);
      RestartKeepsLive(Swept(m, saving, savedAt), savedAt, loading, loadedAt);
  }

  lemma {:induction false} RunKeepsLive(m: Mgr, t: Time, ops: seq<Op>)
    requires Live(m, t) && OrderlyRun(m, t, ops)
    ensures Live(After(m, ops), ClockAfter(t, ops))
    decreases |ops|
  {
    hide Live, Orderly, Apply;
    if ops != [] {
      ApplyKeepsLive(m, t, ops[0]);
      RunKeepsLive(Apply(m, ops[0]), OpTime(ops[0]), ops[1..]);
      ClockAfterFirst(t, ops);
    }
  }

  lemma NewManagerInv(cfg: Config)
    ensures Inv(NewManager(cfg), ZERO_TIME)
  {
  }

  /** No two executions in flight share a key. */
  lemma OneInFlightPerKey(cfg: Config, ops: seq<Op>, i: nat, j: nat)
    requires OrderlyRun(NewManager(cfg), ZERO_TIME, ops)
    requires var history := After(NewManager(cfg), ops).history;
      i < j < |history| && history[i].Status().InFlight() && history[j].Status().InFlight()
    ensures var history := After(NewManager(cfg), ops).history;
      history[i].Key() != history[j].Key()
  {
    hide NamedEntry, Unfollowed, LiveEntry, LastOf, NewManager, OrderlyRun, After;
    NewManagerInv(cfg);
    RunKeepsLive(NewManager(cfg), ZERO_TIME, ops);
  }

  /** After any such run, the broker is not asked while an execution of the key in the history is in flight. */
  lemma BrokerNotAskedTwice(cfg: Config, ops: seq<Op>, q: Request)
    requires OrderlyRun(NewManager(cfg), ZERO_TIME, ops)
    requires var m := After(NewManager(cfg), ops);
      ClockAfter(ZERO_TIME, ops) <= q.Now() && ReopensNoneEarly(m, q.before, q.Now()) && CallsBroker(m, q)
    ensures var m := After(NewManager(cfg), ops);
      && SameRequests(m.history, DecisionOn(m, q).0.history) && Executed(m, q).result.dedupeKey == KeyOf(m, q)
      && KeyIdle(DecisionOn(m, q).0, KeyOf(m, q))
  {
    hide Live, NewManager, OrderlyRun, After, DecisionOn, KeyIdle, SameRequests, CallsBroker, ReopensNoneEarly, Executed, KeyOf;
    NewManagerInv(cfg);
    RunKeepsLive(NewManager(cfg), ZERO_TIME, ops);
    BrokerNotAskedInFlight(After(NewManager(cfg), ops), ClockAfter(ZERO_TIME, ops), q);
  }

  // ---- Submissions are apart ----

  /** The clock does not go back, and no look dates the end of an execution before it was asked for. */
  predicate DatedOp(m: Mgr, t: Time, op: Op) {
    match op
    case Execute(q) => Usable(m, t, q)
    case Sweep(lookup, now) => t <= now && AllEndInOrder(m, lookup, now)
    case Restart(saving, savedAt, loading, loadedAt) =>
      && t <= savedAt <= loadedAt && AllEndInOrder(m, saving, savedAt)
      && AllEndInOrder(Swept(m, saving, savedAt), loading, loadedAt)
  }

  predicate DatedRun(m: Mgr, t: Time, ops: seq<Op>)
    decreases |ops|
  {
    ops == [] || (DatedOp(m, t, ops[0]) && DatedRun(Apply(m, ops[0]), OpTime(ops[0]), ops[1..]))
  }

  lemma RestartKeepsApart(m: Mgr, t: Time, lookup: Lookup, now: Time)
    requires Apart(m, t) && t <= now && AllEndInOrder(m, lookup, now)
    ensures Apart(Restored(NewManager(m.cfg), Snapshot(m), lookup, now), now)
  {
    hide Bookkept, Apart, EndsInOrder, Restored, Reloaded, Snapshot, NewManager, StandsByHistory;
    BooksOfApart(m, t);
    BooksAreIndexed(m);
    RestoreIsReload(m, lookup, now);
    ReloadKeepsApart(m, t);
    SweepKeepsApart(Reloaded(m), lookup, t, now);
  }

  lemma ApplyKeepsApart(m: Mgr, t: Time, op: Op)
    requires Apart(m, t) && DatedOp(m, t, op)
    ensures Apart(Apply(m, op), OpTime(op))
  {
    hide Apart, Usable, Executed, Swept, Restored, Snapshot, NewManager, Reloaded, AllEndInOrder;
    match op
    case Execute(q) => ExecuteKeepsApart(m, t, q);
    case Sweep(lookup, now) => SweepKeepsApart(m, lookup, t, now);
    case Restart(saving, savedAt, loading, loadedAt) =>
      SweepKeepsApart(m, saving, t, savedAt);
      SweptConfig(m, saving, savedAt);
      RestartKeepsApart(Swept(m, saving, savedAt), savedAt, loading, loadedAt);
  }

  /** In every such run, whatever the order stores reopen, a key is given up only longer after its last use
      than the dedupe window. */
  lemma {:induction false} RunKeepsApart(m: Mgr, t: Time, ops: seq<Op>)
    requires Apart(m, t) && DatedRun(m, t, ops)
    ensures Apart(After(m, ops), ClockAfter(t, ops))
    decreases |ops|
  {
    hide Apart, DatedOp, Apply;
    if ops != [] {
      ApplyKeepsApart(m, t, ops[0]);
      RunKeepsApart(Apply(m, ops[0]), OpTime(ops[0]), ops[1..]);
      ClockAfterFirst(t, ops);
    }
  }

  /** Also, the lookups reopen nothing that gave up its key lately. */
  predicate Fits(m: Mgr, t: Time, op: Op) {
    DatedOp(m, t, op) && OpTime(op) != ZERO_TIME
    && match op
       case Execute(q) => ReopensNoneSoon(m, q.before, q.Now())
       case Sweep(lookup, now) => ReopensNoneSoon(m, lookup, now)
       case Restart(saving, savedAt, loading, loadedAt) =>
         && savedAt != ZERO_TIME && ReopensNoneSoon(m, saving, savedAt)
         && ReopensNoneSoon(Swept(m, saving, savedAt), loading, loadedAt)
  }

  predicate TrustedRun(m: Mgr, t: Time, ops: seq<Op>)
    decreases |ops|
  {
    ops == [] || (Fits(m, t, ops[0]) && TrustedRun(Apply(m, ops[0]), OpTime(ops[0]), ops[1..]))
  }

  lemma {:induction false} TrustedIsDated(m: Mgr, t: Time, ops: seq<Op>)
    requires TrustedRun(m, t, ops)
    ensures DatedRun(m, t, ops)
    decreases |ops|
  {
    hide Apply, DatedOp, ReopensNoneSoon;
    if ops != [] {
      TrustedIsDated(Apply(m, ops[0]), OpTime(ops[0]), ops[1..]);
    }
  }

  lemma ReloadEndsInOrder(m: Mgr, lookup: Lookup, now: Time)
    requires Bookkept(m) && AllEndInOrder(m, lookup, now)
    ensures AllEndInOrder(Reloaded(m), lookup, now)
  {
    hide Bookkept, EndsInOrder, Reloaded;
    ReloadedIs(m);
  }

  lemma ReloadReopensNoneSoon(m: Mgr, lookup: Lookup, now: Time)
    requires Bookkept(m) && ReopensNoneSoon(m, lookup, now)
    ensures ReopensNoneSoon(Reloaded(m), lookup, now)
  {
    hide Bookkept, ReopensNoneBefore, Reloaded;
    ReloadedIs(m);
    ReloadReopensNone(m, lookup, now, m.cfg.staleAfter + m.cfg.dedupeWindow + 1);
  }

  lemma RestartKeepsInv(m: Mgr, t: Time, lookup: Lookup, now: Time)
    requires Inv(m, t) && t <= now && now != ZERO_TIME && AllEndInOrder(m, lookup, now) && ReopensNoneSoon(m, lookup, now)
    ensures Inv(Restored(NewManager(m.cfg), Snapshot(m), lookup, now), now)
  {
    hide Bookkept, Inv, AllEndInOrder, Restored, Reloaded, Snapshot, NewManager, StandsByHistory, ReopensNoneSoon, Swept,
         Apart, Live, RestoreOutcome;
    InvIsApart(m, t);
    BooksOfApart(m, t);
    BooksAreIndexed(m);
    RestoreIsReload(m, lookup, now);
    ReloadKeepsInv(m, t);
    ReloadEndsInOrder(m, lookup, now);
    ReloadReopensNoneSoon(m, lookup, now);
    SweepKeepsInv(Reloaded(m), lookup, t, now);
  }

  lemma ApplyKeepsInv(m: Mgr, t: Time, op: Op)
    requires Inv(m, t) && Fits(m, t, op)
    ensures Inv(Apply(m, op), OpTime(op))
  {
    hide Inv, Usable, Executed, Swept, Restored, Snapshot, NewManager, Reloaded, AllEndInOrder, ReopensNoneSoon;
    match op
    case Execute(q) => ExecuteKeepsInv(m, t, q);
    case Sweep(lookup, now) => SweepKeepsInv(m, lookup, t, now);
    case Restart(saving, savedAt, loading, loadedAt) =>
      SweepKeepsInv(m, saving, t, savedAt);
      SweptConfig(m, saving, savedAt);
      RestartKeepsInv(Swept(m, saving, savedAt), savedAt, loading, loadedAt);
  }

  /** In every such run a key is also given up only that much longer after the last use that is unresolved. */
  lemma {:induction false} RunKeepsInv(m: Mgr, t: Time, ops: seq<Op>)
    requires Inv(m, t) && TrustedRun(m, t, ops)
    ensures Inv(After(m, ops), ClockAfter(t, ops))
    decreases |ops|
  {
    hide Inv, Fits, Apply;
    if ops != [] {
      ApplyKeepsInv(m, t, ops[0]);
      RunKeepsInv(Apply(m, ops[0]), OpTime(ops[0]), ops[1..]);
      ClockAfterFirst(t, ops);
    }
  }

  predicate Holds(m: Mgr, id: string) {
    exists i :: 0 <= i < |m.history| && m.history[i].Id() == id
  }

  /** The history holds the execution all through the run. */
  predicate HoldsThroughout(m: Mgr, ops: seq<Op>, id: string)
    decreases |ops|
  {
    Holds(m, id) && (ops != [] ==> HoldsThroughout(Apply(m, ops[0]), ops[1..], id))
  }

  /** The history holds the request under its key, sent to the broker or not. */
  predicate HoldsRequest(m: Mgr, i: Intent, key: string, sent: bool) {
    exists k :: 0 <= k < |m.history| && m.history[k].intent == i && m.history[k].Key() == key
                && m.history[k].Status().Registers() == sent
  }

  lemma SameRequestsHold(m: Mgr, m': Mgr, i: Intent, key: string, sent: bool)
    requires HoldsRequest(m, i, key, sent) && SameRequests(m.history, m'.history)
    ensures HoldsRequest(m', i, key, sent)
  {
    var k :| 0 <= k < |m.history| && m.history[k].intent == i && m.history[k].Key() == key
             && m.history[k].Status().Registers() == sent;
    assert m'.history[k].intent == i;
  }

  /** Filing another execution leaves this one as it is, unless it is evicted. */
  lemma StoreHolds(m: Mgr, e: Entry, i: Intent, key: string, sent: bool)
    requires HoldsRequest(m, i, key, sent) && UniqueIds(m.history) && Holds(Stored(m, e), i.intentId)
    requires e.Id() != i.intentId
    ensures HoldsRequest(Stored(m, e), i, key, sent)
  {
    hide Stored;
    StoredHistory(m, e);
    var m' := Stored(m, e);
    var h := m.history + [e];
    var shift := if |h| > m.cfg.maxHistory then 1 else 0;
    var k :| 0 <= k < |m.history| && m.history[k].intent == i && m.history[k].Key() == key
             && m.history[k].Status().Registers() == sent;
    var l :| 0 <= l < |m'.history| && m'.history[l].Id() == i.intentId;
    assert h[k] == m.history[k] && m'.history[l] == h[l + shift];
    assert l + shift == k;
  }

  lemma ApplyHolds(m: Mgr, op: Op, i: Intent, key: string, sent: bool)
    requires Bookkept(m) && UsableOp(m, op) && HoldsRequest(m, i, key, sent) && Holds(Apply(m, op), i.intentId)
    ensures HoldsRequest(Apply(m, op), i, key, sent)
  {
    hide Bookkept, UsableId, Executed, Swept, Restored, Snapshot, NewManager, Reloaded, SameShape, SameRequests, Holds,
         HoldsRequest;
    match op
    case Execute(q) => ExecuteHolds(m, q, i, key, sent);
    case Sweep(lookup, now) =>
      SweepKeepsBooks(m, lookup, now);
      SameRequestsHold(m, Swept(m, lookup, now), i, key, sent);
    case Restart(saving, savedAt, loading, loadedAt) =>
      SweepKeepsBooks(m, saving, savedAt);
      SweptConfig(m, saving, savedAt);
      SameRequestsHold(m, Swept(m, saving, savedAt), i, key, sent);
      RestartHolds(Swept(m, saving, savedAt), loading, loadedAt, i, key, sent);
  }

  lemma RestartHolds(m: Mgr, lookup: Lookup, now: Time, i: Intent, key: string, sent: bool)
    requires Bookkept(m) && HoldsRequest(m, i, key, sent)
    ensures HoldsRequest(Restored(NewManager(m.cfg), Snapshot(m), lookup, now), i, key, sent)
  {
    hide Bookkept, Restored, Reloaded, Snapshot, NewManager, StandsByHistory, SameRequests, Swept;
    BooksAreIndexed(m);
    RestoreIsReload(m, lookup, now);
    ReloadKeepsBooks(m);
    SweepKeepsBooks(Reloaded(m), lookup, now);
    SameRequestsHold(Reloaded(m), Swept(Reloaded(m), lookup, now), i, key, sent);
  }

  lemma ExecuteHolds(m: Mgr, q: Request, i: Intent, key: string, sent: bool)
    requires Bookkept(m) && UsableId(m, q.intent.intentId) && HoldsRequest(m, i, key, sent)
    requires Holds(Executed(m, q).manager, i.intentId)
    ensures HoldsRequest(Executed(m, q).manager, i, key, sent)
  {
    hide Bookkept, UsableId, Decided, Stored, ResultOf, Prepared, SameRequests, SameShape, Holds, HoldsRequest, Indexed,
         RunsUnderNewId, BuildDedupeKey;
    var (m', d) := DecisionOn(m, q);
    DecisionKeepsBooks(m, q);
    SameRequestsHold(m, m', i, key, sent);
    BooksAreIndexed(m);
    UsableIdIsNew(m, q);
    OtherThanHeld(m, q, i, key, sent);
    BooksAreUnique(m');
    StoreHolds(m', Entry(Executed(m, q).intent, Executed(m, q).result), i, key, sent);
  }

  lemma OtherThanHeld(m: Mgr, q: Request, i: Intent, key: string, sent: bool)
    requires RunsUnderNewId(m, q) && HoldsRequest(m, i, key, sent)
    ensures Prepared(q.intent, m.nextId + 1, q.Now()).intentId != i.intentId
  {
    hide Prepared;
  }

  lemma BooksAreUnique(m: Mgr)
    requires Bookkept(m)
    ensures UniqueIds(m.history)
  {
  }

  /** As long as the history holds it, an execution keeps its request, its key, and whether it was sent. */
  lemma {:induction false} RunHolds(m: Mgr, ops: seq<Op>, i: Intent, key: string, sent: bool)
    requires Bookkept(m) && UsableRun(m, ops) && HoldsRequest(m, i, key, sent) && HoldsThroughout(m, ops, i.intentId)
    ensures HoldsRequest(After(m, ops), i, key, sent)
    decreases |ops|
  {
    hide Bookkept, UsableOp, Apply, HoldsRequest;
    if ops != [] {
      ApplyKeepsBooks(m, ops[0]);
      assert Holds(Apply(m, ops[0]), i.intentId) by { assert HoldsThroughout(Apply(m, ops[0]), ops[1..], i.intentId); }
      ApplyHolds(m, ops[0], i, key, sent);
      RunHolds(Apply(m, ops[0]), ops[1..], i, key, sent);
    }
  }

  lemma {:induction false} DatedIsUsable(m: Mgr, t: Time, ops: seq<Op>)
    requires DatedRun(m, t, ops)
    ensures UsableRun(m, ops)
    decreases |ops|
  {
    hide Apply, AllEndInOrder, LooksInOrder, UsableId;
    if ops != [] {
      DatedIsUsable(Apply(m, ops[0]), OpTime(ops[0]), ops[1..]);
    }
  }

  lemma SentIsHeld(m: Mgr, q: Request)
    requires Bookkept(m) && CallsBroker(m, q)
    ensures HoldsRequest(Executed(m, q).manager, Executed(m, q).intent, KeyOf(m, q), true)
  {
    hide Decided, ResultOf, Prepared, BuildDedupeKey, NamedEntry, Unfollowed, Stored, SameRequests, SameShape, LatestAgrees;
    var x := Executed(m, q);
    DecisionKeepsBooks(m, q);
    ResultIsFollowed(q, x.intent, Send);
    StoredLast(DecisionOn(m, q).0, Entry(x.intent, x.result));
  }

  lemma StoredLast(m: Mgr, e: Entry)
    requires m.cfg.maxHistory > 0
    ensures var history := Stored(m, e).history; history != [] && history[|history| - 1] == e
  {
  }

  lemma ApplyKeepsConfig(m: Mgr, op: Op)
    requires Bookkept(m) && UsableOp(m, op)
    ensures Apply(m, op).cfg == m.cfg
  {
    hide Bookkept, UsableId, Decided, Swept, Restored, Snapshot, Reloaded, SameShape, SameRequests, ResultOf, Prepared;
    BooksAreIndexed(m);
    match op
    case Execute(q) => DecisionKeepsBooks(m, q);
    case Sweep(lookup, now) => SweptConfig(m, lookup, now);
    case Restart(saving, savedAt, loading, loadedAt) =>
      var saved := Swept(m, saving, savedAt);
      SweepKeepsBooks(m, saving, savedAt);
      SweptConfig(m, saving, savedAt);
      BooksAreIndexed(saved);
      RestoreIsReload(saved, loading, loadedAt);
      SweptConfig(Reloaded(saved), loading, loadedAt);
  }

  lemma {:induction false} RunKeepsConfig(m: Mgr, ops: seq<Op>)
    requires Bookkept(m) && UsableRun(m, ops)
    ensures After(m, ops).cfg == m.cfg
    decreases |ops|
  {
    hide Bookkept, UsableOp, Apply;
    if ops != [] {
      ApplyKeepsBooks(m, ops[0]);
      ApplyKeepsConfig(m, ops[0]);
      RunKeepsConfig(Apply(m, ops[0]), ops[1..]);
    }
  }

  lemma ExecutedIs(m: Mgr, q: Request)
    requires Bookkept(m)
    ensures Executed(m, q).intent.createdAt == q.Now() && Executed(m, q).manager.cfg == m.cfg
    ensures CallsBroker(m, q) ==> Executed(m, q).result.dedupeKey == KeyOf(m, q)
  {
    hide Bookkept, Decided, ResultOf, BuildDedupeKey, SameRequests, SameShape, Stored, TrimSpace, ExecutionId;
    DecisionKeepsBooks(m, q);
    StoredHistory(DecisionOn(m, q).0, Entry(Executed(m, q).intent, Executed(m, q).result));
    ResultIsFollowed(q, Prepared(q.intent, m.nextId + 1, q.Now()), Send);
  }

  /** At a submission, an earlier one of its key that is still in the history is that long ago. */
  lemma HeldIsApart(m: Mgr, t: Time, q: Request, i: Intent)
    requires Apart(m, t) && Usable(m, t, q) && CallsBroker(m, q) && HoldsRequest(m, i, KeyOf(m, q), true)
    ensures q.Now() - i.createdAt > m.cfg.dedupeWindow
  {
    hide Apart, Usable, CallsBroker, Executed, KeyOf;
    BrokerCallsAreApart(m, t, q);
  }

  /** A later submission of a key, and the run that leads to it. */
  predicate FollowedBy(m: Mgr, q: Request, ops: seq<Op>, q': Request) {
    var m1 := Executed(m, q).manager;
    && CallsBroker(m, q) && HoldsThroughout(m1, ops, Executed(m, q).intent.intentId)
    && CallsBroker(After(m1, ops), q') && KeyOf(After(m1, ops), q') == KeyOf(m, q)
  }

  lemma SentIsHeldLater(m: Mgr, q: Request, ops: seq<Op>, q': Request)
    requires Bookkept(m) && UsableId(m, q.intent.intentId) && FollowedBy(m, q, ops, q')
    requires UsableRun(Executed(m, q).manager, ops)
    ensures var m2 := After(Executed(m, q).manager, ops);
      && HoldsRequest(m2, Executed(m, q).intent, KeyOf(m, q), true)
      && m2.cfg == m.cfg && Executed(m, q).intent.createdAt == q.Now()
  {
    hide Bookkept, UsableId, UsableRun, HoldsThroughout, After, CallsBroker, Executed, KeyOf, HoldsRequest;
    var m1 := Executed(m, q).manager;
    ExecuteKeepsBooks(m, q);
    ExecutedIs(m, q);
    SentIsHeld(m, q);
    RunKeepsConfig(m1, ops);
    RunHolds(m1, ops, Executed(m, q).intent, KeyOf(m, q), true);
  }

  /** Two submissions of one key, with the first still in the history all along, are more than the dedupe window
      apart, whatever the order stores reopen in between. */
  lemma SubmissionsAreApart(m: Mgr, t: Time, q: Request, ops: seq<Op>, q': Request)
    requires Apart(m, t) && Usable(m, t, q) && FollowedBy(m, q, ops, q')
    requires DatedRun(Executed(m, q).manager, q.Now(), ops)
    requires Usable(After(Executed(m, q).manager, ops), ClockAfter(q.Now(), ops), q')
    ensures q'.Now() - q.Now() > m.cfg.dedupeWindow
  {
    hide Apart, Bookkept, LooksInOrder, UsableId, DatedRun, UsableRun, HoldsThroughout, After, CallsBroker, Executed, KeyOf,
         HoldsRequest;
    var m1 := Executed(m, q).manager;
    BooksOfApart(m, t);
    ExecuteKeepsApart(m, t, q);
    RunKeepsApart(m1, q.Now(), ops);
    DatedIsUsable(m1, q.Now(), ops);
    SentIsHeldLater(m, q, ops, q');
    HeldIsApart(After(m1, ops), ClockAfter(q.Now(), ops), q', Executed(m, q).intent);
  }

  /** The execution of the request is in the history, and was not resolved by the time of the decision. */
  predicate Unresolved(history: seq<Entry>, i: Intent) {
    exists j :: 0 <= j < |history| && history[j].intent == i && history[j].Status() == Stale
  }

  lemma UnresolvedIsApart(m: Mgr, t: Time, q: Request, i: Intent)
    requires Inv(m, t) && Usable(m, t, q) && ReopensNoneSoon(m, q.before, q.Now()) && CallsBroker(m, q)
    requires HoldsRequest(m, i, KeyOf(m, q), true) && Unresolved(DecisionOn(m, q).0.history, i)
    ensures q.Now() - i.createdAt > m.cfg.staleAfter + m.cfg.dedupeWindow
  {
    hide Inv, Usable, CallsBroker, KeyOf, DecisionOn, ReopensNoneSoon, Bookkept;
    InvIsApart(m, t);
    BooksOfApart(m, t);
    UnresolvedCallsAreApart(m, t, q);
    DecisionKeepsBooks(m, q);
    KeyOfHeld(m, DecisionOn(m, q).0, i, KeyOf(m, q));
  }

  /** The one execution of a request keeps its key through looks at the order store. */
  lemma KeyOfHeld(m: Mgr, m': Mgr, i: Intent, key: string)
    requires Bookkept(m') && SameRequests(m.history, m'.history) && HoldsRequest(m, i, key, true)
    ensures m'.cfg == m.cfg ==> forall j | 0 <= j < |m'.history| && m'.history[j].intent == i :: m'.history[j].Key() == key
  {
    hide NamedEntry, Unfollowed, LatestAgrees;
    var k :| 0 <= k < |m.history| && m.history[k].intent == i && m.history[k].Key() == key
             && m.history[k].Status().Registers() == true;
    assert m'.history[k].intent == i;
  }

  /** They are more than the stale threshold further apart if the first is still unresolved at the second, and
      the order stores reopened nothing that gave up its key lately. */
  lemma UnresolvedSubmissionsAreApart(m: Mgr, t: Time, q: Request, ops: seq<Op>, q': Request)
    requires Inv(m, t) && Usable(m, t, q) && ReopensNoneSoon(m, q.before, q.Now()) && FollowedBy(m, q, ops, q')
    requires var m1 := Executed(m, q).manager; var m2 := After(m1, ops);
      && TrustedRun(m1, q.Now(), ops)
      && Usable(m2, ClockAfter(q.Now(), ops), q') && ReopensNoneSoon(m2, q'.before, q'.Now())
      && Unresolved(DecisionOn(m2, q').0.history, Executed(m, q).intent)
    ensures q'.Now() - q.Now() > m.cfg.staleAfter + m.cfg.dedupeWindow
  {
    hide Inv, Apart, Bookkept, LooksInOrder, UsableId, TrustedRun, DatedRun, UsableRun, HoldsThroughout, After, CallsBroker,
         Executed, KeyOf, HoldsRequest, DecisionOn, Unresolved, ReopensNoneSoon;
    var m1 := Executed(m, q).manager;
    InvIsApart(m, t);
    BooksOfApart(m, t);
    ExecuteKeepsInv(m, t, q);
    RunKeepsInv(m1, q.Now(), ops);
    TrustedIsDated(m1, q.Now(), ops);
    DatedIsUsable(m1, q.Now(), ops);
    SentIsHeldLater(m, q, ops, q');
    UnresolvedIsApart(After(m1, ops), ClockAfter(q.Now(), ops), q', Executed(m, q).intent);
  }

  // ---- A restart at the same instant changes nothing ----

  /** A key that no longer stands had its last execution expire. */
  ghost predicate Complete(m: Mgr, now: Time) {
    forall k :: LastOf(m.history, k).Some? && k !in m.latest ==>
      Expired(m.history[LastOf(m.history, k).value], m.cfg, now)
  }

  lemma SweepTwice(e: Entry, lookup: Lookup, cfg: Config, now: Time)
    ensures var e' := SweptEntry(e, lookup, cfg, now); SweptEntry(e', None, cfg, now) == e'
  {
  }

  lemma SweptAgain(m: Mgr, lookup: Lookup, now: Time)
    ensures var s := Swept(m, lookup, now);
      && SweptHistory(s.history, None, s.cfg, now) == s.history
      && forall k | k in s.latest :: StillStands(s, s.latest[k], now)
  {
    hide SweptEntry;
    var s := Swept(m, lookup, now);
    forall i | 0 <= i < |s.history| ensures SweptEntry(s.history[i], None, s.cfg, now) == s.history[i] {
      SweepTwice(m.history[i], lookup, m.cfg, now);
    }
  }

  lemma LatestAfterReload(s: Mgr, now: Time)
    requires Indexed(s)
    requires SweptHistory(s.history, None, s.cfg, now) == s.history
    requires forall k | k in s.latest :: StillStands(s, s.latest[k], now)
    requires StandsByHistory(s.history, Reloaded(s).latest) && Reloaded(s).history == s.history
          && Reloaded(s).cfg == s.cfg && Reloaded(s).nextId == s.nextId && Reloaded(s).index == s.index
    ensures Swept(Reloaded(s), None, now).history == s.history
    ensures Complete(s, now) <==> Swept(Reloaded(s), None, now).latest == s.latest
  {
    hide IndexExact, UniqueIds, NamedEntry, LastOf, Filed, Expired, SweptEntry, Reloaded;
    var r := Reloaded(s);
    var back := Swept(r, None, now).latest;
    forall k | LastOf(s.history, k).Some?
      ensures k in r.latest && r.latest[k] == s.history[LastOf(s.history, k).value].Id()
      ensures k in back <==> !Expired(s.history[LastOf(s.history, k).value], s.cfg, now)
    {
      PositionOfUnique(s, LastOf(s.history, k).value);
    }
    forall k | k in s.latest ensures k in back && back[k] == s.latest[k] {
      assert LastOf(s.history, k).Some?;
    }
    if Complete(s, now) {
      forall k | k in back ensures k in s.latest {
        assert LastOf(s.history, k).Some?;
      }
      assert back == s.latest;
    }
  }

  /** Saving a manager and restoring it at the same instant, before any order store is attached, gives
      back its history and counter, and gives back the standing executions exactly when every key that
      has none had its last execution expire. */
  lemma RestartIsExact(m: Mgr, lookup: Lookup, now: Time)
    requires Bookkept(m)
    ensures var s := Swept(m, lookup, now);
      var r := Restored(NewManager(m.cfg), Snapshot(s), None, now);
      && r.history == s.history && r.nextId == s.nextId && r.index == s.index && r.cfg == s.cfg
      && (r.latest == s.latest <==> Complete(s, now))
  {
    hide Bookkept, Restored, Reloaded, Snapshot, NewManager, Swept, Complete, StandsByHistory;
    var s := Swept(m, lookup, now);
    SweepKeepsBooks(m, lookup, now);
    BooksAreIndexed(s);
    SweptConfig(m, lookup, now);
    SweptAgain(m, lookup, now);
    RestoreIsReload(s, None, now);
    SweptConfig(Reloaded(s), None, now);
    LatestAfterReload(s, now);
  }

  // ---- When keys are given up for good ----

  /** An execution that has ended has a time for it. */
  predicate Ended(e: Entry) {
    e.Status().Terminal() ==> e.result.completedAt != ZERO_TIME
  }

  predicate AllEnded(m: Mgr) {
    Bookkept(m) && forall i | 0 <= i < |m.history| :: Ended(m.history[i])
  }

  /** The lookup revives no ended execution that has given up its key. */
  predicate LeavesReleased(m: Mgr, lookup: Lookup) {
    forall i | 0 <= i < |m.history| ::
      m.history[i].Status().Terminal() && !StandsForKey(m.history[i], m.latest) && Reported(m.history[i], lookup).Some? ==>
        Reported(m.history[i], lookup).value.Closed()
  }

  lemma SweepKeepsEnded(e: Entry, lookup: Lookup, cfg: Config, now: Time)
    requires Ended(e) && now != ZERO_TIME
    ensures Ended(SweptEntry(e, lookup, cfg, now)) && Ended(RefreshedEntry(e, lookup, now))
  {
    hide Find;
  }

  lemma ReleasedStaysExpired(e: Entry, lookup: Lookup, cfg: Config, t: Time, now: Time)
    requires Ended(e) && Expired(e, cfg, t) && t <= now
    requires Reported(e, lookup).Some? ==> Reported(e, lookup).value.Closed()
    ensures Expired(SweptEntry(e, lookup, cfg, now), cfg, now)
  {
    hide Find, EventTime;
  }

  lemma SweepKeepsAllEnded(m: Mgr, lookup: Lookup, now: Time)
    requires AllEnded(m) && now != ZERO_TIME
    ensures AllEnded(Swept(m, lookup, now))
  {
    hide Bookkept, Ended, SweptEntry, Swept, SameRequest, SameShape;
    SweepKeepsBooks(m, lookup, now);
    forall i | 0 <= i < |m.history|
      ensures |Swept(m, lookup, now).history| == |m.history| && Ended(Swept(m, lookup, now).history[i])
    {
      SweptHistoryAt(m, lookup, now, i);
      SweepKeepsEnded(m.history[i], lookup, m.cfg, now);
    }
  }

  /** A sweep keeps completeness when the lookup leaves released executions alone. */
  lemma SweepKeepsComplete(m: Mgr, lookup: Lookup, t: Time, now: Time)
    requires AllEnded(m) && Complete(m, t) && t <= now && now != ZERO_TIME && LeavesReleased(m, lookup)
    ensures Complete(Swept(m, lookup, now), now)
  {
    hide SweptEntry, NamedEntry, Ended, LastOf, Expired, Unfollowed, Reported;
    var s := Swept(m, lookup, now);
    SweepKeepsBooks(m, lookup, now);
    forall k | LastOf(s.history, k).Some? && k !in s.latest
      ensures Expired(s.history[LastOf(s.history, k).value], s.cfg, now)
    {
      SameShapeSameLast(m.history, s.history, k);
      var n := LastOf(m.history, k).value;
      if k in m.latest {
        PositionOfUnique(s, n);
      } else {
        assert !StandsForKey(m.history[n], m.latest);
        assert m.history[n].Status().Terminal() by { ExpiredIsTerminal(m.history[n], m.cfg, t); }
        ReleasedStaysExpired(m.history[n], lookup, m.cfg, t, now);
      }
    }
  }

  lemma ExpiredIsTerminal(e: Entry, cfg: Config, t: Time)
    requires Expired(e, cfg, t)
    ensures e.Status().Terminal()
  {
  }

  /** Storing an execution keeps completeness. */
  lemma StoreKeepsComplete(m: Mgr, e: Entry, now: Time)
    requires Indexed(m) && Complete(m, now)
    ensures Complete(Stored(m, e), now)
  {
    hide NamedEntry, LastOf, Expired;
    var m' := Stored(m, e);
    var h := m.history + [e];
    assert m'.history == if |h| <= m.cfg.maxHistory then h else h[1..];
    forall k | LastOf(m'.history, k).Some? && k !in m'.latest
      ensures Expired(m'.history[LastOf(m'.history, k).value], m'.cfg, now)
    {
      LastAfterAppend(m.history, e, k);
      if |h| > m.cfg.maxHistory {
        LastAfterEviction(h, k);
      }
      var n := LastOf(m.history, k).value;
      assert h[n] == m.history[n];
    }
  }

  /** A request keeps completeness. */
  lemma ExecuteKeepsComplete(m: Mgr, t: Time, q: Request)
    requires AllEnded(m) && Complete(m, t) && t <= q.Now() && q.Now() != ZERO_TIME && UsableId(m, q.intent.intentId)
    requires LeavesReleased(m, q.before)
    ensures AllEnded(Executed(m, q).manager) && Complete(Executed(m, q).manager, q.Now())
  {
    hide Bookkept, Decided, Stored, ResultOf, Prepared, Complete, LeavesReleased, Indexed, UsableId, Ended, Unfollowed,
         NamedEntry, SameRequests, SameShape;
    var i := Prepared(q.intent, m.nextId + 1, q.Now());
    var (m', d) := DecisionOn(m, q);
    var e := Entry(i, ResultOf(i, d, q.broker, q.after, q.Now()));
    DecisionKeepsComplete(m, t, q);
    ExecuteKeepsBooks(m, q);
    ResultIsEnded(q, i, d);
    BooksAreIndexed(m');
    StoreKeepsComplete(m', e, q.Now());
    StoreKeepsEnded(m', e);
  }

  lemma StoreKeepsEnded(m: Mgr, e: Entry)
    requires Ended(e) && forall i | 0 <= i < |m.history| :: Ended(m.history[i])
    ensures forall i | 0 <= i < |Stored(m, e).history| :: Ended(Stored(m, e).history[i])
  {
    hide Ended;
  }

  lemma ResultIsEnded(q: Request, i: Intent, d: Decision)
    requires q.Now() != ZERO_TIME
    ensures Ended(Entry(i, ResultOf(i, d, q.broker, q.after, q.Now())))
  {
    hide MapPayloadStatus, MapRefusal, BuildDedupeKey, Shown, FillOf, RefreshedEntry, ClassifyAction, Find;
    if q.broker.Some? && q.broker.value.Taken? {
      var accepted := Entry(i, Accepted(NewResult(i), q.broker.value.payload, i.quantity, q.Now()));
      SweepKeepsEnded(accepted, q.after, Config(0, 0, 0), q.Now());
      RefreshedEntryIs(accepted, q.after, q.Now());
    }
  }

  lemma DecisionKeepsComplete(m: Mgr, t: Time, q: Request)
    requires AllEnded(m) && Complete(m, t) && t <= q.Now() && q.Now() != ZERO_TIME && LeavesReleased(m, q.before)
    ensures AllEnded(DecisionOn(m, q).0) && Complete(DecisionOn(m, q).0, q.Now())
  {
    hide Validate, BuildDedupeKey, LastOf, Swept, Bookkept, Indexed, UsableId, Prepared, RefreshedEntry, Ended, Complete,
         LeavesReleased, DecideAgainst, SameRequests, SameShape, StandsForKey;
    var now, s, key := q.Now(), Opened(m, q), KeyOf(m, q);
    SweepKeepsComplete(m, q.before, t, now);
    SweepKeepsAllEnded(m, q.before, now);
    OpenedKeepsBooks(m, q);
    OpenedIsComplete(m, q);
    DecisionKeepsBooks(m, q);
    if StandingFor(s, key).Some? {
      var at := StandingFor(s, key).value;
      BooksAreIndexed(s);
      StandingPosition(s, key);
      RefreshKeepsBooks(s, at, q.before, now);
      RefreshKeepsComplete(s, at, q.before, now);
      SweepKeepsEnded(s.history[at], q.before, s.cfg, now);
    }
  }

  lemma OpenedIsComplete(m: Mgr, q: Request)
    requires Complete(Swept(m, q.before, q.Now()), q.Now())
    ensures Complete(Opened(m, q), q.Now())
  {
    hide Swept, LastOf, Expired;
  }

  lemma RefreshKeepsComplete(m: Mgr, at: nat, lookup: Lookup, now: Time)
    requires Complete(m, now) && at < |m.history| && StandsForKey(m.history[at], m.latest)
    requires SameShape(m.history, WithRefreshed(m, at, lookup, now).history)
    ensures Complete(WithRefreshed(m, at, lookup, now), now)
  {
    hide RefreshedEntry, Expired, LastOf;
    var m' := WithRefreshed(m, at, lookup, now);
    forall k | LastOf(m'.history, k).Some? && k !in m'.latest
      ensures Expired(m'.history[LastOf(m'.history, k).value], m'.cfg, now)
    {
      SameShapeSameLast(m.history, m'.history, k);
    }
  }

  /** The clock does not go back, the order stores seen along the way leave released executions alone, and a
      restart comes before the order store is attached. */
  predicate Calm(m: Mgr, t: Time, op: Op) {
    OpTime(op) != ZERO_TIME && UsableOp(m, op)
    && match op
       case Execute(q) => t <= q.Now() && LeavesReleased(m, q.before)
       case Sweep(lookup, now) => t <= now && LeavesReleased(m, lookup)
       case Restart(saving, savedAt, loading, loadedAt) =>
         t <= savedAt <= loadedAt && savedAt != ZERO_TIME && LeavesReleased(m, saving) && loading.None?
  }

  predicate CalmRun(m: Mgr, t: Time, ops: seq<Op>)
    decreases |ops|
  {
    ops == [] || (Calm(m, t, ops[0]) && CalmRun(Apply(m, ops[0]), OpTime(ops[0]), ops[1..]))
  }

  lemma RestartIsComplete(m: Mgr, t: Time, now: Time)
    requires AllEnded(m) && t <= now && now != ZERO_TIME
    ensures AllEnded(Restored(NewManager(m.cfg), Snapshot(m), None, now))
    ensures Complete(Restored(NewManager(m.cfg), Snapshot(m), None, now), now)
  {
    hide Indexed, Ended, Restored, Reloaded, Snapshot, NewManager, Swept, Unfollowed, LastOf;
    BooksAreIndexed(m);
    RestoreIsReload(m, None, now);
    ReloadKeepsBooks(m);
    NoLookupLeavesReleased(Reloaded(m));
    SweepKeepsComplete(Reloaded(m), None, t, now);
    SweepKeepsAllEnded(Reloaded(m), None, now);
  }

  /** Without an order store nothing is reopened or revived, and no end is dated. */
  lemma NoLookupLeavesReleased(m: Mgr)
    ensures LeavesReleased(m, None)
    ensures forall now :: AllEndInOrder(m, None, now)
    ensures forall now, age :: ReopensNoneBefore(m, None, now, age)
  {
  }

  lemma ApplyKeepsComplete(m: Mgr, t: Time, op: Op)
    requires AllEnded(m) && Complete(m, t) && Calm(m, t, op)
    ensures AllEnded(Apply(m, op)) && Complete(Apply(m, op), OpTime(op))
  {
    hide AllEnded, UsableId, Executed, Swept, Restored, Snapshot, NewManager, Reloaded, Complete, LeavesReleased;
    match op
    case Execute(q) => ExecuteKeepsComplete(m, t, q);
    case Sweep(lookup, now) =>
      SweepKeepsComplete(m, lookup, t, now);
      SweepKeepsAllEnded(m, lookup, now);
    case Restart(saving, savedAt, loading, loadedAt) =>
      SweepKeepsAllEnded(m, saving, savedAt);
      RestartIsComplete(Swept(m, saving, savedAt), savedAt, loadedAt);
      SweptConfig(m, saving, savedAt);
  }

  lemma {:induction false} CalmRunKeepsComplete(m: Mgr, t: Time, ops: seq<Op>)
    requires AllEnded(m) && Complete(m, t) && CalmRun(m, t, ops)
    ensures AllEnded(After(m, ops)) && Complete(After(m, ops), ClockAfter(t, ops))
    decreases |ops|
  {
    hide AllEnded, Apply, Calm, Complete;
    if ops != [] {
      ApplyKeepsComplete(m, t, ops[0]);
      CalmRunKeepsComplete(Apply(m, ops[0]), OpTime(ops[0]), ops[1..]);
      ClockAfterFirst(t, ops);
    }
  }

  /** Duplicate suppression survives a restart: after any calm run, what is restored from a snapshot
      taken at the same instant is the very manager that was saved, so it decides every later request alike. */
  lemma RestartChangesNoDecision(cfg: Config, ops: seq<Op>, lookup: Lookup, now: Time, q: Request)
    requires CalmRun(NewManager(cfg), ZERO_TIME, ops)
    requires ClockAfter(ZERO_TIME, ops) <= now && now != ZERO_TIME && LeavesReleased(After(NewManager(cfg), ops), lookup)
    ensures var saved := Swept(After(NewManager(cfg), ops), lookup, now);
      var restored := Restored(NewManager(saved.cfg), Snapshot(saved), None, now);
      restored == saved && Executed(restored, q) == Executed(saved, q)
  {
    hide Bookkept, CalmRun, After, Complete, Restored, Snapshot, NewManager, Swept, LeavesReleased, Executed, Ended;
    var m, t := After(NewManager(cfg), ops), ClockAfter(ZERO_TIME, ops);
    NewManagerComplete(cfg);
    CalmRunKeepsComplete(NewManager(cfg), ZERO_TIME, ops);
    SweepKeepsComplete(m, lookup, t, now);
    SweptConfig(m, lookup, now);
    RestartIsExact(m, lookup, now);
  }

  lemma NewManagerComplete(cfg: Config)
    ensures Complete(NewManager(cfg), ZERO_TIME) && AllEnded(NewManager(cfg))
  {
  }
}
