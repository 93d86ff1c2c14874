/** The execution manager as it is kept in memory: tracked executions shared between the history and
    the id index and updated in place, proved to follow the transitions of `ExecutionSpec`. */
module ExecutionManager {
  import opened Basics
  import opened Text
  import OrderModel
  import opened ExecutionModel
  import opened ExecutionSpec
  import opened ExecutionIndex

  class Tracked {
    var intent: Intent
    var result: Result

    constructor (intent: Intent, result: Result)
      ensures this.intent == intent && this.result == result
    {
      this.intent, this.result := intent, result;
    }

    function Value(): Entry
      reads this
    {
      Entry(intent, result)
    }
  }

  function Values(history: seq<Tracked>): (entries: seq<Entry>)
    reads history
    ensures |entries| == |history|
    ensures forall i | 0 <= i < |history| :: entries[i] == history[i].Value()
  {
    seq(|history|, i requires 0 <= i < |history| reads history => history[i].Value())
  }

  /** The ids lead to the executions at the given places, which have them.  An id used more than once leads to
      one of its executions, or to none. */
  ghost predicate IndexAgrees(history: seq<Tracked>, byId: map<string, Tracked>, index: map<string, nat>)
    reads history
  {
    && byId.Keys == index.Keys
    && forall id | id in index ::
         index[id] < |history| && byId[id] == history[index[id]] && history[index[id]].intent.intentId == id
  }

  ghost predicate DistinctObjects(history: seq<Tracked>) {
    forall i, j | 0 <= i < j < |history| :: history[i] != history[j]
  }

  /** The places after the oldest execution has left. */
  function Shifted(index: map<string, nat>, evicted: string): map<string, nat> {
    map id | id in index && id != evicted && index[id] > 0 :: index[id] - 1
  }

  lemma ObjectsAfterAppend(history: seq<Tracked>, byId: map<string, Tracked>, index: map<string, nat>, t: Tracked)
    requires IndexAgrees(history, byId, index) && DistinctObjects(history) && t !in history
    ensures IndexAgrees(history + [t], byId[t.intent.intentId := t], index[t.intent.intentId := |history|])
    ensures DistinctObjects(history + [t])
  {
  }

  lemma ObjectsAfterEviction(history: seq<Tracked>, byId: map<string, Tracked>, index: map<string, nat>)
    requires IndexAgrees(history, byId, index) && DistinctObjects(history) && history != []
    ensures var id := history[0].intent.intentId;
      IndexAgrees(history[1..], byId - {id}, Shifted(index, id)) && DistinctObjects(history[1..])
  {
    var evicted := history[0].intent.intentId;
    forall id | id in index && id != evicted ensures index[id] > 0 {
      assert history[index[id]].intent.intentId == id;
    }
  }

  /** Takes over the record's state field by field. */
  method FollowRecord(was: Result, record: OrderModel.Record, status: Status, now: Time) returns (result: Result)
    ensures result == Followed(was, record, status, now)
  {
    hide TrimSpace, EventTime;
    var localOrderId, brokerOrderId, completedAt := was.localOrderId, was.brokerOrderId, was.completedAt;
    if TrimSpace(localOrderId) == "" {
      localOrderId := record.localId;
    }
    if TrimSpace(brokerOrderId) == "" {
      brokerOrderId := record.brokerOrderId;
    }
    if status.Closed() && completedAt == ZERO_TIME {
      completedAt := EventTime(record, now);
    }
    result := was.(observedStatus := record.rawBrokerStatus, fillQuantity := record.filledQty,
                   averageFillPrice := record.avgFillPrice, localOrderId := localOrderId, brokerOrderId := brokerOrderId,
                   status := status, stale := false, success := status != Cancelled && status != Rejected,
                   completedAt := completedAt);
  }

  class Manager {
    const cfg: Config
    var nextId: nat
    var history: seq<Tracked>
    var historyById: map<string, Tracked>
    var latestByKey: map<string, string>

    /** Where in the history the executions of the id index are. */
    ghost var index: map<string, nat>

    /** The history is within its bound and holds no execution twice, and the ids lead into it. */
    ghost predicate Valid()
      reads this, history
    {
      && cfg.dedupeWindow > 0 && cfg.staleAfter > 0 && cfg.maxHistory > 0
      && |history| <= cfg.maxHistory
      && DistinctObjects(history) && IndexAgrees(history, historyById, index)
    }

    ghost function State(): Mgr
      reads this, history
    {
      Mgr(cfg, nextId, Values(history), index, latestByKey)
    }

    constructor (config: Config)
      ensures Valid() && State() == NewManager(config) && history == []
    {
      cfg := ConfigOrDefaults(config);
      nextId, history, historyById, index, latestByKey := 0, [], map[], map[], map[];
    }

    /** The tracked execution the id leads to. */
    lemma IndexFinds(id: string)
      requires Valid()
      ensures id in historyById <==> PositionOf(State(), id).Some?
      ensures id in historyById ==> historyById[id] == history[PositionOf(State(), id).value]
    {
    }

    /** Looks up the order record of a tracked execution and takes over its state. */
    method RefreshTracked(tracked: Tracked, lookup: Lookup, now: Time)
      modifies tracked`result
      ensures tracked.result == Refreshed(old(tracked.result), lookup, now)
    {
      hide Find, MapRecordStatus, Followed;
      var found := Find(lookup, tracked.result.localOrderId, tracked.result.brokerOrderId);
      if found.None? {
        return;
      }
      var mapped := MapRecordStatus(found.value);
      if mapped.None? {
        return;
      }
      tracked.result := FollowRecord(tracked.result, found.value, mapped.value, now);
    }

    /** Refreshes one execution and marks it stale if it has been open too long. */
    method SweepTracked(tracked: Tracked, lookup: Lookup, now: Time)
      modifies tracked`result
      ensures tracked.Value() == SweptEntry(old(tracked.Value()), lookup, cfg, now)
    {
      hide Refreshed;
      RefreshTracked(tracked, lookup, now);
      if tracked.result.status.Terminal() || tracked.result.submittedAt == ZERO_TIME {
        return;
      }
      if now - tracked.result.submittedAt >= cfg.staleAfter {
        tracked.result := tracked.result.(status := Stale, stale := true, success := false, why := BeyondStaleThreshold,
                                          completedAt := now);
      }
    }

    /** Sweeps every tracked execution in turn. */
    method SweepHistory(lookup: Lookup, now: Time)
      requires Valid()
      modifies history
      ensures Valid() && Values(history) == SweptHistory(old(Values(history)), lookup, cfg, now)
    {
      hide SweptEntry;
      ghost var was := Values(history);
      for i := 0 to |history|
        invariant forall j | 0 <= j < i :: history[j].Value() == SweptEntry(was[j], lookup, cfg, now)
        invariant forall j | i <= j < |history| :: history[j].Value() == was[j]
        invariant forall j | 0 <= j < |history| :: history[j].intent == was[j].intent
      {
        SweptIntent(history[i].Value(), lookup, cfg, now);
        SweepTracked(history[i], lookup, now);
      }
    }

    /** Lets go of the keys whose execution is gone, or finished longer ago than the dedupe window. */
    method ReleaseKeys(now: Time)
      requires Valid()
      modifies this`latestByKey
      ensures Valid() && State() == Released(old(State()), now)
    {
      hide IndexAgrees, DistinctObjects;
      ghost var was := latestByKey;
      ghost var m := State();
      var rest := latestByKey.Keys;
      while rest != {}
        invariant rest <= latestByKey.Keys <= was.Keys && Valid() && State() == m.(latest := latestByKey)
        invariant forall k | k in latestByKey :: latestByKey[k] == was[k]
        invariant forall k | k in was :: k in latestByKey <==> k in rest || StillStands(m, was[k], now)
        decreases rest
      {
        var key :| key in rest;
        var id := latestByKey[key];
        IndexFinds(id);
        rest := rest - {key};
        if id !in historyById {
          latestByKey := latestByKey - {key};
        } else {
          var tracked := historyById[id];
          if tracked.result.status.Terminal() {
            var reference :=
              if tracked.result.completedAt == ZERO_TIME then tracked.intent.createdAt else tracked.result.completedAt;
            if reference != ZERO_TIME && now - reference > cfg.dedupeWindow {
              latestByKey := latestByKey - {key};
            }
          }
        }
      }
      assert latestByKey == Released(old(State()), now).latest;
    }

    method Sweep(lookup: Lookup, now: Time)
      requires Valid()
      modifies this`latestByKey, history
      ensures Valid() && State() == Swept(old(State()), lookup, now)
    {
      hide SweptEntry, Released, IndexAgrees, DistinctObjects;
      SweepHistory(lookup, now);
      ReleaseKeys(now);
    }

    /** Adds a tracked execution; past the bound the oldest one leaves the history, the index and its key. */
    method AppendTracked(tracked: Tracked)
      requires Valid() && tracked !in history
      modifies this`history, this`historyById, this`index, this`latestByKey
      ensures Valid() && State() == Appended(old(State()), tracked.Value())
      ensures history != [] && history[|history| - 1] == tracked
      ensures forall t | t in history :: t in old(history) || t == tracked
    {
      hide IndexAgrees, DistinctObjects;
      ghost var entries := Values(history) + [tracked.Value()];
      ObjectsAfterAppend(history, historyById, index, tracked);
      index := index[tracked.intent.intentId := |history|];
      history := history + [tracked];
      historyById := historyById[tracked.intent.intentId := tracked];
      assert Values(history) == entries;
      if |history| > cfg.maxHistory {
        EvictOldest();
      }
    }

    /** Drops the oldest execution from the history, the index and its key. */
    method EvictOldest()
      requires history != [] && cfg.dedupeWindow > 0 && cfg.staleAfter > 0 && 0 < cfg.maxHistory
      requires |history| <= cfg.maxHistory + 1
      requires DistinctObjects(history) && IndexAgrees(history, historyById, index)
      modifies this`history, this`historyById, this`index, this`latestByKey
      ensures Valid() && State() == WithoutOldest(old(State())) && history == old(history)[1..]
    {
      hide IndexAgrees, DistinctObjects;
      ghost var entries := Values(history);
      ObjectsAfterEviction(history, historyById, index);
      var evicted := history[0];
      index := Shifted(index, evicted.intent.intentId);
      history := history[1..];
      historyById := historyById - {evicted.intent.intentId};
      assert Values(history) == entries[1..];
      var key := evicted.result.dedupeKey;
      if key in latestByKey && latestByKey[key] == evicted.intent.intentId {
        latestByKey := latestByKey - {key};
      }
      assert Values(history) == entries[1..];
    }

    /** Files a finished execution, and lets it stand for its key if it can. */
    method StoreResult(intent: Intent, result: Result)
      requires Valid()
      modifies this`history, this`historyById, this`index, this`latestByKey
      ensures Valid() && State() == Stored(old(State()), Entry(intent, result))
      ensures forall t | t in history :: t in old(history) || fresh(t)
    {
      hide Appended, DistinctObjects, IndexAgrees;
      var tracked := new Tracked(intent, result);
      assert Values(history) == old(Values(history));
      AppendTracked(tracked);
      if result.status.Registers() {
        latestByKey := latestByKey[result.dedupeKey := intent.intentId];
      }
    }

    /** Decides about a prepared intent: refused by the gate, held back behind the execution that stands
        for its key, or to be sent. */
    method Decide(intent: Intent, q: Request) returns (d: Decision)
      requires Valid()
      modifies history
      ensures Valid() && (State(), d) == Decided(old(State()), intent, q.gate, q.before, q.Now())
    {
      hide Validate, BuildDedupeKey, PositionOf, DistinctObjects, IndexAgrees, Refreshed;
      var why := Validate(intent, q.gate);
      if why != NoProblem {
        return Refuse(why);
      }
      var key := BuildDedupeKey(intent);
      if key !in latestByKey {
        return Send;
      }
      var standingId := latestByKey[key];
      IndexFinds(standingId);
      if standingId !in historyById {
        return Send;
      }
      var tracked := historyById[standingId];
      ghost var at := PositionOf(State(), standingId).value;
      RefreshStanding(tracked, at, q.before, q.Now());
      var status := tracked.result.status;
      if status.InFlight() {
        return SuppressInFlight;
      }
      if status == Stale {
        return BlockBehindStale;
      }
      var reference :=
        if tracked.result.completedAt == ZERO_TIME then tracked.intent.createdAt else tracked.result.completedAt;
      if reference != ZERO_TIME && q.Now() - reference <= cfg.dedupeWindow {
        return SuppressRecent;
      }
      return Send;
    }

    /** Sweeps, takes the next id, decides, and files the outcome.  `q.broker` is the broker's answer,
        used only if it is asked. */
    method Execute(q: Request) returns (result: Result, asked: Option<Call>)
      requires Valid()
      modifies this, history
      ensures Valid() && State() == Executed(old(State()), q).manager
      ensures result == Executed(old(State()), q).result
      ensures asked == AskedOf(old(State()), q) && (asked.Some? <==> CallsBroker(old(State()), q))
      ensures forall t | t in history :: t in old(history) || fresh(t)
    {
      hide Swept, Opened, Prepared, Decided, ResultOf, DistinctObjects, IndexAgrees, Stored, AsksBroker, Values;
      var intent := Open(q);
      var d := Decide(intent, q);
      result, asked := CarryOut(intent, d, q);
    }

    /** Sweeps, and prepares the intent under the next id. */
    method Open(q: Request) returns (intent: Intent)
      requires Valid()
      modifies this`nextId, this`latestByKey, history
      ensures Valid() && State() == Opened(old(State()), q)
      ensures intent == Prepared(q.intent, old(State()).nextId + 1, q.Now())
    {
      hide Swept, Prepared, DistinctObjects, IndexAgrees;
      ghost var was := State();
      Sweep(q.before, q.Now());
      SweptConfig(was, q.before, q.Now());
      nextId := nextId + 1;
      intent := Prepared(q.intent, nextId, q.Now());
    }

    /** Sends the execution or files why it was not sent. */
    method CarryOut(intent: Intent, d: Decision, q: Request) returns (result: Result, asked: Option<Call>)
      requires Valid()
      modifies this`history, this`historyById, this`index, this`latestByKey
      ensures Valid() && result == ResultOf(intent, d, q.broker, q.after, q.Now())
      ensures State() == Stored(old(State()), Entry(intent, result))
      ensures asked == if d == Send then CallMade(intent, q.broker) else None
      ensures forall t | t in history :: t in old(history) || fresh(t)
    {
      hide SubmissionResult, DistinctObjects, IndexAgrees, Stored, AsksBroker, NewResult, NotSent;
      var now := q.Now();
      asked := None;
      match d {
        case Send =>
          result, asked := SendToBroker(intent, q);
        case Refuse(why) =>
          result := FileUnsent(intent, Blocked, why, now);
        case SuppressInFlight =>
          result := FileUnsent(intent, DuplicateSuppressed, AlreadyInFlight, now);
        case BlockBehindStale =>
          result := FileUnsent(intent, Blocked, PriorStale, now);
        case SuppressRecent =>
          result := FileUnsent(intent, DuplicateSuppressed, SubmittedRecently, now);
      }
    }

    /** Files an execution that is not sent. */
    method FileUnsent(intent: Intent, status: Status, why: Why, now: Time) returns (result: Result)
      requires Valid()
      modifies this`history, this`historyById, this`index, this`latestByKey
      ensures Valid() && result == NotSent(NewResult(intent), status, why, now)
      ensures State() == Stored(old(State()), Entry(intent, result))
      ensures forall t | t in history :: t in old(history) || fresh(t)
    {
      result := NotSent(NewResult(intent), status, why, now);
      StoreResult(intent, result);
    }

    /** Refreshes the execution that stands for a key. */
    method RefreshStanding(tracked: Tracked, ghost at: nat, lookup: Lookup, now: Time)
      requires Valid() && at < |history| && history[at] == tracked
      modifies tracked`result
      ensures Valid() && State() == WithRefreshed(old(State()), at, lookup, now)
    {
      hide Refreshed;
      ghost var was := Values(history);
      RefreshTracked(tracked, lookup, now);
      assert Values(history) == was[at := RefreshedEntry(was[at], lookup, now)];
    }

    /** Asks the broker if there is one that knows the action, and completes the result from its answer. */
    method AskBroker(tracked: Tracked, q: Request) returns (asked: Option<Call>)
      requires tracked.result == NewResult(tracked.intent)
      modifies tracked`result
      ensures tracked.result == SubmissionResult(tracked.intent, q.broker, q.after, q.Now())
      ensures asked == CallMade(tracked.intent, q.broker)
    {
      hide NewResult, MapRefusal, Accepted, Refreshed, LowerTrim;
      var intent, now := tracked.intent, q.Now();
      asked := None;
      if q.broker.Some? {
        match LowerTrim(intent.actionType) {
          case "open_long" => asked := Some(OpenLong(intent.symbol, intent.quantity, intent.leverage));
          case "open_short" => asked := Some(OpenShort(intent.symbol, intent.quantity, intent.leverage));
          case "close_long" => asked := Some(CloseLong(intent.symbol, intent.quantity));
          case "close_short" => asked := Some(CloseShort(intent.symbol, intent.quantity));
          case _ =>
        }
      }
      if q.broker.None? {
        tracked.result := Unsent(tracked.result, Status.Failed, NoBroker, now);
      } else if asked.None? {
        tracked.result := Unsent(tracked.result, MapRefusal(intent.actionType), UnsupportedAction(intent.actionType), now);
      } else if q.broker.value.Refused? {
        var message := q.broker.value.message;
        tracked.result := Unsent(tracked.result, MapRefusal(message), BrokerRefused(message), now);
      } else {
        tracked.result := Accepted(tracked.result, q.broker.value.payload, intent.quantity, now);
        RefreshTracked(tracked, q.after, now);
      }
    }

    /** Files the execution as pending, standing for its key, and then asks the broker. */
    method SendToBroker(intent: Intent, q: Request) returns (result: Result, asked: Option<Call>)
      requires Valid()
      modifies this`history, this`historyById, this`index, this`latestByKey
      ensures Valid() && result == SubmissionResult(intent, q.broker, q.after, q.Now())
      ensures State() == Stored(old(State()), Entry(intent, result))
      ensures asked == CallMade(intent, q.broker)
      ensures forall t | t in history :: t in old(history) || fresh(t)
    {
      hide Stored, DistinctObjects, IndexAgrees, SubmissionResult, AsksBroker, BuildDedupeKey;
      ghost var was := State();
      var tracked := FilePending(intent);
      asked := FinishLast(tracked, q);
      result := tracked.result;
      SubmittedRegisters(intent, q.broker, q.after, q.Now());
      StoredThenFinished(was, intent, NewResult(intent), result);
    }

    /** Files the execution as pending, standing for its key. */
    method FilePending(intent: Intent) returns (tracked: Tracked)
      requires Valid()
      modifies this`history, this`historyById, this`index, this`latestByKey
      ensures Valid() && State() == Stored(old(State()), Entry(intent, NewResult(intent)))
      ensures history != [] && history[|history| - 1] == tracked && fresh(tracked)
      ensures tracked.intent == intent && tracked.result == NewResult(intent)
      ensures forall t | t in history :: t in old(history) || fresh(t)
    {
      hide Appended, DistinctObjects, IndexAgrees, BuildDedupeKey;
      tracked := new Tracked(intent, NewResult(intent));
      assert Values(history) == old(Values(history));
      AppendTracked(tracked);
      latestByKey := latestByKey[tracked.result.dedupeKey := intent.intentId];
    }

    /** Completes the execution filed last. */
    method FinishLast(tracked: Tracked, q: Request) returns (asked: Option<Call>)
      requires Valid() && history != [] && history[|history| - 1] == tracked
      requires tracked.result == NewResult(tracked.intent)
      modifies tracked`result
      ensures Valid() && State() == old(State()).(history := old(Values(history))[|history| - 1 := tracked.Value()])
      ensures tracked.result == SubmissionResult(tracked.intent, q.broker, q.after, q.Now())
      ensures asked == CallMade(tracked.intent, q.broker)
    {
      hide SubmissionResult, AsksBroker, NewResult, CallMade;
      ghost var pending, last := Values(history), |history| - 1;
      asked := AskBroker(tracked, q);
      assert Values(history) == pending[last := tracked.Value()];
    }

    /** Sweeps, then lists the history for saving. */
    method SnapshotState(lookup: Lookup, now: Time) returns (state: ManagerState)
      requires Valid()
      modifies this`latestByKey, history
      ensures Valid() && State() == Swept(old(State()), lookup, now) && state == Snapshot(State())
    {
      hide Swept, DistinctObjects, IndexAgrees;
      Sweep(lookup, now);
      var executions := [];
      for i := 0 to |history|
        invariant executions == Values(history)[..i]
      {
        executions := executions + [Entry(history[i].intent, history[i].result)];
      }
      state := ManagerState(STATE_VERSION, nextId, executions);
    }

    /** Files one persisted execution. */
    method FileTracked(e: Entry)
      requires Valid() && |history| < cfg.maxHistory
      modifies this`history, this`historyById, this`index, this`latestByKey
      ensures Valid() && Values(history) == old(Values(history)) + [e] && index == old(index[e.Id() := |history|])
      ensures latestByKey == if e.Status().Registers() then old(latestByKey)[e.Key() := e.Id()] else old(latestByKey)
      ensures forall t | t in history :: t in old(history) || fresh(t)
    {
      hide DistinctObjects, IndexAgrees;
      ghost var entries := Values(history);
      var tracked := new Tracked(e.intent, e.result);
      assert Values(history) == entries;
      ObjectsAfterAppend(history, historyById, index, tracked);
      index := index[e.intent.intentId := |history|];
      history := history + [tracked];
      historyById := historyById[e.intent.intentId := tracked];
      assert Values(history) == entries + [e];
      if e.result.status.Registers() {
        latestByKey := latestByKey[e.result.dedupeKey := e.intent.intentId];
      }
    }

    /** Replaces the contents by the newest persisted executions that fit, then sweeps. */
    method RestoreState(state: ManagerState, lookup: Lookup, now: Time) returns (outcome: Outcome)
      requires Valid()
      modifies this
      ensures Valid() && State() == Restored(old(State()), state, lookup, now)
      ensures outcome == RestoreOutcome(old(State()), state)
      ensures forall t | t in history :: t in old(history) || fresh(t)
    {
      hide Swept, BuildDedupeKey, PersistedId, ParseExecutionSequence, Filed, IndexAgrees, DistinctObjects;
      NothingIndexed();
      if state.version == 0 {
        return Done;
      }
      if state.version != STATE_VERSION {
        return Outcome.Failed("unsupported version");
      }
      var kept := Newest(state.executions, cfg.maxHistory);
      var n := IdentifiedPrefix(kept);
      IdentifiedPrefixIsFirstGap(kept);
      nextId, history, historyById, index, latestByKey := state.nextId, [], map[], map[], map[];
      var maxId := FileAll(kept, n);
      if n < |kept| {
        return Outcome.Failed("execution with no intent id");
      }
      nextId := maxId;
      forall k | 0 <= k < |history| ensures fresh(history[k]) {
        assert history[k] in history;
      }
      Sweep(lookup, now);
      return Done;
    }

    /** Files the first `n` persisted executions into the empty manager, and finds the highest id. */
    method FileAll(kept: seq<Entry>, n: nat) returns (maxId: nat)
      requires Valid() && n <= |kept| <= cfg.maxHistory
      requires history == [] && index == map[] && latestByKey == map[]
      modifies this`history, this`historyById, this`index, this`latestByKey
      ensures Valid() && State().(nextId := maxId) == Filed(old(State()), kept[..n])
      ensures forall t | t in history :: fresh(t)
    {
      hide DistinctObjects, IndexAgrees, BuildDedupeKey, PersistedId, ParseExecutionSequence, Filed, RestoredEntry;
      ghost var blank := State();
      NothingFiledYet(blank);
      maxId := nextId;
      for i := 0 to n
        invariant Valid() && |history| == i
        invariant State().(nextId := maxId) == Filed(blank, kept[..i])
        invariant forall t | t in history :: fresh(t)
      {
        FileOneMore(blank, kept, i);
        var e := RestoredEntry(kept[i]);
        FileTracked(e);
        var sequence := ParseExecutionSequence(e.intent.intentId);
        if sequence > maxId {
          maxId := sequence;
        }
      }
    }
  }

  // ---- Facts about values used above ----

  lemma NothingIndexed()
    ensures IndexAgrees([], map[], map[]) && DistinctObjects([])
  {
  }

  lemma SweptIntent(e: Entry, lookup: Lookup, cfg: Config, now: Time)
    ensures SweptEntry(e, lookup, cfg, now).intent == e.intent
  {
  }

  lemma SubmittedRegisters(i: Intent, broker: Option<Reply>, after: Lookup, now: Time)
    ensures var r := SubmissionResult(i, broker, after, now);
      r.status.Registers() && r.dedupeKey == BuildDedupeKey(i)
  {
    hide Refreshed, Accepted, MapRefusal, BuildDedupeKey, ClassifyAction;
    RefusalRegisters(i.actionType);
    if broker.Some? {
      match broker.value
      case Refused(message) => RefusalRegisters(message);
      case Taken(p) => AcceptedRegisters(i, p, after, now);
    }
  }

  lemma RefusalRegisters(message: string)
    ensures MapRefusal(message).Registers()
  {
    hide Contains;
  }

  lemma AcceptedRegisters(i: Intent, p: Payload, after: Lookup, now: Time)
    ensures var r := Refreshed(Accepted(NewResult(i), p, i.quantity, now), after, now);
      r.status.Registers() && r.dedupeKey == BuildDedupeKey(i)
  {
    hide Find, BuildDedupeKey, Shown, FillOf, ClassifyAction, UpperOf, Contains;
  }

  /** Filing an execution as pending and finishing it there is filing the finished one. */
  lemma StoredThenFinished(m: Mgr, i: Intent, pending: Result, finished: Result)
    requires pending.status.Registers() && finished.status.Registers() && pending.dedupeKey == finished.dedupeKey
    requires m.cfg.maxHistory > 0
    ensures var s := Stored(m, Entry(i, pending)); var n := |s.history| - 1;
      n >= 0 && Stored(m, Entry(i, finished)) == s.(history := s.history[n := Entry(i, finished)])
  {
    var a, b := m.history + [Entry(i, pending)], m.history + [Entry(i, finished)];
    assert a[|m.history| := Entry(i, finished)] == b;
    if |a| > m.cfg.maxHistory {
      assert a[1..][|m.history| - 1 := Entry(i, finished)] == b[1..];
    }
  }

  lemma NothingFiledYet(m: Mgr)
    ensures Filed(m, []) == m
  {
  }

  lemma FileOneMore(m: Mgr, executions: seq<Entry>, i: nat)
    requires i < |executions|
    ensures var before := Filed(m, executions[..i]); var e := RestoredEntry(executions[i]);
      var sequence := ParseExecutionSequence(e.Id());
      Filed(m, executions[..i + 1])
      == before.(nextId := if sequence > before.nextId then sequence else before.nextId,
                 history := before.history + [e],
                 index := before.index[e.Id() := |before.history|],
                 latest := if e.Status().Registers() then before.latest[e.Key() := e.Id()] else before.latest)
  {
    assert executions[..i + 1][..i] == executions[..i];
  }
}
