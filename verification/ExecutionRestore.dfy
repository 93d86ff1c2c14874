/** What a restored manager makes of each persisted execution, and where a restore stops. */
module ExecutionRestore {
  import opened Basics
  import opened Text
  import opened ExecutionModel
  import opened ExecutionSpec
  import opened ExecutionIndex

  /** The id of a persisted execution: the intent's, or where that is blank the result's. */
  predicate NamedBy(e: Entry, id: string) {
    !Blanks(id) && id == TrimSpace(if Blanks(e.intent.intentId) then e.result.intentId else e.intent.intentId)
  }

  predicate Nameless(e: Entry) {
    Blanks(e.intent.intentId) && Blanks(e.result.intentId)
  }

  /** The execution as it is tracked again: under its trimmed id, with the id and the key filled in where the result
      has none. */
  predicate TrackedAgain(e: Entry, e': Entry) {
    && NamedBy(e, e'.Id()) && e'.intent == e.intent.(intentId := e'.Id())
    && e'.result.intentId == (if Blanks(e.result.intentId) then e'.Id() else e.result.intentId)
    && e'.result.dedupeKey == (if Blanks(e.result.dedupeKey) then BuildDedupeKey(e'.intent) else e.result.dedupeKey)
    && e'.result == e.result.(intentId := e'.result.intentId, dedupeKey := e'.result.dedupeKey)
  }

  lemma TrimmedIsNotBlank(s: string)
    ensures Blanks(TrimSpace(s)) <==> Blanks(s)
  {
    BlankTrims(s);
    BlankTrims(TrimSpace(s));
    TrimmedAsIs(TrimSpace(s));
  }

  lemma RestoredIsTracked(e: Entry)
    ensures Identified(e) <==> !Nameless(e)
    ensures Identified(e) ==> TrackedAgain(e, RestoredEntry(e))
  {
    BlankTrims(e.intent.intentId);
    BlankTrims(e.result.intentId);
    BlankTrims(e.result.dedupeKey);
    TrimmedIsNotBlank(e.intent.intentId);
    TrimmedIsNotBlank(e.result.intentId);
    hide TrimSpace, Blanks, BuildDedupeKey;
  }

  /** Every persisted execution tracked again, in order. */
  predicate AllTracked(executions: seq<Entry>, history: seq<Entry>) {
    |history| == |executions| && forall i | 0 <= i < |history| :: TrackedAgain(executions[i], history[i])
  }

  /** The counter is the saved one, or the highest number among the executions where that is more. */
  predicate CountsOn(executions: seq<Entry>, saved: nat, nextId: nat) {
    && nextId >= saved && (forall e | e in executions :: ParseExecutionSequence(RestoredEntry(e).Id()) <= nextId)
    && (nextId == saved || exists e :: e in executions && ParseExecutionSequence(RestoredEntry(e).Id()) == nextId)
  }

  lemma {:induction false} FiledIsTracked(m: Mgr, executions: seq<Entry>)
    requires m.history == [] && forall e | e in executions :: Identified(e)
    ensures var f := Filed(m, executions);
      f.cfg == m.cfg && AllTracked(executions, f.history) && CountsOn(executions, m.nextId, f.nextId)
  {
    hide Identified, RestoredEntry, TrackedAgain, ParseExecutionSequence;
    if executions != [] {
      var n := |executions| - 1;
      assert executions == executions[..n] + [executions[n]];
      FiledIsTracked(m, executions[..n]);
      RestoredIsTracked(executions[n]);
      CountsOneMore(executions[..n], executions[n], m.nextId, Filed(m, executions[..n]).nextId);
    }
  }

  lemma CountsOneMore(executions: seq<Entry>, e: Entry, saved: nat, nextId: nat)
    requires CountsOn(executions, saved, nextId)
    ensures var sequence := ParseExecutionSequence(RestoredEntry(e).Id());
      CountsOn(executions + [e], saved, if sequence > nextId then sequence else nextId)
  {
    hide RestoredEntry, ParseExecutionSequence;
    if nextId != saved {
      var x :| x in executions && ParseExecutionSequence(RestoredEntry(x).Id()) == nextId;
      assert x in executions + [e];
    }
    assert e in executions + [e];
  }

  /** The last executions of the list, as many as the history may hold. */
  predicate AreNewest(executions: seq<Entry>, kept: seq<Entry>, bound: int) {
    && |kept| == (if |executions| < bound then |executions| else bound)
    && |kept| <= |executions| && kept == executions[|executions| - |kept|..]
  }

  /** The manager holds the executions tracked again, with the settings it had. */
  predicate Holds(f: Mgr, executions: seq<Entry>, m: Mgr, nextId: nat) {
    AllTracked(executions, f.history) && f.cfg == m.cfg && f.nextId == nextId
  }

  predicate FirstNameless(executions: seq<Entry>, n: nat) {
    n < |executions| && Nameless(executions[n]) && forall k | 0 <= k < n :: !Nameless(executions[k])
  }

  /** No version at all changes nothing, and one that is not the first is refused. */
  lemma OtherVersionsChangeNothing(m: Mgr, state: ManagerState, lookup: Lookup, now: Time)
    requires state.version != 1
    ensures Restored(m, state, lookup, now) == m
    ensures RestoreOutcome(m, state) == Done <==> state.version == 0
  {
  }

  lemma PrefixStopsAt(kept: seq<Entry>, n: nat)
    requires n <= |kept| && (forall k | 0 <= k < n :: !Nameless(kept[k])) && (n < |kept| ==> Nameless(kept[n]))
    ensures IdentifiedPrefix(kept) == n
  {
    hide Nameless, Identified;
    IdentifiedPrefixIsFirstGap(kept);
    forall k | 0 <= k < |kept| ensures Identified(kept[k]) <==> !Nameless(kept[k]) {
      RestoredIsTracked(kept[k]);
    }
  }

  lemma PrefixIsTracked(m: Mgr, saved: nat, kept: seq<Entry>, n: nat)
    requires n <= |kept| && forall k | 0 <= k < n :: !Nameless(kept[k])
    ensures var f := Filed(Mgr(m.cfg, saved, [], map[], map[]), kept[..n]);
      f.cfg == m.cfg && AllTracked(kept[..n], f.history) && CountsOn(kept[..n], saved, f.nextId)
  {
    hide Nameless, Identified, Filed, AllTracked, CountsOn;
    forall k | 0 <= k < n ensures Identified(kept[k]) {
      RestoredIsTracked(kept[k]);
    }
    FiledIsTracked(Mgr(m.cfg, saved, [], map[], map[]), kept[..n]);
  }

  /** A snapshot of the first version is restored from its newest executions: each of them is tracked again, the counter
      goes on from the highest number, and the whole is swept. */
  lemma RestoreTracksNewest(m: Mgr, state: ManagerState, kept: seq<Entry>, lookup: Lookup, now: Time)
    requires state.version == 1 && m.cfg.maxHistory > 0 && AreNewest(state.executions, kept, m.cfg.maxHistory)
    requires forall k | 0 <= k < |kept| :: !Nameless(kept[k])
    ensures RestoreOutcome(m, state) == Done
    ensures exists f: Mgr :: Holds(f, kept, m, f.nextId) && CountsOn(kept, state.nextId, f.nextId)
                             && Restored(m, state, lookup, now) == Swept(f, lookup, now)
  {
    hide Swept, Filed, AllTracked, CountsOn, Nameless, IdentifiedPrefix;
    assert kept == Newest(state.executions, m.cfg.maxHistory);
    PrefixStopsAt(kept, |kept|);
    PrefixIsTracked(m, state.nextId, kept, |kept|);
    assert kept[..|kept|] == kept;
    var f := Filed(Mgr(m.cfg, state.nextId, [], map[], map[]), kept);
    assert Holds(f, kept, m, f.nextId);
  }

  /** Where one of them has no id at all the restore fails, and leaves those before it, with the saved counter and
      unswept. */
  lemma RestoreStopsAtNameless(m: Mgr, state: ManagerState, kept: seq<Entry>, n: nat, lookup: Lookup, now: Time)
    requires state.version == 1 && m.cfg.maxHistory > 0 && AreNewest(state.executions, kept, m.cfg.maxHistory)
    requires FirstNameless(kept, n)
    ensures RestoreOutcome(m, state) != Done && Holds(Restored(m, state, lookup, now), kept[..n], m, state.nextId)
  {
    hide Swept, Filed, AllTracked, CountsOn, Nameless, IdentifiedPrefix;
    assert kept == Newest(state.executions, m.cfg.maxHistory);
    PrefixStopsAt(kept, n);
    PrefixIsTracked(m, state.nextId, kept, n);
  }

  /** What is saved is of that version, and is the history and the counter. */
  lemma SnapshotSaves(m: Mgr)
    ensures var state := Snapshot(m); state.version == 1 && state.executions == m.history && state.nextId == m.nextId
  {
  }
}
