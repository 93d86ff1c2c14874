/** What a restored snapshot makes of each record it holds, and when an authority or confidence that a snapshot leaves
    out is worked out as it was. */
module OrderRestore {
  import opened Basics
  import opened Text
  import opened OrderModel
  import opened OrderSpec
  import opened ReconcileLaws
  import opened OrderRuns
  import opened OrderLimits
  import opened OrderOutcomes

  // ---- What is read back of a record ----

  /** The authority of a record that names none it knows: what its last message says of the broker's list, or else a
      submission's until the broker has answered, and the broker's from then on. */
  predicate WorksOut(record: Record, authority: Authority) {
    match authority
    case Inferred => record.lastMessage.Mentions(MissingAtActiveList) && record.lastMessage.Mentions(PositionEvidence)
    case LocalPending =>
      !record.lastMessage.Mentions(MissingAtActiveList) && (record.status == Submitted || record.status == Accepted)
    case BrokerConfirmed =>
      && !record.lastMessage.Mentions(MissingAtActiveList) && record.status != Submitted && record.status != Accepted
      && HeardOf(record)
    case Unresolved =>
      if record.lastMessage.Mentions(MissingAtActiveList) then !record.lastMessage.Mentions(PositionEvidence)
      else record.status != Submitted && record.status != Accepted && !HeardOf(record)
    case OtherAuthority(_) => false
  }

  /** The broker has answered: with a status, with an id, or by being where the order was found. */
  predicate HeardOf(record: Record) {
    || !Blanks(record.rawBrokerStatus) || !Blanks(record.brokerOrderId) || record.source == BrokerDiscovered
    || (record.source.OtherSource? && Says(record.source.text, "broker_discovered"))
  }

  predicate WorksOutConfidence(authority: Authority, lastMessage: Note, confidence: Confidence) {
    match authority
    case LocalPending => confidence == Pending
    case BrokerConfirmed => confidence == ConfirmedTruth
    case Inferred => confidence == if lastMessage.Mentions(PartialFill) then Medium else High
    case Unresolved => confidence == UnresolvedTruth
    case OtherAuthority(_) => false
  }

  /** The text of a note, when it has one of its own. */
  predicate SaysNothing(note: Note) {
    note.Text? && Blanks(note.text)
  }

  predicate SameNote(note: Note, stored: Note) {
    stored == if note.Text? then Text(TrimSpace(note.text), note.mentions) else note
  }

  predicate WorksOutReason(authority: Authority, lastMessage: Note, reason: Note) {
    match authority
    case LocalPending => reason == AwaitingAck
    case BrokerConfirmed => if SaysNothing(lastMessage) then reason == ConfirmedState else SameNote(lastMessage, reason)
    case Inferred => if SaysNothing(lastMessage) then reason == InferredFromPosition else SameNote(lastMessage, reason)
    case _ => if SaysNothing(lastMessage) then reason == PendingFollowUp else SameNote(lastMessage, reason)
  }

  /** The record as it is stored after a restore: texts trimmed and in one case, what is not known worked out, times
      that are not set dated now, and the rest as it was. */
  predicate ReadsBack(record: Record, r: Record, clock: Time) {
    && Says(record.localId, r.localId) && r.localId == TrimSpace(record.localId)
    && Says(record.symbol, r.symbol) && Says(record.side, r.side) && Says(record.positionSide, r.positionSide)
    && r.intent == (if record.intent.OtherIntent? then UnknownIntent else record.intent)
    && (if record.authority.OtherAuthority? then WorksOut(record, r.authority) else r.authority == record.authority)
    && (if record.confidence.OtherConfidence? then WorksOutConfidence(r.authority, record.lastMessage, r.confidence)
        else r.confidence == record.confidence)
    && (if SaysNothing(record.reason) then WorksOutReason(r.authority, record.lastMessage, r.reason)
        else SameNote(record.reason, r.reason))
    && r.submittedAt == (if record.submittedAt == ZERO_TIME then clock else record.submittedAt)
    && r.updatedAt == (if record.updatedAt == ZERO_TIME then clock else record.updatedAt)
    && r == record.(localId := r.localId, symbol := r.symbol, side := r.side, positionSide := r.positionSide,
                    intent := r.intent, authority := r.authority, confidence := r.confidence, reason := r.reason,
                    submittedAt := r.submittedAt, updatedAt := r.updatedAt)
  }

  lemma DiscoveredIsSaid(source: Source)
    ensures SaysDiscovered(source)
      <==> source == BrokerDiscovered || (source.OtherSource? && Says(source.text, "broker_discovered"))
  {
    if source.OtherSource? {
      hide TrimSpace;
      FoldingIsSameText(TrimSpace(source.text), "broker_discovered");
    }
  }

  lemma AuthorityIsWorkedOut(record: Record)
    requires record.authority.OtherAuthority?
    ensures WorksOut(record, NormalizeAuthority(record))
  {
    BlankTrims(record.rawBrokerStatus);
    BlankTrims(record.brokerOrderId);
    DiscoveredIsSaid(record.source);
    hide TrimSpace, Blanks, Says, SaysDiscovered, EqualFold;
  }

  lemma NoteIsSame(note: Note, fallback: Note)
    requires fallback.Settled()
    ensures SaysNothing(note) <==> note.Blank()
    ensures SaysNothing(note) ==> NoteOr(note, fallback) == fallback
    ensures !SaysNothing(note) ==> SameNote(note, NoteOr(note, fallback))
    ensures SameNote(note, note.Trim())
  {
    if note.Text? {
      BlankTrims(note.text);
    }
    hide TrimSpace, Blanks;
  }

  lemma ReasonIsWorkedOut(record: Record, authority: Authority)
    ensures var reason := NormalizeReason(record.reason, authority, record.lastMessage);
      if SaysNothing(record.reason) then WorksOutReason(authority, record.lastMessage, reason) else SameNote(record.reason, reason)
  {
    NoteIsSame(record.reason, ConfirmedState);
    NoteIsSame(record.lastMessage, ConfirmedState);
    NoteIsSame(record.lastMessage, InferredFromPosition);
    NoteIsSame(record.lastMessage, PendingFollowUp);
    hide NoteOr, SaysNothing, SameNote;
  }

  lemma RestoredReadsBack(record: Record, clock: Time)
    ensures ReadsBack(record, RestoredRecord(record, clock), clock)
  {
    var r := record.(localId := TrimSpace(record.localId), intent := NormalizeIntent(record.intent),
                     symbol := UpperTrim(record.symbol), side := UpperTrim(record.side),
                     positionSide := LowerTrim(record.positionSide));
    if r.authority.OtherAuthority? {
      AuthorityIsWorkedOut(r);
    }
    ReasonIsWorkedOut(r, NormalizeAuthority(r));
    UpperTrimSays(record.symbol, "");
    UpperTrimSays(record.side, "");
    UpperTrimSays(record.positionSide, "");
    SaysItself(record.localId);
    hide UpperTrim, LowerTrim, TrimSpace, Blanks, Says, NormalizeAuthority, NormalizeReason, WorksOutReason, SameNote,
         SaysNothing;
  }

  lemma SaysItself(s: string)
    ensures Says(s, TrimSpace(s))
  {
    hide TrimSpace;
    FoldingIsSameText(TrimSpace(s), TrimSpace(s));
  }

  // ---- Where it is found ----

  /** The last record of the list under its trimmed id. */
  predicate LastNamed(records: seq<Record>, i: nat) {
    i < |records| && forall k | i < k < |records| :: TrimSpace(records[k].localId) != TrimSpace(records[i].localId)
  }

  lemma {:induction false} LoadedAt(s: StoreValue, records: seq<Record>, clock: Time, i: nat)
    requires AllNamed(records) && LastNamed(records, i)
    ensures var id := TrimSpace(records[i].localId);
      id in Loaded(s, records, clock).orders && Loaded(s, records, clock).orders[id] == RestoredRecord(records[i], clock)
  {
    hide NormalizeAuthority, NormalizeReason, NormalizeConfidence, TrimSpace, UpperTrim, LowerTrim;
    var n := |records| - 1;
    if i < n {
      assert records[..n][i] == records[i];
      LoadedAt(s, records[..n], clock, i);
    }
  }

  lemma {:induction false} LoadedOnly(s: StoreValue, records: seq<Record>, clock: Time, id: string)
    requires AllNamed(records) && s.orders == map[] && id in Loaded(s, records, clock).orders
    ensures exists i: nat :: i < |records| && TrimSpace(records[i].localId) == id
  {
    hide NormalizeAuthority, NormalizeReason, NormalizeConfidence, TrimSpace, UpperTrim, LowerTrim;
    if records != [] {
      var n := |records| - 1;
      if id != TrimSpace(records[n].localId) {
        LoadedOnly(s, records[..n], clock, id);
        var i: nat :| i < n && TrimSpace(records[..n][i].localId) == id;
        assert records[i] == records[..n][i];
      } else {
        assert TrimSpace(records[n].localId) == id;
      }
    }
  }

  /** After a restore that succeeds each record is found under its id as it is read back, the last one where two have
      the same id, and there are no others. */
  lemma RestoredIsFound(into: StoreValue, snapshot: Snapshot, clock: Time)
    requires snapshot.version == 1 && forall r | r in snapshot.orders :: !Blanks(r.localId)
    ensures RestoreOutcome(snapshot) == Done
    ensures var s', records := Restored(into, snapshot, clock), snapshot.orders;
      && (forall i: nat | LastNamed(records, i) ::
            Lookup(s', records[i].localId, "").Some? && ReadsBack(records[i], Lookup(s', records[i].localId, "").value, clock))
      && (forall id | id in s'.orders :: exists i: nat :: i < |records| && TrimSpace(records[i].localId) == id)
      && s'.summary.(counts := snapshot.summary.counts) == snapshot.summary
  {
    hide Loaded, TrimSpace, Recount, HighestSequence, ReadsBack, RestoredRecord, Blanks;
    forall r | r in snapshot.orders ensures TrimSpace(r.localId) != "" {
      BlankTrims(r.localId);
    }
    var blank := into.(nextId := snapshot.nextId, orders := map[], index := map[]);
    var s', records := Restored(into, snapshot, clock), snapshot.orders;
    forall i: nat | LastNamed(records, i)
      ensures Lookup(s', records[i].localId, "").Some? && ReadsBack(records[i], Lookup(s', records[i].localId, "").value, clock)
    {
      LoadedAt(blank, records, clock, i);
      RestoredReadsBack(records[i], clock);
    }
    forall id | id in s'.orders ensures exists i: nat :: i < |records| && TrimSpace(records[i].localId) == id {
      LoadedOnly(blank, records, clock, id);
    }
  }

  /** A snapshot of no version changes nothing and one of a later version is refused; one with a record that has no
      id at all fails, after the records before the first such one are loaded, with the summary left as it was. */
  lemma RestoreCanFail(into: StoreValue, snapshot: Snapshot, clock: Time, n: nat)
    requires snapshot.version == 1 ==>
      && n < |snapshot.orders| && Blanks(snapshot.orders[n].localId)
      && forall k | 0 <= k < n :: !Blanks(snapshot.orders[k].localId)
    ensures var s', outcome := Restored(into, snapshot, clock), RestoreOutcome(snapshot);
      && (outcome == Done <==> snapshot.version == 0)
      && (snapshot.version != 1 ==> s' == into)
      && (snapshot.version == 1 ==>
            && s'.summary == into.summary && s'.nextId == snapshot.nextId
            && forall i: nat | LastNamed(snapshot.orders[..n], i) ::
                 Lookup(s', snapshot.orders[i].localId, "").Some?
                 && ReadsBack(snapshot.orders[i], Lookup(s', snapshot.orders[i].localId, "").value, clock))
  {
    hide Loaded, TrimSpace, Recount, HighestSequence, ReadsBack, RestoredRecord, Blanks;
    if snapshot.version == 1 {
      var records := snapshot.orders;
      var blank := into.(nextId := snapshot.nextId, orders := map[], index := map[]);
      forall k | 0 <= k <= n ensures TrimSpace(records[k].localId) == "" <==> Blanks(records[k].localId) {
        BlankTrims(records[k].localId);
      }
      assert !AllNamed(records) && AllNamed(records[..n]);
      assert records[..|records|] == records;
      LoadingStops(blank, records, clock, n, |records|);
      LoadingKeepsRest(blank, records[..n], clock);
      forall i: nat | LastNamed(records[..n], i)
        ensures Lookup(Loaded(blank, records, clock), records[i].localId, "").Some?
                && ReadsBack(records[i], Lookup(Loaded(blank, records, clock), records[i].localId, "").value, clock)
      {
        assert records[..n][i] == records[i];
        LoadedAt(blank, records[..n], clock, i);
        RestoredReadsBack(records[i], clock);
      }
    }
  }

  lemma {:induction false} LoadingStops(s: StoreValue, records: seq<Record>, clock: Time, n: nat, k: nat)
    requires n < k <= |records| && TrimSpace(records[n].localId) == ""
    ensures Loaded(s, records[..k], clock) == Loaded(s, records[..n], clock)
  {
    hide TrimSpace, RestoredOne;
    assert records[..k][n] == records[n];
    assert !AllNamed(records[..k]);
    assert records[..k][..k - 1] == records[..k - 1];
    if n < k - 1 {
      LoadingStops(s, records, clock, n, k - 1);
    }
  }

  lemma {:induction false} LoadingKeepsRest(s: StoreValue, records: seq<Record>, clock: Time)
    ensures Loaded(s, records, clock).(orders := s.orders, index := s.index) == s
  {
    hide TrimSpace, RestoredRecord;
    if records != [] {
      LoadingKeepsRest(s, records[..|records| - 1], clock);
    }
  }

  /** What is saved is of the first version. */
  lemma SnapshotIsFirstVersion(s: StoreValue, keys: seq<string>)
    requires forall id | id in keys :: id in s.orders
    ensures SnapshotOf(s, keys).version == 1 && SnapshotOf(s, keys).nextId == s.nextId && SnapshotOf(s, keys).summary == s.summary
  {
  }

  // ---- A snapshot that leaves the authority out ----

  /** The record without its authority and confidence. */
  function Forgetful(r: Record): Record {
    r.(authority := OtherAuthority(""), confidence := OtherConfidence(""))
  }

  /** An inferred outcome gets its authority back unless it was a cancellation, and its confidence too unless it was
      that or a filled protection. */
  lemma InferredIsRecovered(r: Record, held: real, r': Record, now: Time, clock: Time)
    requires FollowsEvidence(r, held, r', now)
    ensures var back := RestoredRecord(Forgetful(r'), clock);
      && (back.authority == r'.authority <==> r'.status != Cancelled)
      && (back.confidence == r'.confidence <==>
            r'.status != Cancelled && !(r'.status == Filled && r'.intent.Protective()))
  {
    hide UpperTrim, LowerTrim, NormalizeReason, TrimSpace, EqualFold;
  }

  /** A state taken over from the broker gets its authority back unless the order is only submitted or accepted there,
      or nothing was heard of it: then it passes for one the broker has not answered yet, or for unresolved. */
  lemma ConfirmedIsRecovered(r: Record, o: BrokerOrder, r': Record, now: Time, clock: Time)
    requires TakesOver(r, o, r', now)
    ensures var back := RestoredRecord(Forgetful(r'), clock);
      (back.authority == r'.authority <==> r'.status != Submitted && r'.status != Accepted && HeardOf(r'))
      && (back.confidence == r'.confidence <==> back.authority == r'.authority)
  {
    BlankTrims(r'.rawBrokerStatus);
    BlankTrims(r'.brokerOrderId);
    DiscoveredIsSaid(r'.source);
    hide UpperTrim, LowerTrim, NormalizeReason, TrimSpace, Blanks, Says, SaysDiscovered, Taken, Quotes;
    assert r'.reason.FromBrokerStatus? by { QuotingIs(r'.reason, o.rawStatus); }
  }

  lemma QuotingIs(reason: Note, rawStatus: string)
    requires Quotes(reason, rawStatus)
    ensures reason.FromBrokerStatus?
  {
  }
}
