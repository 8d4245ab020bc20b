/** An unresolved attempt stays sendable: the draft a tab shows for it is the very request its record stands for, after any reload and
    whatever the person at the keyboard does, and sending it again sends that request under that key. */
module ExchangeRecovery {
  import opened Wrappers
  import opened ExchangeTypes
  import opened Texts
  import opened Ordering
  import opened ExchangeCanonical
  import opened ExchangeRecord
  import opened ExchangeSlot
  import opened ExchangeProtocol
  import opened ExchangeSteps
  import opened ExchangeTheorems
  import opened ExchangeReadable
  import opened Fingerprint
  import opened FreshRead
  import opened Decimal
  import opened Json
  import opened Sequences

  // ---- a record as a draft -------------------------------------------------------------------------------------

  lemma {:induction false} BaselineIsFound(marks: seq<Watermark>, i: nat)
    requires i < |marks| && forall j, k :: 0 <= j < k < |marks| ==> marks[j].saleItemId != marks[k].saleItemId
    ensures RecordedBaseline(marks, marks[i].saleItemId) == marks[i].before
  {
    var n := |marks| - 1;
    if i < n {
      assert marks[i].saleItemId != marks[n].saleItemId;
      BaselineIsFound(marks[..n], i);
    }
  }

  lemma LineIsTheLine(r: Record, i: nat)
    requires WellFormedPayload(r.payload) && WellFormedWatermarks(r.payload, r.watermarks) && i < |r.payload.lines|
    ensures var line := LineFromRecord(r.watermarks, r.payload.lines[i]);
            && ValidDraftLine(line) && CanonicalLineOf(line) == r.payload.lines[i]
            && ItemOfDraft(line) == r.watermarks[i].saleItemId && line.before == r.watermarks[i].before
  {
    var l := r.payload.lines[i];
    assert ValidCanonicalLine(l);
    QuantityShown(l.returnQuantity, QUANTITY_DIGITS);
    StrictIsDistinct(r.payload.lines);
    hide StrictlyAscending, IsUuid, Lower, Show, Sorted;
    forall j, k | 0 <= j < k < |r.watermarks| ensures r.watermarks[j].saleItemId != r.watermarks[k].saleItemId {
      assert Map(ItemOf, r.payload.lines)[j] != Map(ItemOf, r.payload.lines)[k];
    }
    BaselineIsFound(r.watermarks, i);
  }

  lemma {:induction false} FindsItsLine(lines: seq<DraftLine>, i: nat)
    requires i < |lines| && forall j, k :: 0 <= j < k < |lines| ==> ItemOfDraft(lines[j]) != ItemOfDraft(lines[k])
    ensures FindLine(lines, ItemOfDraft(lines[i])) == Some(lines[i])
  {
    hide ItemOfDraft;
    if i > 0 {
      assert ItemOfDraft(lines[0]) != ItemOfDraft(lines[i]);
      FindsItsLine(lines[1..], i - 1);
    }
  }

  lemma AdoptedLines(r: Record, lines: seq<DraftLine>)
    requires WellFormedPayload(r.payload) && WellFormedWatermarks(r.payload, r.watermarks)
    requires |lines| == |r.payload.lines| && forall i :: 0 <= i < |lines| ==> lines[i] == LineFromRecord(r.watermarks, r.payload.lines[i])
    ensures AllValid(lines) && Map(CanonicalLineOf, lines) == r.payload.lines
    ensures Sort(ByItem, r.payload.lines) == r.payload.lines && !HasTwins(r.payload.lines)
  {
    StrictIsDistinct(r.payload.lines);
    SortedStays(ByItem, r.payload.lines);
    NoTwins(r.payload.lines);
    hide StrictlyAscending, Sorted, Sort, LineFromRecord, ValidDraftLine, CanonicalLineOf, WellFormedPayload, WellFormedWatermarks, HasTwins;
    forall i | 0 <= i < |lines| ensures ValidDraftLine(lines[i]) && CanonicalLineOf(lines[i]) == r.payload.lines[i] {
      LineIsTheLine(r, i);
    }
  }

  lemma AdoptedPayload(r: Record, status: Status, previous: Option<Draft>)
    requires WellFormedPayload(r.payload) && WellFormedWatermarks(r.payload, r.watermarks)
    ensures var d := DraftFromRecord(r, status, previous); CanonicalPayloadOf(d.reason, d.lines) == Some(r.payload)
  {
    hide Sort, LineFromRecord, CanonicalLineOf, WellFormedWatermarks, ValidCanonicalLine, Trim, Utf16Length, HasTwins, AllValid, StrictlyAscending;
    AdoptedLines(r, DraftFromRecord(r, status, previous).lines);
  }

  lemma NoTwins(lines: seq<CanonicalLine>)
    requires Distinct(Map(ItemOf, lines))
    ensures !HasTwins(lines)
  {
    forall i | 0 < i < |lines| ensures lines[i].saleItemId != lines[i - 1].saleItemId {
      assert Map(ItemOf, lines)[i - 1] != Map(ItemOf, lines)[i];
    }
  }

  lemma AdoptedWatermarks(r: Record, status: Status, previous: Option<Draft>)
    requires WellFormedPayload(r.payload) && WellFormedWatermarks(r.payload, r.watermarks)
    ensures CanonicalWatermarksOf(DraftFromRecord(r, status, previous).lines, r.payload) == Some(r.watermarks)
  {
    var lines := DraftFromRecord(r, status, previous).lines;
    StrictIsDistinct(r.payload.lines);
    hide StrictlyAscending, Sorted, LineFromRecord, ValidCanonicalLine, IsBaseline, ItemOfDraft;
    forall i | 0 <= i < |lines| ensures ItemOfDraft(lines[i]) == r.watermarks[i].saleItemId == r.payload.lines[i].saleItemId && lines[i].before == r.watermarks[i].before {
      LineIsTheLine(r, i);
    }
    forall j, k | 0 <= j < k < |lines| ensures ItemOfDraft(lines[j]) != ItemOfDraft(lines[k]) {
      assert Map(ItemOf, r.payload.lines)[j] != Map(ItemOf, r.payload.lines)[k];
    }
    forall i | 0 <= i < |r.payload.lines|
      ensures HasBaseline(lines, r.payload.lines[i]) && WatermarkOf(lines, r.payload.lines[i]) == r.watermarks[i]
    {
      FindsItsLine(lines, i);
    }
    assert CanonicalWatermarksOf(lines, r.payload).value == r.watermarks;
  }

  /** The draft says exactly what its attempt stands for; and as long as the sale is not blocked, under its fingerprint. */
  predicate MatchesAttempt(d: Draft) {
    d.attempt.Some? ==>
      var a := d.attempt.value;
      && CanonicalPayloadOf(d.reason, d.lines) == Some(a.payload)
      && CanonicalWatermarksOf(d.lines, a.payload) == Some(a.watermarks)
      && (d.recovery.None? ==> a.fingerprint == FingerprintOf(d.saleId, a.payload, a.watermarks))
  }

  /** A readable record, turned into a draft, canonicalises to its own payload and watermarks, whatever the tab showed before. */
  lemma AdoptedDraftIsTheRecord(r: Record, status: Status, previous: Option<Draft>)
    requires Persistable(r)
    ensures var d := DraftFromRecord(r, status, previous);
            && CanonicalPayloadOf(d.reason, d.lines) == Some(r.payload)
            && CanonicalWatermarksOf(d.lines, r.payload) == Some(r.watermarks)
            && FingerprintOf(d.saleId, r.payload, r.watermarks) == r.fingerprint
            && d.attempt.Some? && d.attempt.value.key == r.key && d.attempt.value.payload == r.payload
            && d.attempt.value.watermarks == r.watermarks && d.attempt.value.fingerprint == r.fingerprint
            && d.attempt.value.status == status
            && d.userId == r.userId && d.branchId == r.branchId && d.saleId == r.saleId
            && (d.recovery == if status.CONFIRMED? then Some(ConfirmedTombstone) else None)
            && MatchesAttempt(d)
  {
    AdoptedPayload(r, status, previous);
    AdoptedWatermarks(r, status, previous);
    hide CanonicalPayloadOf, CanonicalWatermarksOf, FingerprintOf, WellFormedPayload, WellFormedWatermarks;
  }

  /** What may be added to such a draft is what the tab already knew, or else the items of the record with their baselines. */
  lemma AdoptedAvailable(r: Record, status: Status, previous: Option<Draft>)
    ensures var available := DraftFromRecord(r, status, previous).available;
            if previous.Some? && previous.value.available != [] then available == previous.value.available
            else
              && |available| == |r.watermarks|
              && forall i :: 0 <= i < |available| ==> available[i] == AvailableLine(r.watermarks[i].saleItemId, r.watermarks[i].before)
  {
  }

  // ---- a frozen draft stays what it is -------------------------------------------------------------------------

  predicate TabMatches(tab: Tab) {
    tab.draft.Some? ==> MatchesAttempt(tab.draft.value)
  }

  lemma RecoveryMatches(userId: string, saleId: string, reason: Recovery, previous: Option<Draft>)
    requires previous.Some? ==> MatchesAttempt(previous.value)
    ensures MatchesAttempt(RecoveryDraft(userId, saleId, reason, previous))
  {
    hide CanonicalPayloadOf, CanonicalWatermarksOf, FingerprintOf;
  }

  lemma UnreadableMatches(tab: Tab, userId: string, saleId: string)
    requires TabMatches(tab)
    ensures MatchesAttempt(RecoveryDraft(userId, saleId, Unreadable, tab.draft)) && MatchesAttempt(RecoveryDraft(userId, saleId, StorageError, tab.draft))
    ensures MatchesAttempt(RecoveryDraft(userId, saleId, Unreadable, None)) && MatchesAttempt(RecoveryDraft(userId, saleId, StorageError, None))
  {
    hide MatchesAttempt, RecoveryDraft;
    RecoveryMatches(userId, saleId, Unreadable, tab.draft);
    RecoveryMatches(userId, saleId, StorageError, tab.draft);
    RecoveryMatches(userId, saleId, Unreadable, None);
    RecoveryMatches(userId, saleId, StorageError, None);
  }

  lemma BlockedMatches(d: Draft, reason: Recovery)
    requires MatchesAttempt(d)
    ensures MatchesAttempt(d.(recovery := Some(reason))) && MatchesAttempt(d.(attempt := None, recovery := Some(reason)))
  {
    hide CanonicalPayloadOf, CanonicalWatermarksOf, FingerprintOf;
  }

  lemma NewDraftMatches(userId: string, branchId: string, saleId: string, read: Read)
    ensures MatchesAttempt(NewDraft(userId, branchId, saleId, read))
  {
  }

  lemma FollowedMatches(r: Record, status: Status, previous: Option<Draft>)
    requires Persistable(r)
    ensures MatchesAttempt(DraftFromRecord(r, status, previous))
  {
    hide DraftFromRecord, Persistable, MatchesAttempt, CanonicalPayloadOf, CanonicalWatermarksOf, FingerprintOf;
    AdoptedDraftIsTheRecord(r, status, previous);
  }

  lemma LoadMatches(tab: Tab, disk: Disk, io: Io, userId: string, saleId: string)
    requires TabMatches(tab) && CellInShape(disk.cell)
    ensures TabMatches(Load(tab, disk, io, userId, saleId))
  {
    hide DraftFromRecord, RecoveryDraft, Persistable, MatchesAttempt;
    if disk.cell.Held? {
      FollowedMatches(disk.cell.record, CONFIRMED, None);
      FollowedMatches(disk.cell.record, UNCERTAIN, None);
    }
    UnreadableMatches(tab, userId, saleId);
  }

  /** Editing never touches a draft whose attempt is open or confirmed, and drops a refused attempt. */
  lemma EditMatches(tab: Tab, c: Change)
    requires TabMatches(tab)
    ensures TabMatches(Edit(tab, c).0)
    ensures Edit(tab, c).0 != tab ==> Edit(tab, c).0.draft.Some? && Edit(tab, c).0.draft.value.attempt.None?
  {
    hide CanonicalPayloadOf, CanonicalWatermarksOf, FingerprintOf;
  }

  lemma EventMatches(tab: Tab, disk: Disk, io: Io, userId: string, saleId: string)
    requires TabMatches(tab) && CellInShape(disk.cell)
    ensures TabMatches(StorageEvent(tab, disk, io, userId, saleId))
  {
    hide DraftFromRecord, RecoveryDraft, Persistable, MatchesAttempt;
    if disk.cell.Held? {
      FollowedMatches(disk.cell.record, disk.cell.record.status, tab.draft);
    }
    UnreadableMatches(tab, userId, saleId);
    if tab.draft.Some? {
      BlockedMatches(tab.draft.value, ResolvedElsewhere);
    }
  }

  lemma InspectMatches(tab: Tab, disk: Disk, io: Io)
    requires TabMatches(tab) && CellInShape(disk.cell)
    ensures TabMatches(Inspect(tab, disk, io).0)
    ensures Inspect(tab, disk, io).1.Inspected? ==> tab.draft == Some(Inspect(tab, disk, io).1.draft)
  {
    hide DraftFromRecord, RecoveryDraft, Persistable, MatchesAttempt;
    if tab.draft.Some? {
      if disk.cell.Held? {
        FollowedMatches(disk.cell.record, disk.cell.record.status, tab.draft);
      }
      UnreadableMatches(tab, tab.draft.value.userId, tab.draft.value.saleId);
    }
  }

  lemma OpenMatches(tab: Tab, disk: Disk, io: Io, userId: string, branchId: string, read: Read)
    requires TabMatches(tab) && CellInShape(disk.cell)
    ensures TabMatches(Open(tab, disk, io, userId, branchId, read).0)
  {
    hide DraftFromRecord, NewDraft, RaiseMark, OlderThanMark, Persistable;
    if disk.cell.Held? {
      FollowedMatches(disk.cell.record, disk.cell.record.status, None);
    }
    NewDraftMatches(userId, branchId, read.saleId, read);
    hide CanonicalPayloadOf, CanonicalWatermarksOf, FingerprintOf, HasRemaining;
  }

  lemma RefusalMatches(tab: Tab, disk: Disk, io: Io)
    requires TabMatches(tab) && CellInShape(disk.cell) && Decide(tab, disk, io).Refuse?
    ensures TabMatches(Decide(tab, disk, io).tab)
  {
    hide CanonicalPayloadOf, CanonicalWatermarksOf, FingerprintOf, OlderThanMark, DraftFromRecord, Persistable, MatchesAttempt;
    if tab.draft.Some? {
      var d := tab.draft.value;
      if disk.cell.Held? {
        FollowedMatches(disk.cell.record, CONFIRMED, Some(d));
      }
      BlockedMatches(d, Unreadable);
      BlockedMatches(d, StorageError);
      BlockedMatches(d, StaleBaseline);
      BlockedMatches(d, ResolvedElsewhere);
    }
  }

  /** What is sent is what the draft says: the attempt of a successful prepare, new or not, is the canonical form of the draft. */
  lemma DecidedMatches(tab: Tab, disk: Disk, io: Io, newKey: Key)
    requires CellInShape(disk.cell) && !Decide(tab, disk, io).Refuse?
    ensures tab.draft.Some? && tab.draft.value.recovery.None?
    ensures MatchesAttempt(tab.draft.value.(attempt := Some(AttemptFor(Decide(tab, disk, io), newKey))))
  {
    var decision := Decide(tab, disk, io);
    DecidedIsUnblocked(tab, disk, io);
    if decision.Mint? {
      MintIsCanonical(tab, disk, io);
    } else {
      ReuseIsCanonical(tab, disk, io);
      var d, r := tab.draft.value, decision.record;
      var p := CanonicalPayloadOf(d.reason, d.lines).value;
      var w := CanonicalWatermarksOf(d.lines, p).value;
      FingerprintIsInjective(d.saleId, p, w, r.saleId, r.payload, r.watermarks);
    }
    hide Decide, CanonicalPayloadOf, CanonicalWatermarksOf, FingerprintOf, WellFormedPayload, WellFormedWatermarks, IsShortText, IsUuid, IsUuidV4;
  }

  lemma DecidedIsUnblocked(tab: Tab, disk: Disk, io: Io)
    requires !Decide(tab, disk, io).Refuse?
    ensures tab.draft.Some? && tab.draft.value.recovery.None?
  {
    hide CanonicalPayloadOf, CanonicalWatermarksOf, FingerprintOf, OlderThanMark, DraftFromRecord;
  }

  lemma PrepareMatches(tab: Tab, disk: Disk, io: Io, newKey: Key)
    requires TabMatches(tab) && CellInShape(disk.cell)
    ensures TabMatches(Prepare(tab, disk, io, newKey).0)
  {
    if Decide(tab, disk, io).Refuse? {
      RefusalMatches(tab, disk, io);
    } else {
      DecidedMatches(tab, disk, io, newKey);
    }
    hide Decide, AttemptFor, MatchesAttempt, CellOf, RecordOf;
  }

  lemma NextMatches(d: Draft, outcome: Outcome, now: int)
    requires d.attempt.Some? && d.recovery.None? && MatchesAttempt(d)
    ensures MatchesAttempt(NextDraft(d, outcome, now))
  {
    hide CanonicalPayloadOf, CanonicalWatermarksOf, FingerprintOf;
  }

  lemma SettleMatches(tab: Tab, disk: Disk, io: Io, key: Key, outcome: Outcome, now: int)
    requires TabMatches(tab) && CellInShape(disk.cell) && IsUnderWay(tab)
    ensures TabMatches(Settle(tab, disk, io, key, outcome, now).0)
    ensures TabMatches(SettleWithoutLock(tab, key, outcome, now))
  {
    hide DraftFromRecord, RecoveryDraft, RaiseMark, Persistable, MatchesAttempt, NextDraft;
    var d := tab.draft.value;
    NextMatches(d, outcome, now);
    if disk.cell.Held? {
      FollowedMatches(disk.cell.record, disk.cell.record.status, tab.draft);
    }
    UnreadableMatches(tab, d.userId, d.saleId);
  }

  lemma FinishMatches(tab: Tab, disk: Disk, io: Io, first: Basis, read: Read, userId: string, branchId: string)
    requires TabMatches(tab) && CellInShape(disk.cell)
    ensures TabMatches(Finish(tab, disk, io, first, read, userId, branchId).0)
  {
    hide NewDraft, RaiseMark, OlderThanMark, Inspect, HasRemaining, MatchesAttempt, RecoveryDraft;
    InspectMatches(tab, disk, io);
    if tab.draft.Some? {
      NewDraftMatches(userId, branchId, tab.draft.value.saleId, read);
      UnreadableMatches(tab, tab.draft.value.userId, tab.draft.value.saleId);
    }
  }

  // ---- every run -----------------------------------------------------------------------------------------------

  predicate EachMatches(w: World) {
    forall t :: t in w.seats ==> TabMatches(w.seats[t].tab)
  }

  lemma StepKeepsMatching(w: World, s: Step)
    requires InShape(w) && EachMatches(w) && Enabled(w, s)
    ensures EachMatches(Apply(w, s))
  {
    hide InShape, Decide, ParseRead, VerdictFor, Truthful, Load, Edit, StorageEvent, Inspect, Open, Finish, Settle, SettleWithoutLock, Prepare,
      Classify, Credit, MintedBy, MatchesAttempt, CellInShape, IsUnderWay, TabInShape, MarkInShape, IsShortText, IsUuid, MeansRefused,
      MeansCommitted, KeysOf, RecoveryCode, Reset, DropEditable, BeginSend;
    match s {
      case LoadTab(t, io) =>
        SeatParts(w, t);
        LoadMatches(w.seats[t].tab, w.disk, io, w.userId, w.saleId);
      case EditDraft(t, c) => EditMatches(w.seats[t].tab, c);
      case DeliverEvent(t, io) =>
        SeatParts(w, t);
        EventMatches(w.seats[t].tab, w.disk, io, w.userId, w.saleId);
      case LookForRefresh(t, io) =>
        SeatParts(w, t);
        InspectMatches(w.seats[t].tab, w.disk, io);
      case OpenDraft(t, io, branchId, _, raw) =>
        SeatParts(w, t);
        OpenMatches(w.seats[t].tab, w.disk, io, w.userId, branchId, ParseRead(raw).value);
      case FinishRefresh(t, io, look, branchId, saleNumber, raw) =>
        SeatParts(w, t);
        VerdictCovers(look, ParseRead(raw), w.saleId, branchId, saleNumber);
        FinishMatches(w.seats[t].tab, w.disk, io, look.basis, ParseRead(raw).value, w.userId, branchId);
      case SettleAnswer(t, io, now) =>
        SeatParts(w, t);
        SettleMatches(w.seats[t].tab, w.disk, io, w.seats[t].phase.key, w.seats[t].phase.outcome, now);
      case SettleUnlocked(t, now) =>
        SeatParts(w, t);
        SettleMatches(w.seats[t].tab, w.disk, ALL_FINE, w.seats[t].phase.key, w.seats[t].phase.outcome, now);
      case PrepareSend(t, io, newKey) =>
        SeatParts(w, t);
        PrepareMatches(w.seats[t].tab, w.disk, io, newKey);
      case _ => PlainStepMatches(w, s);
    }
  }

  /** Steps that give a tab no draft and no draft an attempt. */
  predicate IsPlain(s: Step) {
    || s.Start? || s.ResetDraft? || s.DropEditables? || s.Send? || s.LockDenied? || s.Answer? || s.EndSend?
    || s.Commit? || s.RefuseKey? || s.OthersExchange? || s.CorruptAttempt? || s.CorruptMark?
  }

  lemma PlainStepMatches(w: World, s: Step)
    requires EachMatches(w) && Enabled(w, s) && IsPlain(s)
    ensures EachMatches(Apply(w, s))
  {
    hide Truthful, Classify, Credit, MatchesAttempt, MeansRefused, MeansCommitted, KeysOf, RecoveryCode;
  }

  const ALL_FINE := Io(true, true, true, true, true, true, true, true, true)

  lemma {:induction false} RunKeepsMatching(w: World, steps: seq<Step>, v: World)
    requires InShape(w) && EachMatches(w) && Runs(w, steps, v) && IdsOfAll(steps)
    ensures EachMatches(v)
    decreases |steps|
  {
    hide InShape, EachMatches, Enabled, Apply, IdsOf, KeepsReadability;
    if |steps| > 0 {
      StepKeepsMatching(w, steps[0]);
      StepKeepsShape(w, steps[0]);
      RunKeepsMatching(Apply(w, steps[0]), steps[1..], v);
    }
  }

  /** From an empty start, with well-formed ids, every draft that carries an attempt says exactly what that attempt stands for, whatever was
      edited, reset, reloaded, followed or answered on the way: an open attempt is frozen. */
  lemma AttemptsAreFrozen(userId: string, saleId: string, exchanged: map<string, nat>, steps: seq<Step>, v: World, t: TabId)
    requires IsShortText(userId) && IsUuid(saleId) && IdsOfAll(steps)
    requires Runs(Initial(userId, saleId, exchanged), steps, v)
    requires t in v.seats && v.seats[t].tab.draft.Some? && v.seats[t].tab.draft.value.attempt.Some?
    ensures var d := v.seats[t].tab.draft.value;
            && CanonicalPayloadOf(d.reason, d.lines) == Some(d.attempt.value.payload)
            && CanonicalWatermarksOf(d.lines, d.attempt.value.payload) == Some(d.attempt.value.watermarks)
            && (d.recovery.None? ==> d.attempt.value.fingerprint == FingerprintOf(d.saleId, d.attempt.value.payload, d.attempt.value.watermarks))
  {
    hide Runs, IdsOfAll, IsShortText, IsUuid, CanonicalPayloadOf, CanonicalWatermarksOf, FingerprintOf;
    RunKeepsMatching(Initial(userId, saleId, exchanged), steps, v);
    assert TabMatches(v.seats[t].tab);
  }

  // ---- sending it again ----------------------------------------------------------------------------------------

  /** A tab whose draft matches the unresolved record of the slot, and which may send it, decides to send that record's key. */
  lemma MatchingDraftReuses(tab: Tab, disk: Disk, io: Io, r: Record)
    requires disk.cell == Held(r) && !r.status.CONFIRMED? && io.available && io.readCell && (r.status.SENDING? ==> r.key in tab.owned)
    requires tab.draft.Some? && tab.draft.value.recovery.None? && MatchesAttempt(tab.draft.value)
    requires tab.draft.value.attempt.Some? && tab.draft.value.attempt.value.fingerprint == r.fingerprint
    ensures Decide(tab, disk, io) == Reuse(r)
  {
    hide CanonicalPayloadOf, CanonicalWatermarksOf, FingerprintOf, OlderThanMark, DraftFromRecord;
  }

  /** So sending goes out under that key and with that payload, and the slot says so. */
  lemma MatchingDraftResends(tab: Tab, disk: Disk, io: Io, newKey: Key, r: Record)
    requires disk.cell == Held(r) && !r.status.CONFIRMED? && Persistable(r) && (r.status.SENDING? ==> r.key in tab.owned)
    requires io.available && io.readCell && io.writeCell && io.rereadCell
    requires tab.draft.Some? && tab.draft.value.recovery.None? && MatchesAttempt(tab.draft.value) && IdsAreWellFormed(tab.draft.value)
    requires tab.draft.value.attempt.Some? && tab.draft.value.attempt.value.fingerprint == r.fingerprint
    ensures var (tab', disk', result) := Prepare(tab, disk, io, newKey);
            && result == Ok(AttemptOf(r, SENDING))
            && disk' == disk.(cell := Held(RecordOf(tab.draft.value, AttemptOf(r, SENDING), SENDING)))
            && tab'.draft == Some(tab.draft.value.(attempt := Some(AttemptOf(r, SENDING))))
  {
    MatchingDraftReuses(tab, disk, io, r);
    ReuseIsPersistable(tab, disk, io, newKey);
    LaunchStores(tab, disk, io, AttemptOf(r, SENDING));
    hide Decide, Launch, IsRecordable, IdsAreWellFormed, MatchesAttempt, Persistable;
  }

  /** The memory of a tab that has adopted the record and queued its send. */
  function Reloaded(r: Record, inFlight: bool): Tab {
    Tab(true, Some(DraftFromRecord(r, UNCERTAIN, None)), inFlight, {r.key})
  }

  function Seated(v: World, t: TabId, seat: Seat): World {
    v.(seats := v.seats[t := seat])
  }

  lemma ReloadAdopts(disk: Disk, userId: string, saleId: string)
    requires disk.cell.Held? && !disk.cell.record.status.CONFIRMED?
    ensures Load(Tab(false, None, false, {}), disk, ALL_FINE, userId, saleId) == Reloaded(disk.cell.record, false)
    ensures BeginSend(Reloaded(disk.cell.record, false)) == (Reloaded(disk.cell.record, true), None)
  {
    hide Map, RecordedBaseline;
    assert {} + {disk.cell.record.key} == {disk.cell.record.key};
  }

  lemma ReloadQueues(v: World, t: TabId)
    requires v.disk.cell.Held? && !v.disk.cell.record.status.CONFIRMED?
    ensures var r := v.disk.cell.record;
            && Enabled(v, Start(t)) && Apply(v, Start(t)) == Seated(v, t, FRESH_SEAT)
            && Enabled(Seated(v, t, FRESH_SEAT), LoadTab(t, ALL_FINE))
            && Apply(Seated(v, t, FRESH_SEAT), LoadTab(t, ALL_FINE)) == Seated(v, t, Seat(Reloaded(r, false), Idle, {}))
            && Enabled(Seated(v, t, Seat(Reloaded(r, false), Idle, {})), Send(t))
            && Apply(Seated(v, t, Seat(Reloaded(r, false), Idle, {})), Send(t)) == Seated(v, t, Seat(Reloaded(r, true), Queued, {}))
  {
    ReloadAdopts(v.disk, v.userId, v.saleId);
    hide Load, BeginSend, DraftFromRecord;
  }

  lemma ReloadedIsReady(r: Record)
    requires Persistable(r)
    ensures var d := Reloaded(r, true).draft;
            && d.Some? && d.value.recovery.None? && MatchesAttempt(d.value) && IdsAreWellFormed(d.value)
            && d.value.attempt.Some? && d.value.attempt.value.fingerprint == r.fingerprint
            && (!r.status.CONFIRMED? ==> RecordOf(d.value, AttemptOf(r, SENDING), SENDING) == r.(status := SENDING))
    ensures r.key in Reloaded(r, true).owned
  {
    AdoptedDraftIsTheRecord(r, UNCERTAIN, None);
    hide MatchesAttempt, WellFormedPayload, WellFormedWatermarks, FingerprintOf, CanonicalPayloadOf, CanonicalWatermarksOf, IsUuid, IsUuidV4,
      IsShortText, RecordedBaseline, TombstoneFits;
  }

  lemma ReloadPrepares(disk: Disk, newKey: Key)
    requires disk.cell.Held? && !disk.cell.record.status.CONFIRMED? && Persistable(disk.cell.record)
    ensures var r := disk.cell.record;
            var (_, disk', result) := Prepare(Reloaded(r, true), disk, ALL_FINE, newKey);
            && result == Ok(AttemptOf(r, SENDING)) && disk' == disk.(cell := Held(r.(status := SENDING)))
            && MintedBy(Reloaded(r, true), disk, ALL_FINE, newKey) == []
  {
    hide Decide, Prepare, MatchesAttempt, Persistable, Reloaded, IdsAreWellFormed, RecordOf, AttemptOf;
    var r := disk.cell.record;
    ReloadedIsReady(r);
    MatchingDraftReuses(Reloaded(r, true), disk, ALL_FINE, r);
    MatchingDraftResends(Reloaded(r, true), disk, ALL_FINE, newKey, r);
  }

  /** After a crash or a reload an unresolved key can always be sent again: a tab that starts, loads the slot and sends, with storage at
      work, posts exactly the key and the payload of the record, whatever its status and whichever tab wrote it. */
  lemma ReloadResends(v: World, t: TabId, newKey: Key) returns (z: World)
    requires InShape(v) && v.disk.cell.Held? && !v.disk.cell.record.status.CONFIRMED? && newKey !in KeysOf(v.ledger.log)
    ensures Runs(v, [Start(t), LoadTab(t, ALL_FINE), Send(t), PrepareSend(t, ALL_FINE, newKey)], z)
    ensures var r := v.disk.cell.record;
            && t in z.seats && z.seats[t].phase == Posting(r.key) && Post(r.key, r.payload) in z.posts
            && z.disk.cell == Held(r.(status := SENDING)) && z.ledger == v.ledger
  {
    hide Load, BeginSend, Prepare, MintedBy, Decide, SeatInShape, Persistable, Reloaded, MarkInShape, IsShortText, IsUuid;
    var r := v.disk.cell.record;
    ReloadQueues(v, t);
    ReloadPrepares(v.disk, newKey);
    var a := Seated(v, t, Seat(Reloaded(r, true), Queued, {}));
    LoadedOne(r);
    var last := PrepareSend(t, ALL_FINE, newKey);
    z := Apply(a, last);
    assert v.ledger.log + [] == v.ledger.log;
    RunsLast(a, last);
    hide Apply, Enabled;
    RunsFirst(Seated(v, t, Seat(Reloaded(r, false), Idle, {})), Send(t), [last], z);
    RunsFirst(Seated(v, t, FRESH_SEAT), LoadTab(t, ALL_FINE), [Send(t), last], z);
    RunsFirst(v, Start(t), [LoadTab(t, ALL_FINE), Send(t), last], z);
  }

  lemma LoadedOne(r: Record)
    ensures Reloaded(r, true).loaded
  {
    hide DraftFromRecord;
  }

  lemma RunsLast(w: World, s: Step)
    requires Enabled(w, s)
    ensures Runs(w, [s], Apply(w, s))
  {
    hide Enabled, Apply;
    assert [s][1..] == [];
  }

  lemma RunsFirst(w: World, s: Step, rest: seq<Step>, z: World)
    requires Enabled(w, s) && Runs(Apply(w, s), rest, z)
    ensures Runs(w, [s] + rest, z)
  {
    hide Enabled, Apply;
    assert ([s] + rest)[1..] == rest;
  }
}
