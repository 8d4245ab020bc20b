/** What the store writes it can read: with well-formed ids every attempt it writes down reads back, whatever storage, the other
    tabs and the server do, and only a malformed confirmation or outside interference makes a slot unreadable. */
module ExchangeReadable {
  import opened Wrappers
  import opened ExchangeTypes
  import opened Texts
  import opened ExchangeCanonical
  import opened ExchangeRecord
  import opened ExchangeSlot
  import opened ExchangeProtocol
  import opened ExchangeSteps
  import opened ExchangeTheorems
  import opened Fingerprint
  import opened FreshRead
  import opened Json
  import opened Sequences

  // ---- what a send writes reads back ---------------------------------------------------------------------------

  /** The ids under which a draft is filed, in the form the strict reader demands. */
  predicate IdsAreWellFormed(d: Draft) {
    IsShortText(d.userId) && IsShortText(d.branchId) && IsUuid(d.saleId)
  }

  lemma CanonicalIsWellFormed(reason: string, lines: seq<DraftLine>)
    requires CanonicalPayloadOf(reason, lines).Some?
    requires CanonicalWatermarksOf(lines, CanonicalPayloadOf(reason, lines).value).Some?
    ensures var p := CanonicalPayloadOf(reason, lines).value;
            WellFormedPayload(p) && WellFormedWatermarks(p, CanonicalWatermarksOf(lines, p).value)
  {
    PayloadShape(reason, lines);
    var p := CanonicalPayloadOf(reason, lines).value;
    WatermarksShape(lines, p);
    var w := CanonicalWatermarksOf(lines, p).value;
    hide CanonicalPayloadOf, CanonicalWatermarksOf, StrictlyAscending, IsUuid, Lower, Trim, Utf16Length, Distinct, Map;
    forall i | 0 <= i < |w| ensures IsBaseline(w[i].before) && IsWatermarkQuantity(w[i].after) {
      assert p.lines[i] in p.lines;
      WatermarkFits(w[i].before, p.lines[i].returnQuantity);
    }
    assert Trim(p.reason) == p.reason by {
      TrimIsStable(reason);
    }
  }

  lemma TrimIsStable(s: string)
    ensures Trim(Trim(s)) == Trim(s)
  {
    hide IsSpace;
  }

  /** The record of a new key is one the strict reader accepts. */
  lemma MintIsPersistable(tab: Tab, disk: Disk, io: Io, newKey: Key)
    requires Decide(tab, disk, io).Mint?
    requires tab.draft.Some? && IdsAreWellFormed(tab.draft.value) && IsUuidV4(newKey)
    ensures IsRecordable(tab.draft.value, AttemptFor(Decide(tab, disk, io), newKey))
  {
    MintIsCanonical(tab, disk, io);
    CanonicalIsWellFormed(tab.draft.value.reason, tab.draft.value.lines);
    hide Decide, CanonicalPayloadOf, CanonicalWatermarksOf, WellFormedPayload, WellFormedWatermarks, FingerprintOf, IsShortText, IsUuid, IsUuidV4;
  }

  /** The record of a key sent again is one too, although it is written from this tab's draft. */
  lemma ReuseIsPersistable(tab: Tab, disk: Disk, io: Io, newKey: Key)
    requires Decide(tab, disk, io).Reuse? && CellInShape(disk.cell)
    requires tab.draft.Some? && IdsAreWellFormed(tab.draft.value)
    ensures IsRecordable(tab.draft.value, AttemptFor(Decide(tab, disk, io), newKey))
  {
    var r := Decide(tab, disk, io).record;
    ReuseIsCanonical(tab, disk, io);
    var p := CanonicalPayloadOf(tab.draft.value.reason, tab.draft.value.lines).value;
    var w := CanonicalWatermarksOf(tab.draft.value.lines, p).value;
    FingerprintIsInjective(tab.draft.value.saleId, p, w, r.saleId, r.payload, r.watermarks);
    hide Decide, CanonicalPayloadOf, CanonicalWatermarksOf, WellFormedPayload, WellFormedWatermarks, FingerprintOf, IsShortText, IsUuid, IsUuidV4;
  }

  lemma ReuseIsCanonical(tab: Tab, disk: Disk, io: Io)
    requires Decide(tab, disk, io).Reuse?
    ensures tab.draft.Some? && disk.cell == Held(Decide(tab, disk, io).record)
    ensures CanonicalPayloadOf(tab.draft.value.reason, tab.draft.value.lines).Some?
    ensures var p := CanonicalPayloadOf(tab.draft.value.reason, tab.draft.value.lines).value;
            && CanonicalWatermarksOf(tab.draft.value.lines, p).Some?
            && Decide(tab, disk, io).record.fingerprint == FingerprintOf(tab.draft.value.saleId, p, CanonicalWatermarksOf(tab.draft.value.lines, p).value)
  {
    hide CanonicalPayloadOf, CanonicalWatermarksOf, FingerprintOf, OlderThanMark, DraftFromRecord;
  }

  lemma LaunchStores(tab: Tab, disk: Disk, io: Io, a: Attempt)
    requires tab.draft.Some? && IsRecordable(tab.draft.value, a)
    ensures var (tab', disk', result) := Launch(tab, disk, io, a);
            && (result.Ok? <==> io.available && io.writeCell && io.rereadCell)
            && (result.Ok? ==> result.value == a && tab'.draft == Some(tab.draft.value.(attempt := Some(a))))
            && disk' == (if io.available && io.writeCell then disk.(cell := Held(RecordOf(tab.draft.value, a, SENDING))) else disk)
  {
    hide Persistable;
  }

  lemma DecidedIsRecordable(tab: Tab, disk: Disk, io: Io, newKey: Key)
    requires CellInShape(disk.cell) && IsUuidV4(newKey) && tab.draft.Some? && IdsAreWellFormed(tab.draft.value)
    requires !Decide(tab, disk, io).Refuse?
    ensures IsRecordable(tab.draft.value, AttemptFor(Decide(tab, disk, io), newKey))
  {
    if Decide(tab, disk, io).Mint? {
      MintIsPersistable(tab, disk, io, newKey);
    } else {
      ReuseIsPersistable(tab, disk, io, newKey);
    }
    hide *;
  }

  /** A send that is not refused succeeds exactly when storage writes the record and reads it again; and then the slot holds the
      record of the attempt, whatever it held before. */
  lemma PrepareSucceedsIffStored(tab: Tab, disk: Disk, io: Io, newKey: Key)
    requires CellInShape(disk.cell) && IsUuidV4(newKey) && tab.draft.Some? && IdsAreWellFormed(tab.draft.value)
    requires !Decide(tab, disk, io).Refuse?
    ensures var a := AttemptFor(Decide(tab, disk, io), newKey);
            var (_, disk', result) := Prepare(tab, disk, io, newKey);
            && (result.Ok? <==> io.available && io.writeCell && io.rereadCell)
            && (result.Ok? ==> result.value == a && disk' == disk.(cell := Held(RecordOf(tab.draft.value, a, SENDING))))
  {
    DecidedIsRecordable(tab, disk, io, newKey);
    LaunchStores(tab, disk, io, AttemptFor(Decide(tab, disk, io), newKey));
    hide Decide, Launch, AttemptFor, IsRecordable, CellInShape, IsUuidV4, IdsAreWellFormed;
  }

  // ---- the shape of a world ------------------------------------------------------------------------------------

  predicate CellInShape(c: Cell) {
    c.Held? ==> Persistable(c.record)
  }

  predicate MarkInShape(m: MarkCell) {
    m.Marked? ==> ReadableMark(m.lines)
  }

  /** Only a draft in recovery may lack its branch. */
  predicate DraftInShape(d: Draft) {
    IsShortText(d.userId) && IsUuid(d.saleId) && (d.recovery.None? ==> IsShortText(d.branchId))
  }

  predicate TabInShape(tab: Tab) {
    tab.draft.Some? ==> DraftInShape(tab.draft.value)
  }

  /** The draft is the frozen one of the attempt under way, and its record is one the strict reader accepts. */
  predicate IsUnderWay(tab: Tab) {
    && tab.draft.Some? && tab.draft.value.recovery.None? && HasStatus(tab.draft.value, SENDING)
    && IsRecordable(tab.draft.value, tab.draft.value.attempt.value)
  }

  predicate PhaseInShape(tab: Tab, p: Phase) {
    && (!p.Idle? ==> tab.loaded && tab.inFlight)
    && (p.Posting? || p.Answered? ==> IsUnderWay(tab) && IsAbout(tab, p.key))
  }

  predicate SeatInShape(s: Seat) {
    TabInShape(s.tab) && PhaseInShape(s.tab, s.phase)
  }

  predicate InShape(w: World) {
    && IsShortText(w.userId) && IsUuid(w.saleId)
    && (forall t :: t in w.seats ==> SeatInShape(w.seats[t]))
    && CellInShape(w.disk.cell) && MarkInShape(w.disk.mark)
  }

  /** The session names a branch in the form the strict reader demands, and generated keys are version 4 UUIDs. */
  predicate IdsOf(s: Step) {
    match s
    case OpenDraft(_, _, branchId, _, _) => IsShortText(branchId)
    case FinishRefresh(_, _, _, branchId, _, _) => IsShortText(branchId)
    case PrepareSend(_, _, newKey) => IsUuidV4(newKey)
    case _ => true
  }

  /** What no section but those of the attempt itself changes. */
  predicate KeepsFlight(a: Tab, b: Tab) {
    (a.loaded ==> b.loaded) && a.inFlight == b.inFlight && (a.loaded && a.inFlight && IsUnderWay(a) ==> b.draft == a.draft)
  }

  lemma FlightKeepsPhase(a: Tab, b: Tab, p: Phase)
    requires PhaseInShape(a, p) && KeepsFlight(a, b)
    ensures PhaseInShape(b, p)
  {
    hide IsRecordable;
  }

  // ---- what each section keeps ---------------------------------------------------------------------------------

  lemma FollowedInShape(r: Record, status: Status, previous: Option<Draft>)
    requires Persistable(r)
    ensures DraftInShape(DraftFromRecord(r, status, previous))
  {
    hide WellFormedPayload, WellFormedWatermarks, FingerprintOf, IsShortText, IsUuid, IsUuidV4;
  }

  lemma LoadInShape(tab: Tab, disk: Disk, io: Io, userId: string, saleId: string)
    requires TabInShape(tab) && CellInShape(disk.cell) && IsShortText(userId) && IsUuid(saleId)
    ensures TabInShape(Load(tab, disk, io, userId, saleId)) && KeepsFlight(tab, Load(tab, disk, io, userId, saleId))
  {
    hide DraftFromRecord, Persistable, IsShortText, IsUuid, IsUnderWay;
    if disk.cell.Held? {
      FollowedInShape(disk.cell.record, CONFIRMED, None);
      FollowedInShape(disk.cell.record, UNCERTAIN, None);
    }
  }

  lemma EditInShape(tab: Tab, c: Change)
    requires TabInShape(tab)
    ensures TabInShape(Edit(tab, c).0) && KeepsFlight(tab, Edit(tab, c).0)
  {
    hide IsRecordable, IsShortText, IsUuid;
  }

  lemma EventInShape(tab: Tab, disk: Disk, io: Io, userId: string, saleId: string)
    requires TabInShape(tab) && CellInShape(disk.cell) && IsShortText(userId) && IsUuid(saleId)
    ensures TabInShape(StorageEvent(tab, disk, io, userId, saleId)) && KeepsFlight(tab, StorageEvent(tab, disk, io, userId, saleId))
  {
    hide DraftFromRecord, Persistable, IsShortText, IsUuid, IsUnderWay;
    if disk.cell.Held? {
      FollowedInShape(disk.cell.record, disk.cell.record.status, tab.draft);
    }
  }

  lemma InspectInShape(tab: Tab, disk: Disk, io: Io)
    requires TabInShape(tab) && CellInShape(disk.cell)
    ensures TabInShape(Inspect(tab, disk, io).0) && KeepsFlight(tab, Inspect(tab, disk, io).0)
    ensures Inspect(tab, disk, io).1.Inspected? ==> tab.draft.Some? && !tab.inFlight && Inspect(tab, disk, io).1.draft == tab.draft.value
  {
    hide DraftFromRecord, Persistable, IsShortText, IsUuid, IsUnderWay;
    if disk.cell.Held? {
      FollowedInShape(disk.cell.record, disk.cell.record.status, tab.draft);
    }
  }

  lemma RaiseStaysReadable(io: Io, mark: MarkCell, values: seq<Shown>)
    requires MarkInShape(mark) && forall i :: 0 <= i < |values| ==> IsUuid(values[i].0)
    ensures MarkInShape(RaiseMark(io, mark, values).0) && (RaiseMark(io, mark, values).0.BadMark? <==> mark.BadMark?)
  {
    hide Lower, Merge, IsUuid, ReadableMark, MergedFrom, AllFit;
    var known: map<string, nat> := if mark.Marked? then mark.lines else map[];
    var merged := Merge(known, values);
    MergeRaises(known, values);
    if merged != map[] && AllFit(values) {
      MergedIsReadable(known, values, merged);
    }
  }

  lemma OpenInShape(tab: Tab, disk: Disk, io: Io, userId: string, branchId: string, read: Read)
    requires TabInShape(tab) && CellInShape(disk.cell) && MarkInShape(disk.mark)
    requires IsShortText(userId) && IsShortText(branchId) && IsUuid(read.saleId)
    requires forall i :: 0 <= i < |read.lines| ==> IsUuid(read.lines[i].saleItemId)
    ensures var (tab', disk', _) := Open(tab, disk, io, userId, branchId, read);
            && TabInShape(tab') && KeepsFlight(tab, tab') && disk'.cell == disk.cell
            && MarkInShape(disk'.mark) && (disk'.mark.BadMark? <==> disk.mark.BadMark?)
  {
    hide DraftFromRecord, Persistable, IsShortText, IsUuid, ReadableMark, RaiseMark, OlderThanMark, DraftLinesOf, HasRemaining;
    if disk.cell.Held? {
      FollowedInShape(disk.cell.record, disk.cell.record.status, None);
    }
    RaiseStaysReadable(io, disk.mark, Map(ShownLine, read.lines));
  }

  lemma PrepareInShape(tab: Tab, disk: Disk, io: Io, newKey: Key)
    requires TabInShape(tab) && CellInShape(disk.cell) && IsUuidV4(newKey)
    ensures var (tab', disk', result) := Prepare(tab, disk, io, newKey);
            && TabInShape(tab') && CellInShape(disk'.cell) && disk'.mark == disk.mark
            && tab'.loaded == tab.loaded && tab'.inFlight == tab.inFlight
            && (disk'.cell.Garbage? <==> disk.cell.Garbage?)
            && (result.Ok? ==> IsUnderWay(tab') && IsAbout(tab', result.value.key))
  {
    var decision := Decide(tab, disk, io);
    RefusalInShape(tab, disk, io);
    if !decision.Refuse? {
      var a := AttemptFor(decision, newKey);
      DecidedIsRecordable(tab, disk, io, newKey);
      LaunchInShape(tab, disk, io, a);
    }
    hide Decide, Launch, AttemptFor, IsRecordable, CellInShape, IsUuidV4, TabInShape;
  }

  lemma RefusalInShape(tab: Tab, disk: Disk, io: Io)
    requires TabInShape(tab) && CellInShape(disk.cell)
    ensures var decision := Decide(tab, disk, io);
            if decision.Refuse? then
              TabInShape(decision.tab) && decision.tab.loaded == tab.loaded && decision.tab.inFlight == tab.inFlight
            else
              && tab.draft.Some? && tab.draft.value.recovery.None? && IdsAreWellFormed(tab.draft.value)
              && (disk.cell.Garbage? ==> !io.available)
  {
    hide CanonicalPayloadOf, CanonicalWatermarksOf, FingerprintOf, DraftFromRecord, OlderThanMark, Persistable, IsShortText, IsUuid;
    if disk.cell.Held? {
      FollowedInShape(disk.cell.record, disk.cell.record.status, tab.draft);
    }
  }

  lemma LaunchInShape(tab: Tab, disk: Disk, io: Io, a: Attempt)
    requires TabInShape(tab) && CellInShape(disk.cell) && tab.draft.Some? && tab.draft.value.recovery.None?
    requires IsRecordable(tab.draft.value, a) && a.status.SENDING? && (disk.cell.Garbage? ==> !io.available)
    ensures var (tab', disk', result) := Launch(tab, disk, io, a);
            && TabInShape(tab') && CellInShape(disk'.cell) && disk'.mark == disk.mark
            && tab'.loaded == tab.loaded && tab'.inFlight == tab.inFlight
            && (disk'.cell.Garbage? <==> disk.cell.Garbage?)
            && (result.Ok? ==> IsUnderWay(tab') && IsAbout(tab', result.value.key))
  {
    hide Persistable, IsShortText, IsUuid;
  }

  // ---- settling ------------------------------------------------------------------------------------------------

  /** The confirmation names no exchange the strict reader would accept, or comes at no time it would accept. */
  predicate IsMalformed(outcome: Outcome, now: int) {
    outcome.Confirmed? && !(IsUuid(outcome.exchangeId) && 0 < now <= MAX_SAFE_INTEGER)
  }

  /** The slot holds nothing, or the open record of this key. */
  predicate IsOwn(cell: Cell, key: Key) {
    cell.Absent? || (cell.Held? && cell.record.key == key && !cell.record.status.CONFIRMED?)
  }

  /** An answer is written down: storage works and the slot is still that of its key. */
  predicate WritesOutcome(disk: Disk, io: Io, key: Key) {
    io.available && io.readCell && io.writeCell && IsOwn(disk.cell, key)
  }

  lemma OutcomeIsRecordable(d: Draft, outcome: Outcome, now: int)
    requires d.attempt.Some? && IsRecordable(d, d.attempt.value) && !outcome.Rejected?
    ensures var next := NextDraft(d, outcome, now);
            Persistable(RecordOf(d, next.attempt.value, next.attempt.value.status)) <==> !IsMalformed(outcome, now)
  {
    hide IsUuid, IsUuidV4, WellFormedPayload, WellFormedWatermarks, FingerprintOf, IsShortText;
  }

  lemma MarksAreUuids(d: Draft, a: Attempt)
    requires IsRecordable(d, a)
    ensures var values := Map(AfterOf, a.watermarks); forall i :: 0 <= i < |values| ==> IsUuid(values[i].0)
  {
    hide IsUuid, IsUuidV4, FingerprintOf, IsShortText, Lower, StrictlyAscending;
    forall i | 0 <= i < |a.watermarks| ensures IsUuid(a.watermarks[i].saleItemId) {
      assert ValidCanonicalLine(a.payload.lines[i]);
    }
  }

  lemma SettledRecordInShape(tab: Tab, disk: Disk, io: Io, outcome: Outcome, now: int)
    requires TabInShape(tab) && IsUnderWay(tab) && CellInShape(disk.cell)
    ensures var (tab', disk') := SettleRecord(tab, disk, io, outcome, now);
            && TabInShape(tab') && CellInShape(disk'.cell) && tab'.loaded == tab.loaded && tab'.inFlight == tab.inFlight
            && disk'.mark == disk.mark
            && (io.available && io.writeCell && !outcome.Rejected? ==> (disk'.cell.Garbage? <==> IsMalformed(outcome, now)))
            && (!io.available || (!outcome.Rejected? && !io.writeCell) ==> disk'.cell == disk.cell)
            && (outcome.Rejected? ==> disk'.cell == disk.cell || disk'.cell.Absent?)
  {
    if !outcome.Rejected? {
      OutcomeIsRecordable(tab.draft.value, outcome, now);
    }
    hide Persistable, IsShortText, IsUuid, IsMalformed, IsRecordable;
  }

  /** The mark as a settled confirmation leaves it. */
  function SettledMark(tab: Tab, disk: Disk, io: Io, outcome: Outcome): MarkCell
    requires tab.draft.Some? && tab.draft.value.attempt.Some?
  {
    if outcome.Confirmed? then RaiseMark(io, disk.mark, Map(AfterOf, tab.draft.value.attempt.value.watermarks)).0 else disk.mark
  }

  lemma SettledMarkInShape(tab: Tab, disk: Disk, io: Io, outcome: Outcome)
    requires IsUnderWay(tab) && MarkInShape(disk.mark)
    ensures MarkInShape(SettledMark(tab, disk, io, outcome)) && (SettledMark(tab, disk, io, outcome).BadMark? <==> disk.mark.BadMark?)
  {
    hide RaiseMark, MarkInShape, IsRecordable, IsUuid;
    var a := tab.draft.value.attempt.value;
    MarksAreUuids(tab.draft.value, a);
    RaiseStaysReadable(io, disk.mark, Map(AfterOf, a.watermarks));
  }

  lemma FollowingInShape(tab: Tab, disk: Disk, io: Io, key: Key, outcome: Outcome, now: int)
    requires TabInShape(tab) && IsAbout(tab, key) && CellInShape(disk.cell)
    requires io.available && !(io.readCell && IsOwn(disk.cell, key))
    ensures var (tab', disk') := Settle(tab, disk, io, key, outcome, now);
            && TabInShape(tab') && tab'.loaded == tab.loaded && tab'.inFlight == tab.inFlight
            && disk' == disk.(mark := SettledMark(tab, disk, io, outcome))
  {
    hide SettleRecord, RaiseMark, DraftFromRecord, Persistable, IsShortText, IsUuid;
    if disk.cell.Held? {
      FollowedInShape(disk.cell.record, disk.cell.record.status, tab.draft);
    }
  }

  lemma OwnIsSettled(tab: Tab, disk: Disk, io: Io, key: Key, outcome: Outcome, now: int)
    requires IsAbout(tab, key) && (io.available ==> io.readCell && IsOwn(disk.cell, key))
    ensures Settle(tab, disk, io, key, outcome, now) == SettleRecord(tab, disk.(mark := SettledMark(tab, disk, io, outcome)), io, outcome, now)
  {
    hide SettleRecord, RaiseMark, DraftFromRecord;
  }

  lemma SettleInShape(tab: Tab, disk: Disk, io: Io, key: Key, outcome: Outcome, now: int)
    requires TabInShape(tab) && IsUnderWay(tab) && IsAbout(tab, key) && CellInShape(disk.cell) && MarkInShape(disk.mark)
    ensures var (tab', disk') := Settle(tab, disk, io, key, outcome, now);
            && TabInShape(tab') && CellInShape(disk'.cell) && MarkInShape(disk'.mark)
            && tab'.loaded == tab.loaded && tab'.inFlight == tab.inFlight
            && (disk'.mark.BadMark? <==> disk.mark.BadMark?)
            && (disk'.cell.Garbage? <==> disk.cell.Garbage? || (IsMalformed(outcome, now) && WritesOutcome(disk, io, key)))
  {
    hide Settle, SettleRecord, TabInShape, CellInShape, MarkInShape, IsUnderWay, SettledMark, IsMalformed;
    SettledMarkInShape(tab, disk, io, outcome);
    var raised := disk.(mark := SettledMark(tab, disk, io, outcome));
    if io.available && !(io.readCell && IsOwn(disk.cell, key)) {
      FollowingInShape(tab, disk, io, key, outcome, now);
    } else {
      OwnIsSettled(tab, disk, io, key, outcome, now);
      SettledRecordInShape(tab, raised, io, outcome, now);
      MalformedConfirms(outcome, now);
    }
  }

  lemma MalformedConfirms(outcome: Outcome, now: int)
    ensures IsMalformed(outcome, now) ==> outcome.Confirmed?
  {
  }

  lemma UnlockedInShape(tab: Tab, key: Key, outcome: Outcome, now: int)
    requires TabInShape(tab) && IsUnderWay(tab)
    ensures var tab' := SettleWithoutLock(tab, key, outcome, now);
            TabInShape(tab') && tab'.loaded == tab.loaded && tab'.inFlight == tab.inFlight
  {
    hide IsRecordable, IsShortText, IsUuid;
  }

  // ---- reconciling ---------------------------------------------------------------------------------------------

  lemma FinishRaisedInShape(tab: Tab, disk: Disk, io: Io, basis: Basis, d: Draft, read: Read, userId: string, branchId: string)
    requires TabInShape(tab) && !tab.inFlight && tab.draft == Some(d) && CellInShape(disk.cell)
    requires IsShortText(userId) && IsShortText(branchId)
    requires disk.cell.Garbage? ==> !io.available
    ensures var (tab', disk', _) := FinishRaised(tab, disk, io, basis, d, read, userId, branchId);
            && TabInShape(tab') && KeepsFlight(tab, tab') && CellInShape(disk'.cell) && disk'.mark == disk.mark
            && (disk'.cell.Garbage? <==> disk.cell.Garbage?)
  {
    hide Persistable, IsShortText, IsUuid, DraftLinesOf, HasRemaining, IsUnderWay;
  }

  lemma InspectedIsReadable(tab: Tab, disk: Disk, io: Io)
    requires Inspect(tab, disk, io).1.Inspected? && disk.cell.Garbage?
    ensures !io.available
  {
    hide DraftFromRecord;
  }

  lemma FinishInspectedInShape(tab: Tab, disk: Disk, io: Io, basis: Basis, d: Draft, read: Read, userId: string, branchId: string)
    requires TabInShape(tab) && !tab.inFlight && tab.draft == Some(d) && CellInShape(disk.cell) && MarkInShape(disk.mark)
    requires IsShortText(userId) && IsShortText(branchId)
    requires forall i :: 0 <= i < |read.lines| ==> IsUuid(read.lines[i].saleItemId)
    requires disk.cell.Garbage? ==> !io.available
    ensures var (tab', disk', _) := FinishInspected(tab, disk, io, basis, d, read, userId, branchId);
            && TabInShape(tab') && KeepsFlight(tab, tab') && CellInShape(disk'.cell) && MarkInShape(disk'.mark)
            && (disk'.mark.BadMark? <==> disk.mark.BadMark?) && (disk'.cell.Garbage? <==> disk.cell.Garbage?)
  {
    hide RaiseMark, OlderThanMark, IsShortText, IsUuid, MarkInShape, CellInShape, FinishRaised, IsUnderWay, Map;
    var shown := Map(ShownLine, read.lines);
    RaiseStaysReadable(io, disk.mark, shown) by {
      ShownItems(read);
    }
    FinishRaisedInShape(tab, disk.(mark := RaiseMark(io, disk.mark, shown).0), io, basis, d, read, userId, branchId);
  }

  lemma ShownItems(read: Read)
    requires forall i :: 0 <= i < |read.lines| ==> IsUuid(read.lines[i].saleItemId)
    ensures var shown := Map(ShownLine, read.lines); forall i :: 0 <= i < |shown| ==> IsUuid(shown[i].0)
  {
    hide IsUuid;
  }

  lemma FinishInShape(tab: Tab, disk: Disk, io: Io, first: Basis, read: Read, userId: string, branchId: string)
    requires TabInShape(tab) && CellInShape(disk.cell) && MarkInShape(disk.mark) && IsShortText(userId) && IsShortText(branchId)
    requires forall i :: 0 <= i < |read.lines| ==> IsUuid(read.lines[i].saleItemId)
    ensures var (tab', disk', _) := Finish(tab, disk, io, first, read, userId, branchId);
            && TabInShape(tab') && KeepsFlight(tab, tab') && CellInShape(disk'.cell) && MarkInShape(disk'.mark)
            && (disk'.mark.BadMark? <==> disk.mark.BadMark?) && (disk'.cell.Garbage? <==> disk.cell.Garbage?)
  {
    hide Inspect, FinishInspected, TabInShape, CellInShape, MarkInShape, IsShortText, IsUuid, KeepsFlight, SameBasis;
    var inspection := Inspect(tab, disk, io).1;
    InspectInShape(tab, disk, io);
    if inspection.Inspected? && SameBasis(first, inspection.basis) {
      if disk.cell.Garbage? {
        InspectedIsReadable(tab, disk, io);
      }
      FinishInspectedInShape(tab, disk, io, inspection.basis, inspection.draft, read, userId, branchId);
    }
  }

  // ---- steps ---------------------------------------------------------------------------------------------------

  /** An answer that names a malformed exchange, or comes at a malformed time, is written over its own record. */
  predicate SpoilsItsRecord(w: World, s: Step)
    requires Enabled(w, s)
  {
    && s.SettleAnswer? && IsMalformed(w.seats[s.t].phase.outcome, s.now)
    && WritesOutcome(w.disk, s.io, w.seats[s.t].phase.key)
  }

  /** What a step does to the readability of the two durable cells. */
  predicate KeepsReadability(w: World, s: Step)
    requires Enabled(w, s)
  {
    var after := Apply(w, s).disk;
    && (after.cell.Garbage? <==> w.disk.cell.Garbage? || s.CorruptAttempt? || SpoilsItsRecord(w, s))
    && (after.mark.BadMark? <==> w.disk.mark.BadMark? || s.CorruptMark?)
  }

  lemma SeatStaysInShape(w: World, t: TabId, seat: Seat)
    requires InShape(w) && SeatInShape(seat)
    ensures InShape(w.(seats := w.seats[t := seat]))
  {
    hide SeatInShape, IsShortText, IsUuid, CellInShape, MarkInShape;
  }

  lemma ReadItemsAreUuids(raw: Json)
    requires ParseRead(raw).Some?
    ensures IsUuid(ParseRead(raw).value.saleId)
    ensures forall i :: 0 <= i < |ParseRead(raw).value.lines| ==> IsUuid(ParseRead(raw).value.lines[i].saleItemId)
  {
    var lines := ParseRead(raw).value.lines;
    ParsedItemsAreDistinct(raw);
    forall i | 0 <= i < |lines| ensures IsUuid(lines[i].saleItemId) {
      assert Map(ShownLine, lines)[i] == (lines[i].saleItemId, lines[i].exchanged);
    }
  }

  predicate OnlySeatsChange(s: Step) {
    || s.Start? || s.LoadTab? || s.EditDraft? || s.ResetDraft? || s.DropEditables? || s.Send? || s.LockDenied? || s.Answer?
    || s.SettleUnlocked? || s.EndSend? || s.LookForRefresh? || s.DeliverEvent?
  }

  lemma EditingStepInShape(w: World, s: Step)
    requires InShape(w) && Enabled(w, s) && (s.LoadTab? || s.EditDraft? || s.ResetDraft? || s.DropEditables? || s.LookForRefresh? || s.DeliverEvent?)
    ensures s.t in w.seats && SeatInShape(Apply(w, s).seats[s.t])
  {
    hide Load, Edit, Inspect, StorageEvent, DraftInShape, IsRecordable, CellInShape, MarkInShape, IsShortText, IsUuid, KeepsFlight, PhaseInShape;
    var seat := w.seats[s.t];
    var next := Apply(w, s).seats[s.t];
    assert SeatInShape(seat);
    if s.LoadTab? {
      LoadInShape(seat.tab, w.disk, s.io, w.userId, w.saleId);
    } else if s.EditDraft? {
      EditInShape(seat.tab, s.change);
    } else if s.LookForRefresh? {
      InspectInShape(seat.tab, w.disk, s.io);
    } else if s.DeliverEvent? {
      EventInShape(seat.tab, w.disk, s.io, w.userId, w.saleId);
    } else {
      DroppedKeepsFlight(seat.tab);
    }
    FlightKeepsPhase(seat.tab, next.tab, seat.phase);
  }

  lemma DroppedKeepsFlight(tab: Tab)
    ensures KeepsFlight(tab, Reset(tab).0) && KeepsFlight(tab, DropEditable(tab))
  {
    hide IsRecordable;
  }

  lemma SendingStepInShape(w: World, s: Step)
    requires InShape(w) && Enabled(w, s) && (s.Send? || s.LockDenied? || s.Answer? || s.SettleUnlocked? || s.EndSend?)
    ensures s.t in w.seats && SeatInShape(Apply(w, s).seats[s.t])
  {
    hide IsRecordable, CellInShape, MarkInShape, DraftInShape, IsShortText, IsUuid, Classify, NextDraft, SettleWithoutLock;
    var seat := w.seats[s.t];
    assert SeatInShape(seat);
    if s.SettleUnlocked? {
      UnlockedInShape(seat.tab, seat.phase.key, seat.phase.outcome, s.now);
    }
  }

  lemma MemoryStepTouchesOneSeat(w: World, s: Step)
    requires Enabled(w, s) && OnlySeatsChange(s)
    ensures s.t in Apply(w, s).seats && Apply(w, s) == w.(seats := w.seats[s.t := Apply(w, s).seats[s.t]])
  {
    hide Load, Edit, Inspect, StorageEvent, Reset, DropEditable, BeginSend, SettleWithoutLock, Classify;
  }

  lemma MemorySeatInShape(w: World, s: Step)
    requires InShape(w) && Enabled(w, s) && OnlySeatsChange(s)
    ensures s.t in Apply(w, s).seats && SeatInShape(Apply(w, s).seats[s.t])
  {
    MemoryStepTouchesOneSeat(w, s);
    if s.Send? || s.LockDenied? || s.Answer? || s.SettleUnlocked? || s.EndSend? {
      SendingStepInShape(w, s);
      hide Apply;
    } else if !s.Start? {
      EditingStepInShape(w, s);
      hide Apply;
    }
    hide Enabled, InShape;
  }

  lemma MemoryStepKeepsShape(w: World, s: Step)
    requires InShape(w) && Enabled(w, s) && OnlySeatsChange(s)
    ensures InShape(Apply(w, s)) && KeepsReadability(w, s)
  {
    hide Apply, Enabled, SeatInShape, InShape, IsMalformed, WritesOutcome;
    MemoryStepTouchesOneSeat(w, s);
    MemorySeatInShape(w, s);
    SeatStaysInShape(w, s.t, Apply(w, s).seats[s.t]);
  }

  lemma SeatFollows(a: Seat, b: Seat)
    requires SeatInShape(a) && TabInShape(b.tab) && KeepsFlight(a.tab, b.tab) && b.phase == a.phase
    ensures SeatInShape(b)
  {
    hide TabInShape, PhaseInShape, KeepsFlight;
    FlightKeepsPhase(a.tab, b.tab, a.phase);
  }

  lemma SeatParts(w: World, t: TabId)
    requires InShape(w) && t in w.seats
    ensures SeatInShape(w.seats[t]) && TabInShape(w.seats[t].tab) && PhaseInShape(w.seats[t].tab, w.seats[t].phase)
    ensures IsShortText(w.userId) && IsUuid(w.saleId) && CellInShape(w.disk.cell) && MarkInShape(w.disk.mark)
  {
    hide TabInShape, PhaseInShape, CellInShape, MarkInShape, IsShortText, IsUuid;
  }

  /** A section leaves the world in shape when it leaves its seat and the two cells in shape. */
  lemma SectionKeepsShape(w: World, v: World, t: TabId, seat: Seat)
    requires InShape(w) && SeatInShape(seat) && CellInShape(v.disk.cell) && MarkInShape(v.disk.mark)
    requires v.userId == w.userId && v.saleId == w.saleId && v.seats == w.seats[t := seat]
    ensures InShape(v)
  {
    hide SeatInShape, IsShortText, IsUuid, CellInShape, MarkInShape;
  }

  lemma OpenStepKeepsShape(w: World, s: Step)
    requires InShape(w) && Enabled(w, s) && IdsOf(s) && s.OpenDraft?
    ensures InShape(Apply(w, s)) && KeepsReadability(w, s)
  {
    hide ParseRead, Truthful, Open, SeatInShape, InShape, CellInShape, MarkInShape, IsShortText, IsUuid, TabInShape, PhaseInShape, KeepsFlight;
    var seat := w.seats[s.t];
    var read := ParseRead(s.raw).value;
    ReadItemsAreUuids(s.raw);
    SeatParts(w, s.t);
    OpenInShape(seat.tab, w.disk, s.io, w.userId, s.branchId, read);
    var next := seat.(tab := Open(seat.tab, w.disk, s.io, w.userId, s.branchId, read).0);
    SeatFollows(seat, next);
    SectionKeepsShape(w, Apply(w, s), s.t, next);
  }

  lemma FinishStepKeepsShape(w: World, s: Step)
    requires InShape(w) && Enabled(w, s) && IdsOf(s) && s.FinishRefresh?
    ensures InShape(Apply(w, s)) && KeepsReadability(w, s)
  {
    hide ParseRead, Truthful, Finish, SeatInShape, InShape, CellInShape, MarkInShape, IsShortText, IsUuid, TabInShape, PhaseInShape, KeepsFlight, VerdictFor;
    var seat := w.seats[s.t];
    VerdictCovers(s.look, ParseRead(s.raw), w.saleId, s.branchId, s.saleNumber);
    var read := ParseRead(s.raw).value;
    ReadItemsAreUuids(s.raw);
    SeatParts(w, s.t);
    FinishInShape(seat.tab, w.disk, s.io, s.look.basis, read, w.userId, s.branchId);
    var next := seat.(tab := Finish(seat.tab, w.disk, s.io, s.look.basis, read, w.userId, s.branchId).0);
    SeatFollows(seat, next);
    SectionKeepsShape(w, Apply(w, s), s.t, next);
  }

  lemma PrepareStepKeepsShape(w: World, s: Step)
    requires InShape(w) && Enabled(w, s) && IdsOf(s) && s.PrepareSend?
    ensures InShape(Apply(w, s)) && KeepsReadability(w, s)
  {
    hide Prepare, MintedBy, SeatInShape, InShape, CellInShape, MarkInShape, IsShortText, IsUuid, IsUuidV4, TabInShape, IsUnderWay;
    var seat := w.seats[s.t];
    SeatParts(w, s.t);
    PrepareInShape(seat.tab, w.disk, s.io, s.newKey);
    var next := Apply(w, s).seats[s.t];
    SeatOf(next);
    SectionKeepsShape(w, Apply(w, s), s.t, next);
  }

  lemma SeatOf(s: Seat)
    requires TabInShape(s.tab) && PhaseInShape(s.tab, s.phase)
    ensures SeatInShape(s)
  {
    hide TabInShape, PhaseInShape;
  }

  lemma SettleStepKeepsShape(w: World, s: Step)
    requires InShape(w) && Enabled(w, s) && s.SettleAnswer?
    ensures InShape(Apply(w, s)) && KeepsReadability(w, s)
  {
    hide Settle, SeatInShape, InShape, CellInShape, MarkInShape, IsShortText, IsUuid, TabInShape, IsUnderWay, IsMalformed, WritesOutcome;
    var seat := w.seats[s.t];
    SeatParts(w, s.t);
    SettleInShape(seat.tab, w.disk, s.io, seat.phase.key, seat.phase.outcome, s.now);
    var next := Apply(w, s).seats[s.t];
    SeatOf(next);
    SectionKeepsShape(w, Apply(w, s), s.t, next);
  }

  lemma WorldStepKeepsShape(w: World, s: Step)
    requires InShape(w) && Enabled(w, s) && (s.Commit? || s.RefuseKey? || s.OthersExchange? || s.CorruptAttempt? || s.CorruptMark?)
    ensures InShape(Apply(w, s)) && KeepsReadability(w, s)
  {
    hide SeatInShape, IsShortText, IsUuid, Persistable, ReadableMark, Credit, IsMalformed, WritesOutcome;
  }

  /** With well-formed ids, a step makes the slot unreadable exactly when it corrupts it from outside, or writes down a confirmation
      whose exchange id is no UUID or whose time is no positive safe integer; the mark only when it is corrupted from outside. */
  lemma StepKeepsShape(w: World, s: Step)
    requires InShape(w) && Enabled(w, s) && IdsOf(s)
    ensures InShape(Apply(w, s)) && KeepsReadability(w, s)
  {
    hide InShape, KeepsReadability, Enabled, Apply;
    match s {
      case OpenDraft(_, _, _, _, _) => OpenStepKeepsShape(w, s);
      case PrepareSend(_, _, _) => PrepareStepKeepsShape(w, s);
      case SettleAnswer(_, _, _) => SettleStepKeepsShape(w, s);
      case FinishRefresh(_, _, _, _, _, _) => FinishStepKeepsShape(w, s);
      case Commit(_) => WorldStepKeepsShape(w, s);
      case RefuseKey(_) => WorldStepKeepsShape(w, s);
      case OthersExchange(_, _) => WorldStepKeepsShape(w, s);
      case CorruptAttempt => WorldStepKeepsShape(w, s);
      case CorruptMark => WorldStepKeepsShape(w, s);
      case _ => MemoryStepKeepsShape(w, s);
    }
  }

  // ---- runs ----------------------------------------------------------------------------------------------------

  predicate IdsOfAll(steps: seq<Step>) {
    forall i :: 0 <= i < |steps| ==> IdsOf(steps[i])
  }

  /** Somewhere along the run the attempt is corrupted from outside, or a malformed confirmation is written down. */
  predicate LosesSlot(w: World, steps: seq<Step>)
    decreases |steps|
  {
    && |steps| > 0 && Enabled(w, steps[0])
    && (steps[0].CorruptAttempt? || SpoilsItsRecord(w, steps[0]) || LosesSlot(Apply(w, steps[0]), steps[1..]))
  }

  predicate LosesMark(steps: seq<Step>) {
    CorruptMark in steps
  }

  lemma {:induction false} RunKeepsShape(w: World, steps: seq<Step>, v: World)
    requires InShape(w) && Runs(w, steps, v) && IdsOfAll(steps)
    ensures InShape(v)
    ensures v.disk.cell.Garbage? <==> w.disk.cell.Garbage? || LosesSlot(w, steps)
    ensures v.disk.mark.BadMark? <==> w.disk.mark.BadMark? || LosesMark(steps)
    decreases |steps|
  {
    hide InShape, Enabled, Apply, IdsOf, SpoilsItsRecord;
    if |steps| > 0 {
      assert steps == [steps[0]] + steps[1..];
      StepKeepsShape(w, steps[0]);
      RunKeepsShape(Apply(w, steps[0]), steps[1..], v);
    }
  }

  /** From an empty start, with well-formed ids, what a run leaves in the slot reads back, unless it corrupted the slot or wrote
      a malformed confirmation into it; and exactly then not. The mark reads back unless the run corrupted it. */
  lemma WhatIsWrittenIsReadable(userId: string, saleId: string, exchanged: map<string, nat>, steps: seq<Step>, v: World)
    requires IsShortText(userId) && IsUuid(saleId) && IdsOfAll(steps)
    requires Runs(Initial(userId, saleId, exchanged), steps, v)
    ensures InShape(v)
    ensures v.disk.cell.Garbage? <==> LosesSlot(Initial(userId, saleId, exchanged), steps)
    ensures v.disk.mark.BadMark? <==> LosesMark(steps)
  {
    hide Runs, LosesSlot, LosesMark, IdsOfAll, IsShortText, IsUuid;
    RunKeepsShape(Initial(userId, saleId, exchanged), steps, v);
  }

  /** In such a run nothing hides behind an unreadable cell: each minted key that no tab saw refused is the readable record of the
      slot, or was committed and is covered by a readable mark. */
  lemma EvidenceIsReadable(userId: string, saleId: string, exchanged: map<string, nat>, steps: seq<Step>, v: World, m: Minted)
    requires IsShortText(userId) && IsUuid(saleId) && IdsOfAll(steps)
    requires Runs(Initial(userId, saleId, exchanged), steps, v)
    requires !LosesSlot(Initial(userId, saleId, exchanged), steps) && !LosesMark(steps)
    requires m in v.ledger.log && m.key !in v.dismissed
    ensures (v.disk.cell.Held? && v.disk.cell.record.key == m.key && ParsePersisted(RecordToJson(v.disk.cell.record)) == Some(v.disk.cell.record))
            || (m.key in v.ledger.committed && v.disk.mark.Marked?
                && forall x :: x in m.watermarks ==> x.saleItemId in v.disk.mark.lines && v.disk.mark.lines[x.saleItemId] >= x.after)
  {
    WhatIsWrittenIsReadable(userId, saleId, exchanged, steps, v);
    EvidenceIsNeverLost(v, m);
    if v.disk.cell.Held? {
      StrictReaderIsExact(RecordToJson(v.disk.cell.record), v.disk.cell.record);
    }
    hide Runs, LosesSlot, LosesMark, IdsOfAll, IsShortText, IsUuid, Persistable, RecordToJson, ParsePersisted;
  }

  /** In a world in shape, a queued send that is not refused goes out exactly when storage writes its record and reads it again. */
  lemma SendGoesOutIffStored(w: World, s: Step)
    requires InShape(w) && Enabled(w, s) && IdsOf(s) && s.PrepareSend?
    requires !Decide(w.seats[s.t].tab, w.disk, s.io).Refuse?
    ensures var a := AttemptFor(Decide(w.seats[s.t].tab, w.disk, s.io), s.newKey);
            && (Apply(w, s).seats[s.t].phase == Posting(a.key) <==> s.io.available && s.io.writeCell && s.io.rereadCell)
            && (Apply(w, s).seats[s.t].phase.Posting? ==> Post(a.key, a.payload) in Apply(w, s).posts)
  {
    hide Decide, AttemptFor, Launch, InShape, TabInShape, CellInShape, MarkInShape, IsUuidV4, IdsAreWellFormed, IsRecordable, PhaseInShape;
    var tab := w.seats[s.t].tab;
    SeatParts(w, s.t);
    RefusalInShape(tab, w.disk, s.io);
    PrepareSucceedsIffStored(tab, w.disk, s.io, s.newKey);
  }
}
