/** The atomic sections of the exchange draft store, as functions on one (user, sale) slot: the memory of one tab and the
    two durable cells all tabs share. Whatever the browser decides (a read or a write that throws) is an argument. */
module ExchangeSlot {
  import opened Wrappers
  import opened ExchangeTypes
  import opened Texts
  import opened ExchangeCanonical
  import opened ExchangeRecord
  import opened Fingerprint
  import opened FreshRead
  import opened Sequences
  import opened Decimal
  import opened Json

  /** The durable attempt: nothing, a record the strict reader accepts, or something it does not. */
  datatype Cell = Absent | Held(record: Record) | Garbage

  /** The durable high-water mark, by lower-case item id. */
  datatype MarkCell = NoMark | Marked(lines: map<string, nat>) | BadMark

  datatype Disk = Disk(cell: Cell, mark: MarkCell)

  /** The memory of one tab about the slot. */
  datatype Tab = Tab(loaded: bool, draft: Option<Draft>, inFlight: bool, owned: set<Key>)

  /** Which storage calls of one section succeed. available is false in a tab that has no storage at all. */
  datatype Io = Io(
    available: bool, enumerate: bool, readCell: bool, writeCell: bool, rereadCell: bool, removeCell: bool,
    readMark: bool, raiseRead: bool, raiseWrite: bool)

  datatype StoreError =
    | NOT_FOUND | INCOMPLETE | BASELINE_MISSING | FINGERPRINT_MISMATCH | RECOVERY_REQUIRED | CONFIRMED_REQUIRES_REFRESH
    | RESOLVED_ELSEWHERE | STALE_EXCHANGE_BASELINE | PENDING_ELSEWHERE | PERSIST_FAILED | FROZEN | UNKNOWN_LINE | ALREADY_SENDING

  // ---- the durable cells ---------------------------------------------------------------------------------------

  datatype Durable = Nothing | Found(record: Record) | Unusable(reason: Recovery)

  function ReadCell(io: Io, ok: bool, cell: Cell): Durable {
    if !io.available then Nothing
    else if !ok then Unusable(StorageError)
    else match cell
      case Absent => Nothing
      case Held(r) => Found(r)
      case Garbage => Unusable(Unreadable)
  }

  /** What the cell holds once a record was written: itself, or something the strict reader refuses. */
  function CellOf(r: Record): Cell {
    if Persistable(r) then Held(r) else Garbage
  }

  function RecordOf(d: Draft, a: Attempt, status: Status): Record {
    Record(d.userId, d.branchId, d.saleId, a.payload, a.watermarks, a.fingerprint, a.key, status,
           if status.CONFIRMED? then a.exchangeId else None, if status.CONFIRMED? then a.confirmedAt else None)
  }

  /** The attempt, filed under the ids of the draft, makes a record the strict reader accepts. */
  predicate IsRecordable(d: Draft, a: Attempt) {
    Persistable(RecordOf(d, a, SENDING))
  }

  datatype MarkRead = NoLines | Lines(lines: map<string, nat>) | MarkUnusable(reason: Recovery)

  function ReadMark(io: Io, ok: bool, mark: MarkCell): MarkRead {
    if !io.available then NoLines
    else if !ok then MarkUnusable(StorageError)
    else match mark
      case NoMark => NoLines
      case Marked(m) => Lines(m)
      case BadMark => MarkUnusable(Unreadable)
  }

  /** What the cell holds once a mark was written. */
  function MarkCellOf(lines: map<string, nat>): MarkCell {
    if ReadableMark(lines) then Marked(lines) else BadMark
  }

  type Shown = (string, nat)

  function MergeOne(m: map<string, nat>, v: Shown): map<string, nat> {
    var item := Lower(v.0);
    if item !in m || v.1 > m[item] then m[item := v.1] else m
  }

  function Merge(m: map<string, nat>, values: seq<Shown>): map<string, nat> {
    if |values| == 0 then m else MergeOne(Merge(m, values[..|values| - 1]), values[|values| - 1])
  }

  predicate AllFit(values: seq<Shown>) {
    forall i :: 0 <= i < |values| ==> IsWatermarkQuantity(values[i].1)
  }

  /** Raises the mark to the larger of itself and each value; true when it now covers every value. */
  function RaiseMark(io: Io, mark: MarkCell, values: seq<Shown>): (MarkCell, bool) {
    var current := ReadMark(io, io.raiseRead, mark);
    if !io.available || current.MarkUnusable? || !AllFit(values) then (mark, false)
    else
      var known: map<string, nat> := if current.Lines? then current.lines else map[];
      var merged := Merge(known, values);
      if merged == map[] then (mark, false)
      else if current.Lines? && merged == known then (mark, true)
      else if io.raiseWrite then (MarkCellOf(merged), true)
      else (mark, false)
  }

  predicate OlderThanMark(read: MarkRead, values: seq<Shown>) {
    read.Lines? && exists i :: 0 <= i < |values| && Lower(values[i].0) in read.lines && values[i].1 < read.lines[Lower(values[i].0)]
  }

  function ShownLine(l: ReadLine): Shown {
    (l.saleItemId, l.exchanged)
  }

  function BeforeOf(w: Watermark): Shown {
    (w.saleItemId, w.before)
  }

  function AfterOf(w: Watermark): Shown {
    (w.saleItemId, w.after)
  }

  // ---- drafts --------------------------------------------------------------------------------------------------

  function AttemptOf(r: Record, status: Status): Attempt {
    Attempt(r.key, r.fingerprint, r.payload, r.watermarks, status, r.exchangeId, r.confirmedAt)
  }

  /** The baseline recorded for an item; a record the strict reader accepts has one for every line. */
  function RecordedBaseline(marks: seq<Watermark>, item: string): (n: nat)
    ensures n == 0 || exists w :: w in marks && w.saleItemId == item && w.before == n
  {
    if |marks| == 0 then 0
    else if marks[|marks| - 1].saleItemId == item then marks[|marks| - 1].before
    else RecordedBaseline(marks[..|marks| - 1], item)
  }

  function LineFromRecord(marks: seq<Watermark>, l: CanonicalLine): DraftLine {
    DraftLine(l.saleItemId, Some(l.replacementVariantId), Show(l.returnQuantity), RecordedBaseline(marks, l.saleItemId))
  }

  function AvailableFromMark(w: Watermark): AvailableLine {
    AvailableLine(w.saleItemId, w.before)
  }

  function DraftFromRecord(r: Record, status: Status, previous: Option<Draft>): Draft {
    Draft(r.userId, r.branchId, r.saleId, r.payload.reason,
          Map((l: CanonicalLine) => LineFromRecord(r.watermarks, l), r.payload.lines),
          if previous.Some? && |previous.value.available| > 0 then previous.value.available else Map(AvailableFromMark, r.watermarks),
          Some(AttemptOf(r, status)),
          if status.CONFIRMED? then Some(ConfirmedTombstone) else None)
  }

  function RecoveryDraft(userId: string, saleId: string, reason: Recovery, previous: Option<Draft>): Draft {
    if previous.Some? then previous.value.(userId := userId, saleId := saleId, recovery := Some(reason))
    else Draft(userId, "", saleId, "", [], [], None, Some(reason))
  }

  function RecoveryCode(reason: Recovery): StoreError {
    match reason
    case ConfirmedTombstone => CONFIRMED_REQUIRES_REFRESH
    case ResolvedElsewhere => RESOLVED_ELSEWHERE
    case StaleBaseline => STALE_EXCHANGE_BASELINE
    case Unreadable => RECOVERY_REQUIRED
    case StorageError => RECOVERY_REQUIRED
  }

  function Put(tab: Tab, d: Draft): Tab {
    tab.(draft := Some(d))
  }

  predicate HasStatus(d: Draft, s: Status) {
    d.attempt.Some? && d.attempt.value.status == s
  }

  // ---- start-up ------------------------------------------------------------------------------------------------

  /** The start-up scan: an unresolved record is adopted as UNCERTAIN, a tombstone blocks, an unreadable one needs recovery. */
  function Load(tab: Tab, disk: Disk, io: Io, userId: string, saleId: string): Tab {
    if tab.loaded then tab
    else
      var started := tab.(loaded := true);
      if !io.available || !io.enumerate || disk.cell.Absent? then started
      else match ReadCell(io, io.readCell, disk.cell)
        case Nothing => started
        case Found(r) =>
          if r.status.CONFIRMED? then Put(started, DraftFromRecord(r, CONFIRMED, None))
          else Put(started.(owned := started.owned + {r.key}), DraftFromRecord(r, UNCERTAIN, None))
        case Unusable(reason) => Put(started, RecoveryDraft(userId, saleId, reason, None))
  }

  // ---- opening a draft from a read -----------------------------------------------------------------------------

  datatype OpenResult = OpenedDraft(draft: Draft) | OpenRefused(failure: Failure) | OpenNotPersisted

  function OpenExisting(d: Draft, nothingLeft: bool): OpenResult {
    if nothingLeft && !HasStatus(d, CONFIRMED) then OpenRefused(NOTHING_LEFT_TO_EXCHANGE) else OpenedDraft(d)
  }

  function NewDraft(userId: string, branchId: string, saleId: string, read: Read): Draft {
    Draft(userId, branchId, saleId, "", DraftLinesOf(read.lines), Map(AvailableLineOf, read.lines), None, None)
  }

  /** The locked part of openDraftFromFreshRead, on a read whose identity was already validated. */
  function Open(tab: Tab, disk: Disk, io: Io, userId: string, branchId: string, read: Read): (Tab, Disk, OpenResult) {
    var nothingLeft := !HasRemaining(read);
    if tab.draft.Some? then (tab, disk, OpenExisting(tab.draft.value, nothingLeft))
    else match ReadCell(io, io.readCell, disk.cell)
      case Found(r) =>
        if nothingLeft && !r.status.CONFIRMED? then (tab, disk, OpenRefused(NOTHING_LEFT_TO_EXCHANGE))
        else
          var d := DraftFromRecord(r, r.status, None);
          (Put(tab, d), disk, OpenedDraft(d))
      case Nothing =>
        if nothingLeft then (tab, disk, OpenRefused(NOTHING_LEFT_TO_EXCHANGE)) else OpenFresh(tab, disk, io, userId, branchId, read)
      case Unusable(reason) =>
        if nothingLeft then (tab, disk, OpenRefused(NOTHING_LEFT_TO_EXCHANGE))
        else
          var d := RecoveryDraft(userId, read.saleId, reason, None).(branchId := branchId);
          (Put(tab, d), disk, OpenedDraft(d))
  }

  function OpenFresh(tab: Tab, disk: Disk, io: Io, userId: string, branchId: string, read: Read): (Tab, Disk, OpenResult) {
    var mark := ReadMark(io, io.readMark, disk.mark);
    if mark.MarkUnusable? then
      var d := RecoveryDraft(userId, read.saleId, mark.reason, None).(branchId := branchId);
      (Put(tab, d), disk, OpenedDraft(d))
    else
      var shown := Map(ShownLine, read.lines);
      if OlderThanMark(mark, shown) then (tab, disk, OpenRefused(READ_STALE))
      else
        var raised := RaiseMark(io, disk.mark, shown);
        if !raised.1 then (tab, disk.(mark := raised.0), OpenNotPersisted)
        else
          var d := NewDraft(userId, branchId, read.saleId, read);
          (Put(tab, d), disk.(mark := raised.0), OpenedDraft(d))
  }

  // ---- editing -------------------------------------------------------------------------------------------------

  datatype Change =
    | SetReason(text: string)
    | AddLine(saleItemId: string)
    | RemoveLine(saleItemId: string)
    | SetLine(saleItemId: string, replacementVariantId: Option<string>, returnQuantity: string)

  function FindAvailable(lines: seq<AvailableLine>, item: string): (r: Option<AvailableLine>)
    ensures r.Some? ==> r.value in lines && Lower(r.value.saleItemId) == Lower(item)
  {
    if |lines| == 0 then None
    else if Lower(lines[0].saleItemId) == Lower(item) then Some(lines[0])
    else FindAvailable(lines[1..], item)
  }

  function WithoutItem(lines: seq<DraftLine>, item: string): (r: seq<DraftLine>)
    ensures forall l :: l in r ==> l in lines
  {
    if |lines| == 0 then []
    else
      var front := WithoutItem(lines[..|lines| - 1], item);
      if lines[|lines| - 1].saleItemId != item then front + [lines[|lines| - 1]] else front
  }

  function SetFields(l: DraftLine, c: Change): DraftLine {
    if c.SetLine? && l.saleItemId == c.saleItemId then l.(replacementVariantId := c.replacementVariantId, returnQuantity := c.returnQuantity) else l
  }

  function ApplyChange(d: Draft, c: Change): Result<Draft, StoreError> {
    match c
    case SetReason(text) => Ok(d.(reason := text))
    case AddLine(item) =>
      var source := FindAvailable(d.available, item);
      if source.None? then Err(UNKNOWN_LINE)
      else if exists l :: l in d.lines && Lower(l.saleItemId) == Lower(source.value.saleItemId) then Ok(d)
      else Ok(d.(lines := d.lines + [DraftLine(source.value.saleItemId, None, "", source.value.before)]))
    case RemoveLine(item) => Ok(d.(lines := WithoutItem(d.lines, item)))
    case SetLine(_, _, _) => Ok(d.(lines := Map((l: DraftLine) => SetFields(l, c), d.lines)))
  }

  predicate IsFrozen(d: Draft) {
    HasStatus(d, SENDING) || HasStatus(d, UNCERTAIN) || HasStatus(d, CONFIRMED)
  }

  /** A rejected attempt is over: editing starts a new intent. */
  function Edit(tab: Tab, c: Change): (Tab, Option<StoreError>) {
    if tab.draft.None? then (tab, Some(NOT_FOUND))
    else
      var d := tab.draft.value;
      if d.recovery.Some? then (tab, Some(RecoveryCode(d.recovery.value)))
      else if IsFrozen(d) then (tab, Some(FROZEN))
      else match ApplyChange(d.(attempt := if HasStatus(d, REJECTED) then None else d.attempt), c)
        case Ok(next) => (Put(tab, next), None)
        case Err(e) => (tab, Some(e))
  }

  function Reset(tab: Tab): (Tab, Option<StoreError>) {
    if tab.draft.None? then (tab, Some(NOT_FOUND))
    else
      var d := tab.draft.value;
      if d.recovery.Some? then (tab, Some(RecoveryCode(d.recovery.value)))
      else if HasStatus(d, SENDING) || HasStatus(d, UNCERTAIN) then (tab, Some(FROZEN))
      else (tab.(draft := None), None)
  }

  predicate IsEditable(d: Draft) {
    !IsFrozen(d) && d.recovery.None?
  }

  /** Logout or session expiry: only what is merely editable goes. */
  function DropEditable(tab: Tab): Tab {
    if tab.draft.Some? && IsEditable(tab.draft.value) then tab.(draft := None) else tab
  }

  // ---- sending -------------------------------------------------------------------------------------------------

  /** The part of send before the lock: an in-flight send is joined, otherwise the in-flight slot is taken. */
  function BeginSend(tab: Tab): (Tab, Option<StoreError>) {
    if tab.draft.None? then (tab, Some(NOT_FOUND))
    else if tab.inFlight then (tab, None)
    else
      var d := tab.draft.value;
      if d.recovery.Some? then (tab, Some(RecoveryCode(d.recovery.value)))
      else if HasStatus(d, SENDING) then (tab, Some(ALREADY_SENDING))
      else (tab.(inFlight := true), None)
  }

  datatype Decision =
    | Refuse(tab: Tab, error: StoreError)
    | Reuse(record: Record)
    | Mint(fingerprint: string, payload: Payload, watermarks: seq<Watermark>)

  function Block(tab: Tab, d: Draft, reason: Recovery): Decision {
    Refuse(Put(tab, d.(recovery := Some(reason))), RecoveryCode(reason))
  }

  /** Decides, from the durable record, whether this tab may send and with which key. */
  function Decide(tab: Tab, disk: Disk, io: Io): Decision {
    if tab.draft.None? then Refuse(tab, NOT_FOUND)
    else
      var current := tab.draft.value;
      if current.recovery.Some? then Refuse(tab, RecoveryCode(current.recovery.value))
      else
        var payload := CanonicalPayloadOf(current.reason, current.lines);
        if payload.None? then Refuse(tab, INCOMPLETE)
        else
          var watermarks := CanonicalWatermarksOf(current.lines, payload.value);
          if watermarks.None? then Refuse(tab, BASELINE_MISSING)
          else
            var fingerprint := FingerprintOf(current.saleId, payload.value, watermarks.value);
            if HasStatus(current, UNCERTAIN) && current.attempt.value.fingerprint != fingerprint then Refuse(tab, FINGERPRINT_MISMATCH)
            else DecideDurable(tab, disk, io, current, fingerprint, payload.value, watermarks.value)
  }

  function DecideDurable(tab: Tab, disk: Disk, io: Io, current: Draft, fingerprint: string, payload: Payload, watermarks: seq<Watermark>): Decision {
    match ReadCell(io, io.readCell, disk.cell)
    case Unusable(reason) => Block(tab, current, reason)
    case Found(r) =>
      if r.status.CONFIRMED? then Refuse(Put(tab, DraftFromRecord(r, CONFIRMED, Some(current))), CONFIRMED_REQUIRES_REFRESH)
      else if r.status.SENDING? && r.key !in tab.owned then Refuse(tab, PENDING_ELSEWHERE)
      else if r.fingerprint != fingerprint then Refuse(tab, FINGERPRINT_MISMATCH)
      else Reuse(r)
    case Nothing =>
      if HasStatus(current, UNCERTAIN) || HasStatus(current, SENDING) then Block(tab, current.(attempt := None), ResolvedElsewhere)
      else
        var mark := ReadMark(io, io.readMark, disk.mark);
        if mark.MarkUnusable? then Block(tab, current, mark.reason)
        else if OlderThanMark(mark, Map(BeforeOf, watermarks)) then Block(tab, current, StaleBaseline)
        else Mint(fingerprint, payload, watermarks)
  }

  function AttemptFor(decision: Decision, newKey: Key): Attempt
    requires !decision.Refuse?
  {
    match decision
    case Reuse(r) => AttemptOf(r, SENDING)
    case Mint(fingerprint, payload, watermarks) => Attempt(newKey, fingerprint, payload, watermarks, SENDING, None, None)
  }

  /** The record must be on disk, and read back, before the request leaves. */
  function Launch(tab: Tab, disk: Disk, io: Io, attempt: Attempt): (Tab, Disk, Result<Attempt, StoreError>)
    requires tab.draft.Some?
  {
    if !io.available || !io.writeCell then (tab, disk, Err(PERSIST_FAILED))
    else
      var written := disk.(cell := CellOf(RecordOf(tab.draft.value, attempt, SENDING)));
      var back := ReadCell(io, io.rereadCell, written.cell);
      if !back.Found? || back.record.key != attempt.key then (tab, written, Err(PENDING_ELSEWHERE))
      else (Put(tab.(owned := tab.owned + {attempt.key}), tab.draft.value.(attempt := Some(attempt))), written, Ok(attempt))
  }

  function Prepare(tab: Tab, disk: Disk, io: Io, newKey: Key): (Tab, Disk, Result<Attempt, StoreError>) {
    var decision := Decide(tab, disk, io);
    if decision.Refuse? then (decision.tab, disk, Err(decision.error))
    else Launch(tab, disk, io, AttemptFor(decision, newKey))
  }

  // ---- settling an answer --------------------------------------------------------------------------------------

  /** What the POST came to: a 2xx body, an error the API coded, or anything else (network, abort). */
  datatype Response = Success(body: Json) | CodedError(status: Option<int>, code: Option<string>) | Lost

  const DEFINITIVE_STATUSES: set<int> := {400, 403, 404, 409, 410, 422}

  /** Only an answer given before anything was written is a rejection; whatever may have committed is uncertain. */
  function Classify(response: Response): Outcome {
    match response
    case Success(body) =>
      if body.Obj? && EXCHANGE_ID in body.fields && body.fields[EXCHANGE_ID].Str? then Confirmed(body.fields[EXCHANGE_ID].text) else Uncertain
    case CodedError(status, code) =>
      if status != Some(401) && status.Some? && status.value in DEFINITIVE_STATUSES && code != Some("CONCURRENCY_ERROR") then Rejected else Uncertain
    case Lost => Uncertain
  }

  function NextDraft(d: Draft, outcome: Outcome, now: int): Draft
    requires d.attempt.Some?
  {
    var a := d.attempt.value;
    match outcome
    case Confirmed(id) => d.(attempt := Some(a.(status := CONFIRMED, exchangeId := Some(id), confirmedAt := Some(now))), recovery := Some(ConfirmedTombstone))
    case Rejected => d.(attempt := Some(a.(status := REJECTED)), recovery := None)
    case Uncertain => d.(attempt := Some(a.(status := UNCERTAIN)), recovery := None)
  }

  predicate IsAbout(tab: Tab, key: Key) {
    tab.draft.Some? && tab.draft.value.attempt.Some? && tab.draft.value.attempt.value.key == key
  }

  /** Under the lock: the record is touched only while it is still the one of the attempt being resolved, or gone. */
  function Settle(tab: Tab, disk: Disk, io: Io, key: Key, outcome: Outcome, now: int): (Tab, Disk) {
    if !IsAbout(tab, key) then (tab, disk)
    else
      var current := tab.draft.value;
      var mark := if outcome.Confirmed? then RaiseMark(io, disk.mark, Map(AfterOf, current.attempt.value.watermarks)).0 else disk.mark;
      var raised := disk.(mark := mark);
      match ReadCell(io, io.readCell, disk.cell)
      case Unusable(reason) => (Put(tab, RecoveryDraft(current.userId, current.saleId, reason, Some(current))), raised)
      case Found(r) =>
        if r.key != key || r.status.CONFIRMED? then (Put(tab, DraftFromRecord(r, r.status, Some(current))), raised)
        else SettleRecord(tab, raised, io, outcome, now)
      case Nothing => SettleRecord(tab, raised, io, outcome, now)
  }

  function SettleRecord(tab: Tab, disk: Disk, io: Io, outcome: Outcome, now: int): (Tab, Disk)
    requires tab.draft.Some? && tab.draft.value.attempt.Some?
  {
    var next := NextDraft(tab.draft.value, outcome, now);
    var status := next.attempt.value.status;
    var cell :=
      if !io.available then disk.cell
      else if outcome.Rejected? then (if io.removeCell then Absent else disk.cell)
      else if io.writeCell then CellOf(RecordOf(tab.draft.value, next.attempt.value, status))
      else disk.cell;
    (Put(tab, next), disk.(cell := cell))
  }

  /** The lock vanished: only this tab is told. */
  function SettleWithoutLock(tab: Tab, key: Key, outcome: Outcome, now: int): Tab {
    if IsAbout(tab, key) then Put(tab, NextDraft(tab.draft.value, outcome, now)) else tab
  }

  // ---- reconciliation after a fresh read -----------------------------------------------------------------------

  /** What the first look under the lock saw, to be compared once the read came back. */
  datatype Basis = Tombstone(record: Record) | NoTombstone(watermarks: Option<seq<Watermark>>)

  datatype Inspection = Inspected(basis: Basis, draft: Draft) | NotBlockedByRefresh | StateChanged | Threw(error: StoreError)

  function Inspect(tab: Tab, disk: Disk, io: Io): (Tab, Inspection) {
    if tab.draft.None? then (tab, Threw(NOT_FOUND))
    else
      var d := tab.draft.value;
      if tab.inFlight then (tab, NotBlockedByRefresh)
      else if d.recovery == Some(Unreadable) || d.recovery == Some(StorageError) then (tab, Threw(RECOVERY_REQUIRED))
      else match ReadCell(io, io.readCell, disk.cell)
        case Unusable(reason) => (Put(tab, RecoveryDraft(d.userId, d.saleId, reason, Some(d))), Threw(RECOVERY_REQUIRED))
        case Found(r) =>
          if r.status.CONFIRMED? then (tab, Inspected(Tombstone(r), d))
          else (Put(tab, DraftFromRecord(r, r.status, Some(d))), if d.recovery.Some? then StateChanged else NotBlockedByRefresh)
        case Nothing =>
          if d.recovery.None? then (tab, NotBlockedByRefresh)
          else if d.recovery == Some(ConfirmedTombstone) then
            (tab, if d.attempt.None? then StateChanged else Inspected(NoTombstone(Some(d.attempt.value.watermarks)), d))
          else (tab, Inspected(NoTombstone(None), d))
  }

  predicate SameBasis(a: Basis, b: Basis) {
    match (a, b)
    case (Tombstone(r), Tombstone(s)) => r.key == s.key && r.confirmedAt == s.confirmedAt
    case (NoTombstone(_), NoTombstone(_)) => true
    case _ => false
  }

  function WatermarksOf(b: Basis): Option<seq<Watermark>> {
    match b
    case Tombstone(r) => Some(r.watermarks)
    case NoTombstone(w) => w
  }

  function KnownBranch(b: Basis, d: Draft): string {
    if b.Tombstone? then b.record.branchId else d.branchId
  }

  /** What the unlocked GET must show before the second look is taken. */
  function VerdictFor(first: Basis, firstDraft: Draft, parsed: Option<Read>, saleId: string, branchId: string, saleNumber: string): Result<Read, Failure> {
    if KnownBranch(first, firstDraft) != "" && KnownBranch(first, firstDraft) != branchId then Err(READ_MISMATCH)
    else
      var w := WatermarksOf(first);
      ValidateFreshRead(parsed, Expectation(Some(saleId), branchId, saleNumber, w),
                        if w.Some? && |w.value| > 0 then RECONCILE_CONFIRMED else OPEN_DRAFT)
  }

  datatype FinishResult = Reopened(draft: Draft) | ClosedEmpty | Stale | NotPersisted | Changed | FinishThrew(error: StoreError)

  /** The second critical section: same basis, read not older than the mark, mark raised, and only then the tombstone goes. */
  function Finish(tab: Tab, disk: Disk, io: Io, first: Basis, read: Read, userId: string, branchId: string): (Tab, Disk, FinishResult) {
    var (seen, inspection) := Inspect(tab, disk, io);
    match inspection
    case Threw(e) => (seen, disk, FinishThrew(e))
    case NotBlockedByRefresh => (seen, disk, Changed)
    case StateChanged => (seen, disk, Changed)
    case Inspected(basis, d) =>
      if !SameBasis(first, basis) then (seen, disk, Changed) else FinishInspected(tab, disk, io, basis, d, read, userId, branchId)
  }

  function FinishInspected(tab: Tab, disk: Disk, io: Io, basis: Basis, d: Draft, read: Read, userId: string, branchId: string): (Tab, Disk, FinishResult) {
    var mark := ReadMark(io, io.readMark, disk.mark);
    var shown := Map(ShownLine, read.lines);
    if mark.MarkUnusable? then (Put(tab, RecoveryDraft(d.userId, d.saleId, mark.reason, Some(d))), disk, FinishThrew(RECOVERY_REQUIRED))
    else if OlderThanMark(mark, shown) then (tab, disk, Stale)
    else
      var raised := RaiseMark(io, disk.mark, shown);
      if !raised.1 then (tab, disk.(mark := raised.0), NotPersisted)
      else FinishRaised(tab, disk.(mark := raised.0), io, basis, d, read, userId, branchId)
  }

  function FinishRaised(tab: Tab, disk: Disk, io: Io, basis: Basis, d: Draft, read: Read, userId: string, branchId: string): (Tab, Disk, FinishResult) {
    var left := if basis.Tombstone? && io.available && io.removeCell then disk.(cell := Absent) else disk;
    if basis.Tombstone? && !ReadCell(io, io.rereadCell, left.cell).Nothing? then (tab, left, Changed)
    else
      var released := tab.(owned := if d.attempt.Some? then tab.owned - {d.attempt.value.key} else tab.owned);
      if !HasRemaining(read) then (released.(draft := None), left, ClosedEmpty)
      else
        var next := NewDraft(userId, branchId, d.saleId, read);
        (Put(released, next), left, Reopened(next))
  }

  // ---- storage events ------------------------------------------------------------------------------------------

  /** Brings the memory of a tab in line with the durable record; the tab that is sending is the writer and ignores it. */
  function StorageEvent(tab: Tab, disk: Disk, io: Io, userId: string, saleId: string): Tab {
    if tab.inFlight then tab
    else match ReadCell(io, io.readCell, disk.cell)
      case Found(r) =>
        if IsAbout(tab, r.key) && tab.draft.value.attempt.value.status == r.status then tab
        else Put(tab, DraftFromRecord(r, r.status, tab.draft))
      case Unusable(reason) => Put(tab, RecoveryDraft(userId, saleId, reason, tab.draft))
      case Nothing =>
        if tab.draft.Some? && (HasStatus(tab.draft.value, SENDING) || HasStatus(tab.draft.value, UNCERTAIN)) then
          Put(tab, tab.draft.value.(attempt := None, recovery := Some(ResolvedElsewhere)))
        else tab
  }
}
