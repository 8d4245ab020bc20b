/** The exchange draft store of one tab over the browser's storage, method by method. Every method is one atomic section; the
    slot it works on changes exactly as ExchangeSlot says, and no other slot changes at all. */
module ExchangeStore {
  import opened Wrappers
  import opened ExchangeTypes
  import opened Texts
  import opened ExchangeCanonical
  import opened ExchangeRecord
  import opened ExchangeSlot
  import opened FreshRead
  import opened Fingerprint
  import opened Json
  import opened Sequences

  /** Where a user's attempt on a sale is filed, in the drafts of a tab and in storage. */
  datatype Slot = Slot(userId: string, saleId: string)

  function SlotOf(userId: string, saleId: string): Slot {
    Slot(userId, Lower(saleId))
  }

  /** A stored text: a JSON value, or text that does not parse. */
  datatype Stored = Tree(json: Json) | Unparseable

  function At<T>(m: map<Slot, T>, s: Slot): Option<T> {
    if s in m then Some(m[s]) else None
  }

  /** A record filed under this key must be exactly about this user and this sale. */
  function AttemptCell(userId: string, saleId: string, stored: Option<Stored>): Cell {
    match stored
    case None => Absent
    case Some(Unparseable) => Garbage
    case Some(Tree(json)) =>
      var record := ParsePersisted(json);
      if record.None? || record.value.userId != userId || Lower(record.value.saleId) != Lower(saleId) then Garbage else Held(record.value)
  }

  function StoredMark(userId: string, saleId: string, stored: Option<Stored>): MarkCell {
    match stored
    case None => NoMark
    case Some(Unparseable) => BadMark
    case Some(Tree(json)) =>
      var lines := ParseMark(json, userId, saleId);
      if lines.None? then BadMark else Marked(lines.value)
  }

  lemma WrittenAttemptCell(r: Record)
    requires Writable(r)
    ensures AttemptCell(r.userId, r.saleId, Some(Tree(RecordToJson(r)))) == CellOf(r)
  {
    ReadBack(r);
    hide RecordToJson, ParsePersisted, Persistable, Lower;
  }

  lemma WrittenMarkCell(userId: string, saleId: string, lines: map<string, nat>)
    requires lines != map[]
    ensures StoredMark(userId, saleId, Some(Tree(MarkToJson(userId, saleId, lines)))) == MarkCellOf(lines)
  {
    MarkReadBack(userId, saleId, lines);
    hide MarkToJson, ParseMark, ReadableMark;
  }

  class LocalStorage {
    var attempts: map<Slot, Stored>
    var marks: map<Slot, Stored>

    constructor ()
      ensures attempts == map[] && marks == map[]
    {
      attempts, marks := map[], map[];
    }

    /** setItem on an attempt key; ok is false when it throws. */
    method SetAttempt(s: Slot, value: Stored, ok: bool) returns (done: bool)
      modifies this`attempts
      ensures done == ok
      ensures attempts == if ok then old(attempts)[s := value] else old(attempts)
    {
      if ok {
        attempts := attempts[s := value];
      }
      done := ok;
    }

    method RemoveAttempt(s: Slot, ok: bool)
      modifies this`attempts
      ensures attempts == if ok then old(attempts) - {s} else old(attempts)
    {
      if ok {
        attempts := attempts - {s};
      }
    }

    method SetMark(s: Slot, value: Stored, ok: bool) returns (done: bool)
      modifies this`marks
      ensures done == ok
      ensures marks == if ok then old(marks)[s := value] else old(marks)
    {
      if ok {
        marks := marks[s := value];
      }
      done := ok;
    }
  }

  class ExchangeDraftStore {
    const storage: LocalStorage
    /** False when the browser gave no storage at all: then nothing is read and nothing is written. */
    const hasStorage: bool
    var drafts: map<Slot, Draft>
    var inFlight: set<Slot>
    var owned: set<Key>
    var loaded: bool

    constructor (storage: LocalStorage, hasStorage: bool)
      ensures this.storage == storage && this.hasStorage == hasStorage && Valid()
      ensures forall userId, saleId :: View(userId, saleId) == Tab(false, None, false, {})
    {
      this.storage, this.hasStorage := storage, hasStorage;
      drafts, inFlight, owned, loaded := map[], {}, {}, false;
    }

    /** Every draft is filed under its own user and sale. */
    predicate Valid()
      reads this
    {
      forall s :: s in drafts ==> SlotOf(drafts[s].userId, drafts[s].saleId) == s
    }

    function View(userId: string, saleId: string): Tab
      reads this
    {
      var s := SlotOf(userId, saleId);
      Tab(loaded, At(drafts, s), s in inFlight, owned)
    }

    function CellNow(userId: string, saleId: string): Cell
      reads storage
    {
      AttemptCell(userId, saleId, At(storage.attempts, SlotOf(userId, saleId)))
    }

    function MarkNow(userId: string, saleId: string): MarkCell
      reads storage
    {
      StoredMark(userId, saleId, At(storage.marks, SlotOf(userId, saleId)))
    }

    function DiskNow(userId: string, saleId: string): Disk
      reads storage
    {
      Disk(CellNow(userId, saleId), MarkNow(userId, saleId))
    }

    predicate Fits(io: Io) {
      io.available == hasStorage
    }

    /** Nothing outside the slot changes: not the other drafts, not the other sends in flight, not the other stored texts. */
    twostate predicate OnlySlot(userId: string, saleId: string)
      reads this, storage
    {
      var s := SlotOf(userId, saleId);
      && drafts - {s} == old(drafts) - {s}
      && inFlight - {s} == old(inFlight) - {s}
      && loaded == old(loaded)
      && storage.attempts - {s} == old(storage.attempts) - {s} && storage.marks - {s} == old(storage.marks) - {s}
    }

    method Put(d: Draft)
      requires Valid()
      modifies this`drafts
      ensures Valid() && drafts == old(drafts)[SlotOf(d.userId, d.saleId) := d]
    {
      drafts := drafts[SlotOf(d.userId, d.saleId) := d];
    }

    // ---- storage -----------------------------------------------------------------------------------------------

    method ReadDurable(userId: string, saleId: string, io: Io, ok: bool) returns (d: Durable)
      requires Fits(io)
      ensures d == ReadCell(io, ok, CellNow(userId, saleId))
      ensures d.Found? ==> SlotOf(d.record.userId, d.record.saleId) == SlotOf(userId, saleId)
    {
      hide ParsePersisted;
      if !hasStorage { return Nothing; }
      if !ok { return Unusable(StorageError); }
      var raw := At(storage.attempts, SlotOf(userId, saleId));
      if raw.None? { return Nothing; }
      if raw.value.Unparseable? { return Unusable(Unreadable); }
      var record := ParsePersisted(raw.value.json);
      if record.None? || record.value.userId != userId || Lower(record.value.saleId) != Lower(saleId) { return Unusable(Unreadable); }
      d := Found(record.value);
    }

    method WriteDurable(d: Draft, a: Attempt, status: Status, io: Io) returns (done: bool)
      requires Fits(io) && !status.REJECTED?
      modifies storage`attempts
      ensures done == (io.available && io.writeCell)
      ensures CellNow(d.userId, d.saleId) == if done then CellOf(RecordOf(d, a, status)) else old(CellNow(d.userId, d.saleId))
      ensures storage.attempts - {SlotOf(d.userId, d.saleId)} == old(storage.attempts) - {SlotOf(d.userId, d.saleId)}
    {
      if !hasStorage { return false; }
      var record := RecordOf(d, a, status);
      WrittenAttemptCell(record);
      done := storage.SetAttempt(SlotOf(d.userId, d.saleId), Tree(RecordToJson(record)), io.writeCell);
    }

    method RemoveDurable(userId: string, saleId: string, io: Io)
      requires Fits(io)
      modifies storage`attempts
      ensures CellNow(userId, saleId) == if io.available && io.removeCell then Absent else old(CellNow(userId, saleId))
      ensures storage.attempts - {SlotOf(userId, saleId)} == old(storage.attempts) - {SlotOf(userId, saleId)}
    {
      if hasStorage {
        storage.RemoveAttempt(SlotOf(userId, saleId), io.removeCell);
      }
    }

    method ReadHighWater(userId: string, saleId: string, io: Io, ok: bool) returns (m: MarkRead)
      requires Fits(io)
      ensures m == ReadMark(io, ok, MarkNow(userId, saleId))
    {
      if !hasStorage { return NoLines; }
      if !ok { return MarkUnusable(StorageError); }
      var raw := At(storage.marks, SlotOf(userId, saleId));
      if raw.None? { return NoLines; }
      if raw.value.Unparseable? { return MarkUnusable(Unreadable); }
      var lines := ParseMark(raw.value.json, userId, saleId);
      m := if lines.None? then MarkUnusable(Unreadable) else Lines(lines.value);
    }

    /** Raises each item to the larger of what is known and what is given; stops at the first value that does not fit. */
    method MergeValues(known: map<string, nat>, values: seq<Shown>) returns (merged: map<string, nat>, fits: bool)
      ensures fits == AllFit(values)
      ensures fits ==> merged == Merge(known, values)
    {
      merged := known;
      for i := 0 to |values|
        invariant merged == Merge(known, values[..i])
        invariant forall j :: 0 <= j < i ==> IsWatermarkQuantity(values[j].1)
      {
        if !IsWatermarkQuantity(values[i].1) { return merged, false; }
        assert values[..i + 1][..i] == values[..i];
        var item := Lower(values[i].0);
        if item !in merged || values[i].1 > merged[item] {
          merged := merged[item := values[i].1];
        }
      }
      assert values[..|values|] == values;
      fits := true;
    }

    method RaiseHighWater(userId: string, saleId: string, values: seq<Shown>, io: Io) returns (covered: bool)
      requires Fits(io)
      modifies storage`marks
      ensures (MarkNow(userId, saleId), covered) == RaiseMark(io, old(MarkNow(userId, saleId)), values)
      ensures storage.marks - {SlotOf(userId, saleId)} == old(storage.marks) - {SlotOf(userId, saleId)}
    {
      if !hasStorage { return false; }
      var current := ReadHighWater(userId, saleId, io, io.raiseRead);
      if current.MarkUnusable? { return false; }
      var known: map<string, nat> := if current.Lines? then current.lines else map[];
      var merged, fits := MergeValues(known, values);
      if !fits || merged == map[] { return false; }
      if current.Lines? && merged == known { return true; }
      WrittenMarkCell(userId, saleId, merged);
      covered := storage.SetMark(SlotOf(userId, saleId), Tree(MarkToJson(userId, saleId, merged)), io.raiseWrite);
    }
  
    // ---- opening -----------------------------------------------------------------------------------------------

    /** The locked part of openDraftFromFreshRead, for a read whose identity was validated. */
    method OpenDraft(userId: string, branchId: string, read: Read, io: Io) returns (r: OpenResult)
      requires Valid() && Fits(io)
      modifies this`drafts, storage`marks
      ensures Valid() && OnlySlot(userId, read.saleId)
      ensures (View(userId, read.saleId), DiskNow(userId, read.saleId), r) == Open(old(View(userId, read.saleId)), old(DiskNow(userId, read.saleId)), io, userId, branchId, read)
    {
      hide RaiseMark, DraftFromRecord, NewDraft, OlderThanMark, AttemptCell, StoredMark, Lower, OpenFresh;
      var s := SlotOf(userId, read.saleId);
      var nothingLeft := !HasRemaining(read);
      hide HasRemaining;
      if s in drafts {
        return OpenExisting(drafts[s], nothingLeft);
      }
      var durable := ReadDurable(userId, read.saleId, io, io.readCell);
      if durable.Found? {
        if nothingLeft && !durable.record.status.CONFIRMED? { return OpenRefused(NOTHING_LEFT_TO_EXCHANGE); }
        var d := DraftFromRecord(durable.record, durable.record.status, None);
        FollowedSlot(durable.record, durable.record.status, None);
        Put(d);
        return OpenedDraft(d);
      }
      if nothingLeft { return OpenRefused(NOTHING_LEFT_TO_EXCHANGE); }
      if durable.Unusable? {
        var d := RecoveryDraft(userId, read.saleId, durable.reason, None).(branchId := branchId);
        Put(d);
        return OpenedDraft(d);
      }
      r := OpenEmptySlot(userId, branchId, read, io);
    }

    method OpenEmptySlot(userId: string, branchId: string, read: Read, io: Io) returns (r: OpenResult)
      requires Valid() && Fits(io)
      modifies this`drafts, storage`marks
      ensures Valid() && OnlySlot(userId, read.saleId)
      ensures (View(userId, read.saleId), DiskNow(userId, read.saleId), r) == OpenFresh(old(View(userId, read.saleId)), old(DiskNow(userId, read.saleId)), io, userId, branchId, read)
    {
      hide RaiseMark, OlderThanMark, AttemptCell, StoredMark, Lower;
      var mark := ReadHighWater(userId, read.saleId, io, io.readMark);
      if mark.MarkUnusable? {
        var d := RecoveryDraft(userId, read.saleId, mark.reason, None).(branchId := branchId);
        Put(d);
        return OpenedDraft(d);
      }
      var shown := Map(ShownLine, read.lines);
      if OlderThanMark(mark, shown) { return OpenRefused(READ_STALE); }
      var covered := RaiseHighWater(userId, read.saleId, shown, io);
      if !covered { return OpenNotPersisted; }
      var d := NewDraft(userId, branchId, read.saleId, read);
      Put(d);
      r := OpenedDraft(d);
    }

    // ---- editing -----------------------------------------------------------------------------------------------

    method EditDraft(userId: string, saleId: string, c: Change) returns (error: Option<StoreError>)
      requires Valid()
      modifies this`drafts
      ensures Valid() && OnlySlot(userId, saleId)
      ensures (View(userId, saleId), error) == Edit(old(View(userId, saleId)), c)
    {
      var s := SlotOf(userId, saleId);
      if s !in drafts { return Some(NOT_FOUND); }
      var d := drafts[s];
      if d.recovery.Some? { return Some(RecoveryCode(d.recovery.value)); }
      if IsFrozen(d) { return Some(FROZEN); }
      var base := if HasStatus(d, REJECTED) then d.(attempt := None) else d;
      var next := ApplyChange(base, c);
      if next.Err? { return Some(next.error); }
      Put(next.value);
      error := None;
    }

    method ResetDraft(userId: string, saleId: string) returns (error: Option<StoreError>)
      requires Valid()
      modifies this`drafts
      ensures Valid() && OnlySlot(userId, saleId)
      ensures (View(userId, saleId), error) == Reset(old(View(userId, saleId)))
    {
      var s := SlotOf(userId, saleId);
      if s !in drafts { return Some(NOT_FOUND); }
      var d := drafts[s];
      if d.recovery.Some? { return Some(RecoveryCode(d.recovery.value)); }
      if HasStatus(d, SENDING) || HasStatus(d, UNCERTAIN) { return Some(FROZEN); }
      drafts := drafts - {s};
      error := None;
    }

    /** Logout: walks every draft and drops those that are only editable. */
    method DropEditables(order: seq<Slot>)
      requires Valid() && Distinct(order) && forall s :: s in order <==> s in drafts
      modifies this`drafts
      ensures Valid() && unchanged(this`inFlight, this`owned, this`loaded)
      ensures forall userId, saleId :: View(userId, saleId) == DropEditable(old(View(userId, saleId)))
    {
      for i := 0 to |order|
        invariant Valid()
        invariant forall s :: At(drafts, s) == if s in order[..i] && IsEditable(old(drafts)[s]) then None else At(old(drafts), s)
      {
        var s := order[i];
        assert s !in order[..i];
        assert At(drafts, s) == At(old(drafts), s);
        if IsEditable(drafts[s]) {
          drafts := drafts - {s};
        }
        assert order[..i + 1] == order[..i] + [s];
      }
      assert order[..|order|] == order;
    }

    // ---- sending -----------------------------------------------------------------------------------------------

    method StartSend(userId: string, saleId: string) returns (error: Option<StoreError>)
      requires Valid()
      modifies this`inFlight
      ensures OnlySlot(userId, saleId)
      ensures (View(userId, saleId), error) == BeginSend(old(View(userId, saleId)))
    {
      var s := SlotOf(userId, saleId);
      if s !in drafts { return Some(NOT_FOUND); }
      if s in inFlight { return None; }
      if drafts[s].recovery.Some? { return Some(RecoveryCode(drafts[s].recovery.value)); }
      if HasStatus(drafts[s], SENDING) { return Some(ALREADY_SENDING); }
      inFlight := inFlight + {s};
      error := None;
    }

    /** The decision part of prepare: the record to reuse, or what a new key would stand for; or why not. */
    method DecideSend(userId: string, saleId: string, io: Io) returns (decision: Decision)
      requires Valid() && Fits(io)
      modifies this`drafts
      ensures Valid() && OnlySlot(userId, saleId)
      ensures decision == Decide(old(View(userId, saleId)), DiskNow(userId, saleId), io)
      ensures View(userId, saleId) == if decision.Refuse? then decision.tab else old(View(userId, saleId))
    {
      hide DecideDurable, AttemptCell, StoredMark, Lower;
      var s := SlotOf(userId, saleId);
      if s !in drafts { return Refuse(View(userId, saleId), NOT_FOUND); }
      var current := drafts[s];
      if current.recovery.Some? { return Refuse(View(userId, saleId), RecoveryCode(current.recovery.value)); }
      var payload := CanonicalPayload(current.reason, current.lines);
      if payload.None? { return Refuse(View(userId, saleId), INCOMPLETE); }
      var watermarks := CanonicalWatermarks(current.lines, payload.value);
      if watermarks.None? { return Refuse(View(userId, saleId), BASELINE_MISSING); }
      var fingerprint := FingerprintOf(current.saleId, payload.value, watermarks.value);
      hide CanonicalPayloadOf, CanonicalWatermarksOf, FingerprintOf;
      if HasStatus(current, UNCERTAIN) && current.attempt.value.fingerprint != fingerprint { return Refuse(View(userId, saleId), FINGERPRINT_MISMATCH); }
      decision := DecideFromDisk(userId, saleId, io, fingerprint, payload.value, watermarks.value);
    }

    method DecideFromDisk(userId: string, saleId: string, io: Io, fingerprint: string, payload: Payload, watermarks: seq<Watermark>) returns (decision: Decision)
      requires Valid() && Fits(io) && SlotOf(userId, saleId) in drafts
      modifies this`drafts
      ensures Valid() && OnlySlot(userId, saleId)
      ensures decision == DecideDurable(old(View(userId, saleId)), DiskNow(userId, saleId), io, old(drafts[SlotOf(userId, saleId)]), fingerprint, payload, watermarks)
      ensures View(userId, saleId) == if decision.Refuse? then decision.tab else old(View(userId, saleId))
    {
      hide AttemptCell, StoredMark, Lower, OlderThanMark, DraftFromRecord;
      var current := drafts[SlotOf(userId, saleId)];
      var durable := ReadDurable(userId, saleId, io, io.readCell);
      if durable.Unusable? {
        Put(current.(recovery := Some(durable.reason)));
        return Refuse(View(userId, saleId), RecoveryCode(durable.reason));
      }
      if durable.Found? {
        var record := durable.record;
        if record.status.CONFIRMED? {
          FollowedSlot(record, CONFIRMED, Some(current));
          Put(DraftFromRecord(record, CONFIRMED, Some(current)));
          return Refuse(View(userId, saleId), CONFIRMED_REQUIRES_REFRESH);
        }
        if record.status.SENDING? && record.key !in owned { return Refuse(View(userId, saleId), PENDING_ELSEWHERE); }
        if record.fingerprint != fingerprint { return Refuse(View(userId, saleId), FINGERPRINT_MISMATCH); }
        return Reuse(record);
      }
      if HasStatus(current, UNCERTAIN) || HasStatus(current, SENDING) {
        Put(current.(attempt := None, recovery := Some(ResolvedElsewhere)));
        return Refuse(View(userId, saleId), ExchangeSlot.RESOLVED_ELSEWHERE);
      }
      var mark := ReadHighWater(userId, saleId, io, io.readMark);
      if mark.MarkUnusable? {
        Put(current.(recovery := Some(mark.reason)));
        return Refuse(View(userId, saleId), RecoveryCode(mark.reason));
      }
      if OlderThanMark(mark, Map(BeforeOf, watermarks)) {
        Put(current.(recovery := Some(StaleBaseline)));
        return Refuse(View(userId, saleId), STALE_EXCHANGE_BASELINE);
      }
      decision := Mint(fingerprint, payload, watermarks);
    }

    /** Two spellings of one slot see the same cells. */
    lemma SameSlot(userId: string, saleId: string, otherSale: string)
      requires SlotOf(userId, saleId) == SlotOf(userId, otherSale)
      ensures View(userId, saleId) == View(userId, otherSale)
      ensures CellNow(userId, saleId) == CellNow(userId, otherSale)
    {
      hide ParsePersisted;
    }

    /** The record goes to disk before the request leaves, and is read back. */
    method LaunchSend(userId: string, saleId: string, io: Io, attempt: Attempt) returns (r: Result<Attempt, StoreError>)
      requires Valid() && Fits(io) && SlotOf(userId, saleId) in drafts
      modifies this`drafts, this`owned, storage`attempts
      ensures Valid() && OnlySlot(userId, saleId)
      ensures (View(userId, saleId), DiskNow(userId, saleId), r) == Launch(old(View(userId, saleId)), old(DiskNow(userId, saleId)), io, attempt)
    {
      hide AttemptCell, StoredMark, Persistable;
      var s := SlotOf(userId, saleId);
      var current := drafts[s];
      assert SlotOf(current.userId, current.saleId) == s;
      SameSlot(userId, saleId, current.saleId);
      var done := WriteDurable(current, attempt, SENDING, io);
      SameSlot(userId, saleId, current.saleId);
      hide Lower;
      if !done { return Err(PERSIST_FAILED); }
      var back := ReadDurable(userId, saleId, io, io.rereadCell);
      if !back.Found? || back.record.key != attempt.key { return Err(PENDING_ELSEWHERE); }
      owned := owned + {attempt.key};
      Put(current.(attempt := Some(attempt)));
      r := Ok(attempt);
    }

    /** The locked section of send: decide, write SENDING, verify that it stuck. */
    method PrepareSend(userId: string, saleId: string, io: Io, newKey: Key) returns (r: Result<Attempt, StoreError>)
      requires Valid() && Fits(io)
      modifies this`drafts, this`owned, storage`attempts
      ensures Valid() && OnlySlot(userId, saleId)
      ensures (View(userId, saleId), DiskNow(userId, saleId), r) == Prepare(old(View(userId, saleId)), old(DiskNow(userId, saleId)), io, newKey)
    {
      hide AttemptCell, StoredMark, Launch, Lower;
      DecidedDraft(View(userId, saleId), DiskNow(userId, saleId), io);
      hide Decide;
      var decision := DecideSend(userId, saleId, io);
      if decision.Refuse? { return Err(decision.error); }
      r := LaunchSend(userId, saleId, io, AttemptFor(decision, newKey));
    }

    // ---- settling ----------------------------------------------------------------------------------------------

    /** The locked section that takes an answer in: a record of another key, or a tombstone, is never touched. */
    method SettleAnswer(userId: string, saleId: string, io: Io, key: Key, outcome: Outcome, now: int)
      requires Valid() && Fits(io)
      modifies this`drafts, storage`attempts, storage`marks
      ensures Valid() && OnlySlot(userId, saleId)
      ensures (View(userId, saleId), DiskNow(userId, saleId)) == Settle(old(View(userId, saleId)), old(DiskNow(userId, saleId)), io, key, outcome, now)
    {
      hide AttemptCell, StoredMark, RaiseMark, DraftFromRecord, SettleRecord;
      var s := SlotOf(userId, saleId);
      if s !in drafts || drafts[s].attempt.None? || drafts[s].attempt.value.key != key { return; }
      var current := drafts[s];
      assert SlotOf(current.userId, current.saleId) == s;
      SameSlot(userId, saleId, current.saleId);
      hide Lower;
      if outcome.Confirmed? {
        var _ := RaiseHighWater(userId, saleId, Map(AfterOf, current.attempt.value.watermarks), io);
      }
      var durable := ReadDurable(userId, saleId, io, io.readCell);
      if durable.Unusable? {
        Put(RecoveryDraft(current.userId, current.saleId, durable.reason, Some(current)));
        return;
      }
      if durable.Found? && (durable.record.key != key || durable.record.status.CONFIRMED?) {
        FollowedSlot(durable.record, durable.record.status, Some(current));
        Put(DraftFromRecord(durable.record, durable.record.status, Some(current)));
        return;
      }
      RecordOutcome(userId, saleId, io, durable, outcome, now);
    }

    method RecordOutcome(userId: string, saleId: string, io: Io, durable: Durable, outcome: Outcome, now: int)
      requires Valid() && Fits(io) && SlotOf(userId, saleId) in drafts && drafts[SlotOf(userId, saleId)].attempt.Some?
      requires durable == ReadCell(io, io.readCell, CellNow(userId, saleId)) && !durable.Unusable?
      modifies this`drafts, storage`attempts
      ensures Valid() && OnlySlot(userId, saleId)
      ensures (View(userId, saleId), DiskNow(userId, saleId)) == SettleRecord(old(View(userId, saleId)), old(DiskNow(userId, saleId)), io, outcome, now)
    {
      hide AttemptCell, StoredMark, Persistable;
      var s := SlotOf(userId, saleId);
      var current := drafts[s];
      assert SlotOf(current.userId, current.saleId) == s;
      SameSlot(userId, saleId, current.saleId);
      var next := NextDraft(current, outcome, now);
      if !outcome.Rejected? {
        var _ := WriteDurable(current, next.attempt.value, next.attempt.value.status, io);
      } else if durable.Found? {
        RemoveDurable(userId, saleId, io);
      }
      SameSlot(userId, saleId, current.saleId);
      hide Lower;
      Put(next);
    }

    /** The lock could not be had: the durable record stays, only this tab is told. */
    method SettleUnlocked(userId: string, saleId: string, key: Key, outcome: Outcome, now: int)
      requires Valid()
      modifies this`drafts
      ensures Valid() && OnlySlot(userId, saleId)
      ensures View(userId, saleId) == SettleWithoutLock(old(View(userId, saleId)), key, outcome, now)
    {
      var s := SlotOf(userId, saleId);
      if s in drafts && drafts[s].attempt.Some? && drafts[s].attempt.value.key == key {
        Put(NextDraft(drafts[s], outcome, now));
      }
    }

    method EndSend(userId: string, saleId: string)
      modifies this`inFlight
      ensures OnlySlot(userId, saleId)
      ensures View(userId, saleId) == old(View(userId, saleId)).(inFlight := false)
    {
      inFlight := inFlight - {SlotOf(userId, saleId)};
    }

    // ---- reconciling -------------------------------------------------------------------------------------------

    method LookForRefresh(userId: string, saleId: string, io: Io) returns (r: Inspection)
      requires Valid() && Fits(io)
      modifies this`drafts
      ensures Valid() && OnlySlot(userId, saleId)
      ensures (View(userId, saleId), r) == Inspect(old(View(userId, saleId)), DiskNow(userId, saleId), io)
      ensures r.Inspected? ==> SlotOf(r.draft.userId, r.draft.saleId) == SlotOf(userId, saleId) && drafts == old(drafts)
    {
      hide AttemptCell, StoredMark, DraftFromRecord;
      var s := SlotOf(userId, saleId);
      if s !in drafts { return Threw(NOT_FOUND); }
      var d := drafts[s];
      assert SlotOf(d.userId, d.saleId) == s;
      hide Lower;
      if s in inFlight { return NotBlockedByRefresh; }
      if d.recovery == Some(Unreadable) || d.recovery == Some(StorageError) { return Threw(RECOVERY_REQUIRED); }
      var durable := ReadDurable(userId, saleId, io, io.readCell);
      if durable.Unusable? {
        Put(RecoveryDraft(d.userId, d.saleId, durable.reason, Some(d)));
        return Threw(RECOVERY_REQUIRED);
      }
      if durable.Found? {
        if durable.record.status.CONFIRMED? { return Inspected(Tombstone(durable.record), d); }
        FollowedSlot(durable.record, durable.record.status, Some(d));
        Put(DraftFromRecord(durable.record, durable.record.status, Some(d)));
        return if d.recovery.Some? then StateChanged else NotBlockedByRefresh;
      }
      if d.recovery.None? { return NotBlockedByRefresh; }
      if d.recovery == Some(ConfirmedTombstone) {
        return if d.attempt.None? then StateChanged else Inspected(NoTombstone(Some(d.attempt.value.watermarks)), d);
      }
      r := Inspected(NoTombstone(None), d);
    }

    /** The second critical section of a reconciliation. */
    method FinishRefresh(userId: string, saleId: string, io: Io, first: Basis, read: Read, branchId: string) returns (r: FinishResult)
      requires Valid() && Fits(io)
      modifies this`drafts, this`owned, storage`attempts, storage`marks
      ensures Valid() && OnlySlot(userId, saleId)
      ensures (View(userId, saleId), DiskNow(userId, saleId), r) == Finish(old(View(userId, saleId)), old(DiskNow(userId, saleId)), io, first, read, userId, branchId)
    {
      hide AttemptCell, StoredMark, FinishInspected, Lower, Inspect, SameBasis;
      InspectedDraft(View(userId, saleId), DiskNow(userId, saleId), io);
      var second := LookForRefresh(userId, saleId, io);
      if second.Threw? { return FinishThrew(second.error); }
      if !second.Inspected? || !SameBasis(first, second.basis) { return Changed; }
      r := FinishOn(userId, saleId, io, second.basis, second.draft, read, branchId);
    }

    /** The base is the one from before the read: the read is held against the mark, and the mark raised to it. */
    method FinishOn(userId: string, saleId: string, io: Io, basis: Basis, d: Draft, read: Read, branchId: string) returns (r: FinishResult)
      requires Valid() && Fits(io) && SlotOf(d.userId, d.saleId) == SlotOf(userId, saleId)
      modifies this`drafts, this`owned, storage`attempts, storage`marks
      ensures Valid() && OnlySlot(userId, saleId)
      ensures (View(userId, saleId), DiskNow(userId, saleId), r)
           == FinishInspected(old(View(userId, saleId)), old(DiskNow(userId, saleId)), io, basis, d, read, userId, branchId)
    {
      hide AttemptCell, StoredMark, RaiseMark, OlderThanMark, FinishRaised, Lower;
      var shown := Map(ShownLine, read.lines);
      var mark := ReadHighWater(userId, saleId, io, io.readMark);
      if mark.MarkUnusable? {
        Put(RecoveryDraft(d.userId, d.saleId, mark.reason, Some(d)));
        return FinishThrew(RECOVERY_REQUIRED);
      }
      if OlderThanMark(mark, shown) { return Stale; }
      var covered := RaiseHighWater(userId, saleId, shown, io);
      if !covered { return NotPersisted; }
      r := CloseTombstone(userId, saleId, io, basis, d, read, branchId);
    }

    /** The mark remembers from here on: the tombstone goes, and the draft is replaced by one built from the read. */
    method CloseTombstone(userId: string, saleId: string, io: Io, basis: Basis, d: Draft, read: Read, branchId: string) returns (r: FinishResult)
      requires Valid() && Fits(io) && SlotOf(d.userId, d.saleId) == SlotOf(userId, saleId)
      modifies this`drafts, this`owned, storage`attempts
      ensures Valid() && OnlySlot(userId, saleId)
      ensures (View(userId, saleId), DiskNow(userId, saleId), r) == FinishRaised(old(View(userId, saleId)), old(DiskNow(userId, saleId)), io, basis, d, read, userId, branchId)
    {
      hide AttemptCell, StoredMark, DraftLinesOf;
      if basis.Tombstone? {
        RemoveDurable(userId, saleId, io);
        var back := ReadDurable(userId, saleId, io, io.rereadCell);
        if !back.Nothing? { return Changed; }
      }
      if d.attempt.Some? {
        owned := owned - {d.attempt.value.key};
      }
      if !HasRemaining(read) {
        drafts := drafts - {SlotOf(userId, saleId)};
        return ClosedEmpty;
      }
      var next := NewDraft(userId, branchId, d.saleId, read);
      Put(next);
      r := Reopened(next);
    }

    // ---- storage events ----------------------------------------------------------------------------------------

    /** Brings the memory about one sale in line with its durable record. */
    method Reconcile(userId: string, saleId: string, io: Io)
      requires Valid() && Fits(io)
      modifies this`drafts
      ensures Valid() && OnlySlot(userId, saleId)
      ensures View(userId, saleId) == StorageEvent(old(View(userId, saleId)), DiskNow(userId, saleId), io, userId, saleId)
    {
      hide AttemptCell, StoredMark, DraftFromRecord, Lower;
      var s := SlotOf(userId, saleId);
      if s in inFlight { return; }
      var previous := At(drafts, s);
      var durable := ReadDurable(userId, saleId, io, io.readCell);
      match durable {
        case Found(r) =>
          if previous.Some? && previous.value.attempt.Some? && previous.value.attempt.value.key == r.key && previous.value.attempt.value.status == r.status { return; }
          FollowedSlot(r, r.status, previous);
          Put(DraftFromRecord(r, r.status, previous));
        case Unusable(reason) => Put(RecoveryDraft(userId, saleId, reason, previous));
        case Nothing =>
          if previous.Some? && (HasStatus(previous.value, SENDING) || HasStatus(previous.value, UNCERTAIN)) {
            Put(previous.value.(attempt := None, recovery := Some(ResolvedElsewhere)));
          }
      }
    }

    /** What the memory about one draft becomes when it is brought in line. */
    function InLine(s: Slot, d: Draft, readable: set<Slot>): Option<Draft>
      reads this`loaded, this`inFlight, this`owned, storage
    {
      StorageEvent(Tab(loaded, Some(d), s in inFlight, owned), DiskNow(d.userId, d.saleId), ScanIo(true, s in readable), d.userId, d.saleId).draft
    }

    /** The storage was cleared somewhere: every draft is brought in line, in any order; readable says which records can be read. */
    method ReconcileAll(order: seq<Slot>, readable: set<Slot>)
      requires Valid() && Distinct(order) && forall s :: s in order <==> s in drafts
      modifies this`drafts
      ensures Valid()
      ensures forall s: Slot :: At(drafts, s) == if s in old(drafts) then InLine(s, old(drafts)[s], readable) else None
    {
      for i := 0 to |order|
        invariant Valid()
        invariant forall s: Slot :: At(drafts, s) == if s in order[..i] then InLine(s, old(drafts)[s], readable) else At(old(drafts), s)
      {
        var s := order[i];
        assert s !in order[..i] && At(drafts, s) == At(old(drafts), s);
        ReconcileOne(s, readable);
        assert order[..i + 1] == order[..i] + [s];
      }
      assert order[..|order|] == order;
    }

    method ReconcileOne(s: Slot, readable: set<Slot>)
      requires Valid() && s in drafts
      modifies this`drafts
      ensures Valid()
      ensures forall other: Slot :: At(drafts, other) == if other == s then InLine(s, old(drafts)[s], readable) else At(old(drafts), other)
    {
      hide StorageEvent, AttemptCell, StoredMark, Lower;
      var d := drafts[s];
      assert SlotOf(d.userId, d.saleId) == s;
      Reconcile(d.userId, d.saleId, ScanIo(true, s in readable));
      forall other: Slot | other != s ensures At(drafts, other) == At(old(drafts), other) {
        assert At(drafts, other) == At(drafts - {s}, other) && At(old(drafts), other) == At(old(drafts) - {s}, other);
      }
    }

    /** A storage event names the record it is about, or none when everything was cleared. */
    method HandleStorageEvent(key: Option<Slot>, order: seq<Slot>, readable: set<Slot>)
      requires Valid() && Distinct(order) && forall s :: s in order <==> s in drafts
      modifies this`drafts
      ensures Valid()
      ensures key.None? ==>
                forall s: Slot :: At(drafts, s) == if s in old(drafts) then InLine(s, old(drafts)[s], readable) else None
      ensures key.Some? ==>
                var (userId, saleId) := (key.value.userId, key.value.saleId);
                && OnlySlot(userId, saleId)
                && View(userId, saleId) == StorageEvent(old(View(userId, saleId)), DiskNow(userId, saleId),
                                                        ScanIo(true, SlotOf(userId, saleId) in readable), userId, saleId)
    {
      hide StorageEvent, AttemptCell, StoredMark, Lower;
      match key {
        case None => ReconcileAll(order, readable);
        case Some(k) => Reconcile(k.userId, k.saleId, ScanIo(true, SlotOf(k.userId, k.saleId) in readable));
      }
    }

    // ---- start-up ----------------------------------------------------------------------------------------------

    /** The start-up scan: keys lists each stored attempt once, in any order; readable says which of them can be read. */
    method EnsureLoaded(keys: seq<Slot>, enumerate: bool, readable: set<Slot>)
      requires Valid() && (!loaded ==> drafts == map[] && owned == {})
      requires Distinct(keys) && forall k :: k in keys ==> k in storage.attempts && Lower(k.saleId) == k.saleId
      modifies this`drafts, this`owned, this`loaded
      ensures Valid() && loaded && unchanged(this`inFlight)
      ensures old(loaded) ==> drafts == old(drafts) && owned == old(owned)
      ensures !old(loaded) ==> forall s: Slot :: At(drafts, s) == if s in keys then Scanned(s, enumerate, readable).draft else None
      ensures !old(loaded) ==> owned == AdoptedFrom(keys, enumerate, readable)
    {
      hide Lower, Scanned;
      if loaded { return; }
      loaded := true;
      if !hasStorage || !enumerate {
        NothingScanned(keys, enumerate, readable);
        return;
      }
      for i := 0 to |keys|
        invariant Valid() && loaded && unchanged(this`inFlight)
        invariant HasAdopted(keys[..i], enumerate, readable)
      {
        hide HasAdopted;
        assert keys[..i + 1] == keys[..i] + [keys[i]] && keys[i] !in keys[..i];
        AdoptNext(keys[..i], keys[i], enumerate, readable);
      }
      assert keys[..|keys|] == keys;
    }

    /** The drafts and the keys are those of the stored attempts listed so far. */
    ghost predicate HasAdopted(keys: seq<Slot>, enumerate: bool, readable: set<Slot>)
      reads this, storage
    {
      && (forall s: Slot :: At(drafts, s) == if s in keys then Scanned(s, enumerate, readable).draft else None)
      && owned == AdoptedFrom(keys, enumerate, readable)
    }

    lemma AdoptedNext(before: seq<Slot>, s: Slot, enumerate: bool, readable: set<Slot>)
      ensures AdoptedFrom(before + [s], enumerate, readable) == AdoptedFrom(before, enumerate, readable) + Scanned(s, enumerate, readable).owned
    {
      hide Scanned;
      assert (before + [s])[..|before|] == before;
    }

    method AdoptNext(ghost before: seq<Slot>, s: Slot, enumerate: bool, readable: set<Slot>)
      requires Valid() && hasStorage && enumerate && s in storage.attempts && Lower(s.saleId) == s.saleId
      requires HasAdopted(before, enumerate, readable) && s !in before
      modifies this`drafts, this`owned
      ensures Valid() && HasAdopted(before + [s], enumerate, readable)
    {
      hide Scanned, Lower, Valid;
      assert At(drafts, s) == None;
      AdoptedNext(before, s, enumerate, readable);
      AdoptStored(s, enumerate, readable);
    }

    method AdoptStored(s: Slot, enumerate: bool, readable: set<Slot>)
      requires Valid() && hasStorage && enumerate && s in storage.attempts && Lower(s.saleId) == s.saleId && s !in drafts
      modifies this`drafts, this`owned
      ensures Valid()
      ensures var found := Scanned(s, enumerate, readable);
              && (forall other :: At(drafts, other) == if other == s then found.draft else At(old(drafts), other))
              && owned == old(owned) + found.owned
    {
      hide AttemptCell, StoredMark, DraftFromRecord;
      StoredIsPresent(s);
      var durable := ReadDurable(s.userId, s.saleId, ScanIo(enumerate, s in readable), s in readable);
      hide Lower;
      match durable {
        case Nothing =>
        case Found(r) =>
          FollowedSlot(r, if r.status.CONFIRMED? then CONFIRMED else UNCERTAIN, None);
          if r.status.CONFIRMED? {
            Put(DraftFromRecord(r, CONFIRMED, None));
          } else {
            owned := owned + {r.key};
            Put(DraftFromRecord(r, UNCERTAIN, None));
          }
        case Unusable(reason) => Put(RecoveryDraft(s.userId, s.saleId, reason, None));
      }
    }

    function ScanIo(enumerate: bool, ok: bool): Io {
      Io(hasStorage, enumerate, ok, false, false, false, false, false, false)
    }

    /** What a fresh tab makes of one stored attempt. */
    function Scanned(s: Slot, enumerate: bool, readable: set<Slot>): Tab
      reads storage
    {
      Load(Tab(false, None, false, {}), DiskNow(s.userId, s.saleId), ScanIo(enumerate, s in readable), s.userId, s.saleId)
    }

    /** The keys a scan of these stored attempts adopts. */
    function AdoptedFrom(keys: seq<Slot>, enumerate: bool, readable: set<Slot>): set<Key>
      reads storage
    {
      if |keys| == 0 then {} else AdoptedFrom(keys[..|keys| - 1], enumerate, readable) + Scanned(keys[|keys| - 1], enumerate, readable).owned
    }

    lemma NothingScanned(keys: seq<Slot>, enumerate: bool, readable: set<Slot>)
      requires !hasStorage || !enumerate
      ensures AdoptedFrom(keys, enumerate, readable) == {}
      ensures forall s :: Scanned(s, enumerate, readable).draft == None
    {
      if |keys| > 0 {
        NothingScanned(keys[..|keys| - 1], enumerate, readable);
      }
    }

    lemma StoredIsPresent(s: Slot)
      requires s in storage.attempts && Lower(s.saleId) == s.saleId
      ensures !CellNow(s.userId, s.saleId).Absent?
    {
      hide ParsePersisted;
    }
  }

  lemma InspectedDraft(tab: Tab, disk: Disk, io: Io)
    ensures var (seen, i) := Inspect(tab, disk, io); i.Inspected? ==> seen == tab && tab.draft == Some(i.draft)
  {
    hide DraftFromRecord;
  }

  lemma FollowedSlot(r: Record, status: Status, previous: Option<Draft>)
    ensures var d := DraftFromRecord(r, status, previous); d.userId == r.userId && d.saleId == r.saleId
  {
  }

  lemma DecidedDraft(tab: Tab, disk: Disk, io: Io)
    ensures !Decide(tab, disk, io).Refuse? ==> tab.draft.Some?
  {
  }
}
