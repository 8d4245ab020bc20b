/** What each section promises whoever calls it, in terms of what was in the tab and in storage. */
module ExchangeConduct {
  import opened Wrappers
  import opened ExchangeTypes
  import opened Texts
  import opened ExchangeCanonical
  import opened ExchangeRecord
  import opened ExchangeSlot
  import opened ExchangeProtocol
  import opened ExchangeOwnership
  import opened Fingerprint
  import opened FreshRead
  import opened Decimal
  import opened Sequences

  // ---- blocked sales -------------------------------------------------------------------------------------------

  /** What a blocked sale answers to everything: what it must be read for, or that it needs recovery. */
  predicate SaysWhy(reason: Recovery, error: StoreError) {
    && (error == CONFIRMED_REQUIRES_REFRESH <==> reason == ConfirmedTombstone)
    && (error == RESOLVED_ELSEWHERE <==> reason == ResolvedElsewhere)
    && (error == STALE_EXCHANGE_BASELINE <==> reason == StaleBaseline)
    && (error == RECOVERY_REQUIRED <==> reason == Unreadable || reason == StorageError)
  }

  /** A blocked draft is not edited, not reset, not dropped and not sent; each refusal says why. */
  lemma BlockedStaysBlocked(tab: Tab, c: Change, disk: Disk, io: Io, newKey: Key)
    requires tab.draft.Some? && tab.draft.value.recovery.Some?
    ensures var reason := tab.draft.value.recovery.value;
            && Edit(tab, c).0 == tab && Edit(tab, c).1.Some? && SaysWhy(reason, Edit(tab, c).1.value)
            && Reset(tab).0 == tab && Reset(tab).1.Some? && SaysWhy(reason, Reset(tab).1.value)
            && DropEditable(tab) == tab
            && (!tab.inFlight ==> BeginSend(tab).0 == tab && BeginSend(tab).1.Some? && SaysWhy(reason, BeginSend(tab).1.value))
            && Prepare(tab, disk, io, newKey).0 == tab && Prepare(tab, disk, io, newKey).1 == disk
            && Prepare(tab, disk, io, newKey).2.Err? && SaysWhy(reason, Prepare(tab, disk, io, newKey).2.error)
  {
  }

  /** Nothing readable, no exit: a sale whose record or mark could not be read is not reconciled either. */
  lemma UnreadableHasNoExit(tab: Tab, disk: Disk, io: Io, first: Basis, read: Read, userId: string, branchId: string)
    requires tab.draft.Some? && tab.draft.value.recovery in {Some(Unreadable), Some(StorageError)} && !tab.inFlight
    ensures Inspect(tab, disk, io) == (tab, Threw(RECOVERY_REQUIRED))
    ensures Finish(tab, disk, io, first, read, userId, branchId) == (tab, disk, FinishThrew(RECOVERY_REQUIRED))
  {
  }

  /** An attempt that is under way, or whose outcome is unknown, cannot be edited, reset or dropped; what is merely editable can, and a
      refused attempt is over: an edit starts anew, and the rest of the draft stays. */
  lemma OpenAttemptsAreFrozen(tab: Tab, c: Change)
    requires tab.draft.Some? && tab.draft.value.recovery.None?
    ensures var d := tab.draft.value;
            if HasStatus(d, SENDING) || HasStatus(d, UNCERTAIN) then
              Edit(tab, c) == (tab, Some(FROZEN)) && Reset(tab) == (tab, Some(FROZEN)) && DropEditable(tab) == tab
            else
              && Reset(tab) == (tab.(draft := None), None)
              && (!HasStatus(d, CONFIRMED) ==>
                    && DropEditable(tab) == tab.(draft := None)
                    && (forall text :: Edit(tab, SetReason(text)) == (tab.(draft := Some(d.(reason := text, attempt := None))), None)))
  {
    SomeStatus(tab.draft.value);
  }

  lemma SomeStatus(d: Draft)
    ensures d.attempt.None? || HasStatus(d, SENDING) || HasStatus(d, UNCERTAIN) || HasStatus(d, CONFIRMED) || HasStatus(d, REJECTED)
  {
  }

  // ---- edits ---------------------------------------------------------------------------------------------------

  lemma {:induction false} RemovesExactly(lines: seq<DraftLine>, item: string)
    ensures WithoutItem(lines, item) == Filter((l: DraftLine) => l.saleItemId != item, lines)
  {
    if |lines| > 0 {
      var n := |lines| - 1;
      var others := (l: DraftLine) => l.saleItemId != item;
      RemovesExactly(lines[..n], item);
      FilterJoins(others, lines[..n], [lines[n]]);
      assert lines == lines[..n] + [lines[n]];
      assert Filter(others, [lines[n]]) == if others(lines[n]) then [lines[n]] else [];
    }
  }

  /** An added line is empty and starts at the baseline the sale showed; an item is added once only, in whatever spelling; a line that is set
      keeps its item and baseline, and all other lines stay. */
  lemma EditsMean(d: Draft, item: string, variant: Option<string>, quantity: string)
    ensures var added := ApplyChange(d, AddLine(item));
            && (added.Err? <==> forall x :: x in d.available ==> Lower(x.saleItemId) != Lower(item))
            && (added.Ok? ==>
                  if exists l :: l in d.lines && Lower(l.saleItemId) == Lower(item) then added.value == d
                  else exists x :: x in d.available && Lower(x.saleItemId) == Lower(item)
                         && added.value == d.(lines := d.lines + [DraftLine(x.saleItemId, None, "", x.before)]))
    ensures ApplyChange(d, RemoveLine(item)) == Ok(d.(lines := Filter((l: DraftLine) => l.saleItemId != item, d.lines)))
    ensures var set_ := ApplyChange(d, SetLine(item, variant, quantity));
            && set_.Ok? && set_.value == d.(lines := set_.value.lines) && |set_.value.lines| == |d.lines|
            && forall i :: 0 <= i < |d.lines| ==>
                 set_.value.lines[i] == (if d.lines[i].saleItemId == item then DraftLine(item, variant, quantity, d.lines[i].before) else d.lines[i])
  {
    hide Lower;
    RemovesExactly(d.lines, item);
    FindsAnAvailable(d.available, item);
  }

  lemma {:induction false} FindsAnAvailable(lines: seq<AvailableLine>, item: string)
    ensures FindAvailable(lines, item).None? <==> forall x :: x in lines ==> Lower(x.saleItemId) != Lower(item)
  {
    hide Lower;
    if |lines| > 0 {
      FindsAnAvailable(lines[1..], item);
      assert lines == [lines[0]] + lines[1..];
    }
  }

  // ---- sending -------------------------------------------------------------------------------------------------

  /** After an unknown outcome only the very same request is sent again. */
  lemma UncertainResendsTheSame(tab: Tab, disk: Disk, io: Io, newKey: Key)
    requires tab.draft.Some? && HasStatus(tab.draft.value, UNCERTAIN) && Prepare(tab, disk, io, newKey).2.Ok?
    ensures Prepare(tab, disk, io, newKey).2.value.fingerprint == tab.draft.value.attempt.value.fingerprint
    ensures disk.cell.Held? && Prepare(tab, disk, io, newKey).2.value.key == disk.cell.record.key
  {
    hide CanonicalPayloadOf, CanonicalWatermarksOf, FingerprintOf, OlderThanMark, DraftFromRecord, Persistable;
  }

  /** A tab that holds an open attempt mints no new key; when its record is gone it learns that someone else resolved it. */
  lemma OpenAttemptsMintNothing(tab: Tab, disk: Disk, io: Io, newKey: Key)
    requires tab.draft.Some? && (HasStatus(tab.draft.value, SENDING) || HasStatus(tab.draft.value, UNCERTAIN))
    ensures !Decide(tab, disk, io).Mint?
    ensures disk.cell.Absent? && io.available && io.readCell && Prepare(tab, disk, io, newKey).2 == Err(RESOLVED_ELSEWHERE)
            && tab.draft.value.recovery.None? ==>
              var d' := Prepare(tab, disk, io, newKey).0.draft;
              && Prepare(tab, disk, io, newKey).1 == disk
              && d' == Some(tab.draft.value.(attempt := None, recovery := Some(ResolvedElsewhere)))
  {
    hide CanonicalPayloadOf, CanonicalWatermarksOf, FingerprintOf, OlderThanMark, DraftFromRecord, Persistable;
  }

  /** A send starts when the tab has a draft, nothing under way, no block, and no attempt that another tab is sending; a second submit joins
      the first, and a refused one changes nothing. */
  lemma SendStartsOnce(tab: Tab)
    ensures var (tab', error) := BeginSend(tab);
            && tab' == tab.(inFlight := tab'.inFlight)
            && (tab'.inFlight && !tab.inFlight <==>
                  !tab.inFlight && tab.draft.Some? && tab.draft.value.recovery.None? && !HasStatus(tab.draft.value, SENDING))
            && (tab.inFlight && tab.draft.Some? ==> tab' == tab && error.None?)
            && (error == Some(NOT_FOUND) <==> tab.draft.None?)
            && (error == Some(ALREADY_SENDING) <==>
                  tab.draft.Some? && !tab.inFlight && tab.draft.value.recovery.None? && HasStatus(tab.draft.value, SENDING))
            && (error.Some? ==> tab' == tab)
  {
  }

  /** A second submit while one is under way changes nothing. */
  lemma DoubleSubmitIsOne(w: World, t: TabId)
    requires EachOwns(w) && Enabled(w, Send(t)) && !w.seats[t].phase.Idle?
    ensures Apply(w, Send(t)) == w
  {
    assert SeatOwns(w.seats[t]);
    hide RecoveryCode;
    assert w.seats[t := w.seats[t]] == w.seats;
  }

  // ---- settling ------------------------------------------------------------------------------------------------

  /** Over an empty slot or the open record of its key, with storage at work, a refusal empties the slot and an unknown outcome is written
      down under the same key; memory follows, and a confirmation blocks the sale. */
  lemma SettledMeans(tab: Tab, disk: Disk, io: Io, key: Key, outcome: Outcome, now: int)
    requires IsAbout(tab, key) && io.available && io.readCell && io.writeCell && io.removeCell
    requires disk.cell.Absent? || (disk.cell.Held? && disk.cell.record.key == key && !disk.cell.record.status.CONFIRMED?)
    ensures var (tab', disk') := Settle(tab, disk, io, key, outcome, now);
            && tab' == tab.(draft := tab'.draft) && tab'.draft.Some? && tab'.draft.value.attempt.Some?
            && var d, d' := tab.draft.value, tab'.draft.value;
               var a, a' := d.attempt.value, d'.attempt.value;
               && d' == d.(attempt := d'.attempt, recovery := d'.recovery)
               && a' == a.(status := a'.status, exchangeId := a'.exchangeId, confirmedAt := a'.confirmedAt)
               && (outcome.Rejected? ==> disk'.cell.Absent? && a'.status == REJECTED && d'.recovery == None)
               && (outcome.Uncertain? ==> disk'.cell == CellOf(RecordOf(d, a, UNCERTAIN)) && a'.status == UNCERTAIN && d'.recovery == None)
               && (outcome.Confirmed? ==> a'.status == CONFIRMED && a'.exchangeId == Some(outcome.exchangeId) && a'.confirmedAt == Some(now)
                                          && d'.recovery == Some(ConfirmedTombstone))
               && (!outcome.Confirmed? ==> disk'.mark == disk.mark)
  {
    hide Persistable, RaiseMark, DraftFromRecord;
  }

  // ---- reconciling ---------------------------------------------------------------------------------------------

  /** What the first look finds, with a record that can be read: a tab that is sending has nothing to refresh; a tombstone is looked at as
      it is; over an open record the tab follows it and a blocked one learns that the state changed; over no record only a blocked tab goes
      on, with the watermarks of the confirmation it still holds. */
  lemma LookMeans(tab: Tab, disk: Disk, io: Io)
    requires tab.draft.Some? && io.available && io.readCell && !disk.cell.Garbage?
    requires tab.draft.value.recovery != Some(Unreadable) && tab.draft.value.recovery != Some(StorageError)
    ensures var d := tab.draft.value;
            var (tab', look) := Inspect(tab, disk, io);
            if tab.inFlight then tab' == tab && look == NotBlockedByRefresh
            else if disk.cell.Absent? then
              && tab' == tab
              && look == if d.recovery.None? then NotBlockedByRefresh
                         else if d.recovery == Some(ConfirmedTombstone) && d.attempt.None? then StateChanged
                         else if d.recovery == Some(ConfirmedTombstone) then Inspected(NoTombstone(Some(d.attempt.value.watermarks)), d)
                         else Inspected(NoTombstone(None), d)
            else if disk.cell.record.status.CONFIRMED? then tab' == tab && look == Inspected(Tombstone(disk.cell.record), d)
            else
              && tab'.draft == Some(DraftFromRecord(disk.cell.record, disk.cell.record.status, Some(d)))
              && look == if d.recovery.None? then NotBlockedByRefresh else StateChanged
  {
    hide DraftFromRecord;
  }

  /** Only over the very state of the first look does a reconciliation end: the same key confirmed at the same time, or still no record. */
  lemma EndsOverTheSameState(tab: Tab, disk: Disk, io: Io, first: Basis, read: Read, userId: string, branchId: string)
    requires var result := Finish(tab, disk, io, first, read, userId, branchId).2; result.Reopened? || result.ClosedEmpty?
    ensures io.available
    ensures match first
            case Tombstone(r) => disk.cell.Held? && disk.cell.record.status.CONFIRMED?
                                 && disk.cell.record.key == r.key && disk.cell.record.confirmedAt == r.confirmedAt
            case NoTombstone(_) => disk.cell.Absent?
  {
    hide NewDraft, OlderThanMark, DraftFromRecord, HasRemaining, Merge, ReadableMark;
  }

  /** It reopens the sale when something is left and closes it when nothing is; either way the slot is empty and the key given up. */
  lemma EndsByWhatIsLeft(tab: Tab, disk: Disk, io: Io, first: Basis, read: Read, userId: string, branchId: string)
    requires var result := Finish(tab, disk, io, first, read, userId, branchId).2; result.Reopened? || result.ClosedEmpty?
    ensures var (tab', disk', result) := Finish(tab, disk, io, first, read, userId, branchId);
            && disk'.cell.Absent? && tab.draft.Some?
            && (result.Reopened? <==> exists l :: l in read.lines && l.remaining > 0)
            && (result.Reopened? ==> tab'.draft == Some(result.draft) && result.draft == NewDraft(userId, branchId, tab.draft.value.saleId, read))
            && (result.ClosedEmpty? ==> tab'.draft == None)
            && tab'.owned == (if tab.draft.value.attempt.Some? then tab.owned - {tab.draft.value.attempt.value.key} else tab.owned)
  {
    EndsOverTheSameState(tab, disk, io, first, read, userId, branchId);
    hide NewDraft, OlderThanMark, DraftFromRecord, RaiseMark;
  }

  /** The unlocked read must be of the branch the tombstone or the draft knows, and cover what either still has to prove. */
  lemma VerdictMeans(first: Basis, d: Draft, parsed: Option<Read>, saleId: string, branchId: string, saleNumber: string)
    requires VerdictFor(first, d, parsed, saleId, branchId, saleNumber).Ok?
    ensures parsed.Some? && Lower(parsed.value.saleId) == Lower(saleId) && parsed.value.saleNumber == saleNumber
    ensures parsed.value.branchId == branchId
    ensures match first
            case Tombstone(r) => (r.branchId == "" || r.branchId == branchId) && forall m :: m in r.watermarks ==> Covers(parsed.value, m)
            case NoTombstone(ws) =>
              && (d.branchId == "" || d.branchId == branchId)
              && (ws.Some? ==> forall m :: m in ws.value ==> Covers(parsed.value, m))
              && (ws.None? || ws.value == [] ==> HasRemaining(parsed.value))
  {
    hide Lower;
    var w := WatermarksOf(first);
    AcceptedReadIsFresh(parsed, Expectation(Some(saleId), branchId, saleNumber, w), if w.Some? && |w.value| > 0 then RECONCILE_CONFIRMED else OPEN_DRAFT);
    hide ValidateFreshRead, HasRemaining;
  }

  // ---- storage events and start-up -----------------------------------------------------------------------------

  /** A tab that is not sending follows the slot: it keeps what it has when it shows the record already, takes the record over when it does
      not, is blocked by one it cannot read, and when the record is gone forgets the open attempt and waits for a read. */
  lemma EventFollowsTheSlot(tab: Tab, disk: Disk, io: Io, userId: string, saleId: string)
    requires !tab.inFlight && io.available
    ensures var tab' := StorageEvent(tab, disk, io, userId, saleId);
            && tab' == tab.(draft := tab'.draft)
            && (io.readCell && disk.cell.Held? ==>
                  tab'.draft.Some? && tab'.draft.value.attempt.Some? && tab'.draft.value.attempt.value.key == disk.cell.record.key
                  && tab'.draft.value.attempt.value.status == disk.cell.record.status)
            && (io.readCell && disk.cell.Held? && IsAbout(tab, disk.cell.record.key) && HasStatus(tab.draft.value, disk.cell.record.status) ==>
                  tab' == tab)
            && (io.readCell && disk.cell.Garbage? ==> tab'.draft.Some? && tab'.draft.value.recovery == Some(Unreadable))
            && (!io.readCell ==> tab'.draft.Some? && tab'.draft.value.recovery == Some(StorageError))
            && (io.readCell && disk.cell.Absent? ==>
                  if tab.draft.Some? && (HasStatus(tab.draft.value, SENDING) || HasStatus(tab.draft.value, UNCERTAIN)) then
                    tab'.draft == Some(tab.draft.value.(attempt := None, recovery := Some(ResolvedElsewhere)))
                  else tab' == tab)
  {
    hide Map, RecordedBaseline;
  }

  /** The start-up scan adopts an unresolved record as one of unknown outcome and owns its key, blocks on a tombstone, and blocks on what it
      cannot read. */
  lemma LoadMeans(disk: Disk, io: Io, userId: string, saleId: string)
    ensures var tab := Load(Tab(false, None, false, {}), disk, io, userId, saleId);
            && tab.loaded && !tab.inFlight
            && (!io.available || !io.enumerate || disk.cell.Absent? ==> tab.draft == None && tab.owned == {})
            && (io.available && io.enumerate && disk.cell.Held? && io.readCell ==>
                  var r := disk.cell.record;
                  && tab.draft.Some? && tab.draft.value.attempt.Some? && tab.draft.value.attempt.value.key == r.key
                  && tab.draft.value.attempt.value.status == (if r.status.CONFIRMED? then CONFIRMED else UNCERTAIN)
                  && tab.draft.value.recovery == (if r.status.CONFIRMED? then Some(ConfirmedTombstone) else None)
                  && tab.owned == (if r.status.CONFIRMED? then {} else {r.key}))
            && (io.available && io.enumerate && disk.cell.Garbage? && io.readCell ==>
                  tab.draft.Some? && tab.draft.value.recovery == Some(Unreadable) && tab.draft.value.attempt == None)
            && (io.available && io.enumerate && !disk.cell.Absent? && !io.readCell ==>
                  tab.draft.Some? && tab.draft.value.recovery == Some(StorageError) && tab.draft.value.attempt == None)
  {
    hide Map, RecordedBaseline;
  }

  // ---- opening -------------------------------------------------------------------------------------------------

  /** Nothing left to exchange is refused, unless a confirmation still waits to be reconciled; a tab that has a draft keeps it. */
  lemma NothingLeftIsNotOpened(tab: Tab, disk: Disk, io: Io, userId: string, branchId: string, read: Read)
    ensures var waits := if tab.draft.Some? then HasStatus(tab.draft.value, CONFIRMED)
                         else io.available && io.readCell && disk.cell.Held? && disk.cell.record.status.CONFIRMED?;
            var (tab', disk', result) := Open(tab, disk, io, userId, branchId, read);
            && (result == OpenRefused(NOTHING_LEFT_TO_EXCHANGE) <==> !HasRemaining(read) && !waits)
            && (!result.OpenedDraft? ==> tab' == tab && disk'.cell == disk.cell)
            && (tab.draft.Some? ==> tab' == tab && disk' == disk && (result.OpenedDraft? ==> result.draft == tab.draft.value))
            && (result.OpenedDraft? ==> tab'.draft == Some(result.draft))
  {
    hide DraftFromRecord, NewDraft, RaiseMark, OlderThanMark, HasRemaining;
  }

  /** A draft of this user, branch and sale with nothing in it. */
  predicate IsBareOf(d: Draft, userId: string, branchId: string, saleId: string) {
    d.userId == userId && d.branchId == branchId && d.saleId == saleId && d.reason == "" && d.lines == [] && d.available == [] && d.attempt.None?
  }

  /** Over a slot that holds something a tab without a draft opens just that: the record as it stands, or a draft blocked by what cannot be
      read; over an empty slot an unreadable mark blocks, a newer mark refuses, and only a raised mark lets a new draft in. */
  lemma OpensWhatIsThere(tab: Tab, disk: Disk, io: Io, userId: string, branchId: string, read: Read)
    requires tab.draft.None? && HasRemaining(read) && io.available
    ensures var (_, disk', result) := Open(tab, disk, io, userId, branchId, read);
            && (io.readCell && disk.cell.Held? ==>
                  result == OpenedDraft(DraftFromRecord(disk.cell.record, disk.cell.record.status, None)) && disk' == disk)
            && (!io.readCell || disk.cell.Garbage? ==>
                  result.OpenedDraft? && IsBareOf(result.draft, userId, branchId, read.saleId) && disk' == disk
                  && result.draft.recovery == Some(if io.readCell then Unreadable else StorageError))
            && (io.readCell && disk.cell.Absent? && (!io.readMark || disk.mark.BadMark?) ==>
                  result.OpenedDraft? && IsBareOf(result.draft, userId, branchId, read.saleId) && disk' == disk
                  && result.draft.recovery == Some(if io.readMark then Unreadable else StorageError))
            && (io.readCell && disk.cell.Absent? && io.readMark && !disk.mark.BadMark? ==>
                  var shown := Map(ShownLine, read.lines);
                  if OlderThanMark(ReadMark(io, true, disk.mark), shown) then result == OpenRefused(READ_STALE) && disk' == disk
                  else
                    && disk' == disk.(mark := RaiseMark(io, disk.mark, shown).0)
                    && result == if RaiseMark(io, disk.mark, shown).1 then OpenedDraft(NewDraft(userId, branchId, read.saleId, read)) else OpenNotPersisted)
  {
    hide DraftFromRecord, NewDraft, RaiseMark, OlderThanMark, HasRemaining;
  }
}
