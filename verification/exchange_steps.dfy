/** What each atomic section of the store keeps, whatever storage does to it. */
module ExchangeSteps {
  import opened Wrappers
  import opened ExchangeTypes
  import opened Texts
  import opened ExchangeCanonical
  import opened ExchangeRecord
  import opened ExchangeSlot
  import opened ExchangeProtocol
  import opened FreshRead
  import opened Sequences
  import opened Fingerprint

  /** How the attempt cell may change without losing the evidence of a key: see Evidenced. */
  predicate CellStep(a: Disk, b: Disk, l: Ledger, dismissed: set<Key>) {
    || b.cell == a.cell
    || b.cell.Garbage?
    || a.cell.Absent?
    || (a.cell.Held? && b.cell.Held? && a.cell.record.key == b.cell.record.key)
    || (a.cell.Held? && a.cell.record.key in dismissed)
    || (a.cell.Held? && a.cell.record.key in l.committed && Remembers(b.mark, a.cell.record.watermarks))
  }

  lemma EvidenceSurvives(a: Disk, b: Disk, l: Ledger, m: Ledger, gone: set<Key>, goneNow: set<Key>)
    requires LedgerOk(l) && CellOk(a.cell, l) && EvidenceKept(a, l, gone)
    requires Grows(l, m) && gone <= goneNow && MarkRises(a.mark, b.mark) && CellStep(a, b, m, goneNow)
    ensures forall x :: x in l.log ==> Evidenced(x, b, m, goneNow)
  {
    forall x | x in l.log ensures Evidenced(x, b, m, goneNow) {
      assert Evidenced(x, a, l, gone);
      if x.key in l.committed && Remembers(a.mark, x.watermarks) {
        RemembersMore(a.mark, b.mark, x.watermarks);
      } else if a.cell.Held? && a.cell.record.key == x.key {
        SameKeySameMinted(l, x, Minted(a.cell.record.key, a.cell.record.payload, a.cell.record.watermarks));
      }
    }
  }

  lemma SameKeySameMinted(l: Ledger, a: Minted, b: Minted)
    requires LedgerOk(l) && a in l.log && b in l.log && a.key == b.key
    ensures a == b
  {
    var i :| 0 <= i < |l.log| && l.log[i] == a;
    var j :| 0 <= j < |l.log| && l.log[j] == b;
  }

  // ---- sections that only touch memory -------------------------------------------------------------------------

  lemma LoadKeeps(tab: Tab, disk: Disk, io: Io, userId: string, saleId: string, l: Ledger)
    requires TabOk(tab, l) && CellOk(disk.cell, l) && LedgerOk(l)
    ensures TabOk(Load(tab, disk, io, userId, saleId), l)
  {
    hide DraftFromRecord, LedgerOk;
    if disk.cell.Held? {
      var r := disk.cell.record;
      FollowedDraftOk(r, if r.status.CONFIRMED? then CONFIRMED else UNCERTAIN, None, l);
    }
  }

  lemma EditKeeps(tab: Tab, c: Change, l: Ledger)
    requires TabOk(tab, l)
    ensures TabOk(Edit(tab, c).0, l)
  {
    if tab.draft.Some? {
      var d := tab.draft.value;
      var base := d.(attempt := if HasStatus(d, REJECTED) then None else d.attempt);
      var next := ApplyChange(base, c);
      if next.Ok? {
        forall x | x in next.value.lines ensures BaselineTrue(x.saleItemId, x.before, l.exchanged) {
          if c.SetLine? {
            var i :| 0 <= i < |next.value.lines| && next.value.lines[i] == x;
            assert d.lines[i] in d.lines;
          }
        }
      }
    }
  }

  lemma SettledDraftOk(d: Draft, outcome: Outcome, now: int, l: Ledger)
    requires DraftOk(d, l) && d.attempt.Some?
    requires (outcome.Confirmed? ==> d.attempt.value.key in l.committed) && (outcome.Rejected? ==> d.attempt.value.key in l.refused)
    ensures DraftOk(NextDraft(d, outcome, now), l)
  {
  }

  lemma EventKeeps(tab: Tab, disk: Disk, io: Io, userId: string, saleId: string, l: Ledger)
    requires TabOk(tab, l) && CellOk(disk.cell, l) && LedgerOk(l)
    ensures TabOk(StorageEvent(tab, disk, io, userId, saleId), l)
  {
    hide DraftFromRecord, LedgerOk;
    if disk.cell.Held? {
      FollowedDraftOk(disk.cell.record, disk.cell.record.status, tab.draft, l);
    }
  }

  lemma InspectKeeps(tab: Tab, disk: Disk, io: Io, l: Ledger)
    requires TabOk(tab, l) && CellOk(disk.cell, l) && LedgerOk(l)
    ensures TabOk(Inspect(tab, disk, io).0, l)
    ensures var i := Inspect(tab, disk, io).1;
            i.Inspected? ==> Inspect(tab, disk, io).0 == tab && tab.draft == Some(i.draft) && LookOk(Look(i.basis, i.draft), l)
                             && (i.basis.Tombstone? ==> disk.cell == Held(i.basis.record))
                             && (i.basis.NoTombstone? && io.available ==> disk.cell.Absent?)
  {
    hide DraftFromRecord, LedgerOk;
    if disk.cell.Held? {
      FollowedDraftOk(disk.cell.record, disk.cell.record.status, tab.draft, l);
    }
  }

  // ---- opening -------------------------------------------------------------------------------------------------

  lemma OpenKeeps(tab: Tab, disk: Disk, io: Io, userId: string, branchId: string, read: Read, l: Ledger)
    requires TabOk(tab, l) && CellOk(disk.cell, l) && MarkOk(disk.mark, l.exchanged) && LedgerOk(l) && Truthful(read, l.exchanged)
    ensures var (tab', disk', _) := Open(tab, disk, io, userId, branchId, read);
            TabOk(tab', l) && disk'.cell == disk.cell && MarkOk(disk'.mark, l.exchanged) && MarkRises(disk.mark, disk'.mark)
  {
    hide DraftFromRecord, LedgerOk, NewDraft, RaiseMark, Truthful;
    if disk.cell.Held? {
      FollowedDraftOk(disk.cell.record, disk.cell.record.status, None, l);
    }
    NewDraftOk(userId, branchId, read.saleId, read, l);
    var shown := Map(ShownLine, read.lines);
    ShownIsTrue(read, l.exchanged);
    RaiseRaises(io, disk.mark, shown);
    RaiseStaysTrue(io, disk.mark, shown, l.exchanged);
  }

  // ---- preparing -----------------------------------------------------------------------------------------------

  lemma MintIsCanonical(tab: Tab, disk: Disk, io: Io)
    requires Decide(tab, disk, io).Mint?
    ensures tab.draft.Some?
    ensures var d := Decide(tab, disk, io);
            && CanonicalPayloadOf(tab.draft.value.reason, tab.draft.value.lines) == Some(d.payload)
            && CanonicalWatermarksOf(tab.draft.value.lines, d.payload) == Some(d.watermarks)
            && d.fingerprint == FingerprintOf(tab.draft.value.saleId, d.payload, d.watermarks)
  {
    hide CanonicalPayloadOf, CanonicalWatermarksOf, FingerprintOf, OlderThanMark, DraftFromRecord;
  }

  lemma CanonicalIsOk(d: Draft, payload: Payload, watermarks: seq<Watermark>, key: Key, l: Ledger)
    requires DraftOk(d, l)
    requires CanonicalPayloadOf(d.reason, d.lines) == Some(payload) && CanonicalWatermarksOf(d.lines, payload) == Some(watermarks)
    ensures MintedOk(Minted(key, payload, watermarks), l.exchanged)
  {
    PayloadShape(d.reason, d.lines);
    WatermarksShape(d.lines, payload);
    hide CanonicalPayloadOf, CanonicalWatermarksOf, Lower, StrictlyAscending, Map;
    forall x | x in watermarks ensures WatermarkHolds(x, l.exchanged) {
      var i :| 0 <= i < |watermarks| && watermarks[i] == x;
      var source :| source in d.lines && ItemOfDraft(source) == x.saleItemId && source.before == x.before;
      assert BaselineTrue(source.saleItemId, source.before, l.exchanged);
      assert payload.lines[i] in payload.lines && ValidCanonicalLine(payload.lines[i]);
    }
  }

  lemma MintIsOk(tab: Tab, disk: Disk, io: Io, newKey: Key, l: Ledger)
    requires TabOk(tab, l) && Decide(tab, disk, io).Mint?
    ensures var d := Decide(tab, disk, io);
            MintedOk(Minted(newKey, d.payload, d.watermarks), l.exchanged)
  {
    MintIsCanonical(tab, disk, io);
    hide Decide, CanonicalPayloadOf, CanonicalWatermarksOf;
    CanonicalIsOk(tab.draft.value, Decide(tab, disk, io).payload, Decide(tab, disk, io).watermarks, newKey, l);
  }

  /** A new key is minted only over an empty slot and a readable mark that none of its baselines predates. */
  lemma MintSeesTheMark(tab: Tab, disk: Disk, io: Io)
    requires Decide(tab, disk, io).Mint? && io.available
    ensures disk.cell.Absent? && !disk.mark.BadMark?
    ensures disk.mark.Marked? ==>
              forall y :: y in Decide(tab, disk, io).watermarks && Lower(y.saleItemId) in disk.mark.lines ==> y.before >= disk.mark.lines[Lower(y.saleItemId)]
  {
    hide CanonicalPayloadOf, CanonicalWatermarksOf, FingerprintOf, Lower;
    var ws := Decide(tab, disk, io).watermarks;
    if disk.mark.Marked? {
      forall y | y in ws && Lower(y.saleItemId) in disk.mark.lines ensures y.before >= disk.mark.lines[Lower(y.saleItemId)] {
        var i :| 0 <= i < |ws| && ws[i] == y;
        assert Map(BeforeOf, ws)[i] == (y.saleItemId, y.before);
      }
    }
  }

  lemma MintClaimsAbove(tab: Tab, disk: Disk, io: Io, newKey: Key, l: Ledger, dismissed: set<Key>, m: Minted)
    requires TabOk(tab, l) && Decide(tab, disk, io).Mint? && io.available
    requires LedgerOk(l) && m in l.log && EvidenceKept(disk, l, dismissed) && m.key !in dismissed
    ensures ClaimsAbove(m, Minted(newKey, Decide(tab, disk, io).payload, Decide(tab, disk, io).watermarks))
  {
    MintSeesTheMark(tab, disk, io);
    MintIsOk(tab, disk, io, newKey, l);
    var n := Minted(newKey, Decide(tab, disk, io).payload, Decide(tab, disk, io).watermarks);
    hide Decide, Lower;
    assert Evidenced(m, disk, l, dismissed);
    assert |m.payload.lines| > 0 && m.watermarks[0] in m.watermarks;
    forall x, y | x in m.watermarks && y in n.watermarks && x.saleItemId == y.saleItemId ensures y.before >= x.after {
      assert WatermarkHolds(y, l.exchanged);
    }
  }

  lemma LaunchKeeps(tab: Tab, disk: Disk, io: Io, a: Attempt, l: Ledger)
    requires TabOk(tab, l) && tab.draft.Some? && CellOk(disk.cell, l) && KnownAttempt(a, l) && a.status.SENDING?
    ensures var (tab', disk', result) := Launch(tab, disk, io, a);
            && TabOk(tab', l) && CellOk(disk'.cell, l) && disk'.mark == disk.mark
            && (result.Ok? ==> result.value == a)
            && (if io.available && io.writeCell then disk'.cell.Garbage? || (disk'.cell.Held? && disk'.cell.record.key == a.key)
                else disk' == disk)
  {
    hide Persistable;
  }

  lemma RefusalKeeps(tab: Tab, disk: Disk, io: Io, l: Ledger)
    requires TabOk(tab, l) && CellOk(disk.cell, l) && LedgerOk(l)
    ensures Decide(tab, disk, io).Refuse? ==> TabOk(Decide(tab, disk, io).tab, l)
    ensures Decide(tab, disk, io).Reuse? ==> disk.cell == Held(Decide(tab, disk, io).record) && !Decide(tab, disk, io).record.status.CONFIRMED?
    ensures !Decide(tab, disk, io).Refuse? ==> tab.draft.Some?
  {
    hide CanonicalPayloadOf, CanonicalWatermarksOf, FingerprintOf, DraftFromRecord, OlderThanMark, LedgerOk;
    if disk.cell.Held? {
      FollowedDraftOk(disk.cell.record, disk.cell.record.status, tab.draft, l);
    }
  }

  lemma LogGrows(l: Ledger, m: Minted)
    requires LedgerOk(l) && MintedOk(m, l.exchanged) && m.key !in KeysOf(l.log) && m.key !in l.committed
    ensures LedgerOk(l.(log := l.log + [m])) && Grows(l, l.(log := l.log + [m]))
  {
  }

  /** The whole locked section of a send: what it leaves in memory and on disk, and which key it minted. */
  lemma PrepareKeeps(tab: Tab, disk: Disk, io: Io, newKey: Key, l: Ledger)
    requires TabOk(tab, l) && CellOk(disk.cell, l) && LedgerOk(l) && newKey !in KeysOf(l.log)
    ensures var (tab', disk', result) := Prepare(tab, disk, io, newKey);
            var m := l.(log := l.log + MintedBy(tab, disk, io, newKey));
            && LedgerOk(m) && Grows(l, m) && TabOk(tab', m) && CellOk(disk'.cell, m) && disk'.mark == disk.mark
            && (disk'.cell == disk.cell || disk'.cell.Garbage? || disk.cell.Absent?
                || (disk.cell.Held? && disk'.cell.Held? && disk.cell.record.key == disk'.cell.record.key))
            && (|MintedBy(tab, disk, io, newKey)| > 0 ==> disk'.cell.Garbage? || (disk'.cell.Held? && disk'.cell.record.key == newKey))
            && (result.Ok? ==> Minted(result.value.key, result.value.payload, result.value.watermarks) in m.log)
  {
    var decision := Decide(tab, disk, io);
    RefusalKeeps(tab, disk, io, l);
    if decision.Mint? {
      MintIsOk(tab, disk, io, newKey, l);
      if io.available {
        MintSeesTheMark(tab, disk, io);
      }
      LogGrows(l, Minted(newKey, decision.payload, decision.watermarks));
    }
    hide Decide, Launch, MintedOk, LedgerOk;
    var minted := MintedBy(tab, disk, io, newKey);
    var m := l.(log := l.log + minted);
    if !decision.Refuse? {
      assert l.log + [] == l.log;
      var a := AttemptFor(decision, newKey);
      if decision.Reuse? || minted != [] {
        TabSurvives(tab, l, m);
        LaunchKeeps(tab, disk, io, a, m);
      }
    } else {
      assert l.log + [] == l.log;
    }
  }

  lemma TabSurvives(tab: Tab, l: Ledger, m: Ledger)
    requires TabOk(tab, l) && Grows(l, m)
    ensures TabOk(tab, m)
  {
    if tab.draft.Some? {
      DraftSurvives(tab.draft.value, l, m);
    }
  }

  // ---- settling ------------------------------------------------------------------------------------------------

  lemma SettleRecordKeeps(tab: Tab, disk: Disk, io: Io, key: Key, outcome: Outcome, now: int, l: Ledger)
    requires TabOk(tab, l) && CellOk(disk.cell, l) && IsAbout(tab, key)
    requires (outcome.Confirmed? ==> key in l.committed) && (outcome.Rejected? ==> key in l.refused)
    requires disk.cell.Held? ==> disk.cell.record.key == key
    requires io.available ==> !disk.cell.Garbage?
    ensures var (tab', disk') := SettleRecord(tab, disk, io, outcome, now);
            && TabOk(tab', l) && CellOk(disk'.cell, l) && disk'.mark == disk.mark
            && (disk'.cell == disk.cell || disk'.cell.Garbage? || disk.cell.Absent?
                || (disk.cell.Held? && disk'.cell.Held? && disk.cell.record.key == disk'.cell.record.key)
                || (disk.cell.Held? && outcome.Rejected?))
  {
    hide Persistable;
    SettledDraftOk(tab.draft.value, outcome, now, l);
  }

  lemma SettleKeeps(tab: Tab, disk: Disk, io: Io, key: Key, outcome: Outcome, now: int, l: Ledger, dismissed: set<Key>)
    requires TabOk(tab, l) && CellOk(disk.cell, l) && MarkOk(disk.mark, l.exchanged) && LedgerOk(l)
    requires (outcome.Confirmed? ==> key in l.committed) && (outcome.Rejected? ==> key in l.refused && key in dismissed)
    ensures var (tab', disk') := Settle(tab, disk, io, key, outcome, now);
            && TabOk(tab', l) && CellOk(disk'.cell, l) && MarkOk(disk'.mark, l.exchanged)
            && MarkRises(disk.mark, disk'.mark) && CellStep(disk, disk', l, dismissed)
  {
    hide DraftFromRecord, RaiseMark, MintedOk, SettleRecord;
    if IsAbout(tab, key) {
      var a := tab.draft.value.attempt.value;
      var values := Map(AfterOf, a.watermarks);
      RaiseRaises(io, disk.mark, values);
      if outcome.Confirmed? {
        AftersAreTrue(Minted(a.key, a.payload, a.watermarks), l);
        RaiseStaysTrue(io, disk.mark, values, l.exchanged);
      }
      var raised := disk.(mark := if outcome.Confirmed? then RaiseMark(io, disk.mark, values).0 else disk.mark);
      if disk.cell.Held? {
        FollowedDraftOk(disk.cell.record, disk.cell.record.status, tab.draft, l);
      }
      var durable := ReadCell(io, io.readCell, disk.cell);
      if durable.Nothing? || (durable.Found? && durable.record.key == key && !durable.record.status.CONFIRMED?) {
        if !io.available {
          SettledDraftOk(tab.draft.value, outcome, now, l);
          SettleOffline(tab, raised, io, outcome, now);
        } else {
          SettleRecordKeeps(tab, raised, io, key, outcome, now, l);
        }
      }
    }
  }

  lemma SettleOffline(tab: Tab, disk: Disk, io: Io, outcome: Outcome, now: int)
    requires tab.draft.Some? && tab.draft.value.attempt.Some? && !io.available
    ensures SettleRecord(tab, disk, io, outcome, now) == (Put(tab, NextDraft(tab.draft.value, outcome, now)), disk)
  {
  }

  // ---- reconciling ---------------------------------------------------------------------------------------------

  lemma CoveredIsRemembered(read: Read, lines: map<string, nat>, ws: seq<Watermark>)
    requires forall i :: 0 <= i < |read.lines| ==>
               Lower(read.lines[i].saleItemId) in lines && read.lines[i].exchanged <= lines[Lower(read.lines[i].saleItemId)]
    requires forall x :: x in ws ==> Covers(read, x) && Lower(x.saleItemId) == x.saleItemId
    ensures Remembers(Marked(lines), ws)
  {
    hide Lower;
    forall x | x in ws ensures x.saleItemId in lines && lines[x.saleItemId] >= x.after {
      assert Covers(read, x);
      var row := FindRow(read.lines, Lower(x.saleItemId)).value;
      var i :| 0 <= i < |read.lines| && read.lines[i] == row;
    }
  }

  /** After the mark was raised to a read that covers the watermarks, the mark alone remembers them. */
  lemma RaisedRemembers(io: Io, mark: MarkCell, read: Read, ws: seq<Watermark>)
    requires RaiseMark(io, mark, Map(ShownLine, read.lines)).1
    requires forall x :: x in ws ==> Covers(read, x) && Lower(x.saleItemId) == x.saleItemId
    ensures Remembers(RaiseMark(io, mark, Map(ShownLine, read.lines)).0, ws)
  {
    var shown := Map(ShownLine, read.lines);
    RaiseRaises(io, mark, shown);
    hide RaiseMark, Lower, Covers;
    var raised := RaiseMark(io, mark, shown).0;
    if raised.Marked? {
      forall i | 0 <= i < |read.lines|
        ensures Lower(read.lines[i].saleItemId) in raised.lines && read.lines[i].exchanged <= raised.lines[Lower(read.lines[i].saleItemId)]
      {
        assert shown[i] == (read.lines[i].saleItemId, read.lines[i].exchanged);
      }
      CoveredIsRemembered(read, raised.lines, ws);
    }
  }

  lemma FinishRaisedKeeps(tab: Tab, disk: Disk, io: Io, basis: Basis, d: Draft, read: Read, userId: string, branchId: string, l: Ledger)
    requires TabOk(tab, l) && CellOk(disk.cell, l) && Truthful(read, l.exchanged)
    requires basis.Tombstone? ==>
               disk.cell == Held(basis.record) && basis.record.key in l.committed && Remembers(disk.mark, basis.record.watermarks)
    ensures var (tab', disk', _) := FinishRaised(tab, disk, io, basis, d, read, userId, branchId);
            && TabOk(tab', l) && CellOk(disk'.cell, l) && disk'.mark == disk.mark
            && (disk'.cell == disk.cell || (disk'.cell.Absent? && basis.Tombstone?))
  {
    NewDraftOk(userId, branchId, d.saleId, read, l);
    hide NewDraft, Truthful, Remembers;
  }

  lemma LookCovers(w: Ledger, look: Look, r: Record, read: Read)
    requires LedgerOk(w) && LookOk(look, w) && KnownRecord(r, w)
    requires look.basis.Tombstone? && look.basis.record.key == r.key
    requires forall x :: x in look.basis.record.watermarks ==> Covers(read, x)
    ensures forall x :: x in r.watermarks ==> Covers(read, x) && Lower(x.saleItemId) == x.saleItemId
  {
    var a := look.basis.record;
    SameKeySameMinted(w, Minted(a.key, a.payload, a.watermarks), Minted(r.key, r.payload, r.watermarks));
    assert forall x :: x in r.watermarks ==> WatermarkHolds(x, w.exchanged);
  }

  lemma FinishKeeps(tab: Tab, disk: Disk, io: Io, look: Look, read: Read, userId: string, branchId: string, l: Ledger, dismissed: set<Key>)
    requires TabOk(tab, l) && CellOk(disk.cell, l) && MarkOk(disk.mark, l.exchanged) && LedgerOk(l)
    requires Truthful(read, l.exchanged) && LookOk(look, l)
    requires look.basis.Tombstone? ==> forall x :: x in look.basis.record.watermarks ==> Covers(read, x)
    ensures var (tab', disk', _) := Finish(tab, disk, io, look.basis, read, userId, branchId);
            && TabOk(tab', l) && CellOk(disk'.cell, l) && MarkOk(disk'.mark, l.exchanged)
            && MarkRises(disk.mark, disk'.mark) && CellStep(disk, disk', l, dismissed)
  {
    InspectKeeps(tab, disk, io, l);
    var shown := Map(ShownLine, read.lines);
    ShownIsTrue(read, l.exchanged);
    RaiseRaises(io, disk.mark, shown);
    RaiseStaysTrue(io, disk.mark, shown, l.exchanged);
    var inspection := Inspect(tab, disk, io).1;
    if inspection.Inspected? && SameBasis(look.basis, inspection.basis) && RaiseMark(io, disk.mark, shown).1 {
      var raised := disk.(mark := RaiseMark(io, disk.mark, shown).0);
      if inspection.basis.Tombstone? {
        LookCovers(l, look, inspection.basis.record, read);
        RaisedRemembers(io, disk.mark, read, inspection.basis.record.watermarks);
      }
      FinishRaisedKeeps(tab, raised, io, inspection.basis, inspection.draft, read, userId, branchId, l);
    }
    hide Inspect, RaiseMark, FinishRaised, Truthful, LedgerOk, OlderThanMark, Covers;
  }
}
