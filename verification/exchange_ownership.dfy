/** Whose key it is: a tab sends a key whose request another tab may have under way only if it minted that key, took it over after an
    unknown outcome, or adopted it at start-up. */
module ExchangeOwnership {
  import opened Wrappers
  import opened ExchangeTypes
  import opened Texts
  import opened ExchangeCanonical
  import opened ExchangeRecord
  import opened ExchangeSlot
  import opened ExchangeProtocol
  import opened ExchangeSteps
  import opened ExchangeTheorems
  import opened ExchangeReadable
  import opened Fingerprint
  import opened FreshRead
  import opened Json
  import opened Sequences

  // ---- one section ---------------------------------------------------------------------------------------------

  /** A send over a record that is being sent succeeds only for a tab that owns its key. */
  lemma OnlyOwnersResend(tab: Tab, disk: Disk, io: Io, newKey: Key)
    requires disk.cell.Held? && disk.cell.record.status.SENDING?
    requires Prepare(tab, disk, io, newKey).2.Ok?
    ensures disk.cell.record.key in tab.owned && Prepare(tab, disk, io, newKey).2.value.key == disk.cell.record.key
  {
    hide CanonicalPayloadOf, CanonicalWatermarksOf, FingerprintOf, OlderThanMark, DraftFromRecord, Persistable;
  }

  /** Any other tab is refused, and changes neither the slot nor its own memory; a complete draft of its own is told that the exchange is
      pending elsewhere. */
  lemma OthersArePending(tab: Tab, disk: Disk, io: Io, newKey: Key)
    requires disk.cell.Held? && disk.cell.record.status.SENDING? && disk.cell.record.key !in tab.owned
    requires io.available && io.readCell
    ensures var (tab', disk', result) := Prepare(tab, disk, io, newKey);
            && tab' == tab && disk' == disk && result.Err?
            && (tab.draft.Some? && tab.draft.value.recovery.None? && tab.draft.value.attempt.None? && IsComplete(tab.draft.value) ==>
                  result == Err(PENDING_ELSEWHERE))
  {
    hide CanonicalPayloadOf, CanonicalWatermarksOf, FingerprintOf, OlderThanMark, DraftFromRecord, Persistable;
  }

  /** The draft is a sendable request: it has a canonical payload and watermarks. */
  predicate IsComplete(d: Draft) {
    var payload := CanonicalPayloadOf(d.reason, d.lines);
    payload.Some? && CanonicalWatermarksOf(d.lines, payload.value).Some?
  }

  // ---- every step ----------------------------------------------------------------------------------------------

  predicate Owns(w: World, t: TabId, k: Key) {
    t in w.seats && k in w.seats[t].tab.owned
  }

  /** A tab whose request is out owns its key; and only a loaded tab is in flight. */
  predicate SeatOwns(s: Seat) {
    && (!s.phase.Idle? ==> s.tab.loaded && s.tab.inFlight)
    && (s.phase.Posting? || s.phase.Answered? ==> s.phase.key in s.tab.owned)
  }

  predicate EachOwns(w: World) {
    forall t :: t in w.seats ==> SeatOwns(w.seats[t])
  }

  /** The tab mints the key over an empty slot, or takes it over from a record whose outcome is unknown. */
  predicate Launches(w: World, s: Step, t: TabId, k: Key)
    requires Enabled(w, s)
  {
    && s.PrepareSend? && s.t == t && Apply(w, s).seats[t].phase == Posting(k)
    && ((w.disk.cell.Absent? && s.newKey == k) || (w.disk.cell.Held? && w.disk.cell.record.key == k && w.disk.cell.record.status.UNCERTAIN?))
  }

  /** The tab adopts the key at start-up, from a record it finds unresolved. */
  predicate Adopts(w: World, s: Step, t: TabId, k: Key) {
    s.LoadTab? && s.t == t && w.disk.cell.Held? && w.disk.cell.record.key == k && !w.disk.cell.record.status.CONFIRMED?
  }

  predicate Acquires(w: World, s: Step, t: TabId, k: Key)
    requires Enabled(w, s)
  {
    Launches(w, s, t, k) || Adopts(w, s, t, k)
  }

  /** What a section may do to what a tab owns: nothing, or give up a key. */
  predicate OwnsNoMore(a: Tab, b: Tab) {
    b.owned <= a.owned && (a.loaded ==> b.loaded) && b.inFlight == a.inFlight && (a.inFlight ==> b.owned == a.owned)
  }

  lemma LoadOwns(tab: Tab, disk: Disk, io: Io, userId: string, saleId: string, k: Key)
    ensures var tab' := Load(tab, disk, io, userId, saleId);
            && tab'.inFlight == tab.inFlight && (tab.loaded ==> tab' == tab)
            && (k in tab'.owned && k !in tab.owned ==> disk.cell.Held? && disk.cell.record.key == k && !disk.cell.record.status.CONFIRMED?)
  {
    hide DraftFromRecord;
  }

  lemma EditOwns(tab: Tab, c: Change)
    ensures OwnsNoMore(tab, Edit(tab, c).0)
  {
    hide ApplyChange;
  }

  lemma EventOwns(tab: Tab, disk: Disk, io: Io, userId: string, saleId: string)
    ensures OwnsNoMore(tab, StorageEvent(tab, disk, io, userId, saleId))
  {
    hide DraftFromRecord;
  }

  lemma InspectOwns(tab: Tab, disk: Disk, io: Io)
    ensures OwnsNoMore(tab, Inspect(tab, disk, io).0)
    ensures Inspect(tab, disk, io).1.Inspected? ==> !tab.inFlight
  {
    hide DraftFromRecord;
  }

  lemma OpenOwns(tab: Tab, disk: Disk, io: Io, userId: string, branchId: string, read: Read)
    ensures OwnsNoMore(tab, Open(tab, disk, io, userId, branchId, read).0)
  {
    hide DraftFromRecord, NewDraft, RaiseMark, OlderThanMark;
  }

  lemma FinishOwns(tab: Tab, disk: Disk, io: Io, first: Basis, read: Read, userId: string, branchId: string)
    ensures OwnsNoMore(tab, Finish(tab, disk, io, first, read, userId, branchId).0)
  {
    InspectOwns(tab, disk, io);
    hide NewDraft, RaiseMark, OlderThanMark, Inspect, HasRemaining;
  }

  lemma SettleOwns(tab: Tab, disk: Disk, io: Io, key: Key, outcome: Outcome, now: int)
    ensures OwnsNoMore(tab, Settle(tab, disk, io, key, outcome, now).0)
    ensures OwnsNoMore(tab, SettleWithoutLock(tab, key, outcome, now))
  {
    hide DraftFromRecord, RaiseMark, CellOf, NextDraft;
  }

  /** A prepare that succeeds owns the key it sends, and acquires no other. */
  lemma PrepareOwns(tab: Tab, disk: Disk, io: Io, newKey: Key)
    ensures var (tab', _, result) := Prepare(tab, disk, io, newKey);
            && tab'.loaded == tab.loaded && tab'.inFlight == tab.inFlight
            && tab'.owned == (if result.Ok? then tab.owned + {result.value.key} else tab.owned)
  {
    hide CanonicalPayloadOf, CanonicalWatermarksOf, FingerprintOf, OlderThanMark, DraftFromRecord, Persistable;
  }

  lemma StepKeepsOwnership(w: World, s: Step)
    requires EachOwns(w) && Enabled(w, s)
    ensures EachOwns(Apply(w, s))
  {
    hide Decide, ParseRead, VerdictFor, Truthful, Load, Edit, StorageEvent, Inspect, Open, Finish, Settle, SettleWithoutLock, Prepare, Classify,
      Credit, MintedBy;
    match s {
      case LoadTab(t, io) =>
        assert SeatOwns(w.seats[t]);
        LoadOwns(w.seats[t].tab, w.disk, io, w.userId, w.saleId, "");
      case EditDraft(t, c) => EditOwns(w.seats[t].tab, c);
      case DeliverEvent(t, io) => EventOwns(w.seats[t].tab, w.disk, io, w.userId, w.saleId);
      case LookForRefresh(t, io) => InspectOwns(w.seats[t].tab, w.disk, io);
      case OpenDraft(t, io, branchId, _, raw) => OpenOwns(w.seats[t].tab, w.disk, io, w.userId, branchId, ParseRead(raw).value);
      case FinishRefresh(t, io, look, branchId, saleNumber, raw) =>
        VerdictCovers(look, ParseRead(raw), w.saleId, branchId, saleNumber);
        FinishOwns(w.seats[t].tab, w.disk, io, look.basis, ParseRead(raw).value, w.userId, branchId);
      case SettleAnswer(t, io, now) => SettleOwns(w.seats[t].tab, w.disk, io, w.seats[t].phase.key, w.seats[t].phase.outcome, now);
      case SettleUnlocked(t, now) => SettleOwns(w.seats[t].tab, w.disk, ALL_FINE, w.seats[t].phase.key, w.seats[t].phase.outcome, now);
      case PrepareSend(t, io, newKey) => PrepareOwns(w.seats[t].tab, w.disk, io, newKey);
      case _ =>
    }
  }

  const ALL_FINE := Io(true, true, true, true, true, true, true, true, true)

  /** A key enters what a tab owns only by that tab's own launch, of a new key or of one whose outcome is unknown, or by its start-up
      scan. */
  lemma StepAcquires(w: World, s: Step, t: TabId, k: Key)
    requires CellOk(w.disk.cell, w.ledger) && Enabled(w, s) && Owns(Apply(w, s), t, k) && !Owns(w, t, k)
    ensures Acquires(w, s, t, k)
  {
    hide Decide, ParseRead, VerdictFor, Truthful, Load, Edit, StorageEvent, Inspect, Open, Finish, Settle, SettleWithoutLock, Prepare, Classify,
      Credit, MintedBy;
    match s {
      case LoadTab(u, io) => LoadOwns(w.seats[u].tab, w.disk, io, w.userId, w.saleId, k);
      case EditDraft(u, c) => EditOwns(w.seats[u].tab, c);
      case DeliverEvent(u, io) => EventOwns(w.seats[u].tab, w.disk, io, w.userId, w.saleId);
      case LookForRefresh(u, io) => InspectOwns(w.seats[u].tab, w.disk, io);
      case OpenDraft(u, io, branchId, _, raw) => OpenOwns(w.seats[u].tab, w.disk, io, w.userId, branchId, ParseRead(raw).value);
      case FinishRefresh(u, io, look, branchId, saleNumber, raw) =>
        VerdictCovers(look, ParseRead(raw), w.saleId, branchId, saleNumber);
        FinishOwns(w.seats[u].tab, w.disk, io, look.basis, ParseRead(raw).value, w.userId, branchId);
      case SettleAnswer(u, io, now) => SettleOwns(w.seats[u].tab, w.disk, io, w.seats[u].phase.key, w.seats[u].phase.outcome, now);
      case SettleUnlocked(u, now) => SettleOwns(w.seats[u].tab, w.disk, ALL_FINE, w.seats[u].phase.key, w.seats[u].phase.outcome, now);
      case PrepareSend(_, _, _) => PrepareAcquires(w, s, t, k);
      case _ =>
    }
  }

  lemma PrepareAcquires(w: World, s: Step, t: TabId, k: Key)
    requires CellOk(w.disk.cell, w.ledger) && Enabled(w, s) && s.PrepareSend? && Owns(Apply(w, s), t, k) && !Owns(w, t, k)
    ensures Launches(w, s, t, k)
  {
    hide Decide, Prepare, MintedBy;
    var tab := w.seats[s.t].tab;
    PrepareOwns(tab, w.disk, s.io, s.newKey);
    PrepareSendsWhatIsRecorded(tab, w.disk, s.io, s.newKey);
    if w.disk.cell.Held? && w.disk.cell.record.status.SENDING? {
      OnlyOwnersResend(tab, w.disk, s.io, s.newKey);
    }
  }

  // ---- runs ----------------------------------------------------------------------------------------------------

  /** Somewhere along the run the tab acquires the key, and it is not started again after that. */
  predicate Acquired(w: World, steps: seq<Step>, t: TabId, k: Key)
    decreases |steps|
  {
    && |steps| > 0 && Enabled(w, steps[0])
    && ((Acquires(w, steps[0], t, k) && Start(t) !in steps[1..]) || Acquired(Apply(w, steps[0]), steps[1..], t, k))
  }

  lemma StartOwnsNothing(w: World, s: Step, t: TabId, k: Key)
    requires Enabled(w, s) && s == Start(t)
    ensures !Owns(Apply(w, s), t, k)
  {
  }

  lemma {:induction false} RunAcquires(w: World, steps: seq<Step>, v: World, t: TabId, k: Key)
    requires Inv(w) && EachOwns(w) && Runs(w, steps, v) && Owns(v, t, k)
    ensures (Owns(w, t, k) && Start(t) !in steps) || Acquired(w, steps, t, k)
    decreases |steps|
  {
    hide Inv, Enabled, Apply, Owns, EachOwns, Acquires;
    if |steps| > 0 {
      var s, next := steps[0], Apply(w, steps[0]);
      assert steps == [s] + steps[1..];
      CellIsOk(w);
      StepKeepsInvariant(w, s);
      StepKeepsOwnership(w, s);
      RunAcquires(next, steps[1..], v, t, k);
      if Owns(next, t, k) && Start(t) !in steps[1..] {
        if s == Start(t) {
          StartOwnsNothing(w, s, t, k);
        } else if !Owns(w, t, k) {
          StepAcquires(w, s, t, k);
        }
      }
    }
  }

  lemma CellIsOk(w: World)
    requires Inv(w)
    ensures CellOk(w.disk.cell, w.ledger)
  {
    hide LedgerOk, EvidenceKept, NoOverlap, SeatOk, PostOk, MarkOk;
  }

  lemma {:induction false} RunKeepsOwnership(w: World, steps: seq<Step>, v: World)
    requires EachOwns(w) && Runs(w, steps, v)
    ensures EachOwns(v)
    decreases |steps|
  {
    hide EachOwns, Enabled, Apply;
    if |steps| > 0 {
      StepKeepsOwnership(w, steps[0]);
      RunKeepsOwnership(Apply(w, steps[0]), steps[1..], v);
    }
  }

  lemma NothingOwnedAtFirst(userId: string, saleId: string, exchanged: map<string, nat>)
    ensures Inv(Initial(userId, saleId, exchanged)) && EachOwns(Initial(userId, saleId, exchanged))
    ensures forall t, k :: !Owns(Initial(userId, saleId, exchanged), t, k)
  {
  }

  /** From an empty start: a tab whose request is out, answered or not, acquired its key in this very life, by minting it, by taking it
      over after an unknown outcome, or at start-up. */
  lemma SendersAcquiredTheirKey(userId: string, saleId: string, exchanged: map<string, nat>, steps: seq<Step>, v: World, t: TabId)
    requires Runs(Initial(userId, saleId, exchanged), steps, v)
    requires t in v.seats && (v.seats[t].phase.Posting? || v.seats[t].phase.Answered?)
    ensures v.seats[t].phase.key in v.seats[t].tab.owned
    ensures Acquired(Initial(userId, saleId, exchanged), steps, t, v.seats[t].phase.key)
  {
    var w := Initial(userId, saleId, exchanged);
    NothingOwnedAtFirst(userId, saleId, exchanged);
    RunKeepsOwnership(w, steps, v);
    assert SeatOwns(v.seats[t]);
    hide Inv, Runs, Acquired, EachOwns;
    RunAcquires(w, steps, v, t, v.seats[t].phase.key);
  }

  /** And while the slot says that a key is being sent, no tab puts it on the way again that has not so acquired it before. */
  lemma NoStrangerResends(userId: string, saleId: string, exchanged: map<string, nat>, steps: seq<Step>, v: World, s: Step)
    requires Runs(Initial(userId, saleId, exchanged), steps, v) && Enabled(v, s) && s.PrepareSend?
    requires v.disk.cell.Held? && v.disk.cell.record.status.SENDING? && Apply(v, s).seats[s.t].phase.Posting?
    ensures Apply(v, s).seats[s.t].phase == Posting(v.disk.cell.record.key)
    ensures Acquired(Initial(userId, saleId, exchanged), steps, s.t, v.disk.cell.record.key)
  {
    hide Runs, Acquired, Prepare, Decide, MintedBy, EachOwns, Inv;
    var w := Initial(userId, saleId, exchanged);
    NothingOwnedAtFirst(userId, saleId, exchanged);
    OnlyOwnersResend(v.seats[s.t].tab, v.disk, s.io, s.newKey);
    RunAcquires(w, steps, v, s.t, v.disk.cell.record.key);
  }
}
