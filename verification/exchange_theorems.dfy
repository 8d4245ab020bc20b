/** The guarantees of the exchange protocol, over every run of every interleaving. */
module ExchangeTheorems {
  import opened Wrappers
  import opened ExchangeTypes
  import opened Texts
  import opened ExchangeCanonical
  import opened ExchangeRecord
  import opened ExchangeSlot
  import opened ExchangeProtocol
  import opened ExchangeSteps
  import opened FreshRead
  import opened Json
  import opened Sequences

  // ---- one step keeps the invariant ----------------------------------------------------------------------------

  predicate SeatsOk(w: World) {
    forall t :: t in w.seats ==> SeatOk(w.seats[t], w.ledger)
  }

  lemma SeatsSurvive(w: World, l: Ledger)
    requires SeatsOk(w) && Grows(w.ledger, l)
    ensures SeatsOk(w.(ledger := l))
  {
    forall t | t in w.seats ensures SeatOk(w.seats[t], l) {
      SeatSurvives(w.seats[t], w.ledger, l);
    }
  }

  lemma SeatIsOk(w: World, t: TabId)
    requires Inv(w) && t in w.seats
    ensures SeatOk(w.seats[t], w.ledger) && TabOk(w.seats[t].tab, w.ledger)
    ensures LedgerOk(w.ledger) && CellOk(w.disk.cell, w.ledger) && MarkOk(w.disk.mark, w.ledger.exchanged)
  {
    hide LedgerOk, CellOk, MarkOk, TabOk, EvidenceKept, NoOverlap, PostOk;
  }

  /** A section that leaves memory, the cell and the mark in order leaves the world in order. */
  lemma SectionKeeps(w: World, t: TabId, seat: Seat, disk: Disk, dismissed: set<Key>)
    requires Inv(w) && SeatOk(seat, w.ledger)
    requires CellOk(disk.cell, w.ledger) && MarkOk(disk.mark, w.ledger.exchanged)
    requires MarkRises(w.disk.mark, disk.mark) && CellStep(w.disk, disk, w.ledger, dismissed)
    requires w.dismissed <= dismissed <= w.ledger.refused
    ensures Inv(w.(seats := w.seats[t := seat], disk := disk, dismissed := dismissed))
  {
    hide LedgerOk, SeatOk, CellOk, MarkOk, CellStep, MarkRises, NoOverlap, Evidenced, PostOk;
    EvidenceSurvives(w.disk, disk, w.ledger, w.ledger, w.dismissed, dismissed) by {
      assert Grows(w.ledger, w.ledger);
    }
  }

  lemma SameMarkRises(m: MarkCell)
    ensures MarkRises(m, m)
  {
  }

  lemma MemoryKeeps(w: World, t: TabId, seat: Seat)
    requires Inv(w) && SeatOk(seat, w.ledger)
    ensures Inv(w.(seats := w.seats[t := seat]))
  {
    SameMarkRises(w.disk.mark);
    SectionKeeps(w, t, seat, w.disk, w.dismissed);
    assert w.(seats := w.seats[t := seat], disk := w.disk, dismissed := w.dismissed) == w.(seats := w.seats[t := seat]);
  }

  lemma StartKeeps(w: World, s: Step)
    requires Inv(w) && Enabled(w, s) && (s.Start? || s.LoadTab? || s.EditDraft? || s.ResetDraft? || s.DropEditables? || s.Send?)
    ensures Inv(Apply(w, s))
  {
    var t := s.t;
    if s.Start? {
      MemoryKeeps(w, t, FRESH_SEAT);
    } else {
      var seat := w.seats[t];
      assert SeatOk(seat, w.ledger);
      if s.LoadTab? {
        LoadKeeps(seat.tab, w.disk, s.io, w.userId, w.saleId, w.ledger);
      } else if s.EditDraft? {
        EditKeeps(seat.tab, s.change, w.ledger);
      }
      hide LedgerOk, Load, Edit, DraftOk, EvidenceKept, NoOverlap;
      var next := Apply(w, s).seats[t];
      assert SeatOk(next, w.ledger);
      MemoryKeeps(w, t, next);
      assert Apply(w, s).seats == w.seats[t := next];
    }
  }

  lemma PhaseKeeps(w: World, s: Step)
    requires Inv(w) && Enabled(w, s) && (s.LockDenied? || s.Answer? || s.SettleUnlocked? || s.EndSend? || s.LookForRefresh? || s.DeliverEvent?)
    ensures Inv(Apply(w, s))
  {
    var t := s.t;
    var seat := w.seats[t];
    assert SeatOk(seat, w.ledger);
    if s.Answer? {
      ClassifyIsExact(s.response);
    } else if s.SettleUnlocked? && IsAbout(seat.tab, seat.phase.key) {
      SettledDraftOk(seat.tab.draft.value, seat.phase.outcome, s.now, w.ledger);
    } else if s.LookForRefresh? {
      InspectKeeps(seat.tab, w.disk, s.io, w.ledger);
    } else if s.DeliverEvent? {
      EventKeeps(seat.tab, w.disk, s.io, w.userId, w.saleId, w.ledger);
    }
    hide LedgerOk, Inspect, StorageEvent, DraftOk, NextDraft, EvidenceKept, NoOverlap, LookOk, Classify;
    var next := Apply(w, s).seats[t];
    assert SeatOk(next, w.ledger);
    MemoryKeeps(w, t, next);
    assert Apply(w, s).seats == w.seats[t := next];
  }

  lemma OpenStepKeeps(w: World, s: Step)
    requires Inv(w) && Enabled(w, s) && s.OpenDraft?
    ensures Inv(Apply(w, s))
  {
    var seat := w.seats[s.t];
    var read := ParseRead(s.raw).value;
    hide ParseRead, ValidateIdentity;
    OpenKeeps(seat.tab, w.disk, s.io, w.userId, s.branchId, read, w.ledger);
    hide Open, LedgerOk, MarkOk, MarkRises, CellOk, TabOk, EvidenceKept, NoOverlap;
    var (tab, disk, _) := Open(seat.tab, w.disk, s.io, w.userId, s.branchId, read);
    SectionKeeps(w, s.t, seat.(tab := tab), disk, w.dismissed);
    assert Apply(w, s) == w.(seats := w.seats[s.t := seat.(tab := tab)], disk := disk, dismissed := w.dismissed);
  }

  lemma SettleStepKeeps(w: World, s: Step)
    requires Inv(w) && Enabled(w, s) && s.SettleAnswer?
    ensures Inv(Apply(w, s))
  {
    var seat := w.seats[s.t];
    var dismissed := if seat.phase.outcome.Rejected? then w.dismissed + {seat.phase.key} else w.dismissed;
    assert SeatOk(seat, w.ledger);
    SettleKeeps(seat.tab, w.disk, s.io, seat.phase.key, seat.phase.outcome, s.now, w.ledger, dismissed);
    hide Settle, LedgerOk, MarkOk, MarkRises, CellOk, CellStep, TabOk, EvidenceKept, NoOverlap;
    var (tab, disk) := Settle(seat.tab, w.disk, s.io, seat.phase.key, seat.phase.outcome, s.now);
    SectionKeeps(w, s.t, seat.(tab := tab, phase := Done), disk, dismissed);
    assert Apply(w, s) == w.(seats := w.seats[s.t := seat.(tab := tab, phase := Done)], disk := disk, dismissed := dismissed);
  }

  lemma FinishStepKeeps(w: World, s: Step)
    requires Inv(w) && Enabled(w, s) && s.FinishRefresh?
    ensures Inv(Apply(w, s))
  {
    var seat := w.seats[s.t];
    VerdictCovers(s.look, ParseRead(s.raw), w.saleId, s.branchId, s.saleNumber);
    var read := ParseRead(s.raw).value;
    hide ParseRead, VerdictFor;
    assert SeatOk(seat, w.ledger);
    FinishKeeps(seat.tab, w.disk, s.io, s.look, read, w.userId, s.branchId, w.ledger, w.dismissed);
    hide Finish, LedgerOk, MarkOk, MarkRises, CellOk, CellStep, TabOk, EvidenceKept, NoOverlap;
    var (tab, disk, _) := Finish(seat.tab, w.disk, s.io, s.look.basis, read, w.userId, s.branchId);
    SectionKeeps(w, s.t, seat.(tab := tab), disk, w.dismissed);
    assert Apply(w, s) == w.(seats := w.seats[s.t := seat.(tab := tab)], disk := disk, dismissed := w.dismissed);
  }

  lemma VerdictCovers(look: Look, parsed: Option<Read>, saleId: string, branchId: string, saleNumber: string)
    requires VerdictFor(look.basis, look.draft, parsed, saleId, branchId, saleNumber).Ok?
    ensures parsed == Some(VerdictFor(look.basis, look.draft, parsed, saleId, branchId, saleNumber).value)
    ensures WatermarksOf(look.basis).Some? ==> forall x :: x in WatermarksOf(look.basis).value ==> Covers(parsed.value, x)
  {
    var ws := WatermarksOf(look.basis);
    AcceptedReadIsFresh(parsed, Expectation(Some(saleId), branchId, saleNumber, ws), if ws.Some? && |ws.value| > 0 then RECONCILE_CONFIRMED else OPEN_DRAFT);
  }

  // ---- minting -------------------------------------------------------------------------------------------------

  lemma MintKeepsNoOverlap(l: Ledger, n: Minted, dismissed: set<Key>)
    requires NoOverlap(l) && dismissed <= l.refused
    requires forall m :: m in l.log && m.key !in dismissed ==> ClaimsAbove(m, n)
    ensures NoOverlap(l.(log := l.log + [n]))
  {
    var k := l.(log := l.log + [n]);
    forall i, j | 0 <= i < j < |k.log| && k.log[i].key !in k.refused ensures ClaimsAbove(k.log[i], k.log[j]) {
      assert k.log[i] == l.log[i] && l.log[i] in l.log;
    }
  }

  lemma PrepareEvidence(w: World, tab: Tab, io: Io, newKey: Key)
    requires Inv(w) && TabOk(tab, w.ledger) && newKey !in KeysOf(w.ledger.log)
    ensures var (_, disk, _) := Prepare(tab, w.disk, io, newKey);
            var l := w.ledger.(log := w.ledger.log + MintedBy(tab, w.disk, io, newKey));
            EvidenceKept(disk, l, w.dismissed) && NoOverlap(l)
  {
    var minted := MintedBy(tab, w.disk, io, newKey);
    var l := w.ledger.(log := w.ledger.log + minted);
    var (_, disk, _) := Prepare(tab, w.disk, io, newKey);
    PrepareKeeps(tab, w.disk, io, newKey, w.ledger);
    SameMarkRises(w.disk.mark);
    EvidenceSurvives(w.disk, disk, w.ledger, l, w.dismissed, w.dismissed);
    if minted != [] {
      var n := minted[0];
      forall m | m in w.ledger.log && m.key !in w.dismissed ensures ClaimsAbove(m, n) {
        MintClaimsAbove(tab, w.disk, io, newKey, w.ledger, w.dismissed, m);
      }
      hide Decide, Prepare, LedgerOk, ClaimsAbove, MintedOk;
      assert minted == [n];
      MintKeepsNoOverlap(w.ledger, n, w.dismissed);
    } else {
      assert l.log == w.ledger.log;
    }
  }

  lemma PrepareStepKeeps(w: World, s: Step)
    requires Inv(w) && Enabled(w, s) && s.PrepareSend?
    ensures Inv(Apply(w, s))
  {
    hide Prepare, MintedBy, LedgerOk, CellOk, TabOk, EvidenceKept, NoOverlap, Grows, MarkOk, MarkRises;
    var seat := w.seats[s.t];
    SeatIsOk(w, s.t);
    PrepareKeeps(seat.tab, w.disk, s.io, s.newKey, w.ledger);
    PrepareEvidence(w, seat.tab, s.io, s.newKey);
    var minted := MintedBy(seat.tab, w.disk, s.io, s.newKey);
    var l := w.ledger.(log := w.ledger.log + minted);
    var (tab, disk, result) := Prepare(seat.tab, w.disk, s.io, s.newKey);
    SeatsSurvive(w, l);
    SeatSurvives(seat, w.ledger, l);
    var v := Apply(w, s);
    assert v.ledger == l && v.disk == disk;
    forall t | t in v.seats ensures SeatOk(v.seats[t], l) {
      if t != s.t {
        assert SeatOk(w.(ledger := l).seats[t], l);
      }
    }
    forall p | p in v.posts ensures PostOk(p, l) {
      if p in w.posts {
        PostSurvives(p, w.ledger, l);
      } else {
        var a := result.value;
        assert Minted(a.key, a.payload, a.watermarks) in l.log;
      }
    }
  }

  lemma PostSurvives(p: Post, a: Ledger, b: Ledger)
    requires PostOk(p, a) && Grows(a, b)
    ensures PostOk(p, b)
  {
    var m :| m in a.log && m.key == p.key && m.payload == p.payload;
    assert m in b.log;
  }

  // ---- the server and the environment --------------------------------------------------------------------------

  lemma {:induction false} LineIsCounted(lines: seq<CanonicalLine>, i: nat)
    requires i < |lines|
    ensures QuantityOf(lines, lines[i].saleItemId) >= lines[i].returnQuantity
  {
    if i < |lines| - 1 {
      LineIsCounted(lines[..|lines| - 1], i);
    }
  }

  lemma CreditReaches(m: Minted, exchanged: map<string, nat>)
    requires MintedOk(m, exchanged)
    ensures Reached(m.watermarks, Credit(exchanged, m.payload))
  {
    var after := Credit(exchanged, m.payload);
    forall x | x in m.watermarks ensures x.saleItemId in after && x.after <= after[x.saleItemId] {
      var i :| 0 <= i < |m.watermarks| && m.watermarks[i] == x;
      assert WatermarkHolds(x, exchanged);
      LineIsCounted(m.payload.lines, i);
    }
  }

  lemma MintedSurvives(m: Minted, a: map<string, nat>, b: map<string, nat>)
    requires MintedOk(m, a) && forall item :: item in a ==> item in b && a[item] <= b[item]
    ensures MintedOk(m, b)
  {
    hide Lower, ItemOf, Distinct, Map;
    forall x | x in m.watermarks ensures WatermarkHolds(x, b) {
      assert WatermarkHolds(x, a);
    }
  }

  lemma TruthGrows(l: Ledger, k: Ledger)
    requires LedgerOk(l) && Grows(l, k) && k.log == l.log && k.committed !! k.refused && k.committed <= KeysOf(k.log)
    requires forall m :: m in l.log && m.key in k.committed && m.key !in l.committed ==> Reached(m.watermarks, k.exchanged)
    ensures LedgerOk(k)
  {
    forall m | m in k.log ensures MintedOk(m, k.exchanged) {
      MintedSurvives(m, l.exchanged, k.exchanged);
    }
    forall m | m in k.log && m.key in k.committed ensures Reached(m.watermarks, k.exchanged) {
      if m.key in l.committed {
        assert Reached(m.watermarks, l.exchanged);
      }
    }
  }

  /** When only what is true about the server grows, everything recorded stays in order. */
  lemma TruthStepKeeps(w: World, l: Ledger)
    requires Inv(w) && LedgerOk(l) && Grows(w.ledger, l) && l.log == w.ledger.log
    ensures Inv(w.(ledger := l))
  {
    SeatsSurvive(w, l);
    SameMarkRises(w.disk.mark);
    EvidenceSurvives(w.disk, w.disk, w.ledger, l, w.dismissed, w.dismissed);
    forall p | p in w.posts ensures PostOk(p, l) {
      PostSurvives(p, w.ledger, l);
    }
    hide LedgerOk, SeatOk, EvidenceKept, ClaimsAbove;
  }

  lemma CommitStepKeeps(w: World, s: Step)
    requires Inv(w) && Enabled(w, s) && s.Commit?
    ensures Inv(Apply(w, s))
  {
    hide SeatOk, EvidenceKept, NoOverlap, MintedOk, Reached;
    var l := Apply(w, s).ledger;
    assert PostOk(s.post, w.ledger);
    var m :| m in w.ledger.log && m.key == s.post.key && m.payload == s.post.payload;
    CreditReaches(m, w.ledger.exchanged);
    forall x | x in w.ledger.log && x.key in l.committed && x.key !in w.ledger.committed ensures Reached(x.watermarks, l.exchanged) {
      SameKeySameMinted(w.ledger, m, x);
    }
    TruthGrows(w.ledger, l);
    TruthStepKeeps(w, l);
  }

  lemma ServerStepKeeps(w: World, s: Step)
    requires Inv(w) && Enabled(w, s) && (s.RefuseKey? || s.OthersExchange?)
    ensures Inv(Apply(w, s))
  {
    hide SeatOk, MintedOk, Reached, ClaimsAbove, EvidenceKept;
    TruthGrows(w.ledger, Apply(w, s).ledger);
    TruthStepKeeps(w, Apply(w, s).ledger);
  }

  lemma CorruptionKeeps(w: World, s: Step)
    requires Inv(w) && Enabled(w, s) && (s.CorruptAttempt? || s.CorruptMark?)
    ensures Inv(Apply(w, s))
  {
    hide SeatOk, MintedOk, Reached, ClaimsAbove, LedgerOk;
    var disk := Apply(w, s).disk;
    EvidenceSurvives(w.disk, disk, w.ledger, w.ledger, w.dismissed, w.dismissed);
  }

  /** Every step keeps the invariant. */
  lemma StepKeepsInvariant(w: World, s: Step)
    requires Inv(w) && Enabled(w, s)
    ensures Inv(Apply(w, s))
  {
    match s {
      case OpenDraft(_, _, _, _, _) => OpenStepKeeps(w, s);
      case PrepareSend(_, _, _) => PrepareStepKeeps(w, s);
      case SettleAnswer(_, _, _) => SettleStepKeeps(w, s);
      case FinishRefresh(_, _, _, _, _, _) => FinishStepKeeps(w, s);
      case Commit(_) => CommitStepKeeps(w, s);
      case RefuseKey(_) => ServerStepKeeps(w, s);
      case OthersExchange(_, _) => ServerStepKeeps(w, s);
      case CorruptAttempt => CorruptionKeeps(w, s);
      case CorruptMark => CorruptionKeeps(w, s);
      case Start(_) => StartKeeps(w, s);
      case LoadTab(_, _) => StartKeeps(w, s);
      case EditDraft(_, _) => StartKeeps(w, s);
      case ResetDraft(_) => StartKeeps(w, s);
      case DropEditables(_) => StartKeeps(w, s);
      case Send(_) => StartKeeps(w, s);
      case _ => PhaseKeeps(w, s);
    }
  }

  // ---- runs ----------------------------------------------------------------------------------------------------

  /** The world v is what the steps make of w, each one enabled where it is taken. */
  predicate Runs(w: World, steps: seq<Step>, v: World)
    decreases |steps|
  {
    if |steps| == 0 then v == w else Enabled(w, steps[0]) && Runs(Apply(w, steps[0]), steps[1..], v)
  }

  ghost predicate Reachable(v: World) {
    exists userId: string, saleId: string, exchanged: map<string, nat>, steps: seq<Step> :: Runs(Initial(userId, saleId, exchanged), steps, v)
  }

  lemma {:induction false} RunKeepsInvariant(w: World, steps: seq<Step>, v: World)
    requires Inv(w) && Runs(w, steps, v)
    ensures Inv(v)
    decreases |steps|
  {
    hide Inv, Enabled, Apply;
    if |steps| > 0 {
      StepKeepsInvariant(w, steps[0]);
      RunKeepsInvariant(Apply(w, steps[0]), steps[1..], v);
    }
  }

  lemma ReachableIsInOrder(v: World)
    requires Reachable(v)
    ensures Inv(v)
  {
    var userId: string, saleId: string, exchanged: map<string, nat>, steps: seq<Step> :| Runs(Initial(userId, saleId, exchanged), steps, v);
    assert Inv(Initial(userId, saleId, exchanged));
    RunKeepsInvariant(Initial(userId, saleId, exchanged), steps, v);
  }

  // ---- no unit is exchanged twice ------------------------------------------------------------------------------

  /** In every reachable world, two keys minted one after the other, of which the earlier was not refused, claim disjoint
      intervals of every item they share: the later one starts at the earlier one's end, or above. */
  lemma NoUnitIsExchangedTwice(v: World, i: nat, j: nat)
    requires Reachable(v) && i < j < |v.ledger.log| && v.ledger.log[i].key !in v.ledger.refused
    ensures forall x, y :: x in v.ledger.log[i].watermarks && y in v.ledger.log[j].watermarks && x.saleItemId == y.saleItemId ==>
              y.before >= x.after
  {
    ReachableIsInOrder(v);
    assert ClaimsAbove(v.ledger.log[i], v.ledger.log[j]);
  }

  /** The units a committed key took are below what the server shows, and no other committed key took them. */
  lemma CommittedClaimsAreDisjoint(v: World, a: Minted, b: Minted, x: Watermark, y: Watermark)
    requires Reachable(v) && a in v.ledger.log && b in v.ledger.log && a.key != b.key
    requires a.key in v.ledger.committed && b.key in v.ledger.committed
    requires x in a.watermarks && y in b.watermarks && x.saleItemId == y.saleItemId
    ensures x.after <= y.before || y.after <= x.before
    ensures x.saleItemId in v.ledger.exchanged && x.before < x.after <= v.ledger.exchanged[x.saleItemId]
  {
    ReachableIsInOrder(v);
    var i :| 0 <= i < |v.ledger.log| && v.ledger.log[i] == a;
    var j :| 0 <= j < |v.ledger.log| && v.ledger.log[j] == b;
    if i < j {
      assert ClaimsAbove(a, b);
    } else {
      assert ClaimsAbove(b, a);
    }
    assert MintedOk(a, v.ledger.exchanged) && Reached(a.watermarks, v.ledger.exchanged);
    var k :| 0 <= k < |a.watermarks| && a.watermarks[k] == x;
    assert x.after == x.before + a.payload.lines[k].returnQuantity && a.payload.lines[k] in a.payload.lines;
  }

  // ---- evidence is never lost ----------------------------------------------------------------------------------

  /** Each minted key that no tab saw refused is what the slot holds, or the slot is unreadable and blocks, or the key was
      confirmed and the mark covers every one of its watermarks (or the mark is unreadable and blocks). */
  lemma EvidenceIsNeverLost(v: World, m: Minted)
    requires Reachable(v) && m in v.ledger.log
    ensures m.key in v.dismissed || v.disk.cell.Garbage? || (v.disk.cell.Held? && v.disk.cell.record.key == m.key)
            || (m.key in v.ledger.committed && Remembers(v.disk.mark, m.watermarks))
    ensures v.dismissed <= v.ledger.refused && v.ledger.refused !! v.ledger.committed
  {
    ReachableIsInOrder(v);
    assert Evidenced(m, v.disk, v.ledger, v.dismissed);
  }

  /** An unreadable slot, an unreadable mark and a slot that holds a record all stop a new key. */
  lemma NothingIsMintedOverEvidence(tab: Tab, disk: Disk, io: Io, newKey: Key)
    requires !disk.cell.Absent? || disk.mark.BadMark?
    ensures MintedBy(tab, disk, io, newKey) == []
  {
    if Decide(tab, disk, io).Mint? && io.available {
      MintSeesTheMark(tab, disk, io);
      assert false;
    }
  }

  // ---- one key, one body ---------------------------------------------------------------------------------------

  /** Any two requests that carry the same key carry the same reason and lines, whichever tabs sent them. */
  lemma OneKeyOneBody(v: World, p: Post, q: Post)
    requires Reachable(v) && p in v.posts && q in v.posts && p.key == q.key
    ensures p.payload == q.payload
  {
    ReachableIsInOrder(v);
    assert PostOk(p, v.ledger) && PostOk(q, v.ledger);
    var a :| a in v.ledger.log && a.key == p.key && a.payload == p.payload;
    var b :| b in v.ledger.log && b.key == q.key && b.payload == q.payload;
    SameKeySameMinted(v.ledger, a, b);
  }

  /** A prepare that succeeds over a record sends exactly that record's key and payload, and leaves that key in the slot; over
      an empty slot it sends the new key. It never succeeds over a tombstone. */
  lemma PrepareSendsWhatIsRecorded(tab: Tab, disk: Disk, io: Io, newKey: Key)
    requires Prepare(tab, disk, io, newKey).2.Ok?
    ensures var (_, disk', result) := Prepare(tab, disk, io, newKey);
            && (disk.cell.Held? ==>
                  !disk.cell.record.status.CONFIRMED? && result.value.key == disk.cell.record.key
                  && result.value.payload == disk.cell.record.payload && result.value.watermarks == disk.cell.record.watermarks)
            && (!disk.cell.Held? ==> disk.cell.Absent? && result.value.key == newKey)
            && disk'.cell.Held? && disk'.cell.record.key == result.value.key && disk'.cell.record.payload == result.value.payload
            && disk'.cell.record.status.SENDING?
  {
    hide CanonicalPayloadOf, CanonicalWatermarksOf, OlderThanMark, DraftFromRecord, Persistable;
  }

  // ---- the mark ------------------------------------------------------------------------------------------------

  lemma StepRaisesMark(w: World, s: Step)
    requires Inv(w) && Enabled(w, s)
    ensures MarkRises(w.disk.mark, Apply(w, s).disk.mark)
  {
    hide Inv, ParseRead, VerdictFor, Open, Prepare, Settle, Finish, LedgerOk, TabOk, CellOk, MarkOk, CellStep, Grows,
      MintedBy, Truthful, Covers;
    SameMarkRises(w.disk.mark);
    match s {
      case OpenDraft(t, io, branchId, _, raw) =>
        SeatIsOk(w, t);
        OpenKeeps(w.seats[t].tab, w.disk, io, w.userId, branchId, ParseRead(raw).value, w.ledger);
      case PrepareSend(t, io, newKey) =>
        SeatIsOk(w, t);
        PrepareKeeps(w.seats[t].tab, w.disk, io, newKey, w.ledger);
      case SettleAnswer(t, io, now) =>
        var phase := w.seats[t].phase;
        SeatIsOk(w, t);
        SettleKeeps(w.seats[t].tab, w.disk, io, phase.key, phase.outcome, now, w.ledger, w.dismissed + {phase.key});
      case FinishRefresh(t, io, look, branchId, saleNumber, raw) =>
        SeatIsOk(w, t);
        VerdictCovers(look, ParseRead(raw), w.saleId, branchId, saleNumber);
        FinishKeeps(w.seats[t].tab, w.disk, io, look, ParseRead(raw).value, w.userId, branchId, w.ledger, w.dismissed);
      case _ =>
    }
  }

  lemma MarkRisesOn(a: MarkCell, b: MarkCell, c: MarkCell)
    requires MarkRises(a, b) && MarkRises(b, c)
    ensures MarkRises(a, c)
  {
  }

  /** From any world in order, no run ever lowers the mark, and the mark is never above what the server shows. */
  lemma {:induction false} TheMarkNeverFalls(w: World, steps: seq<Step>, v: World)
    requires Inv(w) && Runs(w, steps, v)
    ensures MarkRises(w.disk.mark, v.disk.mark)
    ensures v.disk.mark.Marked? ==>
              forall item :: item in v.disk.mark.lines ==> item in v.ledger.exchanged && v.disk.mark.lines[item] <= v.ledger.exchanged[item]
    decreases |steps|
  {
    RunKeepsInvariant(w, steps, v);
    SameMarkRises(w.disk.mark);
    hide Enabled, Apply, LedgerOk, EvidenceKept, NoOverlap;
    if |steps| > 0 {
      var next := Apply(w, steps[0]);
      StepRaisesMark(w, steps[0]);
      StepKeepsInvariant(w, steps[0]);
      TheMarkNeverFalls(next, steps[1..], v);
      MarkRisesOn(w.disk.mark, next.disk.mark, v.disk.mark);
    }
  }

  // ---- fresh reads and stale reads -----------------------------------------------------------------------------

  /** The read shows, of every item of the sale, exactly what the server has. */
  predicate UpToDate(read: Read, exchanged: map<string, nat>) {
    && (forall l :: l in read.lines ==> ItemOfRead(l) in exchanged && l.exchanged == exchanged[ItemOfRead(l)])
    && (forall item :: item in exchanged ==> FindRow(read.lines, item).Some?)
  }

  /** A read served when the server shows these quantities covers every watermark of a record confirmed by then. */
  lemma UpToDateReadCovers(u: World, read: Read, r: Record)
    requires Inv(u) && UpToDate(read, u.ledger.exchanged)
    requires KnownRecord(r, u.ledger) && r.status.CONFIRMED?
    ensures forall x :: x in r.watermarks ==> Covers(read, x)
  {
    var m := Minted(r.key, r.payload, r.watermarks);
    assert MintedOk(m, u.ledger.exchanged) && Reached(m.watermarks, u.ledger.exchanged);
    forall x | x in r.watermarks ensures Covers(read, x) {
      assert WatermarkHolds(x, u.ledger.exchanged);
    }
  }

  /** The mark is above these quantities on the item. */
  predicate Outruns(mark: MarkCell, item: string, exchanged: map<string, nat>) {
    mark.Marked? && item in mark.lines && item in exchanged && mark.lines[item] > exchanged[item]
  }

  /** The second mark is strictly above the first on the item. */
  predicate Rose(a: MarkCell, b: MarkCell, item: string) {
    && !a.BadMark? && b.Marked? && item in b.lines
    && (a.Marked? && item in a.lines ==> a.lines[item] < b.lines[item])
  }

  /** The sections that raise the mark. */
  predicate MayRaise(s: Step) {
    s.OpenDraft? || s.SettleAnswer? || s.FinishRefresh?
  }

  lemma OnlyTheseRaise(w: World, s: Step)
    requires Enabled(w, s) && !MayRaise(s) && !s.CorruptMark?
    ensures Apply(w, s).disk.mark == w.disk.mark
  {
    hide Decide, Truthful, ParseRead, VerdictFor, Load, Edit, Inspect, StorageEvent, RecordOf, CellOf, Credit;
  }

  lemma {:induction false} SomeStepRaised(w: World, steps: seq<Step>, v: World, item: string)
    requires Inv(w) && Runs(w, steps, v) && Rose(w.disk.mark, v.disk.mark, item)
    ensures exists s :: s in steps && MayRaise(s)
    decreases |steps|
  {
    hide Inv, Enabled, Apply;
    assert |steps| > 0;
    var s := steps[0];
    if MayRaise(s) {
      assert s in steps;
    } else {
      var next := Apply(w, s);
      StepKeepsInvariant(w, s);
      TheMarkNeverFalls(next, steps[1..], v);
      if s.CorruptMark? {
        CorruptedMarkIsBad(w, s);
        assert false;
      }
      OnlyTheseRaise(w, s);
      SomeStepRaised(next, steps[1..], v, item);
      var t :| t in steps[1..] && MayRaise(t);
      assert t in steps;
    }
  }

  lemma CorruptedMarkIsBad(w: World, s: Step)
    requires Enabled(w, s) && s.CorruptMark?
    ensures Apply(w, s).disk.mark.BadMark?
  {
  }

  /** A read of exactly these quantities is older than a mark that is above them on some item, and only than such a mark. */
  lemma RefusedIffOutrun(read: Read, exchanged: map<string, nat>, mark: MarkCell, io: Io)
    requires UpToDate(read, exchanged)
    ensures OlderThanMark(ReadMark(io, io.readMark, mark), Map(ShownLine, read.lines)) <==>
            io.available && io.readMark && exists item :: Outruns(mark, item, exchanged)
  {
    hide Lower;
    var shown := Map(ShownLine, read.lines);
    if OlderThanMark(ReadMark(io, io.readMark, mark), shown) {
      var i :| 0 <= i < |shown| && Lower(shown[i].0) in mark.lines && shown[i].1 < mark.lines[Lower(shown[i].0)];
      assert read.lines[i] in read.lines && ItemOfRead(read.lines[i]) == Lower(shown[i].0);
      assert Outruns(mark, Lower(shown[i].0), exchanged);
    }
    if io.available && io.readMark && exists item :: Outruns(mark, item, exchanged) {
      var item :| Outruns(mark, item, exchanged);
      var row := FindRow(read.lines, item).value;
      var i :| 0 <= i < |read.lines| && read.lines[i] == row;
      assert shown[i] == (row.saleItemId, row.exchanged);
    }
  }

  /** A GET runs unlocked, and its read is checked in a later section. A read that was up to date when it was served, at u, is refused
      at v exactly when the mark there is above what the server had at u on some item; and then a section in between raised the mark
      on that item, because the server had moved. */
  lemma ReadIsRefusedIffOutrun(u: World, steps: seq<Step>, v: World, read: Read, io: Io)
    requires Inv(u) && Runs(u, steps, v) && UpToDate(read, u.ledger.exchanged)
    ensures OlderThanMark(ReadMark(io, io.readMark, v.disk.mark), Map(ShownLine, read.lines)) <==>
            io.available && io.readMark && exists item :: Outruns(v.disk.mark, item, u.ledger.exchanged)
    ensures forall item :: Outruns(v.disk.mark, item, u.ledger.exchanged) ==>
              && Rose(u.disk.mark, v.disk.mark, item) && item in v.ledger.exchanged && v.ledger.exchanged[item] > u.ledger.exchanged[item]
              && exists s :: s in steps && MayRaise(s)
  {
    TheMarkNeverFalls(u, steps, v);
    RefusedIffOutrun(read, u.ledger.exchanged, v.disk.mark, io);
    hide Runs, LedgerOk, EvidenceKept, NoOverlap, OlderThanMark, UpToDate, ReadMark;
    forall item | Outruns(v.disk.mark, item, u.ledger.exchanged)
      ensures Rose(u.disk.mark, v.disk.mark, item) && exists s :: s in steps && MayRaise(s)
    {
      SomeStepRaised(u, steps, v, item);
    }
  }

  /** So it is for the second section of a reconciliation: over an unchanged basis and a readable mark it gives up as stale exactly
      when the mark outran the read while it was under way. */
  lemma RefreshIsStaleIffOutrun(u: World, steps: seq<Step>, v: World, s: Step)
    requires Inv(u) && Runs(u, steps, v) && s.FinishRefresh? && Enabled(v, s) && UpToDate(ParseRead(s.raw).value, u.ledger.exchanged)
    requires var (_, inspection) := Inspect(v.seats[s.t].tab, v.disk, s.io); inspection.Inspected? && SameBasis(s.look.basis, inspection.basis)
    requires !ReadMark(s.io, s.io.readMark, v.disk.mark).MarkUnusable?
    ensures Finish(v.seats[s.t].tab, v.disk, s.io, s.look.basis, ParseRead(s.raw).value, v.userId, s.branchId).2.Stale? <==>
            s.io.available && exists item :: Outruns(v.disk.mark, item, u.ledger.exchanged)
  {
    ReadIsRefusedIffOutrun(u, steps, v, ParseRead(s.raw).value, s.io);
    hide Inv, Runs, UpToDate, ParseRead, VerdictFor, Inspect, OlderThanMark, FinishRaised, RaiseMark, Truthful, Outruns;
  }

  /** A truthful read refused later shows some item below the mark, hence below the server: it was behind when it was served, or the mark
      has risen since above what the server had then. */
  lemma StaleReadIsBehind(u: World, steps: seq<Step>, v: World, read: Read, io: Io)
    requires Inv(u) && Runs(u, steps, v) && Truthful(read, u.ledger.exchanged)
    requires OlderThanMark(ReadMark(io, io.readMark, v.disk.mark), Map(ShownLine, read.lines))
    ensures exists l :: l in read.lines
              && var item := ItemOfRead(l);
                 && item in u.ledger.exchanged && item in v.disk.mark.lines && item in v.ledger.exchanged
                 && l.exchanged < v.disk.mark.lines[item] <= v.ledger.exchanged[item]
                 && (l.exchanged < u.ledger.exchanged[item]
                     || (Outruns(v.disk.mark, item, u.ledger.exchanged) && Rose(u.disk.mark, v.disk.mark, item)))
  {
    TheMarkNeverFalls(u, steps, v);
    hide Runs, LedgerOk, EvidenceKept, NoOverlap;
    var shown := Map(ShownLine, read.lines);
    var i :| 0 <= i < |shown| && Lower(shown[i].0) in v.disk.mark.lines && shown[i].1 < v.disk.mark.lines[Lower(shown[i].0)];
    var l := read.lines[i];
    assert l in read.lines && ItemOfRead(l) == Lower(shown[i].0) && l.exchanged == shown[i].1;
  }

  // ---- opening and reconciling start at the mark ---------------------------------------------------------------

  predicate DistinctItems(values: seq<Shown>) {
    forall i, j :: 0 <= i < j < |values| ==> Lower(values[i].0) != Lower(values[j].0)
  }

  /** Values that are not below what was known are what the merge holds for their items. */
  lemma MergedIsShown(known: map<string, nat>, values: seq<Shown>, merged: map<string, nat>, i: nat)
    requires MergedFrom(known, values, merged) && DistinctItems(values) && i < |values|
    requires Lower(values[i].0) in known ==> known[Lower(values[i].0)] <= values[i].1
    ensures Lower(values[i].0) in merged && merged[Lower(values[i].0)] == values[i].1
  {
    hide Lower;
    var item := Lower(values[i].0);
    if !(item in known && merged[item] == known[item]) {
      var j :| 0 <= j < |values| && Lower(values[j].0) == item && values[j].1 == merged[item];
      assert i == j;
    }
  }

  lemma MergedIsReadable(known: map<string, nat>, values: seq<Shown>, merged: map<string, nat>)
    requires MergedFrom(known, values, merged) && (known == map[] || ReadableMark(known)) && merged != map[] && AllFit(values)
    requires forall i :: 0 <= i < |values| ==> IsUuid(values[i].0)
    ensures ReadableMark(merged)
  {
    forall i | 0 <= i < |values| {
      LowerIsStable(values[i].0);
    }
    hide Lower, IsUuid, IsWatermarkQuantity;
    forall item | item in merged ensures IsUuid(item) && Lower(item) == item && IsWatermarkQuantity(merged[item]) {
      if !(item in known && merged[item] == known[item]) {
        var j :| 0 <= j < |values| && Lower(values[j].0) == item && values[j].1 == merged[item];
      }
    }
  }

  lemma RaiseIsExact(io: Io, mark: MarkCell, values: seq<Shown>)
    requires RaiseMark(io, mark, values).1 && !OlderThanMark(ReadMark(io, io.readMark, mark), values)
    requires DistinctItems(values) && (forall i :: 0 <= i < |values| ==> IsUuid(values[i].0))
    requires !ReadMark(io, io.readMark, mark).MarkUnusable? && (mark.Marked? ==> ReadableMark(mark.lines))
    ensures var r := RaiseMark(io, mark, values).0;
            r.Marked? && forall i :: 0 <= i < |values| ==> Lower(values[i].0) in r.lines && r.lines[Lower(values[i].0)] == values[i].1
  {
    hide Lower, Merge, IsUuid, ReadableMark, MergedFrom, DistinctItems, AllFit;
    var known: map<string, nat> := if mark.Marked? then mark.lines else map[];
    var merged := Merge(known, values);
    MergeRaises(known, values);
    forall i | 0 <= i < |values| ensures Lower(values[i].0) in merged && merged[Lower(values[i].0)] == values[i].1 {
      MergedIsShown(known, values, merged, i);
    }
    if merged != map[] {
      MergedIsReadable(known, values, merged);
    }
  }

  lemma ParsedItemsAreDistinct(raw: Json)
    requires ParseRead(raw).Some?
    ensures var shown := Map(ShownLine, ParseRead(raw).value.lines);
            DistinctItems(shown) && forall i :: 0 <= i < |shown| ==> IsUuid(shown[i].0)
  {
    var lines := ParseRead(raw).value.lines;
    var rows := raw.fields[LINES].items;
    forall i | 0 <= i < |lines| ensures IsUuid(lines[i].saleItemId) {
      assert lines[i] == RowOf(rows[i]) && ValidRow(rows[i]);
    }
    hide ParseRead, IsUuid, Lower;
    forall i, j | 0 <= i < j < |lines| ensures Lower(lines[i].saleItemId) != Lower(lines[j].saleItemId) {
      assert Map(ItemOfRead, lines)[i] != Map(ItemOfRead, lines)[j];
    }
  }

  /** Every line of the draft starts exactly at the mark. */
  predicate StartsAtMark(d: Draft, mark: MarkCell) {
    mark.Marked? && forall x :: x in d.lines ==> Lower(x.saleItemId) in mark.lines && mark.lines[Lower(x.saleItemId)] == x.before
  }

  lemma NewDraftStartsAtMark(userId: string, branchId: string, saleId: string, read: Read, mark: MarkCell)
    requires mark.Marked?
    requires var shown := Map(ShownLine, read.lines);
             forall i :: 0 <= i < |shown| ==> Lower(shown[i].0) in mark.lines && mark.lines[Lower(shown[i].0)] == shown[i].1
    ensures StartsAtMark(NewDraft(userId, branchId, saleId, read), mark)
  {
    var d := NewDraft(userId, branchId, saleId, read);
    hide Lower;
    forall x | x in d.lines ensures Lower(x.saleItemId) in mark.lines && mark.lines[Lower(x.saleItemId)] == x.before {
      var y :| y in read.lines && x == DraftLineOf(y);
      var i :| 0 <= i < |read.lines| && read.lines[i] == y;
      assert Map(ShownLine, read.lines)[i] == (y.saleItemId, y.exchanged);
    }
  }

  /** Whatever happened between the two looks, a reconciliation that reopens the sale leaves an empty slot and a draft every
      line of which starts at the mark of that moment; the same holds of a draft opened from a read over an empty slot. */
  lemma ReopenedDraftStartsAtMark(tab: Tab, disk: Disk, io: Io, first: Basis, raw: Json, userId: string, branchId: string)
    requires ParseRead(raw).Some? && (disk.mark.Marked? ==> ReadableMark(disk.mark.lines))
    requires Finish(tab, disk, io, first, ParseRead(raw).value, userId, branchId).2.Reopened?
    ensures var (_, disk', result) := Finish(tab, disk, io, first, ParseRead(raw).value, userId, branchId);
            disk'.cell.Absent? && StartsAtMark(result.draft, disk'.mark)
  {
    var read := ParseRead(raw).value;
    var shown := Map(ShownLine, read.lines);
    ParsedItemsAreDistinct(raw);
    hide ParseRead;
    RaiseIsExact(io, disk.mark, shown);
    var mark := RaiseMark(io, disk.mark, shown).0;
    NewDraftStartsAtMark(userId, branchId, tab.draft.value.saleId, read, mark);
    hide RaiseMark, NewDraft, OlderThanMark, DraftFromRecord, StartsAtMark, DistinctItems, Lower;
  }

  lemma OpenedDraftStartsAtMark(tab: Tab, disk: Disk, io: Io, raw: Json, userId: string, branchId: string)
    requires ParseRead(raw).Some? && (disk.mark.Marked? ==> ReadableMark(disk.mark.lines))
    requires tab.draft.None? && io.available
    requires var r := Open(tab, disk, io, userId, branchId, ParseRead(raw).value).2;
             r.OpenedDraft? && r.draft.attempt.None? && r.draft.recovery.None?
    ensures var (_, disk', result) := Open(tab, disk, io, userId, branchId, ParseRead(raw).value);
            disk'.cell.Absent? && StartsAtMark(result.draft, disk'.mark)
  {
    var read := ParseRead(raw).value;
    var shown := Map(ShownLine, read.lines);
    ParsedItemsAreDistinct(raw);
    hide ParseRead;
    RaiseIsExact(io, disk.mark, shown);
    var mark := RaiseMark(io, disk.mark, shown).0;
    NewDraftStartsAtMark(userId, branchId, read.saleId, read, mark);
    hide RaiseMark, NewDraft, OlderThanMark, StartsAtMark, DistinctItems, Lower;
  }

  /** ABA: other tabs may have minted, confirmed and reconciled whole cycles in between; the reopened draft still starts at or
      above the end of every minted key that no tab saw refused. */
  lemma ReconciliationSurvivesABA(v: World, s: Step, m: Minted, x: Watermark, y: DraftLine)
    requires Reachable(v) && s.FinishRefresh? && Enabled(v, s)
    requires Finish(v.seats[s.t].tab, v.disk, s.io, s.look.basis, ParseRead(s.raw).value, v.userId, s.branchId).2.Reopened?
    requires m in v.ledger.log && m.key !in v.dismissed && x in m.watermarks
    requires Apply(v, s).seats[s.t].tab.draft.Some? && y in Apply(v, s).seats[s.t].tab.draft.value.lines && Lower(y.saleItemId) == x.saleItemId
    ensures m.key in v.ledger.committed && y.before >= x.after
  {
    ReachableIsInOrder(v);
    StepKeepsInvariant(v, s);
    ReopenedDraftStartsAtMark(v.seats[s.t].tab, v.disk, s.io, s.look.basis, s.raw, v.userId, s.branchId);
    ReopenedIsSeated(v.seats[s.t].tab, v.disk, s.io, s.look.basis, ParseRead(s.raw).value, v.userId, s.branchId);
    hide Finish, ParseRead, VerdictFor, LedgerOk, NoOverlap, Lower;
    assert Evidenced(m, Apply(v, s).disk, v.ledger, v.dismissed);
  }

  lemma ReopenedIsSeated(tab: Tab, disk: Disk, io: Io, first: Basis, read: Read, userId: string, branchId: string)
    requires Finish(tab, disk, io, first, read, userId, branchId).2.Reopened?
    ensures var (tab', _, result) := Finish(tab, disk, io, first, read, userId, branchId); tab'.draft == Some(result.draft)
  {
    hide RaiseMark, NewDraft, OlderThanMark, DraftFromRecord;
  }

  // ---- tombstones and late answers -----------------------------------------------------------------------------

  /** Settling a key never alters a record of another key, nor a tombstone. */
  lemma SettlingLeavesOthersAlone(tab: Tab, disk: Disk, io: Io, key: Key, outcome: Outcome, now: int)
    requires disk.cell.Garbage? || (disk.cell.Held? && (disk.cell.record.key != key || disk.cell.record.status.CONFIRMED?))
    ensures Settle(tab, disk, io, key, outcome, now).1.cell == disk.cell
  {
    hide DraftFromRecord, RaiseMark, Persistable;
  }

  /** A confirmation settled over the open record of its key, with storage at work, leaves a tombstone that a later load can read
      exactly when the server's exchange id is a UUID and the clock shows a positive safe integer; otherwise what it leaves is
      unreadable and blocks. Another tab may have written the open record, from a draft with another branch. */
  lemma ConfirmationLeavesReadableTombstone(tab: Tab, disk: Disk, io: Io, key: Key, exchangeId: string, now: int)
    requires IsAbout(tab, key) && IsRecordable(tab.draft.value, tab.draft.value.attempt.value)
    requires io.available && io.readCell && io.writeCell
    requires disk.cell.Absent? || (disk.cell.Held? && disk.cell.record.key == key && !disk.cell.record.status.CONFIRMED?)
    ensures var after := Settle(tab, disk, io, key, Confirmed(exchangeId), now).1.cell;
            if IsUuid(exchangeId) && 0 < now <= MAX_SAFE_INTEGER then
              after == Held(RecordOf(tab.draft.value, tab.draft.value.attempt.value, SENDING).(
                              status := CONFIRMED, exchangeId := Some(exchangeId), confirmedAt := Some(now)))
            else after.Garbage?
  {
    hide IsUuid, IsUuidV4, WellFormedPayload, WellFormedWatermarks, RaiseMark;
  }

  /** A tombstone leaves the slot only in the second section of a reconciliation, and then the mark remembers it. */
  lemma TombstoneIsAbsorbing(v: World, s: Step)
    requires Reachable(v) && Enabled(v, s) && v.disk.cell.Held? && v.disk.cell.record.status.CONFIRMED?
    ensures var after := Apply(v, s).disk;
            || after.cell == v.disk.cell
            || s.CorruptAttempt?
            || (s.FinishRefresh? && after.cell.Absent? && Remembers(after.mark, v.disk.cell.record.watermarks)
                && forall x :: x in v.disk.cell.record.watermarks ==> Covers(ParseRead(s.raw).value, x))
  {
    hide Inv, ParseRead, VerdictFor, Open, Prepare, Settle, Finish, Remembers, Covers, LedgerOk, TabOk, CellOk, MarkOk, MarkRises,
      MintedBy, Truthful, Reachable;
    ReachableIsInOrder(v);
    match s {
      case OpenDraft(t, io, branchId, _, raw) =>
        SeatIsOk(v, t);
        OpenKeeps(v.seats[t].tab, v.disk, io, v.userId, branchId, ParseRead(raw).value, v.ledger);
      case PrepareSend(t, io, newKey) => PrepareStopsAtTombstone(v.seats[t].tab, v.disk, io, newKey);
      case SettleAnswer(t, io, now) => SettlingLeavesOthersAlone(v.seats[t].tab, v.disk, io, v.seats[t].phase.key, v.seats[t].phase.outcome, now);
      case FinishRefresh(_, _, _, _, _, _) => FinishClosesTombstone(v, s);
      case _ =>
    }
  }

  lemma PrepareStopsAtTombstone(tab: Tab, disk: Disk, io: Io, newKey: Key)
    requires disk.cell.Held? && disk.cell.record.status.CONFIRMED?
    ensures Prepare(tab, disk, io, newKey).1 == disk
  {
    hide CanonicalPayloadOf, CanonicalWatermarksOf, OlderThanMark, DraftFromRecord, Persistable;
  }

  lemma FinishClosesTombstone(v: World, s: Step)
    requires Inv(v) && s.FinishRefresh? && Enabled(v, s) && v.disk.cell.Held? && v.disk.cell.record.status.CONFIRMED?
    ensures var after := Apply(v, s).disk;
            || after.cell == v.disk.cell
            || (after.cell.Absent? && Remembers(after.mark, v.disk.cell.record.watermarks)
                && forall x :: x in v.disk.cell.record.watermarks ==> Covers(ParseRead(s.raw).value, x))
  {
    var tab, r := v.seats[s.t].tab, v.disk.cell.record;
    var read := ParseRead(s.raw).value;
    assert SeatOk(v.seats[s.t], v.ledger);
    VerdictCovers(s.look, ParseRead(s.raw), v.saleId, s.branchId, s.saleNumber);
    InspectKeeps(tab, v.disk, s.io, v.ledger);
    hide ParseRead, VerdictFor, DraftFromRecord, EvidenceKept, NoOverlap;
    var (_, disk, result) := Finish(tab, v.disk, s.io, s.look.basis, read, v.userId, s.branchId);
    if disk.cell != v.disk.cell {
      FinishRemovesByTombstone(tab, v.disk, s.io, s.look.basis, read, v.userId, s.branchId);
      LookCovers(v.ledger, s.look, r, read);
      RaisedRemembers(s.io, v.disk.mark, read, r.watermarks);
    }
  }

  lemma FinishRemovesByTombstone(tab: Tab, disk: Disk, io: Io, first: Basis, read: Read, userId: string, branchId: string)
    requires disk.cell.Held? && Finish(tab, disk, io, first, read, userId, branchId).1.cell != disk.cell
    ensures first.Tombstone? && first.record.key == disk.cell.record.key
    ensures Finish(tab, disk, io, first, read, userId, branchId).1 == Disk(Absent, RaiseMark(io, disk.mark, Map(ShownLine, read.lines)).0)
    ensures RaiseMark(io, disk.mark, Map(ShownLine, read.lines)).1
  {
    hide RaiseMark, NewDraft, OlderThanMark, DraftFromRecord;
  }
}
