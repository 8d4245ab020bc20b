/** The exchange idempotency protocol: any number of tabs of one user on one sale, the storage they share, and the server.
    One step is one atomic section of one tab, one event of the environment, or one act of the server.

    Environment: fresh keys are unique; a locked section runs alone; the server commits a key at most once and never a
    refused one; status 400, 403, 404, 409, 410 or 422 without CONCURRENCY_ERROR is answered only for a key it has refused
    before writing anything, and a success body with a text exchange id only for one it has committed; any other answer says
    nothing; a read of this sale never shows more exchanged than the server has; nobody deletes the site's storage.
    Tabs may start, reload or crash between any two steps, storage calls may fail at will, stored text may become unreadable,
    storage events may come late or never, reads may be arbitrarily old, and other clients may exchange units. */
module ExchangeProtocol {
  import opened Wrappers
  import opened ExchangeTypes
  import opened Texts
  import opened ExchangeCanonical
  import opened ExchangeRecord
  import opened ExchangeSlot
  import opened FreshRead
  import opened Json
  import opened Sequences

  type TabId = nat

  /** A key the store generated and wrote down, with the body and the watermarks it stands for. */
  datatype Minted = Minted(key: Key, payload: Payload, watermarks: seq<Watermark>)

  /** What is true, whoever knows it: the minted keys in order, the server's quantities, its commits and its refusals. */
  datatype Ledger = Ledger(log: seq<Minted>, exchanged: map<string, nat>, committed: set<Key>, refused: set<Key>)

  datatype Phase = Idle | Queued | Posting(key: Key) | Answered(key: Key, outcome: Outcome) | Done

  /** A first look of a reconciliation, kept while its GET runs. */
  datatype Look = Look(basis: Basis, draft: Draft)

  datatype Seat = Seat(tab: Tab, phase: Phase, looks: set<Look>)

  datatype Post = Post(key: Key, payload: Payload)

  datatype World = World(
    userId: string, saleId: string, seats: map<TabId, Seat>, disk: Disk, ledger: Ledger, posts: set<Post>, dismissed: set<Key>)

  datatype Step =
    | Start(t: TabId)
    | LoadTab(t: TabId, io: Io)
    | OpenDraft(t: TabId, io: Io, branchId: string, saleNumber: string, raw: Json)
    | EditDraft(t: TabId, change: Change)
    | ResetDraft(t: TabId)
    | DropEditables(t: TabId)
    | Send(t: TabId)
    | PrepareSend(t: TabId, io: Io, newKey: Key)
    | LockDenied(t: TabId)
    | Answer(t: TabId, response: Response)
    | SettleAnswer(t: TabId, io: Io, now: int)
    | SettleUnlocked(t: TabId, now: int)
    | EndSend(t: TabId)
    | LookForRefresh(t: TabId, io: Io)
    | FinishRefresh(t: TabId, io: Io, look: Look, branchId: string, saleNumber: string, raw: Json)
    | DeliverEvent(t: TabId, io: Io)
    | Commit(post: Post)
    | RefuseKey(post: Post)
    | OthersExchange(item: string, units: nat)
    | CorruptAttempt
    | CorruptMark

  // ---- steps ---------------------------------------------------------------------------------------------------

  const FRESH_SEAT := Seat(Tab(false, None, false, {}), Idle, {})

  function KeysOf(log: seq<Minted>): set<Key> {
    set m | m in log :: m.key
  }

  /** A read of this sale that shows no more than the server has. */
  predicate Truthful(read: Read, exchanged: map<string, nat>) {
    forall l :: l in read.lines ==> ItemOfRead(l) in exchanged && l.exchanged <= exchanged[ItemOfRead(l)]
  }

  predicate Acceptable(w: World, raw: Json, expected: Expectation) {
    var verdict := ValidateIdentity(ParseRead(raw), expected);
    verdict.Ok? && Lower(verdict.value.saleId) == Lower(w.saleId) && Truthful(verdict.value, w.ledger.exchanged)
  }

  /** Only these answers mean that the server refused before it wrote anything. */
  predicate MeansRefused(response: Response) {
    && response.CodedError? && response.code != Some("CONCURRENCY_ERROR")
    && (response.status == Some(400) || response.status == Some(403) || response.status == Some(404) || response.status == Some(409)
        || response.status == Some(410) || response.status == Some(422))
  }

  /** Only a success with a text as exchange id means that the exchange was committed. */
  predicate MeansCommitted(response: Response) {
    response.Success? && response.body.Obj? && EXCHANGE_ID in response.body.fields && response.body.fields[EXCHANGE_ID].Str?
  }

  /** The store takes an answer as a refusal, or as a confirmation, exactly when it means that; everything else is uncertain. */
  lemma ClassifyIsExact(response: Response)
    ensures Classify(response).Rejected? <==> MeansRefused(response)
    ensures Classify(response).Confirmed? <==> MeansCommitted(response)
    ensures Classify(response).Confirmed? ==> response.body.fields[EXCHANGE_ID] == Str(Classify(response).exchangeId)
    ensures Classify(response).Uncertain? <==> !MeansRefused(response) && !MeansCommitted(response)
  {
  }

  /** What may have been committed is never taken as a refusal: a lost answer, an expired session, a timeout, a server error, a conflict
      of concurrency, a status outside the definitive ones, or none; nor a success the store cannot read. */
  lemma WhatMayHaveCommittedIsUncertain(response: Response)
    requires || response.Lost?
             || (response.CodedError?
                 && (response.code == Some("CONCURRENCY_ERROR") || response.status.None? || response.status.value in {401, 408, 429}
                     || response.status.value < 400 || response.status.value >= 500))
             || (response.Success? && !MeansCommitted(response))
    ensures Classify(response).Uncertain?
  {
    ClassifyIsExact(response);
  }

  predicate Enabled(w: World, s: Step) {
    match s
    case Start(t) => true
    case LoadTab(t, _) => t in w.seats
    case OpenDraft(t, _, branchId, saleNumber, raw) => IsLoaded(w, t) && Acceptable(w, raw, Expectation(None, branchId, saleNumber, None))
    case EditDraft(t, _) => IsLoaded(w, t)
    case ResetDraft(t) => IsLoaded(w, t)
    case DropEditables(t) => IsLoaded(w, t)
    case Send(t) => IsLoaded(w, t)
    case PrepareSend(t, _, newKey) => IsLoaded(w, t) && w.seats[t].phase.Queued? && newKey !in KeysOf(w.ledger.log)
    case LockDenied(t) => IsLoaded(w, t) && w.seats[t].phase.Queued?
    case Answer(t, response) =>
      && IsLoaded(w, t) && w.seats[t].phase.Posting?
      && (MeansCommitted(response) ==> w.seats[t].phase.key in w.ledger.committed)
      && (MeansRefused(response) ==> w.seats[t].phase.key in w.ledger.refused)
    case SettleAnswer(t, _, _) => IsLoaded(w, t) && w.seats[t].phase.Answered?
    case SettleUnlocked(t, _) => IsLoaded(w, t) && w.seats[t].phase.Answered?
    case EndSend(t) => IsLoaded(w, t) && w.seats[t].phase.Done?
    case LookForRefresh(t, _) => IsLoaded(w, t)
    case FinishRefresh(t, _, look, branchId, saleNumber, raw) =>
      && IsLoaded(w, t) && look in w.seats[t].looks
      && VerdictFor(look.basis, look.draft, ParseRead(raw), w.saleId, branchId, saleNumber).Ok?
      && Truthful(ParseRead(raw).value, w.ledger.exchanged)
    case DeliverEvent(t, _) => IsLoaded(w, t)
    case Commit(post) => post in w.posts && post.key !in w.ledger.committed && post.key !in w.ledger.refused
    case RefuseKey(post) => post in w.posts && post.key !in w.ledger.committed
    case OthersExchange(item, _) => item in w.ledger.exchanged
    case CorruptAttempt => true
    case CorruptMark => true
  }

  predicate IsLoaded(w: World, t: TabId) {
    t in w.seats && w.seats[t].tab.loaded
  }

  function Sit(w: World, t: TabId, tab: Tab): World
    requires t in w.seats
  {
    w.(seats := w.seats[t := w.seats[t].(tab := tab)])
  }

  function SetPhase(w: World, t: TabId, phase: Phase): World
    requires t in w.seats
  {
    w.(seats := w.seats[t := w.seats[t].(phase := phase)])
  }

  /** The key a prepare mints, if it gets to write one down. */
  function MintedBy(tab: Tab, disk: Disk, io: Io, newKey: Key): seq<Minted> {
    var decision := Decide(tab, disk, io);
    if decision.Mint? && io.available && io.writeCell then [Minted(newKey, decision.payload, decision.watermarks)] else []
  }

  function QuantityOf(lines: seq<CanonicalLine>, item: string): nat {
    if |lines| == 0 then 0 else QuantityOf(lines[..|lines| - 1], item) + (if lines[|lines| - 1].saleItemId == item then lines[|lines| - 1].returnQuantity else 0)
  }

  function Credit(exchanged: map<string, nat>, payload: Payload): map<string, nat> {
    map item | item in exchanged :: exchanged[item] + QuantityOf(payload.lines, item)
  }

  function Apply(w: World, s: Step): World
    requires Enabled(w, s)
  {
    match s
    case Start(t) => w.(seats := w.seats[t := FRESH_SEAT])
    case LoadTab(t, io) => Sit(w, t, Load(w.seats[t].tab, w.disk, io, w.userId, w.saleId))
    case OpenDraft(t, io, branchId, _, raw) =>
      var (tab, disk, _) := Open(w.seats[t].tab, w.disk, io, w.userId, branchId, ParseRead(raw).value);
      Sit(w, t, tab).(disk := disk)
    case EditDraft(t, change) => Sit(w, t, Edit(w.seats[t].tab, change).0)
    case ResetDraft(t) => Sit(w, t, Reset(w.seats[t].tab).0)
    case DropEditables(t) => Sit(w, t, DropEditable(w.seats[t].tab))
    case Send(t) =>
      var tab := BeginSend(w.seats[t].tab).0;
      if tab.inFlight && !w.seats[t].tab.inFlight then SetPhase(Sit(w, t, tab), t, Queued) else Sit(w, t, tab)
    case PrepareSend(t, io, newKey) => ApplyPrepare(w, t, io, newKey)
    case LockDenied(t) => SetPhase(w, t, Done)
    case Answer(t, response) => SetPhase(w, t, Answered(w.seats[t].phase.key, Classify(response)))
    case SettleAnswer(t, io, now) => ApplySettle(w, t, io, now)
    case SettleUnlocked(t, now) =>
      SetPhase(Sit(w, t, SettleWithoutLock(w.seats[t].tab, w.seats[t].phase.key, w.seats[t].phase.outcome, now)), t, Done)
    case EndSend(t) => SetPhase(Sit(w, t, w.seats[t].tab.(inFlight := false)), t, Idle)
    case LookForRefresh(t, io) =>
      var (tab, inspection) := Inspect(w.seats[t].tab, w.disk, io);
      var looks := if inspection.Inspected? then w.seats[t].looks + {Look(inspection.basis, inspection.draft)} else w.seats[t].looks;
      w.(seats := w.seats[t := w.seats[t].(tab := tab, looks := looks)])
    case FinishRefresh(t, io, look, branchId, _, raw) =>
      var (tab, disk, _) := Finish(w.seats[t].tab, w.disk, io, look.basis, ParseRead(raw).value, w.userId, branchId);
      Sit(w, t, tab).(disk := disk)
    case DeliverEvent(t, io) => Sit(w, t, StorageEvent(w.seats[t].tab, w.disk, io, w.userId, w.saleId))
    case Commit(post) =>
      w.(ledger := w.ledger.(exchanged := Credit(w.ledger.exchanged, post.payload), committed := w.ledger.committed + {post.key}))
    case RefuseKey(post) => w.(ledger := w.ledger.(refused := w.ledger.refused + {post.key}))
    case OthersExchange(item, units) => w.(ledger := w.ledger.(exchanged := w.ledger.exchanged[item := w.ledger.exchanged[item] + units]))
    case CorruptAttempt => w.(disk := w.disk.(cell := Garbage))
    case CorruptMark => w.(disk := w.disk.(mark := BadMark))
  }

  function ApplyPrepare(w: World, t: TabId, io: Io, newKey: Key): World
    requires t in w.seats
  {
    var tab := w.seats[t].tab;
    var (next, disk, result) := Prepare(tab, w.disk, io, newKey);
    var minted := w.(ledger := w.ledger.(log := w.ledger.log + MintedBy(tab, w.disk, io, newKey)), disk := disk);
    match result
    case Ok(a) => SetPhase(Sit(minted, t, next), t, Posting(a.key)).(posts := w.posts + {Post(a.key, a.payload)})
    case Err(_) => SetPhase(Sit(minted, t, next), t, Done)
  }

  function ApplySettle(w: World, t: TabId, io: Io, now: int): World
    requires t in w.seats && w.seats[t].phase.Answered?
  {
    var seat := w.seats[t];
    var (tab, disk) := Settle(seat.tab, w.disk, io, seat.phase.key, seat.phase.outcome, now);
    var dismissed := if seat.phase.outcome.Rejected? then w.dismissed + {seat.phase.key} else w.dismissed;
    SetPhase(Sit(w, t, tab), t, Done).(disk := disk, dismissed := dismissed)
  }

  function Initial(userId: string, saleId: string, exchanged: map<string, nat>): World {
    World(userId, saleId, map[], Disk(Absent, NoMark), Ledger([], exchanged, {}, {}), {}, {})
  }

  // ---- the invariant -------------------------------------------------------------------------------------------

  predicate WatermarkHolds(m: Watermark, exchanged: map<string, nat>) {
    Lower(m.saleItemId) == m.saleItemId && m.saleItemId in exchanged && m.before <= exchanged[m.saleItemId]
  }

  /** A minted key's baselines were true when it was minted; its lines and watermarks belong together. */
  predicate MintedOk(m: Minted, exchanged: map<string, nat>) {
    && |m.payload.lines| > 0 && Distinct(Map(ItemOf, m.payload.lines)) && Matches(m.payload, m.watermarks)
    && (forall c :: c in m.payload.lines ==> c.returnQuantity > 0)
    && forall x :: x in m.watermarks ==> WatermarkHolds(x, exchanged)
  }

  predicate Reached(ws: seq<Watermark>, exchanged: map<string, nat>) {
    forall x :: x in ws ==> x.saleItemId in exchanged && x.after <= exchanged[x.saleItemId]
  }

  predicate LedgerOk(l: Ledger) {
    && (forall i, j :: 0 <= i < j < |l.log| ==> l.log[i].key != l.log[j].key)
    && (forall m :: m in l.log ==> MintedOk(m, l.exchanged))
    && (forall m :: m in l.log && m.key in l.committed ==> Reached(m.watermarks, l.exchanged))
    && l.committed !! l.refused && l.committed <= KeysOf(l.log)
  }

  predicate KnownAttempt(a: Attempt, l: Ledger) {
    && Minted(a.key, a.payload, a.watermarks) in l.log
    && (a.status.CONFIRMED? ==> a.key in l.committed)
    && (a.status.REJECTED? ==> a.key in l.refused)
  }

  predicate KnownRecord(r: Record, l: Ledger) {
    && Minted(r.key, r.payload, r.watermarks) in l.log
    && (r.status.CONFIRMED? ==> r.key in l.committed)
    && !r.status.REJECTED?
  }

  predicate BaselineTrue(item: string, before: nat, exchanged: map<string, nat>) {
    Lower(item) in exchanged && before <= exchanged[Lower(item)]
  }

  predicate DraftOk(d: Draft, l: Ledger) {
    && (forall x :: x in d.lines ==> BaselineTrue(x.saleItemId, x.before, l.exchanged))
    && (forall x :: x in d.available ==> BaselineTrue(x.saleItemId, x.before, l.exchanged))
    && (d.attempt.Some? ==> KnownAttempt(d.attempt.value, l))
  }

  predicate TabOk(tab: Tab, l: Ledger) {
    tab.draft.Some? ==> DraftOk(tab.draft.value, l)
  }

  predicate PhaseOk(p: Phase, l: Ledger) {
    match p
    case Answered(k, o) => (o.Confirmed? ==> k in l.committed) && (o.Rejected? ==> k in l.refused)
    case _ => true
  }

  predicate LookOk(look: Look, l: Ledger) {
    look.basis.Tombstone? ==> KnownRecord(look.basis.record, l) && look.basis.record.status.CONFIRMED?
  }

  predicate SeatOk(s: Seat, l: Ledger) {
    TabOk(s.tab, l) && PhaseOk(s.phase, l) && forall look :: look in s.looks ==> LookOk(look, l)
  }

  predicate CellOk(c: Cell, l: Ledger) {
    c.Held? ==> KnownRecord(c.record, l)
  }

  predicate MarkOk(m: MarkCell, exchanged: map<string, nat>) {
    m.Marked? ==>
      ReadableMark(m.lines) && forall item :: item in m.lines ==> item in exchanged && m.lines[item] <= exchanged[item]
  }

  predicate PostOk(p: Post, l: Ledger) {
    exists m :: m in l.log && m.key == p.key && m.payload == p.payload
  }

  /** The mark covers every watermark, or is unreadable and blocks every new key. */
  predicate Remembers(mark: MarkCell, ws: seq<Watermark>) {
    match mark
    case NoMark => false
    case Marked(m) => forall x :: x in ws ==> x.saleItemId in m && m[x.saleItemId] >= x.after
    case BadMark => true
  }

  /** Where the evidence of a minted key is: seen refused, in the slot, behind an unreadable slot, or confirmed and covered. */
  predicate Evidenced(m: Minted, disk: Disk, l: Ledger, dismissed: set<Key>) {
    || m.key in dismissed
    || (disk.cell.Held? && disk.cell.record.key == m.key)
    || disk.cell.Garbage?
    || (m.key in l.committed && Remembers(disk.mark, m.watermarks))
  }

  predicate EvidenceKept(disk: Disk, l: Ledger, dismissed: set<Key>) {
    forall m :: m in l.log ==> Evidenced(m, disk, l, dismissed)
  }

  /** For every item both name, the later key starts where the earlier one ended, or above. */
  predicate ClaimsAbove(earlier: Minted, later: Minted) {
    forall x, y :: x in earlier.watermarks && y in later.watermarks && x.saleItemId == y.saleItemId ==> y.before >= x.after
  }

  predicate NoOverlap(l: Ledger) {
    forall i, j :: 0 <= i < j < |l.log| && l.log[i].key !in l.refused ==> ClaimsAbove(l.log[i], l.log[j])
  }

  predicate Inv(w: World) {
    && LedgerOk(w.ledger)
    && (forall t :: t in w.seats ==> SeatOk(w.seats[t], w.ledger))
    && CellOk(w.disk.cell, w.ledger) && MarkOk(w.disk.mark, w.ledger.exchanged)
    && (forall p :: p in w.posts ==> PostOk(p, w.ledger))
    && w.dismissed <= w.ledger.refused
    && EvidenceKept(w.disk, w.ledger, w.dismissed)
    && NoOverlap(w.ledger)
  }

  // ---- the ledger only grows -----------------------------------------------------------------------------------

  predicate Grows(a: Ledger, b: Ledger) {
    && (forall m :: m in a.log ==> m in b.log)
    && (forall item :: item in a.exchanged ==> item in b.exchanged && a.exchanged[item] <= b.exchanged[item])
    && a.committed <= b.committed && a.refused <= b.refused
  }

  lemma DraftSurvives(d: Draft, a: Ledger, b: Ledger)
    requires DraftOk(d, a) && Grows(a, b)
    ensures DraftOk(d, b)
  {
  }

  lemma SeatSurvives(s: Seat, a: Ledger, b: Ledger)
    requires SeatOk(s, a) && Grows(a, b)
    ensures SeatOk(s, b)
  {
    if s.tab.draft.Some? {
      DraftSurvives(s.tab.draft.value, a, b);
    }
  }

  // ---- what a record turned into a draft knows -----------------------------------------------------------------

  lemma RecordLinesTrue(r: Record, l: Ledger)
    requires KnownRecord(r, l) && LedgerOk(l)
    ensures forall x :: x in Map((c: CanonicalLine) => LineFromRecord(r.watermarks, c), r.payload.lines) ==> BaselineTrue(x.saleItemId, x.before, l.exchanged)
    ensures forall x :: x in Map(AvailableFromMark, r.watermarks) ==> BaselineTrue(x.saleItemId, x.before, l.exchanged)
  {
    var m := Minted(r.key, r.payload, r.watermarks);
    var lines := Map((c: CanonicalLine) => LineFromRecord(r.watermarks, c), r.payload.lines);
    forall x | x in lines ensures BaselineTrue(x.saleItemId, x.before, l.exchanged) {
      var i :| 0 <= i < |lines| && lines[i] == x;
      assert r.watermarks[i] in m.watermarks && WatermarkHolds(r.watermarks[i], l.exchanged);
    }
    var available := Map(AvailableFromMark, r.watermarks);
    forall x | x in available ensures BaselineTrue(x.saleItemId, x.before, l.exchanged) {
      var i :| 0 <= i < |available| && available[i] == x;
      assert r.watermarks[i] in m.watermarks && WatermarkHolds(r.watermarks[i], l.exchanged);
    }
  }

  lemma FollowedDraftOk(r: Record, status: Status, previous: Option<Draft>, l: Ledger)
    requires KnownRecord(r, l) && LedgerOk(l)
    requires status == r.status || (status.UNCERTAIN? && !r.status.CONFIRMED?)
    requires previous.Some? ==> DraftOk(previous.value, l)
    ensures DraftOk(DraftFromRecord(r, status, previous), l)
  {
    RecordLinesTrue(r, l);
  }

  lemma NewDraftOk(userId: string, branchId: string, saleId: string, read: Read, l: Ledger)
    requires Truthful(read, l.exchanged)
    ensures DraftOk(NewDraft(userId, branchId, saleId, read), l)
  {
    var d := NewDraft(userId, branchId, saleId, read);
    forall x | x in d.lines ensures BaselineTrue(x.saleItemId, x.before, l.exchanged) {
      var y :| y in read.lines && x == DraftLineOf(y);
    }
    forall x | x in d.available ensures BaselineTrue(x.saleItemId, x.before, l.exchanged) {
      var i :| 0 <= i < |d.available| && d.available[i] == x;
      assert read.lines[i] in read.lines;
    }
  }

  // ---- the mark ------------------------------------------------------------------------------------------------

  /** Never lower: an unreadable mark is never replaced, a readable one only by a higher one. */
  predicate MarkRises(a: MarkCell, b: MarkCell) {
    match a
    case NoMark => true
    case Marked(m) => b.BadMark? || (b.Marked? && forall item :: item in m ==> item in b.lines && m[item] <= b.lines[item])
    case BadMark => b.BadMark?
  }

  /** The larger of what was known and what was shown, item by item, and nothing else. */
  ghost predicate MergedFrom(m: map<string, nat>, values: seq<Shown>, r: map<string, nat>) {
    && (forall item :: item in m ==> item in r && m[item] <= r[item])
    && (forall i :: 0 <= i < |values| ==> Lower(values[i].0) in r && values[i].1 <= r[Lower(values[i].0)])
    && (forall item :: item in r ==> (item in m && r[item] == m[item]) || IsShown(values, item, r[item]))
  }

  ghost predicate IsShown(values: seq<Shown>, item: string, q: nat) {
    exists i :: 0 <= i < |values| && Lower(values[i].0) == item && values[i].1 == q
  }

  lemma ShownStill(values: seq<Shown>, v: Shown, item: string, q: nat)
    requires IsShown(values, item, q) || (Lower(v.0) == item && v.1 == q)
    ensures IsShown(values + [v], item, q)
  {
    hide Lower;
    if i :| 0 <= i < |values| && Lower(values[i].0) == item && values[i].1 == q {
      assert (values + [v])[i] == values[i];
    } else {
      assert (values + [v])[|values|] == v;
    }
  }

  lemma MergeStep(m: map<string, nat>, values: seq<Shown>, v: Shown, s: map<string, nat>)
    requires MergedFrom(m, values, s)
    ensures MergedFrom(m, values + [v], MergeOne(s, v))
  {
    hide Lower, IsShown;
    var r := MergeOne(s, v);
    forall item | item in r ensures (item in m && r[item] == m[item]) || IsShown(values + [v], item, r[item]) {
      if item in s && r[item] == s[item] {
        if IsShown(values, item, s[item]) {
          ShownStill(values, v, item, s[item]);
        }
      } else {
        ShownStill(values, v, item, v.1);
      }
    }
  }

  lemma {:induction false} MergeRaises(m: map<string, nat>, values: seq<Shown>)
    ensures MergedFrom(m, values, Merge(m, values))
  {
    hide MergeOne, MergedFrom;
    if |values| > 0 {
      var n := |values| - 1;
      MergeRaises(m, values[..n]);
      MergeStep(m, values[..n], values[n], Merge(m, values[..n]));
      assert values == values[..n] + [values[n]];
    } else {
      NothingMerged(m);
    }
  }

  lemma NothingMerged(m: map<string, nat>)
    ensures MergedFrom(m, [], m)
  {
  }

  lemma RaiseRaises(io: Io, mark: MarkCell, values: seq<Shown>)
    ensures MarkRises(mark, RaiseMark(io, mark, values).0)
    ensures RaiseMark(io, mark, values).1 ==>
              var r := RaiseMark(io, mark, values).0;
              r.BadMark? || (r.Marked? && forall i :: 0 <= i < |values| ==> Lower(values[i].0) in r.lines && values[i].1 <= r.lines[Lower(values[i].0)])
  {
    hide Lower, Merge, ReadableMark;
    var known: map<string, nat> := if mark.Marked? then mark.lines else map[];
    MergeRaises(known, values);
  }

  predicate ValuesTrue(values: seq<Shown>, exchanged: map<string, nat>) {
    forall i :: 0 <= i < |values| ==> Lower(values[i].0) in exchanged && values[i].1 <= exchanged[Lower(values[i].0)]
  }

  lemma RaiseStaysTrue(io: Io, mark: MarkCell, values: seq<Shown>, exchanged: map<string, nat>)
    requires MarkOk(mark, exchanged) && ValuesTrue(values, exchanged)
    ensures MarkOk(RaiseMark(io, mark, values).0, exchanged)
  {
    hide Lower, Merge, ReadableMark;
    var known: map<string, nat> := if mark.Marked? then mark.lines else map[];
    MergeRaises(known, values);
  }

  lemma ShownIsTrue(read: Read, exchanged: map<string, nat>)
    requires Truthful(read, exchanged)
    ensures ValuesTrue(Map(ShownLine, read.lines), exchanged)
  {
    forall i | 0 <= i < |read.lines| ensures Lower(read.lines[i].saleItemId) in exchanged && read.lines[i].exchanged <= exchanged[Lower(read.lines[i].saleItemId)] {
      assert read.lines[i] in read.lines;
      assert ItemOfRead(read.lines[i]) in exchanged;
    }
  }

  lemma AftersAreTrue(m: Minted, l: Ledger)
    requires LedgerOk(l) && m in l.log && m.key in l.committed
    ensures ValuesTrue(Map(AfterOf, m.watermarks), l.exchanged)
  {
    forall i | 0 <= i < |m.watermarks|
      ensures Lower(m.watermarks[i].saleItemId) in l.exchanged && m.watermarks[i].after <= l.exchanged[Lower(m.watermarks[i].saleItemId)]
    {
      assert m.watermarks[i] in m.watermarks;
      assert WatermarkHolds(m.watermarks[i], l.exchanged);
    }
  }

  lemma RemembersMore(a: MarkCell, b: MarkCell, ws: seq<Watermark>)
    requires Remembers(a, ws) && MarkRises(a, b)
    ensures Remembers(b, ws)
  {
  }
}
