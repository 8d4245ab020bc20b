/** The conditions of the protocol can be met: one run from an empty start in which a key is minted, committed, confirmed and
    reconciled, and goes on to a read that is refused as stale although it was up to date when it was served. */
module ExchangeExample {
  import opened Wrappers
  import opened ExchangeTypes
  import opened Texts
  import opened Ordering
  import opened ExchangeCanonical
  import opened ExchangeRecord
  import opened ExchangeSlot
  import opened ExchangeProtocol
  import opened ExchangeSteps
  import opened ExchangeTheorems
  import opened ExchangeReadable
  import opened Fingerprint
  import opened FreshRead
  import opened Decimal
  import opened Json
  import opened Sequences

  // ---- the values ----------------------------------------------------------------------------------------------

  const USER := "u"
  const BRANCH := "b"
  const NUMBER := "n"
  const THE_SALE := SampleUuid('a')
  const ITEM := SampleUuid('b')
  const VARIANT := SampleUuid('8')
  const KEY := SampleUuid('9')
  const EXCHANGE := SampleUuid('a')
  const IO := Io(true, true, true, true, true, true, true, true, true)

  lemma Ids()
    ensures IsUuid(THE_SALE) && IsUuid(ITEM) && IsUuid(VARIANT) && IsUuidV4(KEY) && IsUuid(EXCHANGE)
    ensures Lower(THE_SALE) == THE_SALE && Lower(ITEM) == ITEM && Lower(VARIANT) == VARIANT
    ensures THE_SALE != "" && ITEM != "" && VARIANT != ""
    ensures IsShortText(USER) && IsShortText(BRANCH)
  {
    SampleIsUuid('a');
    SampleIsUuid('b');
    SampleIsUuid('8');
    SampleIsUuid('9');
    assert Utf16Length("") == 0;
    assert USER[..0] == "" && BRANCH[..0] == "";
  }

  // ---- reads ---------------------------------------------------------------------------------------------------

  function RowJson(n: nat): Json
    requires n <= 9
  {
    Obj(map[SALE_ITEM_ID := Str(ITEM), VARIANT_ID := Str(VARIANT), QUANTITY := Str(Show(9)), EXCHANGED_QUANTITY := Str(Show(n)),
            REMAINING_QUANTITY := Str(Show(9 - n))])
  }

  /** Nine units were sold, n of them are exchanged. */
  function ReadJson(n: nat): Json
    requires n <= 9
  {
    Obj(map[SALE := Obj(map[ID := Str(THE_SALE), SALE_NUMBER := Str(NUMBER), BRANCH_ID := Str(BRANCH), STATUS := Str("COMPLETED")]),
            EXCHANGEABLE := Bool(true), LINES := Arr([RowJson(n)])])
  }

  function ReadOf(n: nat): Read
    requires n <= 9
  {
    Read(THE_SALE, NUMBER, BRANCH, "COMPLETED", true, [ReadLine(ITEM, VARIANT, 9, n, 9 - n)])
  }

  lemma RowParses(n: nat)
    requires n <= 9
    ensures ValidRow(RowJson(n)) && RowOf(RowJson(n)) == ReadLine(ITEM, VARIANT, 9, n, 9 - n)
  {
    Ids();
    ShowReads(9);
    ShowReads(n);
    ShowReads(9 - n);
    hide Show, Value, IsUuid, SampleUuid, IsNatural;
    var f := RowJson(n).fields;
    assert f[SALE_ITEM_ID] == Str(ITEM) && f[VARIANT_ID] == Str(VARIANT) && f[QUANTITY] == Str(Show(9));
    assert f[EXCHANGED_QUANTITY] == Str(Show(n)) && f[REMAINING_QUANTITY] == Str(Show(9 - n));
  }

  lemma ReadParses(n: nat)
    requires n <= 9
    ensures ParseRead(ReadJson(n)) == Some(ReadOf(n))
  {
    Ids();
    RowParses(n);
    hide RowJson, ValidRow, RowOf, IsUuid, SampleUuid;
    var f := ReadJson(n).fields;
    var sale := f[SALE].fields;
    assert sale[ID] == Str(THE_SALE) && sale[SALE_NUMBER] == Str(NUMBER) && sale[BRANCH_ID] == Str(BRANCH) && sale[STATUS] == Str("COMPLETED");
    assert Map(RowOf, f[LINES].items) == ReadOf(n).lines;
  }

  function MarkAt(n: nat): MarkCell {
    Marked(map[ITEM := n])
  }

  lemma ReadRaises(mark: MarkCell, n: nat)
    requires n <= 9 && (mark.NoMark? || exists k: nat :: k <= n && mark == MarkAt(k))
    ensures var shown := Map(ShownLine, ReadOf(n).lines);
            !OlderThanMark(ReadMark(IO, IO.readMark, mark), shown) && RaiseMark(IO, mark, shown) == (MarkAt(n), true)
  {
    var shown := Map(ShownLine, ReadOf(n).lines);
    assert shown == [(ITEM, n)];
    RaisesTo(mark, shown, n);
  }

  lemma RaisesTo(mark: MarkCell, values: seq<Shown>, n: nat)
    requires n <= 9 && values == [(ITEM, n)] && (mark.NoMark? || exists k: nat :: k <= n && mark == MarkAt(k))
    ensures !OlderThanMark(ReadMark(IO, IO.readMark, mark), values) && RaiseMark(IO, mark, values) == (MarkAt(n), true)
  {
    Ids();
    SmallFits(n);
    hide IsUuid, Lower, SampleUuid, IsWatermarkQuantity;
    var known: map<string, nat> := if mark.Marked? then mark.lines else map[];
    assert values[..0] == [];
    assert Merge(known, []) == known;
    assert Merge(known, values) == MergeOne(known, values[0]);
    assert MergeOne(known, values[0]) == map[ITEM := n];
    MarkIsReadable(n);
  }

  lemma MarkIsReadable(n: nat)
    requires n <= 9
    ensures ReadableMark(map[ITEM := n])
  {
    Ids();
    SmallFits(n);
    hide IsUuid, Lower, SampleUuid, IsWatermarkQuantity;
    assert ITEM in map[ITEM := n];
  }

  lemma SmallFits(n: nat)
    requires n <= 9
    ensures IsWatermarkQuantity(n) && IsBaseline(n)
  {
    Pow10Grows(WATERMARK_DIGITS);
    Pow10Grows(QUANTITY_DIGITS);
  }

  // ---- the draft and its attempt -------------------------------------------------------------------------------

  function DraftWith(reason: string, line: DraftLine, n: nat): Draft {
    Draft(USER, BRANCH, THE_SALE, reason, [line], [AvailableLine(ITEM, n)], None, None)
  }

  const FILLED := DraftLine(ITEM, Some(VARIANT), "1", 0)
  const DRAFT := DraftWith("r", FILLED, 0)
  const PAYLOAD_SENT := Payload("r", [CanonicalLine(ITEM, VARIANT, 1)])
  const MARKS := [Watermark(ITEM, 0, 1)]
  const ATTEMPT := Attempt(KEY, FingerprintOf(THE_SALE, PAYLOAD_SENT, MARKS), PAYLOAD_SENT, MARKS, SENDING, None, None)

  lemma OneIsAQuantity()
    ensures IsQuantityText("1") && Value("1") == 1
  {
    assert "1"[..0] == "";
    assert Value("") == 0;
  }

  lemma PayloadIsCanonical()
    ensures CanonicalPayloadOf("r", [FILLED]) == Some(PAYLOAD_SENT)
  {
    Ids();
    OneIsAQuantity();
    hide IsUuid, Lower, SampleUuid, IsQuantityText, Value;
    assert "r"[..0] == "" && Utf16Length("") == 0;
    assert Utf16Length("r") == 1 && Trim("r") == "r";
    var line := CanonicalLine(ITEM, VARIANT, 1);
    assert CanonicalLineOf(FILLED) == line;
    assert Map(CanonicalLineOf, [FILLED]) == [line];
    assert [line][..0] == [];
    assert Sort(ByItem, []) == [];
    assert Sort(ByItem, [line]) == [line];
  }

  lemma WatermarksAreCanonical()
    ensures CanonicalWatermarksOf([FILLED], PAYLOAD_SENT) == Some(MARKS)
  {
    Ids();
    SmallFits(0);
    hide IsUuid, Lower, SampleUuid, IsBaseline;
    assert FindLine([FILLED], ITEM) == Some(FILLED);
    assert HasBaseline([FILLED], PAYLOAD_SENT.lines[0]);
    assert CanonicalWatermarksOf([FILLED], PAYLOAD_SENT).value == MARKS;
  }

  // ---- the sections of the run ---------------------------------------------------------------------------------

  const NEW_TAB := Tab(true, None, false, {})

  function TabWith(d: Draft): Tab {
    Tab(true, Some(d), false, {})
  }

  function OpenedWith(n: nat): Draft {
    DraftWith("", DraftLine(ITEM, None, "", n), n)
  }

  lemma NewDraftIs(n: nat)
    requires n <= 8
    ensures NewDraft(USER, BRANCH, THE_SALE, ReadOf(n)) == OpenedWith(n) && HasRemaining(ReadOf(n))
  {
    var line := ReadOf(n).lines[0];
    assert ReadOf(n).lines == [line];
    assert [line][..0] == [];
    assert DraftLinesOf([]) == [];
    assert DraftLinesOf([line]) == [DraftLineOf(line)];
    assert Map(AvailableLineOf, [line]) == [AvailableLine(ITEM, n)];
    assert line in ReadOf(n).lines;
  }

  lemma OpenOverEmpty(mark: MarkCell, n: nat)
    requires n <= 8 && (mark.NoMark? || exists k: nat :: k <= n && mark == MarkAt(k))
    ensures Open(NEW_TAB, Disk(Absent, mark), IO, USER, BRANCH, ReadOf(n))
            == (TabWith(OpenedWith(n)), Disk(Absent, MarkAt(n)), OpenedDraft(OpenedWith(n)))
  {
    ReadRaises(mark, n);
    NewDraftIs(n);
    hide RaiseMark, OlderThanMark, NewDraft, HasRemaining, ReadMark;
  }

  lemma EditsFill()
    ensures Edit(TabWith(OpenedWith(0)), SetLine(ITEM, Some(VARIANT), "1")).0 == TabWith(DraftWith("", FILLED, 0))
    ensures Edit(TabWith(DraftWith("", FILLED, 0)), SetReason("r")).0 == TabWith(DRAFT)
  {
    var c := SetLine(ITEM, Some(VARIANT), "1");
    assert Map((l: DraftLine) => SetFields(l, c), OpenedWith(0).lines) == [FILLED];
  }

  lemma DecisionMints()
    ensures Decide(TabWith(DRAFT).(inFlight := true), Disk(Absent, MarkAt(0)), IO) == Mint(ATTEMPT.fingerprint, PAYLOAD_SENT, MARKS)
  {
    PayloadIsCanonical();
    WatermarksAreCanonical();
    hide CanonicalPayloadOf, CanonicalWatermarksOf, FingerprintOf;
    assert Map(BeforeOf, MARKS) == [(ITEM, 0)];
  }

  const SENT := TabWith(DRAFT.(attempt := Some(ATTEMPT))).(inFlight := true, owned := {KEY})
  const SENT_RECORD := RecordOf(DRAFT, ATTEMPT, SENDING)

  lemma AttemptIsRecordable()
    ensures IsRecordable(DRAFT, ATTEMPT)
  {
    Ids();
    DecisionMints();
    MintIsPersistable(TabWith(DRAFT).(inFlight := true), Disk(Absent, MarkAt(0)), IO, KEY);
    hide Decide, IsRecordable, FingerprintOf, IsUuidV4, IsUuid, SampleUuid, MarkAt, IsShortText;
  }

  lemma LaunchesKey()
    ensures Launch(TabWith(DRAFT).(inFlight := true), Disk(Absent, MarkAt(0)), IO, ATTEMPT) == (SENT, Disk(Held(SENT_RECORD), MarkAt(0)), Ok(ATTEMPT))
  {
    AttemptIsRecordable();
    hide Persistable, FingerprintOf, SampleUuid;
    assert {} + {KEY} == {KEY};
  }

  lemma PreparesKey()
    ensures Prepare(TabWith(DRAFT).(inFlight := true), Disk(Absent, MarkAt(0)), IO, KEY) == (SENT, Disk(Held(SENT_RECORD), MarkAt(0)), Ok(ATTEMPT))
    ensures MintedBy(TabWith(DRAFT).(inFlight := true), Disk(Absent, MarkAt(0)), IO, KEY) == [Minted(KEY, PAYLOAD_SENT, MARKS)]
  {
    DecisionMints();
    LaunchesKey();
    hide Decide, Launch, FingerprintOf, SampleUuid, MarkAt;
  }

  const DONE := ATTEMPT.(status := CONFIRMED, exchangeId := Some(EXCHANGE), confirmedAt := Some(1))
  const CONFIRMED_DRAFT := DRAFT.(attempt := Some(DONE), recovery := Some(ConfirmedTombstone))
  const TOMBSTONE := SENT_RECORD.(status := CONFIRMED, exchangeId := Some(EXCHANGE), confirmedAt := Some(1))

  lemma SettlesConfirmed()
    ensures Settle(SENT, Disk(Held(SENT_RECORD), MarkAt(0)), IO, KEY, Confirmed(EXCHANGE), 1)
            == (SENT.(draft := Some(CONFIRMED_DRAFT)), Disk(Held(TOMBSTONE), MarkAt(1)))
  {
    Ids();
    AttemptIsRecordable();
    var disk := Disk(Held(SENT_RECORD), MarkAt(0));
    assert IsRecordable(SENT.draft.value, ATTEMPT);
    ConfirmationLeavesReadableTombstone(SENT, disk, IO, KEY, EXCHANGE, 1);
    assert Map(AfterOf, MARKS) == [(ITEM, 1)];
    RaisesTo(MarkAt(0), Map(AfterOf, MARKS), 1);
    hide Persistable, FingerprintOf, IsUuidV4, IsUuid, SampleUuid, RaiseMark;
  }

  const FOUND := DraftFromRecord(TOMBSTONE, CONFIRMED, None)

  lemma LoadsTombstone()
    ensures Load(Tab(false, None, false, {}), Disk(Held(TOMBSTONE), MarkAt(1)), IO, USER, THE_SALE) == TabWith(FOUND)
    ensures Inspect(TabWith(FOUND), Disk(Held(TOMBSTONE), MarkAt(1)), IO) == (TabWith(FOUND), Inspected(Tombstone(TOMBSTONE), FOUND))
  {
    hide Map, RecordedBaseline, FingerprintOf;
  }

  lemma Reconciles()
    ensures Finish(TabWith(FOUND), Disk(Held(TOMBSTONE), MarkAt(1)), IO, Tombstone(TOMBSTONE), ReadOf(1), USER, BRANCH)
            == (TabWith(OpenedWith(1)), Disk(Absent, MarkAt(1)), Reopened(OpenedWith(1)))
  {
    LoadsTombstone();
    ReadRaises(MarkAt(1), 1);
    NewDraftIs(1);
    assert TabWith(FOUND).owned - {KEY} == {};
    hide Inspect, RaiseMark, OlderThanMark, NewDraft, HasRemaining, FingerprintOf, LineFromRecord, AvailableFromMark;
  }

  lemma ReadProves(first: Basis, d: Draft)
    requires WatermarksOf(first) == Some(MARKS) && KnownBranch(first, d) == BRANCH
    ensures VerdictFor(first, d, ParseRead(ReadJson(1)), THE_SALE, BRANCH, NUMBER) == Ok(ReadOf(1))
  {
    Ids();
    ReadParses(1);
    hide ParseRead, ReadJson, Lower, SampleUuid, HasRemaining;
    assert FindRow(ReadOf(1).lines, ITEM) == Some(ReadOf(1).lines[0]);
  }

  // ---- the first tab: open, fill in, send, settle --------------------------------------------------------------

  const NOTHING_SENT := Ledger([], map[ITEM := 0], {}, {})
  const SENT_ONCE := Ledger([Minted(KEY, PAYLOAD_SENT, MARKS)], map[ITEM := 0], {}, {})
  const COMMITTED := Ledger([Minted(KEY, PAYLOAD_SENT, MARKS)], map[ITEM := 1], {KEY}, {})

  function OneTab(seat: Seat, disk: Disk, ledger: Ledger, posts: set<Post>): World {
    World(USER, THE_SALE, map[0 := seat], disk, ledger, posts, {})
  }

  const EMPTY := Initial(USER, THE_SALE, map[ITEM := 0])
  const LOADED := OneTab(Seat(NEW_TAB, Idle, {}), Disk(Absent, NoMark), NOTHING_SENT, {})
  const STARTED := OneTab(FRESH_SEAT, Disk(Absent, NoMark), NOTHING_SENT, {})
  const OPENED := OneTab(Seat(TabWith(OpenedWith(0)), Idle, {}), Disk(Absent, MarkAt(0)), NOTHING_SENT, {})
  const HALF_FILLED := OneTab(Seat(TabWith(DraftWith("", FILLED, 0)), Idle, {}), Disk(Absent, MarkAt(0)), NOTHING_SENT, {})
  const READY := OneTab(Seat(TabWith(DRAFT), Idle, {}), Disk(Absent, MarkAt(0)), NOTHING_SENT, {})
  const WAITING := OneTab(Seat(TabWith(DRAFT).(inFlight := true), Queued, {}), Disk(Absent, MarkAt(0)), NOTHING_SENT, {})
  const POST_SENT := Post(KEY, PAYLOAD_SENT)
  const UNDER_WAY := OneTab(Seat(SENT, Posting(KEY), {}), Disk(Held(SENT_RECORD), MarkAt(0)), SENT_ONCE, {POST_SENT})
  const TAKEN := UNDER_WAY.(ledger := COMMITTED)
  const ANSWERED := OneTab(Seat(SENT, Answered(KEY, Confirmed(EXCHANGE)), {}), Disk(Held(SENT_RECORD), MarkAt(0)), COMMITTED, {POST_SENT})
  const SETTLED_TAB := SENT.(draft := Some(CONFIRMED_DRAFT))
  const SETTLED := OneTab(Seat(SETTLED_TAB, Done, {}), Disk(Held(TOMBSTONE), MarkAt(1)), COMMITTED, {POST_SENT})
  const FIRST_SEAT := Seat(SETTLED_TAB.(inFlight := false), Idle, {})
  const AT_REST := OneTab(FIRST_SEAT, Disk(Held(TOMBSTONE), MarkAt(1)), COMMITTED, {POST_SENT})

  predicate Takes(w: World, s: Step, v: World) {
    Enabled(w, s) && Apply(w, s) == v
  }

  lemma Then(w: World, s: Step, v: World, rest: seq<Step>, z: World)
    requires Takes(w, s, v) && Runs(v, rest, z)
    ensures Runs(w, [s] + rest, z)
  {
    hide Enabled, Apply;
    assert ([s] + rest)[1..] == rest;
  }

  lemma Starts()
    ensures Takes(EMPTY, Start(0), STARTED)
    ensures Takes(STARTED, LoadTab(0, IO), LOADED)
  {
  }

  lemma ReadIsAcceptable(w: World, n: nat)
    requires n <= 9 && w.saleId == THE_SALE && ITEM in w.ledger.exchanged && n <= w.ledger.exchanged[ITEM]
    ensures ParseRead(ReadJson(n)) == Some(ReadOf(n)) && Truthful(ReadOf(n), w.ledger.exchanged)
    ensures Acceptable(w, ReadJson(n), Expectation(None, BRANCH, NUMBER, None))
  {
    ReadParses(n);
    Ids();
    hide ParseRead, ReadJson, SampleUuid, IsUuid;
  }

  lemma OpensFirst()
    ensures Takes(LOADED, OpenDraft(0, IO, BRANCH, NUMBER, ReadJson(0)), OPENED)
  {
    ReadIsAcceptable(LOADED, 0);
    OpenOverEmpty(NoMark, 0);
    hide ParseRead, ReadJson, Open, Acceptable, Lower, SampleUuid, OpenedWith, MarkAt;
  }

  lemma Fills()
    ensures Takes(OPENED, EditDraft(0, SetLine(ITEM, Some(VARIANT), "1")), HALF_FILLED)
    ensures Takes(HALF_FILLED, EditDraft(0, SetReason("r")), READY)
    ensures Takes(READY, Send(0), WAITING)
  {
    EditsFill();
    hide Edit, SampleUuid, MarkAt;
  }

  lemma SendsKey()
    ensures Takes(WAITING, PrepareSend(0, IO, KEY), UNDER_WAY)
  {
    PreparesKey();
    hide Prepare, MintedBy, SampleUuid, MarkAt, FingerprintOf;
    assert [] + [Minted(KEY, PAYLOAD_SENT, MARKS)] == [Minted(KEY, PAYLOAD_SENT, MARKS)];
    assert {} + {POST_SENT} == {POST_SENT};
  }

  lemma Commits()
    ensures Takes(UNDER_WAY, Commit(POST_SENT), TAKEN)
  {
    hide SampleUuid, MarkAt, FingerprintOf;
    var lines := PAYLOAD_SENT.lines;
    assert lines[..0] == [];
    assert QuantityOf([], ITEM) == 0;
    assert QuantityOf(lines, ITEM) == 1;
    assert Credit(map[ITEM := 0], PAYLOAD_SENT) == map[ITEM := 1];
    assert {} + {KEY} == {KEY};
  }

  const ANSWER := Success(Obj(map[EXCHANGE_ID := Str(EXCHANGE)]))

  lemma Answers()
    ensures Takes(TAKEN, Answer(0, ANSWER), ANSWERED)
  {
    hide SampleUuid, MarkAt, FingerprintOf;
  }

  lemma Settles()
    ensures Takes(ANSWERED, SettleAnswer(0, IO, 1), SETTLED)
  {
    SettlesConfirmed();
    hide Settle, SampleUuid, MarkAt, FingerprintOf;
  }

  lemma EndsSend()
    ensures Takes(SETTLED, EndSend(0), AT_REST)
  {
    hide SampleUuid, MarkAt, FingerprintOf;
  }

  // ---- the second tab: load the tombstone, look, reconcile -----------------------------------------------------

  function TwoTabs(first: Seat, second: Seat, disk: Disk, ledger: Ledger): World {
    World(USER, THE_SALE, map[0 := first, 1 := second], disk, ledger, {POST_SENT}, {})
  }

  const SECOND_LOOK := Look(Tombstone(TOMBSTONE), FOUND)
  const SECOND_STARTED := TwoTabs(FIRST_SEAT, FRESH_SEAT, Disk(Held(TOMBSTONE), MarkAt(1)), COMMITTED)
  const SECOND_LOADED := TwoTabs(FIRST_SEAT, Seat(TabWith(FOUND), Idle, {}), Disk(Held(TOMBSTONE), MarkAt(1)), COMMITTED)
  const SECOND_LOOKED := TwoTabs(FIRST_SEAT, Seat(TabWith(FOUND), Idle, {SECOND_LOOK}), Disk(Held(TOMBSTONE), MarkAt(1)), COMMITTED)
  const RECONCILED := TwoTabs(FIRST_SEAT, Seat(TabWith(OpenedWith(1)), Idle, {SECOND_LOOK}), Disk(Absent, MarkAt(1)), COMMITTED)

  lemma SecondLoads()
    ensures Takes(AT_REST, Start(1), SECOND_STARTED)
    ensures Takes(SECOND_STARTED, LoadTab(1, IO), SECOND_LOADED)
  {
    LoadsTombstone();
    hide Load, SampleUuid, MarkAt, FingerprintOf, DraftFromRecord;
  }

  lemma SecondLooks()
    ensures Takes(SECOND_LOADED, LookForRefresh(1, IO), SECOND_LOOKED)
  {
    LoadsTombstone();
    hide Inspect, SampleUuid, MarkAt, FingerprintOf, DraftFromRecord;
    assert {} + {SECOND_LOOK} == {SECOND_LOOK};
  }

  lemma MayFinish(w: World, s: Step, read: Read)
    requires s.FinishRefresh? && IsLoaded(w, s.t) && s.look in w.seats[s.t].looks
    requires VerdictFor(s.look.basis, s.look.draft, ParseRead(s.raw), w.saleId, s.branchId, s.saleNumber) == Ok(read)
    requires ParseRead(s.raw) == Some(read) && Truthful(read, w.ledger.exchanged)
    ensures Enabled(w, s)
  {
    hide ParseRead, VerdictFor, Truthful;
  }

  const SECOND_FINISH := FinishRefresh(1, IO, SECOND_LOOK, BRANCH, NUMBER, ReadJson(1))

  lemma SecondMayFinish()
    ensures ParseRead(ReadJson(1)) == Some(ReadOf(1)) && Enabled(SECOND_LOOKED, SECOND_FINISH)
  {
    ReadIsAcceptable(SECOND_LOOKED, 1);
    ReadProves(Tombstone(TOMBSTONE), FOUND);
    hide Enabled, ParseRead, ReadJson, VerdictFor, Acceptable, Truthful, SampleUuid, MarkAt, FingerprintOf, DraftFromRecord, OpenedWith, ReadOf;
    MayFinish(SECOND_LOOKED, SECOND_FINISH, ReadOf(1));
  }

  lemma SecondReconciles()
    ensures Takes(SECOND_LOOKED, SECOND_FINISH, RECONCILED)
  {
    SecondMayFinish();
    Reconciles();
    hide ParseRead, ReadJson, Finish, VerdictFor, Truthful, SampleUuid, MarkAt, FingerprintOf, DraftFromRecord, OpenedWith, ReadOf, Enabled;
  }

  const FILLING: seq<Step> :=
    [Start(0)] + ([LoadTab(0, IO)] + ([OpenDraft(0, IO, BRANCH, NUMBER, ReadJson(0))]
    + ([EditDraft(0, SetLine(ITEM, Some(VARIANT), "1"))] + ([EditDraft(0, SetReason("r"))] + ([Send(0)] + [])))))

  const RESOLVING: seq<Step> :=
    [PrepareSend(0, IO, KEY)] + ([Commit(POST_SENT)] + ([Answer(0, ANSWER)] + ([SettleAnswer(0, IO, 1)] + ([EndSend(0)] + []))))

  const RECONCILING: seq<Step> :=
    [Start(1)] + ([LoadTab(1, IO)] + ([LookForRefresh(1, IO)]
    + ([SECOND_FINISH] + [])))

  lemma FillingRuns()
    ensures Runs(EMPTY, FILLING, WAITING)
  {
    Starts();
    OpensFirst();
    Fills();
    hide Takes, SampleUuid, ReadJson;
    hide EMPTY, STARTED, LOADED, OPENED, HALF_FILLED, READY, WAITING;
    var s5 := [Send(0)] + [];
    var s4 := [EditDraft(0, SetReason("r"))] + s5;
    var s3 := [EditDraft(0, SetLine(ITEM, Some(VARIANT), "1"))] + s4;
    var s2 := [OpenDraft(0, IO, BRANCH, NUMBER, ReadJson(0))] + s3;
    Then(READY, Send(0), WAITING, [], WAITING);
    Then(HALF_FILLED, EditDraft(0, SetReason("r")), READY, s5, WAITING);
    Then(OPENED, EditDraft(0, SetLine(ITEM, Some(VARIANT), "1")), HALF_FILLED, s4, WAITING);
    Then(LOADED, OpenDraft(0, IO, BRANCH, NUMBER, ReadJson(0)), OPENED, s3, WAITING);
    Then(STARTED, LoadTab(0, IO), LOADED, s2, WAITING);
    Then(EMPTY, Start(0), STARTED, [LoadTab(0, IO)] + s2, WAITING);
  }

  lemma ResolvingRuns()
    ensures Runs(WAITING, RESOLVING, AT_REST)
  {
    SendsKey();
    Commits();
    Answers();
    Settles();
    EndsSend();
    hide Takes, SampleUuid, ANSWER;
    hide WAITING, UNDER_WAY, TAKEN, ANSWERED, SETTLED, AT_REST;
    var s4 := [EndSend(0)] + [];
    var s3 := [SettleAnswer(0, IO, 1)] + s4;
    var s2 := [Answer(0, ANSWER)] + s3;
    Then(SETTLED, EndSend(0), AT_REST, [], AT_REST);
    Then(ANSWERED, SettleAnswer(0, IO, 1), SETTLED, s4, AT_REST);
    Then(TAKEN, Answer(0, ANSWER), ANSWERED, s3, AT_REST);
    Then(UNDER_WAY, Commit(POST_SENT), TAKEN, s2, AT_REST);
    Then(WAITING, PrepareSend(0, IO, KEY), UNDER_WAY, [Commit(POST_SENT)] + s2, AT_REST);
  }

  lemma ReconcilingRuns()
    ensures Runs(AT_REST, RECONCILING, RECONCILED)
  {
    SecondLoads();
    SecondLooks();
    SecondReconciles();
    hide Takes, SECOND_FINISH;
    hide AT_REST, SECOND_STARTED, SECOND_LOADED, SECOND_LOOKED, RECONCILED;
    var s3 := [SECOND_FINISH] + [];
    var s2 := [LookForRefresh(1, IO)] + s3;
    Then(SECOND_LOOKED, SECOND_FINISH, RECONCILED, [], RECONCILED);
    Then(SECOND_LOADED, LookForRefresh(1, IO), SECOND_LOOKED, s3, RECONCILED);
    Then(SECOND_STARTED, LoadTab(1, IO), SECOND_LOADED, s2, RECONCILED);
    Then(AT_REST, Start(1), SECOND_STARTED, [LoadTab(1, IO)] + s2, RECONCILED);
  }

  lemma {:induction false} RunsJoin(u: World, a: seq<Step>, v: World, b: seq<Step>, z: World)
    requires Runs(u, a, v) && Runs(v, b, z)
    ensures Runs(u, a + b, z)
    decreases |a|
  {
    hide Enabled, Apply;
    if |a| == 0 {
      assert a + b == b;
    } else {
      RunsJoin(Apply(u, a[0]), a[1..], v, b, z);
      assert (a + b)[1..] == a[1..] + b;
    }
  }

  /** A whole cycle is possible: from an empty start one tab opens a draft, mints a key, sends it, sees it committed and settles the
      confirmation; another tab finds the tombstone, proves it with a fresh read and reopens the sale where the first ended. */
  lemma CycleIsPossible()
    ensures Runs(EMPTY, FILLING + RESOLVING + RECONCILING, RECONCILED)
    ensures Minted(KEY, PAYLOAD_SENT, MARKS) in RECONCILED.ledger.log && KEY in RECONCILED.ledger.committed && POST_SENT in RECONCILED.posts
    ensures RECONCILED.disk == Disk(Absent, MarkAt(1)) && RECONCILED.seats[1].tab.draft == Some(OpenedWith(1))
  {
    FillingRuns();
    ResolvingRuns();
    ReconcilingRuns();
    hide Runs, FILLING, RESOLVING, RECONCILING, EMPTY, WAITING, AT_REST;
    RunsJoin(EMPTY, FILLING, WAITING, RESOLVING, AT_REST);
    RunsJoin(EMPTY, FILLING + RESOLVING, AT_REST, RECONCILING, RECONCILED);
  }

  // ---- a refused read ------------------------------------------------------------------------------------------

  const FIRST_LOOK := Look(NoTombstone(Some(MARKS)), CONFIRMED_DRAFT)
  const SERVED := RECONCILED.(seats := RECONCILED.seats[0 := FIRST_SEAT.(looks := {FIRST_LOOK})])
  const MOVED := SERVED.(ledger := COMMITTED.(exchanged := map[ITEM := 2]))
  const THIRD_STARTED := MOVED.(seats := SERVED.seats[2 := FRESH_SEAT])
  const THIRD_LOADED := MOVED.(seats := SERVED.seats[2 := Seat(NEW_TAB, Idle, {})])
  const OVERTAKEN := THIRD_LOADED.(seats := THIRD_LOADED.seats[2 := Seat(TabWith(OpenedWith(2)), Idle, {})], disk := Disk(Absent, MarkAt(2)))
  const THIRD_OPEN := OpenDraft(2, IO, BRANCH, NUMBER, ReadJson(2))
  const FIRST_FINISH := FinishRefresh(0, IO, FIRST_LOOK, BRANCH, NUMBER, ReadJson(1))

  lemma FirstLooks()
    ensures Takes(RECONCILED, LookForRefresh(0, IO), SERVED)
  {
    hide SampleUuid, MarkAt, FingerprintOf, OpenedWith, SECOND_LOOK;
    assert {} + {FIRST_LOOK} == {FIRST_LOOK};
  }

  lemma OthersMove()
    ensures Takes(SERVED, OthersExchange(ITEM, 1), MOVED)
  {
    hide SampleUuid, MarkAt, FingerprintOf, OpenedWith, SECOND_LOOK, FIRST_LOOK, FIRST_SEAT;
    assert COMMITTED.exchanged[ITEM := 2] == map[ITEM := 2];
  }

  lemma ThirdLoads()
    ensures Takes(MOVED, Start(2), THIRD_STARTED)
    ensures Takes(THIRD_STARTED, LoadTab(2, IO), THIRD_LOADED)
  {
    hide SampleUuid, MarkAt, FingerprintOf, OpenedWith, SECOND_LOOK, FIRST_LOOK, FIRST_SEAT;
  }

  lemma ThirdMayOpen()
    ensures ParseRead(ReadJson(2)) == Some(ReadOf(2)) && Enabled(THIRD_LOADED, THIRD_OPEN)
  {
    ReadIsAcceptable(THIRD_LOADED, 2);
    hide ParseRead, ReadJson, Acceptable, SampleUuid, FingerprintOf, OpenedWith, MarkAt, ReadOf;
    hide SECOND_LOOK, FIRST_LOOK, FIRST_SEAT;
  }

  lemma OpenApplies(w: World, s: Step, tab: Tab, disk: Disk)
    requires s.OpenDraft? && Enabled(w, s)
    requires Open(w.seats[s.t].tab, w.disk, s.io, w.userId, s.branchId, ParseRead(s.raw).value).0 == tab
    requires Open(w.seats[s.t].tab, w.disk, s.io, w.userId, s.branchId, ParseRead(s.raw).value).1 == disk
    ensures Apply(w, s) == w.(seats := w.seats[s.t := w.seats[s.t].(tab := tab)], disk := disk)
  {
    hide Open, ParseRead, Acceptable;
  }

  lemma ThirdOpens()
    ensures Takes(THIRD_LOADED, THIRD_OPEN, OVERTAKEN)
  {
    ThirdMayOpen();
    OpenOverEmpty(MarkAt(1), 2);
    hide ParseRead, ReadJson, Open, Enabled, Apply, SampleUuid, FingerprintOf, OpenedWith, MarkAt, ReadOf;
    hide SECOND_LOOK, FIRST_LOOK, FIRST_SEAT;
    OpenApplies(THIRD_LOADED, THIRD_OPEN, TabWith(OpenedWith(2)), Disk(Absent, MarkAt(2)));
  }

  const OVERTAKING: seq<Step> := [OthersExchange(ITEM, 1)] + ([Start(2)] + ([LoadTab(2, IO)] + ([THIRD_OPEN] + [])))

  lemma OvertakingRuns()
    ensures Runs(SERVED, OVERTAKING, OVERTAKEN)
  {
    OthersMove();
    ThirdLoads();
    ThirdOpens();
    hide Takes, THIRD_OPEN, SampleUuid;
    hide SERVED, MOVED, THIRD_STARTED, THIRD_LOADED, OVERTAKEN;
    var s3 := [THIRD_OPEN] + [];
    var s2 := [LoadTab(2, IO)] + s3;
    Then(THIRD_LOADED, THIRD_OPEN, OVERTAKEN, [], OVERTAKEN);
    Then(THIRD_STARTED, LoadTab(2, IO), THIRD_LOADED, s3, OVERTAKEN);
    Then(MOVED, Start(2), THIRD_STARTED, s2, OVERTAKEN);
    Then(SERVED, OthersExchange(ITEM, 1), MOVED, [Start(2)] + s2, OVERTAKEN);
  }

  lemma FirstIsStale()
    ensures ParseRead(ReadJson(1)) == Some(ReadOf(1))
    ensures Finish(FIRST_SEAT.tab, Disk(Absent, MarkAt(2)), IO, FIRST_LOOK.basis, ReadOf(1), USER, BRANCH).2.Stale?
  {
    ReadParses(1);
    Ids();
    hide ParseRead, ReadJson, SampleUuid, FingerprintOf, RaiseMark, NewDraft;
    assert Map(ShownLine, ReadOf(1).lines)[0] == (ITEM, 1);
  }

  lemma FirstStillSits()
    ensures 0 in OVERTAKEN.seats && OVERTAKEN.seats[0] == FIRST_SEAT.(looks := {FIRST_LOOK})
    ensures OVERTAKEN.saleId == THE_SALE && OVERTAKEN.ledger.exchanged == map[ITEM := 2]
  {
    hide SampleUuid, MarkAt, FingerprintOf, OpenedWith;
    hide SECOND_LOOK, FIRST_LOOK, FIRST_SEAT;
  }

  lemma FirstMayFinish()
    ensures Enabled(OVERTAKEN, FIRST_FINISH)
  {
    FirstStillSits();
    ReadProves(FIRST_LOOK.basis, CONFIRMED_DRAFT);
    ReadIsAcceptable(OVERTAKEN, 1);
    hide Enabled, ParseRead, ReadJson, VerdictFor, Acceptable, Truthful, SampleUuid, MarkAt, FingerprintOf, OpenedWith, ReadOf;
    hide SECOND_LOOK, OVERTAKEN;
    MayFinish(OVERTAKEN, FIRST_FINISH, ReadOf(1));
  }

  lemma ReadIsUpToDate(n: nat, exchanged: map<string, nat>)
    requires n <= 9 && exchanged == map[ITEM := n]
    ensures UpToDate(ReadOf(n), exchanged)
  {
    Ids();
    hide SampleUuid, IsUuid;
    assert FindRow(ReadOf(n).lines, ITEM) == Some(ReadOf(n).lines[0]);
  }

  /** An up-to-date read can be refused as stale. The run goes on: the first tab, which still remembers its confirmation, looks at the
      empty slot, and its read is served when it shows exactly what the server has. Before it arrives one more unit is exchanged
      elsewhere and a third tab opens a draft from a newer read; the first tab's refresh then ends stale. */
  lemma UpToDateReadMayBeRefused()
    ensures Reachable(SERVED) && ParseRead(ReadJson(1)) == Some(ReadOf(1)) && UpToDate(ReadOf(1), SERVED.ledger.exchanged)
    ensures Runs(SERVED, OVERTAKING, OVERTAKEN) && Enabled(OVERTAKEN, FIRST_FINISH)
    ensures Finish(OVERTAKEN.seats[0].tab, OVERTAKEN.disk, IO, FIRST_LOOK.basis, ReadOf(1), USER, BRANCH).2.Stale?
  {
    ServedIsReachable();
    OvertakingRuns();
    FirstMayFinish();
    FirstIsStale();
    ReadIsUpToDate(1, COMMITTED.exchanged);
    hide Runs, Reachable, Enabled, Finish, ParseRead, ReadJson, ReadOf, UpToDate, SampleUuid, MarkAt, OVERTAKING, FIRST_FINISH;
  }

  lemma ServedIsReachable()
    ensures Reachable(SERVED)
  {
    CycleIsPossible();
    FirstLooks();
    hide Takes, FILLING, RESOLVING, RECONCILING, RECONCILED, SERVED, SampleUuid;
    Then(RECONCILED, LookForRefresh(0, IO), SERVED, [], SERVED);
    RunsJoin(EMPTY, FILLING + RESOLVING + RECONCILING, RECONCILED, [LookForRefresh(0, IO)] + [], SERVED);
    hide Runs;
  }

  // ---- a confirmation that cannot be read again ----------------------------------------------------------------

  /** The store takes any text as an exchange id. One that is no UUID confirms the key and leaves a slot no tab can read. */
  lemma OddExchangeIdSpoilsTheSlot()
    ensures Classify(Success(Obj(map[EXCHANGE_ID := Str("1")]))) == Confirmed("1")
    ensures Settle(SENT, Disk(Held(SENT_RECORD), MarkAt(0)), IO, KEY, Confirmed("1"), 1).1.cell.Garbage?
  {
    AttemptIsRecordable();
    assert !IsUuid("1");
    ConfirmationLeavesReadableTombstone(SENT, Disk(Held(SENT_RECORD), MarkAt(0)), IO, KEY, "1", 1);
    hide Persistable, FingerprintOf, SampleUuid, RaiseMark, IsUuid;
  }
}
