/** The conditions of the stream, of the verifier and of the resume can all be met at once: a reviewed contract, a backup of two users
    without scopes, the state in which the seed has given one of them a scope and the other a new hash, and a run that requests its
    COMMIT. */
module ResumeExample {
  import opened Wrappers
  import opened Ordering
  import opened Sequences
  import opened Bytes
  import opened Decimal
  import opened StateTypes
  import opened StateFields
  import opened StateStream
  import opened StateReading
  import opened StateTheorems
  import opened StateOrder
  import opened StreamWriter
  import opened Transformation
  import opened ProtectedResume
  import opened ResumeTheorems
  import opened ResumeVerified
  import Texts

  // ---- a contract of text columns ------------------------------------------------------------------------------

  function TextColumn(names: seq<string>, k: nat): StateTypes.Column
    requires k < |names|
  {
    StateTypes.Column(k + 1, names[k], TextField, "text", false, false, None, if k == 0 then 1 else 0)
  }

  /** A table of text columns whose key is the first one. */
  function TextTable(relation: string, names: seq<string>): Table {
    Table(relation, seq(|names|, k requires 0 <= k < |names| => TextColumn(names, k)))
  }

  function FactsFor(relation: string, names: seq<string>): RelationFacts {
    RelationFacts(Scalars(relation),
                  seq(|names|, k requires 0 <= k < |names| => ColumnFacts(k + 1, Scalars(names[k]), Scalars("text"), false, None, None)),
                  [1], [], [], [], [], false, false, 0, 0, 0, None)
  }

  predicate ShortNames(relation: string, names: seq<string>) {
    |relation| <= 100 && 1 <= |names| <= 100 && forall k :: 0 <= k < |names| ==> |names[k]| <= 100
  }

  const USER_NAMES := ["id", "name", "email", "passwordHash", "isActive", "createdAt", "updatedAt", "mustChangePassword", "credentialsChangedAt"]
  const SCOPE_NAMES := ["id", "userId", "roleId", "scopeKind", "locationId"]
  const ROLE_NAMES := ["id", "code", "name"]
  const LOCATION_NAMES := ["id", "companyId", "name", "code"]
  const PERMISSION_NAMES := ["roleId", "permissionId"]

  const CONTRACT := Contract([], [], [
    TextTable(LOCATION_TABLE, LOCATION_NAMES), TextTable(ROLE_TABLE, ROLE_NAMES), TextTable(PERMISSION_TABLE, PERMISSION_NAMES),
    TextTable(USER_TABLE, USER_NAMES), TextTable(SCOPE_TABLE, SCOPE_NAMES)])

  const HEADER := Header(Scalars("t"), Scalars("00000000-0000-0000-0000-000000000000"), Scalars("0"), Scalars("160000"),
                         Scalars(PROTECTED_SEARCH_PATH), Scalars("UTF8"), Scalars("UTF8"))

  const ROLE_ROW: Row := [Some(Scalars("1")), Some(Scalars("OWNER")), None]
  const OWNER_ROW: Row := [Some(Scalars("u")), None, Some(Scalars("e")), None, None, None, None, None, None]
  const SCOPE_ROW: Row := [Some(Scalars(Texts.SampleUuid('a'))), Some(Scalars("u")), Some(Scalars("1")), Some(Scalars("COMPANY")), None]

  /** A seed user with this password hash. */
  function ClerkRow(hash: string): Row {
    [Some(Scalars("v")), None, Some(Scalars("f")), Some(Scalars(hash)), None, Some(Scalars("0")), Some(Scalars("0")), None, None]
  }

  function UserRows(hash: string): seq<Row> {
    [OWNER_ROW, ClerkRow(hash)]
  }

  /** One role, two users, and these scopes. */
  function StateWith(hash: string, scopes: seq<Row>): State {
    State(HEADER, [], [], [
      RelationState(FactsFor(LOCATION_TABLE, LOCATION_NAMES), []), RelationState(FactsFor(ROLE_TABLE, ROLE_NAMES), [ROLE_ROW]),
      RelationState(FactsFor(PERMISSION_TABLE, PERMISSION_NAMES), []), RelationState(FactsFor(USER_TABLE, USER_NAMES), UserRows(hash)),
      RelationState(FactsFor(SCOPE_TABLE, SCOPE_NAMES), scopes)])
  }

  const OLD_HASH := "x"
  const NEW_HASH := "y"
  const BACKUP := StateWith(OLD_HASH, [])
  const SEEDED := StateWith(NEW_HASH, [SCOPE_ROW])
  const SEED_FACTS := Transformation.Seed.Seed(Scalars("e"), {Scalars("f")}, Scalars("0"), [Assignment(Scalars("u"), Scalars("e"), Scalars("OWNER"), None)])

  // ---- both states are accepted --------------------------------------------------------------------------------

  lemma ShortTextOk(s: string)
    requires |s| <= 100
    ensures TextOk(Scalars(s))
  {
    Utf8Length(s);
  }

  lemma MarkerIsUuid()
    ensures IsMarkerUuid(HEADER.markerId.s) && IsVersionNumber(HEADER.serverVersion.s)
  {
  }

  lemma ZeroIsAnInstant()
    ensures FieldOk([], map[], Tstz, None, Some(Scalars("0")))
  {
    assert IsNatural("0");
    assert "0"[..0] == "";
    assert Value("0") == 0;
  }

  lemma HeaderIsOk()
    ensures HeaderOk(HEADER)
  {
    hide TextOk, IsMarkerUuid, IsVersionNumber, FieldOk;
    MarkerIsUuid();
    ZeroIsAnInstant();
    ShortTextOk("t");
    ShortTextOk("00000000-0000-0000-0000-000000000000");
    ShortTextOk("160000");
    ShortTextOk(PROTECTED_SEARCH_PATH);
    ShortTextOk("UTF8");
  }

  lemma {:induction false} OnlyFirstIsKey(relation: string, names: seq<string>, n: nat)
    requires 1 <= n <= |names|
    ensures KeyColumns(TextTable(relation, names).columns[..n]) == [TextColumn(names, 0)]
  {
    var columns := TextTable(relation, names).columns;
    assert columns[..n][..n - 1] == columns[..n - 1];
    if n == 1 {
      assert KeyColumns(columns[..0]) == [];
    } else {
      OnlyFirstIsKey(relation, names, n - 1);
    }
  }

  lemma KeyIsFirst(relation: string, names: seq<string>)
    requires |names| >= 1
    ensures KeyAttnums(TextTable(relation, names)) == [1] && ColumnAt(TextTable(relation, names).columns, 1) == 0
  {
    var columns := TextTable(relation, names).columns;
    OnlyFirstIsKey(relation, names, |names|);
    assert columns[..|names|] == columns;
    var first := TextColumn(names, 0);
    assert [first][..0] == [];
    assert Sort(ByKeyPosition, []) == [];
    assert Sort(ByKeyPosition, [first]) == [first];
  }

  lemma FactsAreFine(relation: string, names: seq<string>)
    requires ShortNames(relation, names)
    ensures FactsOk(TextTable(relation, names), FactsFor(relation, names))
  {
    ShortTextOk(relation);
    ShortTextOk("text");
    ShortTextOk("");
    KeyIsFirst(relation, names);
    hide TextOk, KeyAttnums;
    var f, t := FactsFor(relation, names), TextTable(relation, names);
    forall k | 0 <= k < |names| ensures ColumnWritable(f.columns[k]) && SameColumn(f.columns[k], t.columns[k]) {
      ShortTextOk(names[k]);
    }
  }

  /** A row of short texts and nulls whose first cell is a text. */
  predicate TextRow(names: seq<string>, row: Row) {
    && |row| == |names| >= 1 && row[0].Some?
    && forall k :: 0 <= k < |row| ==> row[k].Some? ==> row[k].value.Scalars? && |row[k].value.s| <= 100
  }

  lemma RowIsOk(relation: string, names: seq<string>, row: Row)
    requires TextRow(names, row)
    ensures RowOk([], map[], TextTable(relation, names), row)
  {
    KeyIsFirst(relation, names);
    hide TextOk, KeyAttnums;
    var t := TextTable(relation, names);
    forall k | 0 <= k < |row| ensures FieldOk([], map[], t.columns[k].fieldType, t.columns[k].enumType, row[k]) {
      if row[k].Some? {
        ShortTextOk(row[k].value.s);
      }
    }
    assert CellsOk([], map[], t.columns, row);
    hide CellsOk;
    assert KeyOk(t, row);
  }

  predicate TextRows(names: seq<string>, rows: seq<Row>) {
    |rows| <= 100 && forall i :: 0 <= i < |rows| ==> TextRow(names, rows[i])
  }

  function SectionSize(relation: string, names: seq<string>, rows: seq<Row>): nat {
    |HeadBytes(FactsFor(relation, names))| + 8 + |All(PutRow([], TextTable(relation, names).columns), rows)|
  }

  lemma SectionIsOk(relation: string, names: seq<string>, rows: seq<Row>, cap: nat)
    requires ShortNames(relation, names) && TextRows(names, rows) && RowsRise(TextTable(relation, names), rows)
    requires cap >= SectionSize(relation, names, rows)
    ensures SectionOk([], map[], cap, TextTable(relation, names), RelationState(FactsFor(relation, names), rows))
  {
    hide FactsOk, RowOk, HeadBytes, All, PutRow, RowsOk, TextRow, RowsRise;
    FactsAreFine(relation, names);
    forall i | 0 <= i < |rows| ensures RowOk([], map[], TextTable(relation, names), rows[i]) {
      RowIsOk(relation, names, rows[i]);
    }
    RowsAreAcceptedRising([], map[], cap, TextTable(relation, names), |HeadBytes(FactsFor(relation, names))| + 8, rows);
  }

  /** The two users are in order: "u" comes before "v". */
  lemma UsersRise(hash: string)
    ensures RowsRise(TextTable(USER_TABLE, USER_NAMES), UserRows(hash))
  {
    var t := TextTable(USER_TABLE, USER_NAMES);
    KeyIsFirst(USER_TABLE, USER_NAMES);
    hide KeyAttnums, KeyColumns;
    assert Utf8("") == [];
    assert "u"[1..] == "" && "v"[1..] == "";
    assert Utf8("u") == [117] && Utf8("v") == [118];
    assert Key(t, OWNER_ROW) == [[117]];
    assert Key(t, ClerkRow(hash)) == [[118]];
    OneByteBefore(117, 118);
  }

  lemma OneByteBefore(a: Byte, b: Byte)
    requires a < b
    ensures KeyBefore([[a]], [[b]])
  {
    assert [a][..0] == [b][..0];
    assert BytesBefore([a], [b]);
    assert [[a]][..0] == [[b]][..0];
  }

  predicate FewScopes(scopes: seq<Row>) {
    scopes == [] || scopes == [SCOPE_ROW]
  }

  lemma NamesAreShort()
    ensures ShortNames(LOCATION_TABLE, LOCATION_NAMES) && ShortNames(ROLE_TABLE, ROLE_NAMES) && ShortNames(PERMISSION_TABLE, PERMISSION_NAMES)
    ensures ShortNames(USER_TABLE, USER_NAMES) && ShortNames(SCOPE_TABLE, SCOPE_NAMES)
  {
  }

  lemma RowsAreText()
    ensures TextRow(ROLE_NAMES, ROLE_ROW) && TextRow(USER_NAMES, OWNER_ROW) && TextRow(SCOPE_NAMES, SCOPE_ROW)
    ensures TextRow(USER_NAMES, ClerkRow(OLD_HASH)) && TextRow(USER_NAMES, ClerkRow(NEW_HASH))
  {
  }

  function Needed(hash: string, scopes: seq<Row>): nat {
    SectionSize(LOCATION_TABLE, LOCATION_NAMES, []) + SectionSize(ROLE_TABLE, ROLE_NAMES, [ROLE_ROW])
    + SectionSize(PERMISSION_TABLE, PERMISSION_NAMES, []) + SectionSize(USER_TABLE, USER_NAMES, UserRows(hash))
    + SectionSize(SCOPE_TABLE, SCOPE_NAMES, scopes)
  }

  lemma StateIsOk(hash: string, scopes: seq<Row>, cap: nat)
    requires (hash == OLD_HASH || hash == NEW_HASH) && FewScopes(scopes) && cap >= Needed(hash, scopes)
    ensures StateOk(CONTRACT, cap, StateWith(hash, scopes))
  {
    hide HeaderOk, SectionOk, SectionSize, ShortNames, TextRow, TextTable, FactsFor, KeyBefore, Key, OLD_HASH, NEW_HASH, ClerkRow;
    HeaderIsOk();
    NamesAreShort();
    RowsAreText();
    UsersRise(hash);
    SectionIsOk(LOCATION_TABLE, LOCATION_NAMES, [], cap);
    SectionIsOk(ROLE_TABLE, ROLE_NAMES, [ROLE_ROW], cap);
    SectionIsOk(PERMISSION_TABLE, PERMISSION_NAMES, [], cap);
    SectionIsOk(USER_TABLE, USER_NAMES, UserRows(hash), cap);
    SectionIsOk(SCOPE_TABLE, SCOPE_NAMES, scopes, cap);
    assert SectionsOk([], map[], cap, CONTRACT.tables, StateWith(hash, scopes).relations);
  }

  lemma TheyDiffer()
    ensures Normal(BACKUP) != Normal(SEEDED) && SchemaOf(BACKUP) == SchemaOf(SEEDED)
  {
    hide FactsFor;
    assert Normal(BACKUP).relations[4].rows != Normal(SEEDED).relations[4].rows;
    assert FactsOf(BACKUP.relations) == FactsOf(SEEDED.relations);
  }

  // ---- the contract is a reviewed one --------------------------------------------------------------------------

  lemma NamesDiffer()
    ensures Distinct([LOCATION_TABLE, ROLE_TABLE, PERMISSION_TABLE, USER_TABLE, SCOPE_TABLE])
  {
    assert |LOCATION_TABLE| == 8 && |ROLE_TABLE| == 4 && |PERMISSION_TABLE| == 14 && |USER_TABLE| == 4 && |SCOPE_TABLE| == 13;
    assert ROLE_TABLE[0] != USER_TABLE[0];
  }

  lemma ContractIsReviewed()
    ensures IsReviewed(CONTRACT) && Relations(CONTRACT) == [LOCATION_TABLE, ROLE_TABLE, PERMISSION_TABLE, USER_TABLE, SCOPE_TABLE]
  {
    NamesDiffer();
    KeyIsFirst(USER_TABLE, USER_NAMES);
    hide USER_TABLE, SCOPE_TABLE, ROLE_TABLE, LOCATION_TABLE, PERMISSION_TABLE;
    var names := [LOCATION_TABLE, ROLE_TABLE, PERMISSION_TABLE, USER_TABLE, SCOPE_TABLE];
    assert Relations(CONTRACT) == names;
    assert names[0] in names && names[1] in names && names[2] in names && names[3] in names && names[4] in names;
    hide KeyAttnums, Distinct;
  }

  // ---- the seeded rows are ones the seed may make --------------------------------------------------------------

  lemma RowsAre(hash: string, scopes: seq<Row>)
    ensures var rows := RowsOf(CONTRACT, StateWith(hash, scopes));
            && LOCATION_TABLE in rows && rows[LOCATION_TABLE] == [] && ROLE_TABLE in rows && rows[ROLE_TABLE] == [ROLE_ROW]
            && PERMISSION_TABLE in rows && rows[PERMISSION_TABLE] == [] && USER_TABLE in rows && rows[USER_TABLE] == UserRows(hash)
            && SCOPE_TABLE in rows && rows[SCOPE_TABLE] == scopes
  {
    ContractIsReviewed();
    hide USER_TABLE, SCOPE_TABLE, ROLE_TABLE, LOCATION_TABLE, PERMISSION_TABLE, RowsUpTo, Distinct, UserRows;
    var tables, rs := CONTRACT.tables, StateWith(hash, scopes).relations;
    RowsAreFound(tables, rs, 5, 0);
    RowsAreFound(tables, rs, 5, 1);
    RowsAreFound(tables, rs, 5, 2);
    RowsAreFound(tables, rs, 5, 3);
    RowsAreFound(tables, rs, 5, 4);
  }

  lemma UsersAreAllowed(password: Cell -> PasswordState)
    requires password(Some(Scalars(NEW_HASH))).DefaultPassword?
    ensures Shaped(UserRows(OLD_HASH), USER_ARITY) && Shaped(UserRows(NEW_HASH), USER_ARITY)
    ensures UsersAccepted(UserRows(OLD_HASH), UserRows(NEW_HASH), SEED_FACTS, password)
  {
    var before, after := UserRows(OLD_HASH), UserRows(NEW_HASH);
    assert before[0] in before && before[1] in before;
    assert "u"[0] != "v"[0] && "e"[0] != "f"[0];
    assert ValuesOf(before, USER_ID) == ValuesOf(after, USER_ID) == [Some(Scalars("u")), Some(Scalars("v"))];
    assert UserRule(OWNER_ROW, OWNER_ROW, SEED_FACTS, password);
    ClerkMayChange(password);
    hide UserRule, ToSet, SEED_FACTS, ValuesOf;
    forall b, a | b in before && a in after && b[USER_ID] == a[USER_ID] ensures UserRule(b, a, SEED_FACTS, password) {
      assert (b == OWNER_ROW && a == OWNER_ROW) || (b == ClerkRow(OLD_HASH) && a == ClerkRow(NEW_HASH));
    }
  }

  lemma ClerkMayChange(password: Cell -> PasswordState)
    requires password(Some(Scalars(NEW_HASH))).DefaultPassword?
    ensures UserRule(ClerkRow(OLD_HASH), ClerkRow(NEW_HASH), SEED_FACTS, password)
  {
    assert "e"[0] != "f"[0];
    assert ClerkRow(NEW_HASH) == ClerkRow(OLD_HASH)[USER_HASH := Some(Scalars(NEW_HASH))];
  }

  const SCOPE_CONTENT: Row := [Some(Scalars("u")), Some(Scalars("1")), Some(Scalars("COMPANY")), None]

  lemma OneScopeIsExpected()
    ensures Expected(SEED_FACTS.assignments, Lookup([ROLE_ROW], ROLE_CODE, ROLE_ID), Lookup([], LOCATION_CODE, LOCATION_ID)) == Some({SCOPE_CONTENT})
  {
    assert [ROLE_ROW][..0] == [];
    var roleIds := Lookup([ROLE_ROW], ROLE_CODE, ROLE_ID);
    assert Lookup([], ROLE_CODE, ROLE_ID) == map[];
    assert roleIds == map[Some(Scalars("OWNER")) := Some(Scalars("1"))];
    assert SEED_FACTS.assignments[..0] == [];
    assert Expected([], roleIds, map[]) == Some({});
    assert TargetOf(SEED_FACTS.assignments[0], roleIds, map[]) == Ok(Some(SCOPE_CONTENT));
    assert {} + {SCOPE_CONTENT} == {SCOPE_CONTENT};
  }

  lemma ScopeIsMade()
    ensures ScopesAccepted([], [SCOPE_ROW], {SCOPE_CONTENT})
  {
    Texts.SampleIsUuid('a');
    hide Texts.SampleUuid;
    assert Content(SCOPE_ROW) == SCOPE_CONTENT;
    assert Contents([SCOPE_ROW]) == [SCOPE_CONTENT];
    assert ToSet(Contents([SCOPE_ROW])) == {SCOPE_CONTENT};
  }

  lemma SeedIsAllowed(cap: nat, password: Cell -> PasswordState)
    requires StateOk(CONTRACT, cap, BACKUP) && StateOk(CONTRACT, cap, SEEDED) && password(Some(Scalars(NEW_HASH))).DefaultPassword?
    ensures IsReviewed(CONTRACT) && IsTransformed(CONTRACT, BACKUP, SEEDED, SEED_FACTS, password)
  {
    hide StateOk, RowsOf, IsReviewed, ScopesAccepted, Expected, Lookup, UsersAccepted, StateWith, UserRows;
    hide USER_TABLE, SCOPE_TABLE, ROLE_TABLE, LOCATION_TABLE, PERMISSION_TABLE;
    ContractIsReviewed();
    AcceptedRowsAreShaped(CONTRACT, cap, BACKUP);
    AcceptedRowsAreShaped(CONTRACT, cap, SEEDED);
    RowsAre(OLD_HASH, []);
    RowsAre(NEW_HASH, [SCOPE_ROW]);
    UsersAreAllowed(password);
    OneScopeIsExpected();
    ScopeIsMade();
  }

  // ---- the run -------------------------------------------------------------------------------------------------

  /** Two acceptable states over one schema that differ, and whose rows the verifier accepts, admit a run that requests its COMMIT. */
  lemma RunExists(contract: Contract, cap: nat, pre: State, post: State, accepts: (Rows, Rows) -> bool)
    requires StateOk(contract, cap, pre) && StateOk(contract, cap, post)
    requires Normal(pre) != Normal(post) && SchemaOf(pre) == SchemaOf(post)
    requires accepts(RowsOf(contract, pre), RowsOf(contract, post))
    ensures exists run: Run :: RequestsCommit(run) && run.contract == contract && run.pre == pre && run.script.seeded == post && run.accepts == accepts
  {
    hide StateOk, DigestMessage, SchemaMessage, RequestsCommit, Normal, SchemaOf;
    DigestsSeparate(contract, Pre, cap, pre, Pre, cap, post);
    SchemaDigestIsExact(contract, cap, pre, cap, post);
    var fPost := DigestOf(Post, contract, post);
    var script := Script(Fine, Fine, Fine, Fine, Fine, Fine, Ok("POST_BACKFILL"), Fine, true, Fine, Fine, Fine, Fine, post, Fine,
                         Ok("EXACT_BASELINE"), Fine, true, Ok(Receipt(true, "nonce", fPost)), Fine, Fine, true);
    var run := Run(contract, cap, pre, Request(DigestOf(Pre, contract, pre), "nonce", ContractDigests("d", "t")), script, accepts);
    CommitMeans(run);
  }

  lemma BothAreOk() returns (cap: nat)
    ensures StateOk(CONTRACT, cap, BACKUP) && StateOk(CONTRACT, cap, SEEDED)
  {
    hide StateOk, StateWith, Needed;
    cap := Needed(OLD_HASH, []) + Needed(NEW_HASH, [SCOPE_ROW]);
    StateIsOk(OLD_HASH, [], cap);
    StateIsOk(NEW_HASH, [SCOPE_ROW], cap);
  }

  /** With the transformation verifier in place, and a password check that knows the new hash, a resume can get all the way to its
      COMMIT. */
  lemma CommitIsPossible(password: Cell -> PasswordState)
    requires password(Some(Scalars(NEW_HASH))).DefaultPassword?
    ensures exists run: Run :: RequestsCommit(run) && IsVerified(run, SEED_FACTS, password) && run.pre == BACKUP && run.script.seeded == SEEDED
  {
    hide StateOk, RequestsCommit, Normal, SchemaOf, Verdict, IsTransformed, RowsOf, IsReviewed;
    hide BACKUP, SEEDED, CONTRACT, SEED_FACTS, NEW_HASH;
    var cap := BothAreOk();
    TheyDiffer();
    SeedIsAllowed(cap, password);
    VerdictIsTheRelation(CONTRACT, cap, BACKUP, SEEDED, SEED_FACTS, password);
    RunExists(CONTRACT, cap, BACKUP, SEEDED, Verdict(CONTRACT, SEED_FACTS, password));
  }
}
