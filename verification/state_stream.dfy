/** The canonical state stream: header, enum types, functions, then one section per table, in contract order. First what the
    writer puts out, then the reader, then the proof that the reader undoes the writer and what follows from it. */
module StateStream {
  import opened Wrappers
  import opened Ordering
  import opened Sequences
  import opened Bytes
  import opened StateTypes
  import opened StateFields
  import Texts

  const MAGIC: bytes := [0x4D, 0x4A, 0x46, 0x50]
  const END: bytes := [0x45, 0x4E, 0x44]
  const ROW_MARK: bytes := [0x52]
  /** Row security off twice, then no policies, rules or inheritance children. */
  const NOTHING_ELSE: bytes := [0, 0, 0, 0, 0, 0, 0, 0, 0, 0, 0, 0, 0, 0]

  // ---- writing -------------------------------------------------------------------------------------------------

  function HeaderBytes(h: Header): bytes {
    MAGIC + U16(STREAM_FORMAT)
    + (Record([TextToken(h.target), TextToken(h.markerId)])
       + (FieldBytes([], Tstz, None, Some(h.installedAt))
          + Record([TextToken(h.serverVersion), TextToken(h.searchPath), TextToken(h.serverEncoding), TextToken(h.clientEncoding)])))
  }

  function PutEnum(e: EnumFacts): bytes {
    Record([TextToken(e.schema), TextToken(e.name)]) + Counted(Str, e.labels)
  }

  function FunctionRecord(f: FunctionFacts): seq<Token> {
    [TextToken(f.name), TextToken(f.identityArgs), TextToken(f.returnType), TextToken(f.language), TextToken(f.source),
     TextToken(f.config), FlagToken(f.securityDefiner), TextToken(f.volatility), FlagToken(f.strict), TextToken(f.kind)]
  }

  function ColumnRecord(c: ColumnFacts): seq<Token> {
    [ShortToken(c.attnum), TextToken(c.name), TextToken(c.formatType), FlagToken(c.notNull), TextToken(OrEmpty(c.defaultExpr)),
     TextToken(OrEmpty(c.collation))]
  }

  function ConstraintRecord(c: ConstraintFacts): seq<Token> {
    [TextToken(c.name), TextToken(c.kind), FlagToken(c.validated), TextToken(c.definition)]
  }

  function IndexRecord(i: IndexFacts): seq<Token> {
    [TextToken(i.name), TextToken(i.definition), FlagToken(i.valid), FlagToken(i.ready)]
  }

  function TriggerRecord(t: TriggerFacts): seq<Token> {
    [TextToken(t.name), TextToken(t.enabled), TextToken(t.definition)]
  }

  function RiTriggerRecord(t: RiTriggerFacts): seq<Token> {
    [TextToken(t.constr), ShortToken(t.kind), TextToken(t.func), TextToken(t.enabled)]
  }

  function PutFunction(f: FunctionFacts): bytes {
    Record(FunctionRecord(f))
  }

  function PutColumn(c: ColumnFacts): bytes {
    Record(ColumnRecord(c))
  }

  function PutConstraint(c: ConstraintFacts): bytes {
    Record(ConstraintRecord(c))
  }

  function PutIndex(i: IndexFacts): bytes {
    Record(IndexRecord(i))
  }

  function PutTrigger(t: TriggerFacts): bytes {
    Record(TriggerRecord(t))
  }

  function PutRiTrigger(t: RiTriggerFacts): bytes {
    Record(RiTriggerRecord(t))
  }

  /** What hangs on a table: constraints, indexes, triggers and its comment. */
  function RulesBytes(f: RelationFacts): bytes {
    Counted(PutConstraint, f.constraints)
    + (Counted(PutIndex, f.indexes)
       + (Counted(PutTrigger, f.triggers)
          + (Counted(PutRiTrigger, f.riTriggers)
             + (NOTHING_ELSE + Record([TextToken(OrEmpty(f.comment))])))))
  }

  function HeadBytes(f: RelationFacts): bytes {
    Record([TextToken(Scalars("public")), TextToken(f.relation)])
    + (Counted(PutColumn, f.columns) + (Counted(U16, f.pk) + RulesBytes(f)))
  }

  function CellsBytes(enums: seq<string>, columns: seq<Column>, row: Row): bytes {
    if |columns| == 0 || |row| == 0 then []
    else FieldBytes(enums, columns[0].fieldType, columns[0].enumType, row[0]) + CellsBytes(enums, columns[1..], row[1..])
  }

  function PutRow(enums: seq<string>, columns: seq<Column>): Row -> bytes {
    (row: Row) => ROW_MARK + CellsBytes(enums, columns, row)
  }

  function BodyBytes(enums: seq<string>, table: Table, rows: seq<Row>): bytes {
    U64(|rows|) + All(PutRow(enums, table.columns), rows)
  }

  function SectionBytes(enums: seq<string>, table: Table, r: RelationState): bytes {
    HeadBytes(r.facts) + BodyBytes(enums, table, r.rows)
  }

  function TypesBytes(types: seq<EnumFacts>): bytes {
    Counted(PutEnum, types)
  }

  function FunctionsBytes(contract: Contract, functions: seq<FunctionFacts>): bytes {
    Counted(PutFunction, functions) + U32(|contract.tables|)
  }

  function SectionsBytes(enums: seq<string>, tables: seq<Table>, rs: seq<RelationState>): bytes {
    if |tables| == 0 || |rs| == 0 then []
    else SectionBytes(enums, tables[0], rs[0]) + SectionsBytes(enums, tables[1..], rs[1..])
  }

  function StreamBytes(contract: Contract, s: State): bytes {
    HeaderBytes(s.header)
    + (TypesBytes(s.types)
       + (FunctionsBytes(contract, s.functions)
          + (SectionsBytes(contract.enums, contract.tables, s.relations) + END)))
  }

  // ---- what the hashes see -------------------------------------------------------------------------------------

  datatype Role = Pre | Post

  function RoleName(role: Role): string {
    DIGEST_SCHEME + (if role.Pre? then "/PRE" else "/POST")
  }

  /** The message behind a state digest: the scheme and role, then the stream. */
  function DigestMessage(role: Role, contract: Contract, s: State): bytes {
    Str(Scalars(RoleName(role))) + StreamBytes(contract, s)
  }

  function HeadsBytes(tables: seq<Table>, rs: seq<RelationState>): bytes {
    if |tables| == 0 || |rs| == 0 then [] else HeadBytes(rs[0].facts) + HeadsBytes(tables[1..], rs[1..])
  }

  /** The message behind the schema digest: everything but the rows. */
  function SchemaMessage(contract: Contract, s: State): bytes {
    Str(Scalars(DIGEST_SCHEME + "/SCHEMA"))
    + (HeaderBytes(s.header) + (TypesBytes(s.types) + (FunctionsBytes(contract, s.functions) + HeadsBytes(contract.tables, s.relations))))
  }

  // ---- what the writer accepts ---------------------------------------------------------------------------------

  /** A UUID in lower case. */
  predicate IsMarkerUuid(s: string) {
    Texts.IsUuid(s) && Texts.Lower(s) == s
  }

  predicate IsVersionNumber(s: string) {
    5 <= |s| <= 6 && forall i :: 0 <= i < |s| ==> '0' <= s[i] <= '9'
  }

  predicate HeaderOk(h: Header) {
    && h.searchPath == Scalars(PROTECTED_SEARCH_PATH)
    && h.serverEncoding == Scalars("UTF8") && h.clientEncoding == Scalars("UTF8")
    && h.markerId.Scalars? && IsMarkerUuid(h.markerId.s)
    && h.serverVersion.Scalars? && IsVersionNumber(h.serverVersion.s)
    && FieldOk([], map[], Tstz, None, Some(h.installedAt))
    && TextOk(h.target) && TextOk(h.markerId) && TextOk(h.serverVersion) && TextOk(h.searchPath)
    && TextOk(h.serverEncoding) && TextOk(h.clientEncoding)
  }

  predicate EnumWritable(e: EnumFacts) {
    TextOk(e.schema) && TextOk(e.name) && ListOk(TextOk, e.labels)
  }

  predicate TypesOk(contract: Contract, types: seq<EnumFacts>) {
    && |types| == |contract.enums|
    && (forall i :: 0 <= i < |types| ==> types[i].schema == Scalars("public") && types[i].name == Scalars(contract.enums[i]))
    && ListOk(EnumWritable, types)
  }

  predicate FunctionWritable(f: FunctionFacts) {
    && TextOk(f.name) && TextOk(f.identityArgs) && TextOk(f.returnType) && TextOk(f.language) && TextOk(f.source)
    && TextOk(f.config) && TextOk(f.volatility) && TextOk(f.kind)
  }

  predicate FunctionsOk(contract: Contract, functions: seq<FunctionFacts>) {
    && |functions| == |contract.functions|
    && (forall i :: 0 <= i < |functions| ==> functions[i].name == Scalars(contract.functions[i]))
    && ListOk(FunctionWritable, functions)
    && |contract.tables| <= MAX_LENGTH
  }

  predicate ColumnWritable(c: ColumnFacts) {
    c.attnum < 0x1_0000 && TextOk(c.name) && TextOk(c.formatType) && TextOk(OrEmpty(c.defaultExpr)) && TextOk(OrEmpty(c.collation))
  }

  predicate ConstraintWritable(c: ConstraintFacts) {
    TextOk(c.name) && TextOk(c.kind) && TextOk(c.definition)
  }

  predicate IndexWritable(i: IndexFacts) {
    TextOk(i.name) && TextOk(i.definition)
  }

  predicate TriggerWritable(t: TriggerFacts) {
    TextOk(t.name) && TextOk(t.enabled) && TextOk(t.definition)
  }

  predicate RiTriggerWritable(t: RiTriggerFacts) {
    TextOk(t.constr) && t.kind < 0x1_0000 && TextOk(t.func) && TextOk(t.enabled)
  }

  predicate IsShort(n: nat) {
    n < 0x1_0000
  }

  predicate HeadWritable(f: RelationFacts) {
    && TextOk(f.relation)
    && ListOk(ColumnWritable, f.columns)
    && ListOk(IsShort, f.pk)
    && ListOk(ConstraintWritable, f.constraints)
    && ListOk(IndexWritable, f.indexes)
    && ListOk(TriggerWritable, f.triggers)
    && ListOk(RiTriggerWritable, f.riTriggers)
    && TextOk(OrEmpty(f.comment))
  }

  predicate SameColumn(c: ColumnFacts, k: Column) {
    && c.attnum == k.attnum && c.name == Scalars(k.name) && c.formatType == Scalars(k.formatType) && c.notNull == k.notNull
    && c.defaultExpr.Some? == k.hasDefault
  }

  predicate NothingElse(f: RelationFacts) {
    !f.rowSecurity && !f.forceRowSecurity && f.policies == 0 && f.rules == 0 && f.children == 0
  }

  // ---- primary keys --------------------------------------------------------------------------------------------

  function CompareByte(a: Byte, b: Byte): Cmp {
    CompareInts(a, b)
  }

  /** Buffer.compare. */
  function CompareBytes(a: bytes, b: bytes): Cmp {
    Lex(CompareByte, a, b)
  }

  /** Composite keys compare part by part, each part by its raw bytes. */
  function CompareKeys(a: seq<bytes>, b: seq<bytes>): Cmp {
    Lex(CompareBytes, a, b)
  }

  function ByKeyPosition(a: Column, b: Column): Cmp {
    CompareInts(a.pk, b.pk)
  }

  function KeyColumns(columns: seq<Column>): seq<Column> {
    if |columns| == 0 then []
    else KeyColumns(columns[..|columns| - 1]) + (if columns[|columns| - 1].pk > 0 then [columns[|columns| - 1]] else [])
  }

  function KeyAttnums(table: Table): seq<nat> {
    Map((c: Column) => c.attnum, Sort(ByKeyPosition, KeyColumns(table.columns)))
  }

  /** The first column with this number; past the end when there is none. */
  function ColumnAt(columns: seq<Column>, attnum: nat): nat {
    if |columns| == 0 || columns[0].attnum == attnum then 0 else 1 + ColumnAt(columns[1..], attnum)
  }

  function CellAt(table: Table, row: Row, attnum: nat): Cell {
    var i := ColumnAt(table.columns, attnum);
    if i < |row| then row[i] else None
  }

  predicate KeyOk(table: Table, row: Row) {
    var key := KeyAttnums(table);
    forall i :: 0 <= i < |key| ==> CellAt(table, row, key[i]).Some? && CellAt(table, row, key[i]).value.Scalars?
  }

  function Key(table: Table, row: Row): seq<bytes> {
    var key := KeyAttnums(table);
    seq(|key|, i requires 0 <= i < |key| => Utf8Of(OrEmpty(CellAt(table, row, key[i]))))
  }

  predicate Ascending(table: Table, rows: seq<Row>) {
    forall i :: 0 < i < |rows| ==> CompareKeys(Key(table, rows[i - 1]), Key(table, rows[i])).Less?
  }

  predicate CellsOk(enums: seq<string>, labels: map<Text, seq<Text>>, columns: seq<Column>, row: Row) {
    |row| == |columns| && forall i :: 0 <= i < |row| ==> FieldOk(enums, labels, columns[i].fieldType, columns[i].enumType, row[i])
  }

  predicate RowOk(enums: seq<string>, labels: map<Text, seq<Text>>, table: Table, row: Row) {
    CellsOk(enums, labels, table.columns, row) && KeyOk(table, row)
  }

  predicate FactsOk(table: Table, f: RelationFacts) {
    && f.relation == Scalars(table.relation)
    && |f.columns| == |table.columns|
    && (forall i :: 0 <= i < |f.columns| ==> SameColumn(f.columns[i], table.columns[i]))
    && f.pk == KeyAttnums(table)
    && NothingElse(f)
    && HeadWritable(f)
  }

  /** Rows that may follow `start` bytes of their section. The byte cap is looked at after each row, so never for an empty table. */
  predicate RowsOk(enums: seq<string>, labels: map<Text, seq<Text>>, cap: nat, table: Table, start: nat, rows: seq<Row>) {
    && (forall i :: 0 <= i < |rows| ==> RowOk(enums, labels, table, rows[i]))
    && Ascending(table, rows)
    && (|rows| > 0 ==> start + |All(PutRow(enums, table.columns), rows)| <= cap)
  }

  /** Exactly the sections the writer does not refuse. */
  predicate SectionOk(enums: seq<string>, labels: map<Text, seq<Text>>, cap: nat, table: Table, r: RelationState) {
    && FactsOk(table, r.facts)
    && |r.rows| < 0x1_0000_0000_0000_0000
    && RowsOk(enums, labels, cap, table, |HeadBytes(r.facts)| + 8, r.rows)
  }

  predicate SectionsOk(enums: seq<string>, labels: map<Text, seq<Text>>, cap: nat, tables: seq<Table>, rs: seq<RelationState>) {
    |rs| == |tables| && forall i :: 0 <= i < |rs| ==> SectionOk(enums, labels, cap, tables[i], rs[i])
  }

  predicate StateOk(contract: Contract, cap: nat, s: State) {
    && HeaderOk(s.header)
    && TypesOk(contract, s.types)
    && FunctionsOk(contract, s.functions)
    && SectionsOk(contract.enums, LabelMap(s.types), cap, contract.tables, s.relations)
  }

  // ---- reading -------------------------------------------------------------------------------------------------

  function Expect(what: bytes, b: bytes): Option<bytes> {
    var (got, rest) :- Take(|what|, b);
    if got == what then Some(rest) else None
  }

  function GetHeader(b: bytes): Option<(Header, bytes)> {
    var b1 :- Expect(MAGIC + U16(STREAM_FORMAT), b);
    var (ids, b2) :- GetTokens([TextKind, TextKind], b1);
    var (installed, b3) :- GetField(Tstz, b2);
    var (rest, b4) :- GetTokens([TextKind, TextKind, TextKind, TextKind], b3);
    Some((Header(ids[0].text, ids[1].text, OrEmpty(installed), rest[0].text, rest[1].text, rest[2].text, rest[3].text), b4))
  }

  function GetEnum(b: bytes): Option<(EnumFacts, bytes)> {
    var (t, b1) :- GetTokens([TextKind, TextKind], b);
    var (labels, b2) :- GetCounted(GetStr, b1);
    Some((EnumFacts(t[0].text, t[1].text, labels), b2))
  }

  const FUNCTION_SHAPE := [TextKind, TextKind, TextKind, TextKind, TextKind, TextKind, FlagKind, TextKind, FlagKind, TextKind]
  const COLUMN_SHAPE := [ShortKind, TextKind, TextKind, FlagKind, TextKind, TextKind]
  const CONSTRAINT_SHAPE := [TextKind, TextKind, FlagKind, TextKind]
  const INDEX_SHAPE := [TextKind, TextKind, FlagKind, FlagKind]
  const TRIGGER_SHAPE := [TextKind, TextKind, TextKind]
  const RI_TRIGGER_SHAPE := [TextKind, ShortKind, TextKind, TextKind]

  function GetFunction(b: bytes): Option<(FunctionFacts, bytes)> {
    var (t, rest) :- GetTokens(FUNCTION_SHAPE, b);
    Some((FunctionFacts(t[0].text, t[1].text, t[2].text, t[3].text, t[4].text, t[5].text, t[6].flag, t[7].text, t[8].flag, t[9].text), rest))
  }

  function GetColumn(b: bytes): Option<(ColumnFacts, bytes)> {
    var (t, rest) :- GetTokens(COLUMN_SHAPE, b);
    Some((ColumnFacts(t[0].short, t[1].text, t[2].text, t[3].flag, Some(t[4].text), Some(t[5].text)), rest))
  }

  function GetConstraint(b: bytes): Option<(ConstraintFacts, bytes)> {
    var (t, rest) :- GetTokens(CONSTRAINT_SHAPE, b);
    Some((ConstraintFacts(t[0].text, t[1].text, t[2].flag, t[3].text), rest))
  }

  function GetIndex(b: bytes): Option<(IndexFacts, bytes)> {
    var (t, rest) :- GetTokens(INDEX_SHAPE, b);
    Some((IndexFacts(t[0].text, t[1].text, t[2].flag, t[3].flag), rest))
  }

  function GetTrigger(b: bytes): Option<(TriggerFacts, bytes)> {
    var (t, rest) :- GetTokens(TRIGGER_SHAPE, b);
    Some((TriggerFacts(t[0].text, t[1].text, t[2].text), rest))
  }

  function GetRiTrigger(b: bytes): Option<(RiTriggerFacts, bytes)> {
    var (t, rest) :- GetTokens(RI_TRIGGER_SHAPE, b);
    Some((RiTriggerFacts(t[0].text, t[1].short, t[2].text, t[3].text), rest))
  }

  function GetShort(b: bytes): Option<(nat, bytes)> {
    GetUnsigned(2, b)
  }

  /** The contract tells an absent default from an empty one. */
  function RestoreDefaults(columns: seq<Column>, cs: seq<ColumnFacts>): seq<ColumnFacts> {
    seq(|cs|, i requires 0 <= i < |cs| => if i < |columns| && columns[i].hasDefault then cs[i] else cs[i].(defaultExpr := None))
  }

  datatype Rules = Rules(constraints: seq<ConstraintFacts>, indexes: seq<IndexFacts>, triggers: seq<TriggerFacts>,
                         riTriggers: seq<RiTriggerFacts>, comment: Text)

  function GetRules(b: bytes): Option<(Rules, bytes)> {
    var (constraints, b1) :- GetCounted(GetConstraint, b);
    var (indexes, b2) :- GetCounted(GetIndex, b1);
    var (triggers, b3) :- GetCounted(GetTrigger, b2);
    var (riTriggers, b4) :- GetCounted(GetRiTrigger, b3);
    var b5 :- Expect(NOTHING_ELSE, b4);
    var (last, b6) :- GetTokens([TextKind], b5);
    Some((Rules(constraints, indexes, triggers, riTriggers, last[0].text), b6))
  }

  function GetHead(table: Table, b: bytes): Option<(RelationFacts, bytes)> {
    var (names, b1) :- GetTokens([TextKind, TextKind], b);
    var (columns, b2) :- GetCounted(GetColumn, b1);
    var (pk, b3) :- GetCounted(GetShort, b2);
    var (rules, b4) :- GetRules(b3);
    Some((RelationFacts(names[1].text, RestoreDefaults(table.columns, columns), pk, rules.constraints, rules.indexes, rules.triggers,
                        rules.riTriggers, false, false, 0, 0, 0, Some(rules.comment)), b4))
  }

  function GetCells(columns: seq<Column>, b: bytes): Option<(Row, bytes)> {
    if |columns| == 0 then Some(([], b))
    else
      var (cell, b1) :- GetField(columns[0].fieldType, b);
      var (cells, b2) :- GetCells(columns[1..], b1);
      Some(([cell] + cells, b2))
  }

  function GetRow(columns: seq<Column>): bytes -> Option<(Row, bytes)> {
    (b: bytes) => var b1 :- Expect(ROW_MARK, b); GetCells(columns, b1)
  }

  function GetSection(table: Table, b: bytes): Option<(RelationState, bytes)> {
    var (facts, b1) :- GetHead(table, b);
    var (n, b2) :- GetUnsigned(8, b1);
    var (rows, b3) :- GetMany(GetRow(table.columns), n, b2);
    Some((RelationState(facts, rows), b3))
  }

  function GetSections(tables: seq<Table>, b: bytes): Option<(seq<RelationState>, bytes)> {
    if |tables| == 0 then Some(([], b))
    else
      var (r, b1) :- GetSection(tables[0], b);
      var (rs, b2) :- GetSections(tables[1..], b1);
      Some(([r] + rs, b2))
  }

  function GetMetadata(b: bytes): Option<((seq<EnumFacts>, seq<FunctionFacts>), bytes)> {
    var (types, b1) :- GetCounted(GetEnum, b);
    var (functions, b2) :- GetCounted(GetFunction, b1);
    var (_, b3) :- GetUnsigned(4, b2);
    Some(((types, functions), b3))
  }

  function Decode(contract: Contract, b: bytes): Option<State> {
    var (header, b1) :- GetHeader(b);
    var (metadata, b2) :- GetMetadata(b1);
    var (relations, b3) :- GetSections(contract.tables, b2);
    if b3 == END then Some(State(header, metadata.0, metadata.1, relations)) else None
  }
}
