/** What the canonical state stream is made of: the reviewed contract (enum types, functions, tables and their columns), the
    facts read from the live catalogue, and the rows as the server projects them to text. The contract is a parameter of
    everything that follows: nothing depends on which tables it lists. */
module StateTypes {
  import opened Wrappers
  import opened Bytes

  datatype FieldType = TextField | Int4 | Int8 | BoolField | Tstz | EnumField | Jsonb

  datatype Column = Column(attnum: nat, name: string, fieldType: FieldType, formatType: string, notNull: bool, hasDefault: bool,
                           enumType: Option<string>, pk: nat)
  datatype Table = Table(relation: string, columns: seq<Column>)
  datatype Contract = Contract(enums: seq<string>, functions: seq<string>, tables: seq<Table>)

  datatype Header = Header(target: Text, markerId: Text, installedAt: Text, serverVersion: Text, searchPath: Text,
                           serverEncoding: Text, clientEncoding: Text)
  datatype EnumFacts = EnumFacts(schema: Text, name: Text, labels: seq<Text>)
  datatype FunctionFacts = FunctionFacts(name: Text, identityArgs: Text, returnType: Text, language: Text, source: Text, config: Text,
                                         securityDefiner: bool, volatility: Text, strict: bool, kind: Text)
  datatype ColumnFacts = ColumnFacts(attnum: nat, name: Text, formatType: Text, notNull: bool, defaultExpr: Option<Text>, collation: Option<Text>)
  datatype ConstraintFacts = ConstraintFacts(name: Text, kind: Text, validated: bool, definition: Text)
  datatype IndexFacts = IndexFacts(name: Text, definition: Text, valid: bool, ready: bool)
  datatype TriggerFacts = TriggerFacts(name: Text, enabled: Text, definition: Text)
  datatype RiTriggerFacts = RiTriggerFacts(constr: Text, kind: nat, func: Text, enabled: Text)
  datatype RelationFacts = RelationFacts(relation: Text, columns: seq<ColumnFacts>, pk: seq<nat>, constraints: seq<ConstraintFacts>,
                                         indexes: seq<IndexFacts>, triggers: seq<TriggerFacts>, riTriggers: seq<RiTriggerFacts>,
                                         rowSecurity: bool, forceRowSecurity: bool, policies: nat, rules: nat, children: nat,
                                         comment: Option<Text>)

  /** A column value as projected text, or null. */
  type Cell = Option<Text>
  type Row = seq<Cell>

  /** Rows held in memory, by table. */
  type Rows = map<string, seq<Row>>

  datatype RelationState = RelationState(facts: RelationFacts, rows: seq<Row>)
  datatype State = State(header: Header, types: seq<EnumFacts>, functions: seq<FunctionFacts>, relations: seq<RelationState>)

  const PROTECTED_SEARCH_PATH := "pg_catalog, pg_temp"
  const DIGEST_SCHEME := "MONA/V233/STATE-DIGEST/SD1"
  const STREAM_FORMAT: nat := 3

  /** A null is written like the empty text. */
  function OrEmpty(t: Option<Text>): Text {
    if t.Some? then t.value else Scalars("")
  }

  /** What the stream keeps of the metadata: a null collation or comment becomes an empty one. */
  function NormalColumn(c: ColumnFacts): ColumnFacts {
    c.(collation := Some(OrEmpty(c.collation)))
  }

  function NormalColumns(cs: seq<ColumnFacts>): seq<ColumnFacts> {
    seq(|cs|, i requires 0 <= i < |cs| => NormalColumn(cs[i]))
  }

  function NormalFacts(f: RelationFacts): RelationFacts {
    f.(columns := NormalColumns(f.columns), comment := Some(OrEmpty(f.comment)))
  }

  function NormalRelations(rs: seq<RelationState>): seq<RelationState> {
    seq(|rs|, i requires 0 <= i < |rs| => RelationState(NormalFacts(rs[i].facts), rs[i].rows))
  }

  function Normal(s: State): State {
    s.(relations := NormalRelations(s.relations))
  }

  /** The labels of each enum type; a later entry of the same name wins. */
  function LabelMap(types: seq<EnumFacts>): map<Text, seq<Text>> {
    if |types| == 0 then map[] else LabelMap(types[..|types| - 1])[types[|types| - 1].name := types[|types| - 1].labels]
  }

  function IndexOf(names: seq<string>, name: string): nat
    requires name in names
  {
    if names[0] == name then 0 else 1 + IndexOf(names[1..], name)
  }

  /** The rows of the first n tables; a later table of the same name replaces an earlier one. */
  function RowsUpTo(tables: seq<Table>, rs: seq<RelationState>, n: nat): Rows
    requires n <= |tables| && n <= |rs|
  {
    if n == 0 then map[] else RowsUpTo(tables, rs, n - 1)[tables[n - 1].relation := rs[n - 1].rows]
  }

  /** The rows of a state over a contract. */
  function RowsOf(contract: Contract, s: State): Rows {
    RowsUpTo(contract.tables, s.relations, if |s.relations| < |contract.tables| then |s.relations| else |contract.tables|)
  }
}
