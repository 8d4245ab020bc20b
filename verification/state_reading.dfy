/** The reader undoes the writer, record by record and then for the whole stream. */
module StateReading {
  import opened Wrappers
  import opened Bytes
  import opened Decimal
  import opened StateTypes
  import opened StateFields
  import opened StateStream

  lemma StringsRead()
    ensures Reads(Str, GetStr, TextOk)
  {
    forall t: Text, rest: bytes | TextOk(t) ensures GetStr(Str(t) + rest) == Some((t, rest)) {
      StrReads(t, rest);
    }
  }

  lemma ShortsRead()
    ensures Reads(U16, GetShort, IsShort)
  {
    Powers();
    forall n: nat, rest: bytes | n < 0x1_0000 ensures GetShort(U16(n) + rest) == Some((n, rest)) {
      UnsignedFits(2, n, rest);
    }
  }

  lemma EnumReads(e: EnumFacts, rest: bytes)
    requires EnumWritable(e)
    ensures GetEnum(PutEnum(e) + rest) == Some((e, rest))
  {
    StringsRead();
    hide Str, GetStr, Counted, GetCounted, TextOk, ListOk, Reads, Record, GetTokens;
    var names := [TextToken(e.schema), TextToken(e.name)];
    var tail := Counted(Str, e.labels) + rest;
    assert PutEnum(e) + rest == Record(names) + tail;
    RecordReads([TextKind, TextKind], names, tail);
    CountedReads(Str, GetStr, TextOk, e.labels, rest);
  }

  lemma EnumsRead()
    ensures Reads(PutEnum, GetEnum, EnumWritable)
  {
    hide PutEnum, GetEnum, EnumWritable;
    forall e: EnumFacts, rest: bytes | EnumWritable(e) ensures GetEnum(PutEnum(e) + rest) == Some((e, rest)) {
      EnumReads(e, rest);
    }
  }

  lemma FunctionRecordFits(f: FunctionFacts)
    requires FunctionWritable(f)
    ensures |FunctionRecord(f)| == |FUNCTION_SHAPE|
    ensures forall i :: 0 <= i < |FUNCTION_SHAPE| ==> TokenOk(FunctionRecord(f)[i]) && FUNCTION_SHAPE[i] == KindOf(FunctionRecord(f)[i])
  {
    hide TextOk;
  }

  lemma FunctionReads(f: FunctionFacts, rest: bytes)
    requires FunctionWritable(f)
    ensures GetFunction(PutFunction(f) + rest) == Some((f, rest))
  {
    FunctionRecordFits(f);
    hide TextOk, Record, GetTokens, KindOf, TokenOk, FunctionWritable;
    RecordReads(FUNCTION_SHAPE, FunctionRecord(f), rest);
  }

  lemma FunctionsRead()
    ensures Reads(PutFunction, GetFunction, FunctionWritable)
  {
    hide PutFunction, GetFunction, FunctionWritable;
    forall f: FunctionFacts, rest: bytes | FunctionWritable(f) ensures GetFunction(PutFunction(f) + rest) == Some((f, rest)) {
      FunctionReads(f, rest);
    }
  }

  /** A column as the reader sees it before the contract has told which defaults are absent. */
  function Filled(c: ColumnFacts): ColumnFacts {
    c.(defaultExpr := Some(OrEmpty(c.defaultExpr)), collation := Some(OrEmpty(c.collation)))
  }

  lemma ColumnRecordFits(c: ColumnFacts)
    requires ColumnWritable(c)
    ensures |ColumnRecord(c)| == |COLUMN_SHAPE|
    ensures forall i :: 0 <= i < |COLUMN_SHAPE| ==> TokenOk(ColumnRecord(c)[i]) && COLUMN_SHAPE[i] == KindOf(ColumnRecord(c)[i])
  {
    hide TextOk;
  }

  lemma ColumnReads(c: ColumnFacts, rest: bytes)
    requires ColumnWritable(c)
    ensures GetColumn(PutColumn(c) + rest) == Some((Filled(c), rest))
  {
    ColumnRecordFits(c);
    hide TextOk, Record, GetTokens, KindOf, TokenOk, ColumnWritable;
    RecordReads(COLUMN_SHAPE, ColumnRecord(c), rest);
  }

  function AllFilled(cs: seq<ColumnFacts>): seq<ColumnFacts> {
    seq(|cs|, i requires 0 <= i < |cs| => Filled(cs[i]))
  }

  predicate IsFilled(c: ColumnFacts) {
    ColumnWritable(c) && c == Filled(c)
  }

  lemma FilledColumnsRead()
    ensures Reads(PutColumn, GetColumn, IsFilled)
  {
    hide PutColumn, GetColumn, ColumnWritable;
    forall c: ColumnFacts, rest: bytes | IsFilled(c) ensures GetColumn(PutColumn(c) + rest) == Some((c, rest)) {
      ColumnReads(c, rest);
    }
  }

  lemma {:induction false} FillingIsSilent(cs: seq<ColumnFacts>)
    ensures All(PutColumn, cs) == All(PutColumn, AllFilled(cs))
  {
    if |cs| > 0 {
      FillingIsSilent(cs[1..]);
      assert AllFilled(cs)[1..] == AllFilled(cs[1..]);
    }
  }

  lemma ColumnsRead(cs: seq<ColumnFacts>, rest: bytes)
    requires ListOk(ColumnWritable, cs)
    ensures GetCounted(GetColumn, Counted(PutColumn, cs) + rest) == Some((AllFilled(cs), rest))
  {
    FillingIsSilent(cs);
    FilledColumnsRead();
    assert ListOk(IsFilled, AllFilled(cs));
    CountedReads(PutColumn, GetColumn, IsFilled, AllFilled(cs), rest);
  }

  lemma DefaultsRestored(columns: seq<Column>, cs: seq<ColumnFacts>)
    requires |cs| == |columns| && forall i :: 0 <= i < |cs| ==> SameColumn(cs[i], columns[i])
    ensures RestoreDefaults(columns, AllFilled(cs)) == NormalColumns(cs)
  {
    forall i | 0 <= i < |cs| ensures RestoreDefaults(columns, AllFilled(cs))[i] == NormalColumns(cs)[i] {
      assert SameColumn(cs[i], columns[i]);
    }
  }

  lemma ConstraintRecordFits(c: ConstraintFacts)
    requires ConstraintWritable(c)
    ensures |ConstraintRecord(c)| == |CONSTRAINT_SHAPE|
    ensures forall i :: 0 <= i < |CONSTRAINT_SHAPE| ==> TokenOk(ConstraintRecord(c)[i]) && CONSTRAINT_SHAPE[i] == KindOf(ConstraintRecord(c)[i])
  {
    hide TextOk;
  }

  lemma ConstraintReads(c: ConstraintFacts, rest: bytes)
    requires ConstraintWritable(c)
    ensures GetConstraint(PutConstraint(c) + rest) == Some((c, rest))
  {
    ConstraintRecordFits(c);
    hide TextOk, Record, GetTokens, KindOf, TokenOk, ConstraintWritable;
    RecordReads(CONSTRAINT_SHAPE, ConstraintRecord(c), rest);
  }

  lemma ConstraintsRead()
    ensures Reads(PutConstraint, GetConstraint, ConstraintWritable)
  {
    hide PutConstraint, GetConstraint, ConstraintWritable;
    forall c: ConstraintFacts, rest: bytes | ConstraintWritable(c) ensures GetConstraint(PutConstraint(c) + rest) == Some((c, rest)) {
      ConstraintReads(c, rest);
    }
  }

  lemma IndexRecordFits(i: IndexFacts)
    requires IndexWritable(i)
    ensures |IndexRecord(i)| == |INDEX_SHAPE|
    ensures forall k :: 0 <= k < |INDEX_SHAPE| ==> TokenOk(IndexRecord(i)[k]) && INDEX_SHAPE[k] == KindOf(IndexRecord(i)[k])
  {
    hide TextOk;
  }

  lemma IndexReads(i: IndexFacts, rest: bytes)
    requires IndexWritable(i)
    ensures GetIndex(PutIndex(i) + rest) == Some((i, rest))
  {
    IndexRecordFits(i);
    hide TextOk, Record, GetTokens, KindOf, TokenOk, IndexWritable;
    RecordReads(INDEX_SHAPE, IndexRecord(i), rest);
  }

  lemma IndexesRead()
    ensures Reads(PutIndex, GetIndex, IndexWritable)
  {
    hide PutIndex, GetIndex, IndexWritable;
    forall i: IndexFacts, rest: bytes | IndexWritable(i) ensures GetIndex(PutIndex(i) + rest) == Some((i, rest)) {
      IndexReads(i, rest);
    }
  }

  lemma TriggerRecordFits(t: TriggerFacts)
    requires TriggerWritable(t)
    ensures |TriggerRecord(t)| == |TRIGGER_SHAPE|
    ensures forall i :: 0 <= i < |TRIGGER_SHAPE| ==> TokenOk(TriggerRecord(t)[i]) && TRIGGER_SHAPE[i] == KindOf(TriggerRecord(t)[i])
  {
    hide TextOk;
  }

  lemma TriggerReads(t: TriggerFacts, rest: bytes)
    requires TriggerWritable(t)
    ensures GetTrigger(PutTrigger(t) + rest) == Some((t, rest))
  {
    TriggerRecordFits(t);
    hide TextOk, Record, GetTokens, KindOf, TokenOk, TriggerWritable;
    RecordReads(TRIGGER_SHAPE, TriggerRecord(t), rest);
  }

  lemma TriggersRead()
    ensures Reads(PutTrigger, GetTrigger, TriggerWritable)
  {
    hide PutTrigger, GetTrigger, TriggerWritable;
    forall t: TriggerFacts, rest: bytes | TriggerWritable(t) ensures GetTrigger(PutTrigger(t) + rest) == Some((t, rest)) {
      TriggerReads(t, rest);
    }
  }

  lemma RiTriggerRecordFits(t: RiTriggerFacts)
    requires RiTriggerWritable(t)
    ensures |RiTriggerRecord(t)| == |RI_TRIGGER_SHAPE|
    ensures forall i :: 0 <= i < |RI_TRIGGER_SHAPE| ==> TokenOk(RiTriggerRecord(t)[i]) && RI_TRIGGER_SHAPE[i] == KindOf(RiTriggerRecord(t)[i])
  {
    hide TextOk;
  }

  lemma RiTriggerReads(t: RiTriggerFacts, rest: bytes)
    requires RiTriggerWritable(t)
    ensures GetRiTrigger(PutRiTrigger(t) + rest) == Some((t, rest))
  {
    RiTriggerRecordFits(t);
    hide TextOk, Record, GetTokens, KindOf, TokenOk, RiTriggerWritable;
    RecordReads(RI_TRIGGER_SHAPE, RiTriggerRecord(t), rest);
  }

  lemma RiTriggersRead()
    ensures Reads(PutRiTrigger, GetRiTrigger, RiTriggerWritable)
  {
    hide PutRiTrigger, GetRiTrigger, RiTriggerWritable;
    forall t: RiTriggerFacts, rest: bytes | RiTriggerWritable(t) ensures GetRiTrigger(PutRiTrigger(t) + rest) == Some((t, rest)) {
      RiTriggerReads(t, rest);
    }
  }

  lemma ExpectReads(what: bytes, rest: bytes)
    ensures Expect(what, what + rest) == Some(rest)
  {
    TakeReads(what, rest);
  }

  lemma RulesRead(f: RelationFacts, rest: bytes)
    requires HeadWritable(f)
    ensures GetRules(RulesBytes(f) + rest) == Some((Rules(f.constraints, f.indexes, f.triggers, f.riTriggers, OrEmpty(f.comment)), rest))
  {
    hide Reads, ListOk, Record, GetTokens, Counted, GetCounted, PutRiTrigger, GetRiTrigger, PutTrigger, GetTrigger, PutIndex, GetIndex,
      PutConstraint, GetConstraint, TextOk, RiTriggerWritable, TriggerWritable, IndexWritable, ConstraintWritable, ColumnWritable, Expect;
    var comment := [TextToken(OrEmpty(f.comment))];
    var b5 := Record(comment) + rest;
    var b4 := NOTHING_ELSE + b5;
    var b3 := Counted(PutRiTrigger, f.riTriggers) + b4;
    var b2 := Counted(PutTrigger, f.triggers) + b3;
    var b1 := Counted(PutIndex, f.indexes) + b2;
    assert RulesBytes(f) + rest == Counted(PutConstraint, f.constraints) + b1;
    ConstraintsRead();
    CountedReads(PutConstraint, GetConstraint, ConstraintWritable, f.constraints, b1);
    IndexesRead();
    CountedReads(PutIndex, GetIndex, IndexWritable, f.indexes, b2);
    TriggersRead();
    CountedReads(PutTrigger, GetTrigger, TriggerWritable, f.triggers, b3);
    RiTriggersRead();
    CountedReads(PutRiTrigger, GetRiTrigger, RiTriggerWritable, f.riTriggers, b4);
    ExpectReads(NOTHING_ELSE, b5);
    RecordReads([TextKind], comment, rest);
  }

  lemma HeadReads(table: Table, f: RelationFacts, rest: bytes)
    requires FactsOk(table, f)
    ensures GetHead(table, HeadBytes(f) + rest) == Some((NormalFacts(f), rest))
  {
    hide Reads, ListOk, Record, GetTokens, Counted, GetCounted, GetRules, RulesBytes, PutColumn, GetColumn, TextOk, ColumnWritable,
      AllFilled, SameColumn, KeyAttnums, RestoreDefaults, NormalColumns, GetShort;
    var names := [TextToken(Scalars("public")), TextToken(f.relation)];
    var b3 := RulesBytes(f) + rest;
    var b2 := Counted(U16, f.pk) + b3;
    var b1 := Counted(PutColumn, f.columns) + b2;
    assert HeadBytes(f) + rest == Record(names) + b1;
    PublicIsText();
    RecordReads([TextKind, TextKind], names, b1);
    ColumnsRead(f.columns, b2);
    DefaultsRestored(table.columns, f.columns);
    ShortsRead();
    CountedReads(U16, GetShort, IsShort, f.pk, b3);
    RulesRead(f, rest);
  }

  lemma PublicIsText()
    ensures TextOk(Scalars("public"))
  {
    Utf8Length("public");
  }

  lemma {:induction false} Utf8Length(s: string)
    ensures |Utf8(s)| <= 4 * |s|
  {
    if |s| > 0 {
      Utf8Length(s[1..]);
    }
  }

  lemma {:induction false} CellsRead(enums: seq<string>, labels: map<Text, seq<Text>>, columns: seq<Column>, row: Row, rest: bytes)
    requires CellsOk(enums, labels, columns, row)
    ensures GetCells(columns, CellsBytes(enums, columns, row) + rest) == Some((row, rest))
    decreases |columns|
  {
    hide FieldOk, FieldBytes, GetField;
    if |columns| > 0 {
      var tail := CellsBytes(enums, columns[1..], row[1..]) + rest;
      var first := FieldBytes(enums, columns[0].fieldType, columns[0].enumType, row[0]);
      assert CellsBytes(enums, columns, row) + rest == first + tail;
      FieldReads(enums, labels, columns[0].fieldType, columns[0].enumType, row[0], tail);
      CellsRead(enums, labels, columns[1..], row[1..], rest);
      assert row == [row[0]] + row[1..];
    } else {
      assert CellsBytes(enums, columns, row) + rest == rest;
    }
  }

  function CellsFit(enums: seq<string>, labels: map<Text, seq<Text>>, columns: seq<Column>): Row -> bool {
    (row: Row) => CellsOk(enums, labels, columns, row)
  }

  lemma RowReads(enums: seq<string>, labels: map<Text, seq<Text>>, columns: seq<Column>, row: Row, rest: bytes)
    requires CellsOk(enums, labels, columns, row)
    ensures GetRow(columns)(PutRow(enums, columns)(row) + rest) == Some((row, rest))
  {
    hide CellsOk, CellsBytes, GetCells, Expect;
    var cells := CellsBytes(enums, columns, row);
    assert PutRow(enums, columns)(row) + rest == ROW_MARK + (cells + rest);
    ExpectReads(ROW_MARK, cells + rest);
    CellsRead(enums, labels, columns, row, rest);
  }

  lemma RowsRead(enums: seq<string>, labels: map<Text, seq<Text>>, columns: seq<Column>)
    ensures Reads(PutRow(enums, columns), GetRow(columns), CellsFit(enums, labels, columns))
  {
    hide PutRow, GetRow, CellsOk;
    forall row: Row, rest: bytes | CellsFit(enums, labels, columns)(row)
      ensures GetRow(columns)(PutRow(enums, columns)(row) + rest) == Some((row, rest))
    {
      RowReads(enums, labels, columns, row, rest);
    }
  }

  lemma SectionReads(enums: seq<string>, labels: map<Text, seq<Text>>, cap: nat, table: Table, r: RelationState, rest: bytes)
    requires SectionOk(enums, labels, cap, table, r)
    ensures GetSection(table, SectionBytes(enums, table, r) + rest) == Some((RelationState(NormalFacts(r.facts), r.rows), rest))
  {
    hide FactsOk, HeadBytes, GetHead, NormalFacts, PutRow, GetRow, Reads, CellsOk, KeyOk, Ascending, All, GetMany;
    var put := PutRow(enums, table.columns);
    var b2 := All(put, r.rows) + rest;
    var b1 := U64(|r.rows|) + b2;
    assert SectionBytes(enums, table, r) + rest == HeadBytes(r.facts) + b1;
    HeadReads(table, r.facts, b1);
    Powers();
    UnsignedFits(8, |r.rows|, b2);
    RowsRead(enums, labels, table.columns);
    ManyReads(put, GetRow(table.columns), CellsFit(enums, labels, table.columns), r.rows, rest);
  }

  lemma {:induction false} SectionsRead(enums: seq<string>, labels: map<Text, seq<Text>>, cap: nat, tables: seq<Table>,
                                        rs: seq<RelationState>, rest: bytes)
    requires SectionsOk(enums, labels, cap, tables, rs)
    ensures GetSections(tables, SectionsBytes(enums, tables, rs) + rest) == Some((NormalRelations(rs), rest))
    decreases |tables|
  {
    hide SectionOk, SectionBytes, GetSection, NormalFacts;
    if |tables| > 0 {
      var tail := SectionsBytes(enums, tables[1..], rs[1..]) + rest;
      assert SectionsBytes(enums, tables, rs) + rest == SectionBytes(enums, tables[0], rs[0]) + tail;
      SectionReads(enums, labels, cap, tables[0], rs[0], tail);
      SectionsRead(enums, labels, cap, tables[1..], rs[1..], rest);
      assert NormalRelations(rs) == [NormalRelations(rs)[0]] + NormalRelations(rs[1..]);
    } else {
      assert SectionsBytes(enums, tables, rs) + rest == rest;
      assert NormalRelations(rs) == [];
    }
  }

  lemma HeaderReads(h: Header, rest: bytes)
    requires HeaderOk(h)
    ensures GetHeader(HeaderBytes(h) + rest) == Some((h, rest))
  {
    hide TextOk, FieldOk, FieldBytes, GetField, Record, GetTokens, Expect, IsMarkerUuid, IsVersionNumber;
    var ids := [TextToken(h.target), TextToken(h.markerId)];
    var names := [TextToken(h.serverVersion), TextToken(h.searchPath), TextToken(h.serverEncoding), TextToken(h.clientEncoding)];
    var b3 := Record(names) + rest;
    var b2 := FieldBytes([], Tstz, None, Some(h.installedAt)) + b3;
    var b1 := Record(ids) + b2;
    assert HeaderBytes(h) + rest == (MAGIC + U16(STREAM_FORMAT)) + b1;
    ExpectReads(MAGIC + U16(STREAM_FORMAT), b1);
    RecordReads([TextKind, TextKind], ids, b2);
    FieldReads([], map[], Tstz, None, Some(h.installedAt), b3);
    RecordReads([TextKind, TextKind, TextKind, TextKind], names, rest);
  }

  lemma MetadataReads(contract: Contract, types: seq<EnumFacts>, functions: seq<FunctionFacts>, rest: bytes)
    requires TypesOk(contract, types) && FunctionsOk(contract, functions)
    ensures GetMetadata(TypesBytes(types) + (FunctionsBytes(contract, functions) + rest)) == Some(((types, functions), rest))
  {
    hide Reads, Counted, GetCounted, PutEnum, GetEnum, PutFunction, GetFunction, EnumWritable, FunctionWritable;
    var b2 := U32(|contract.tables|) + rest;
    assert FunctionsBytes(contract, functions) + rest == Counted(PutFunction, functions) + b2;
    EnumsRead();
    CountedReads(PutEnum, GetEnum, EnumWritable, types, FunctionsBytes(contract, functions) + rest);
    FunctionsRead();
    CountedReads(PutFunction, GetFunction, FunctionWritable, functions, b2);
    Powers();
    UnsignedFits(4, |contract.tables|, rest);
  }

  /** Decoding an accepted stream returns the state: every header fact, enum type, function, table fact and row. */
  lemma StreamReads(contract: Contract, cap: nat, s: State)
    requires StateOk(contract, cap, s)
    ensures Decode(contract, StreamBytes(contract, s)) == Some(Normal(s))
  {
    hide HeaderOk, TypesOk, FunctionsOk, SectionsOk, HeaderBytes, GetHeader, TypesBytes, FunctionsBytes, GetMetadata, SectionsBytes,
      GetSections, NormalRelations;
    var b2 := SectionsBytes(contract.enums, contract.tables, s.relations) + END;
    var b1 := TypesBytes(s.types) + (FunctionsBytes(contract, s.functions) + b2);
    HeaderReads(s.header, b1);
    MetadataReads(contract, s.types, s.functions, b2);
    SectionsRead(contract.enums, LabelMap(s.types), cap, contract.tables, s.relations, END);
  }
}
