/** What follows from decodability: states and their streams determine each other, the digest roles never meet, and a table's
    row section is the table as a map from primary key to row. */
module StateTheorems {
  import opened Wrappers
  import opened Ordering
  import opened Sequences
  import opened Bytes
  import opened StateTypes
  import opened StateFields
  import opened StateStream
  import opened StateReading

  // ---- the stream determines the state -------------------------------------------------------------------------

  lemma HeadIgnoresNulls(f: RelationFacts)
    ensures HeadBytes(NormalFacts(f)) == HeadBytes(f)
  {
    FillingIsSilent(f.columns);
    FillingIsSilent(NormalColumns(f.columns));
    assert AllFilled(NormalColumns(f.columns)) == AllFilled(f.columns);
  }

  lemma {:induction false} SectionsIgnoreNulls(enums: seq<string>, tables: seq<Table>, rs: seq<RelationState>)
    ensures SectionsBytes(enums, tables, NormalRelations(rs)) == SectionsBytes(enums, tables, rs)
    ensures HeadsBytes(tables, NormalRelations(rs)) == HeadsBytes(tables, rs)
    decreases |tables|
  {
    hide HeadBytes, NormalFacts, PutRow;
    if |tables| > 0 && |rs| > 0 {
      HeadIgnoresNulls(rs[0].facts);
      SectionsIgnoreNulls(enums, tables[1..], rs[1..]);
      assert NormalRelations(rs)[1..] == NormalRelations(rs[1..]);
    }
  }

  /** Two accepted states give the same stream exactly when they differ at most in null against empty collations and comments. */
  lemma UniquelyDecodable(contract: Contract, cap: nat, s: State, cap': nat, t: State)
    requires StateOk(contract, cap, s) && StateOk(contract, cap', t)
    ensures StreamBytes(contract, s) == StreamBytes(contract, t) <==> Normal(s) == Normal(t)
  {
    hide StateOk, Decode, SectionsBytes, NormalRelations, HeaderBytes, TypesBytes, FunctionsBytes;
    StreamReads(contract, cap, s);
    StreamReads(contract, cap', t);
    SectionsIgnoreNulls(contract.enums, contract.tables, s.relations);
    SectionsIgnoreNulls(contract.enums, contract.tables, t.relations);
  }

  lemma RoleReads(role: Role, rest: bytes)
    ensures GetStr(Str(Scalars(RoleName(role))) + rest) == Some((Scalars(RoleName(role)), rest))
  {
    Utf8Length(RoleName(role));
    StrReads(Scalars(RoleName(role)), rest);
  }

  /** A digest message names its role and its state: PRE and POST never agree, and within a role only equal states do. */
  lemma DigestsSeparate(contract: Contract, role: Role, cap: nat, s: State, role': Role, cap': nat, t: State)
    requires StateOk(contract, cap, s) && StateOk(contract, cap', t)
    ensures DigestMessage(role, contract, s) == DigestMessage(role', contract, t) <==> role == role' && Normal(s) == Normal(t)
  {
    hide StateOk, StreamBytes, Normal;
    UniquelyDecodable(contract, cap, s, cap', t);
    RoleReads(role, StreamBytes(contract, s));
    RoleReads(role', StreamBytes(contract, t));
    if role != role' {
      assert |RoleName(Pre)| != |RoleName(Post)|;
    }
  }

  // ---- the schema digest ---------------------------------------------------------------------------------------

  function GetHeads(tables: seq<Table>, b: bytes): Option<(seq<RelationFacts>, bytes)> {
    if |tables| == 0 then Some(([], b))
    else
      var (f, b1) :- GetHead(tables[0], b);
      var (fs, b2) :- GetHeads(tables[1..], b1);
      Some(([f] + fs, b2))
  }

  function FactsOf(rs: seq<RelationState>): seq<RelationFacts> {
    seq(|rs|, i requires 0 <= i < |rs| => NormalFacts(rs[i].facts))
  }

  lemma {:induction false} HeadsRead(tables: seq<Table>, rs: seq<RelationState>, rest: bytes)
    requires |rs| == |tables| && forall i :: 0 <= i < |rs| ==> FactsOk(tables[i], rs[i].facts)
    ensures GetHeads(tables, HeadsBytes(tables, rs) + rest) == Some((FactsOf(rs), rest))
    decreases |tables|
  {
    hide FactsOk, HeadBytes, GetHead, NormalFacts;
    if |tables| > 0 {
      var tail := HeadsBytes(tables[1..], rs[1..]) + rest;
      assert HeadsBytes(tables, rs) + rest == HeadBytes(rs[0].facts) + tail;
      HeadReads(tables[0], rs[0].facts, tail);
      HeadsRead(tables[1..], rs[1..], rest);
      assert FactsOf(rs) == [FactsOf(rs)[0]] + FactsOf(rs[1..]);
    } else {
      assert HeadsBytes(tables, rs) + rest == rest;
    }
  }

  /** A state without its rows, nulls normalised. */
  datatype Schema = Schema(header: Header, types: seq<EnumFacts>, functions: seq<FunctionFacts>, facts: seq<RelationFacts>)

  function SchemaOf(s: State): Schema {
    Schema(s.header, s.types, s.functions, FactsOf(s.relations))
  }

  function DecodeSchema(contract: Contract, b: bytes): Option<Schema> {
    var (_, b0) :- GetStr(b);
    var (header, b1) :- GetHeader(b0);
    var (metadata, b2) :- GetMetadata(b1);
    var (facts, b3) :- GetHeads(contract.tables, b2);
    if b3 == [] then Some(Schema(header, metadata.0, metadata.1, facts)) else None
  }

  lemma FactsAreOk(enums: seq<string>, labels: map<Text, seq<Text>>, cap: nat, tables: seq<Table>, rs: seq<RelationState>)
    requires SectionsOk(enums, labels, cap, tables, rs)
    ensures forall i :: 0 <= i < |rs| ==> FactsOk(tables[i], rs[i].facts)
  {
    hide FactsOk, RowOk, Ascending, SectionBytes;
  }

  lemma SchemaNameReads(rest: bytes)
    ensures GetStr(Str(Scalars(DIGEST_SCHEME + "/SCHEMA")) + rest) == Some((Scalars(DIGEST_SCHEME + "/SCHEMA"), rest))
  {
    Utf8Length(DIGEST_SCHEME + "/SCHEMA");
    StrReads(Scalars(DIGEST_SCHEME + "/SCHEMA"), rest);
  }

  lemma SchemaPartsRead(contract: Contract, s: State)
    requires HeaderOk(s.header) && TypesOk(contract, s.types) && FunctionsOk(contract, s.functions)
    requires |s.relations| == |contract.tables|
    requires forall i :: 0 <= i < |s.relations| ==> FactsOk(contract.tables[i], s.relations[i].facts)
    ensures DecodeSchema(contract, SchemaMessage(contract, s)) == Some(SchemaOf(s))
  {
    hide HeaderOk, TypesOk, FunctionsOk, FactsOk, HeaderBytes, GetHeader, TypesBytes, FunctionsBytes, GetMetadata, HeadsBytes,
      GetHeads, FactsOf, GetStr, Str, NormalFacts;
    var b2 := HeadsBytes(contract.tables, s.relations);
    var b1 := TypesBytes(s.types) + (FunctionsBytes(contract, s.functions) + b2);
    SchemaNameReads(HeaderBytes(s.header) + b1);
    HeaderReads(s.header, b1);
    MetadataReads(contract, s.types, s.functions, b2);
    HeadsRead(contract.tables, s.relations, []);
    assert b2 + [] == b2;
  }

  lemma SchemaReads(contract: Contract, cap: nat, s: State)
    requires StateOk(contract, cap, s)
    ensures DecodeSchema(contract, SchemaMessage(contract, s)) == Some(SchemaOf(s))
  {
    FactsAreOk(contract.enums, LabelMap(s.types), cap, contract.tables, s.relations);
    SchemaPartsRead(contract, s);
  }

  lemma {:induction false} HeadsFollowFacts(tables: seq<Table>, rs: seq<RelationState>, rs': seq<RelationState>)
    requires FactsOf(rs) == FactsOf(rs')
    ensures HeadsBytes(tables, rs) == HeadsBytes(tables, rs')
    decreases |tables|
  {
    hide HeadBytes, NormalFacts;
    assert |rs| == |FactsOf(rs)| == |FactsOf(rs')| == |rs'|;
    if |tables| > 0 && |rs| > 0 {
      HeadIgnoresNulls(rs[0].facts);
      HeadIgnoresNulls(rs'[0].facts);
      assert FactsOf(rs)[0] == FactsOf(rs')[0];
      assert FactsOf(rs)[1..] == FactsOf(rs[1..]) && FactsOf(rs')[1..] == FactsOf(rs'[1..]);
      HeadsFollowFacts(tables[1..], rs[1..], rs'[1..]);
    }
  }

  /** Equal schema messages mean exactly equal schemas, whatever the rows are. */
  lemma SchemaDigestIsExact(contract: Contract, cap: nat, s: State, cap': nat, t: State)
    requires StateOk(contract, cap, s) && StateOk(contract, cap', t)
    ensures SchemaMessage(contract, s) == SchemaMessage(contract, t) <==> SchemaOf(s) == SchemaOf(t)
  {
    hide StateOk, DecodeSchema, HeadsBytes, FactsOf, HeaderBytes, TypesBytes, FunctionsBytes, Str;
    SchemaReads(contract, cap, s);
    SchemaReads(contract, cap', t);
    if SchemaOf(s) == SchemaOf(t) {
      HeadsFollowFacts(contract.tables, s.relations, t.relations);
    }
  }

  // ---- rows by primary key -------------------------------------------------------------------------------------

  lemma ByteOrderIsTotal()
    ensures IsTotalOrder(CompareBytes)
  {
    assert IsTotalOrder(CompareByte);
    LexIsTotal(CompareByte);
    forall a: bytes, b: bytes ensures CompareBytes(a, b) == Lex(CompareByte, a, b) {}
  }

  /** Composite keys are totally ordered: no two different keys compare equal. */
  lemma KeyOrderIsTotal()
    ensures IsTotalOrder(CompareKeys)
  {
    ByteOrderIsTotal();
    LexIsTotal(CompareBytes);
  }

  function CompareRows(table: Table): (Row, Row) -> Cmp {
    (a: Row, b: Row) => CompareKeys(Key(table, a), Key(table, b))
  }

  /** Accepted rows come in strictly rising key order, so no two of them share a primary key. */
  lemma KeysAreDistinct(table: Table, rows: seq<Row>, i: nat, j: nat)
    requires Ascending(table, rows) && i < j < |rows|
    ensures CompareKeys(Key(table, rows[i]), Key(table, rows[j])).Less?
    ensures Key(table, rows[i]) != Key(table, rows[j])
  {
    KeyOrderIsTotal();
    hide CompareKeys, Key;
    assert IsPreorder(CompareRows(table));
    ClimbsAcross(CompareRows(table), rows, i, j);
  }

  /** Where the primary key is one column, no value of that column occurs twice among accepted rows. */
  lemma KeyColumnIsDistinct(table: Table, rows: seq<Row>, attnum: nat, i: nat, j: nat)
    requires KeyAttnums(table) == [attnum] && Ascending(table, rows) && i < j < |rows|
    requires ColumnAt(table.columns, attnum) < |rows[i]| == |rows[j]|
    ensures rows[i][ColumnAt(table.columns, attnum)] != rows[j][ColumnAt(table.columns, attnum)]
  {
    KeysAreDistinct(table, rows, i, j);
    hide KeyAttnums, Ascending, CompareKeys, Utf8Of;
    assert |Key(table, rows[i])| == 1 && |Key(table, rows[j])| == 1;
    assert Key(table, rows[i])[0] != Key(table, rows[j])[0];
  }

  /** The row stored under a key. */
  function RowAt(table: Table, rows: seq<Row>, key: seq<bytes>): Option<Row> {
    if |rows| == 0 then None
    else if Key(table, rows[0]) == key then Some(rows[0])
    else RowAt(table, rows[1..], key)
  }

  lemma {:induction false} RowAtFinds(table: Table, rows: seq<Row>, i: nat)
    requires Ascending(table, rows) && i < |rows|
    ensures RowAt(table, rows, Key(table, rows[i])) == Some(rows[i])
  {
    if i > 0 {
      KeysAreDistinct(table, rows, 0, i);
      assert Ascending(table, rows[1..]) by {
        forall k | 0 < k < |rows[1..]| ensures CompareKeys(Key(table, rows[1..][k - 1]), Key(table, rows[1..][k])).Less? {
          assert rows[1..][k - 1] == rows[k] && rows[1..][k] == rows[k + 1];
        }
      }
      RowAtFinds(table, rows[1..], i - 1);
    }
  }

  lemma {:induction false} RowAtIsARow(table: Table, rows: seq<Row>, key: seq<bytes>)
    ensures RowAt(table, rows, key).Some? ==> RowAt(table, rows, key).value in rows
  {
    if |rows| > 0 && Key(table, rows[0]) != key {
      RowAtIsARow(table, rows[1..], key);
    }
  }

  /** Equal as maps from primary key to row. */
  ghost predicate SameMap(table: Table, a: seq<Row>, b: seq<Row>) {
    forall key :: RowAt(table, a, key) == RowAt(table, b, key)
  }

  lemma SameRowsOneWay(table: Table, a: seq<Row>, b: seq<Row>, x: Row)
    requires Ascending(table, a)
    requires SameMap(table, a, b)
    requires x in a
    ensures x in b
  {
    var i :| 0 <= i < |a| && a[i] == x;
    RowAtFinds(table, a, i);
    RowAtIsARow(table, b, Key(table, x));
  }

  lemma SameElementsSameRows(table: Table, a: seq<Row>, b: seq<Row>)
    requires Ascending(table, a) && Ascending(table, b)
    requires forall x :: x in a <==> x in b
    ensures a == b
  {
    KeyOrderIsTotal();
    hide CompareKeys, Key;
    assert IsPreorder(CompareRows(table));
    ClimbingIsUnique(CompareRows(table), a, b);
  }

  /** Two accepted tables have the same rows in the same order exactly when they are equal as maps from key to row. */
  lemma TablesAreMaps(table: Table, a: seq<Row>, b: seq<Row>)
    requires Ascending(table, a) && Ascending(table, b)
    ensures a == b <==> SameMap(table, a, b)
  {
    if SameMap(table, a, b) {
      forall x ensures x in a <==> x in b {
        if x in a {
          SameRowsOneWay(table, a, b, x);
        }
        if x in b {
          SameRowsOneWay(table, b, a, x);
        }
      }
      SameElementsSameRows(table, a, b);
    }
  }

  /** The row section of a table is the table as a map: equal bytes exactly for equal key-to-row maps. */
  lemma RowSectionIsTheMap(enums: seq<string>, labels: map<Text, seq<Text>>, cap: nat, table: Table, r: RelationState, cap': nat, r': RelationState)
    requires SectionOk(enums, labels, cap, table, r) && SectionOk(enums, labels, cap', table, r')
    requires NormalFacts(r.facts) == NormalFacts(r'.facts)
    ensures SectionBytes(enums, table, r) == SectionBytes(enums, table, r') <==> SameMap(table, r.rows, r'.rows)
  {
    SectionReads(enums, labels, cap, table, r, []);
    SectionReads(enums, labels, cap', table, r', []);
    TablesAreMaps(table, r.rows, r'.rows);
    hide SectionOk, HeadBytes, NormalFacts, GetSection, PutRow, SameMap;
    HeadIgnoresNulls(r.facts);
    HeadIgnoresNulls(r'.facts);
    assert SectionBytes(enums, table, r) + [] == SectionBytes(enums, table, r);
    assert SectionBytes(enums, table, r') + [] == SectionBytes(enums, table, r');
  }
}
