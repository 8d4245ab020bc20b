/** What it takes for a state to be accepted, in terms of the contract and the texts themselves, and how a value is laid out. */
module StateAccepted {
  import opened Wrappers
  import opened Bytes
  import opened Decimal
  import opened StateTypes
  import opened StateFields
  import opened StateStream
  import opened StateOrder
  import opened StateTheorems
  import Texts

  // ---- values --------------------------------------------------------------------------------------------------

  lemma ShowSignedReads(v: int)
    ensures IsInteger(ShowSigned(v)) && SignedValue(ShowSigned(v)) == v
  {
    if v < 0 {
      ShowReads(-v);
      assert ShowSigned(v)[1..] == Show(-v);
    } else {
      ShowReads(v);
    }
  }

  /** An integer is accepted exactly when it is the canonical text of one in range. */
  lemma IntegersAreExact(t: Text, limit: nat)
    ensures InRange(t, limit) <==> exists v :: t == Scalars(ShowSigned(v)) && -(limit as int) <= v < limit
    ensures forall v :: t == Scalars(ShowSigned(v)) ==> Number(t) == v
  {
    forall v ensures IsInteger(ShowSigned(v)) && SignedValue(ShowSigned(v)) == v {
      ShowSignedReads(v);
    }
    if InRange(t, limit) {
      SignedReadShows(t.s);
    }
  }

  /** A label is accepted exactly when it is one of the labels of its enum type, and its type one of the contract's. */
  predicate IsLabel(types: seq<EnumFacts>, enumType: string, value: Text) {
    exists i :: 0 <= i < |types| && types[i].name == Scalars(enumType) && value in types[i].labels
      && forall j :: i < j < |types| ==> types[j].name != types[i].name
  }

  lemma {:induction false} LabelsAreExact(types: seq<EnumFacts>, enumType: string, value: Text)
    ensures Scalars(enumType) in LabelMap(types) && value in LabelMap(types)[Scalars(enumType)] <==> IsLabel(types, enumType, value)
  {
    if |types| > 0 {
      var n := |types| - 1;
      LabelsAreExact(types[..n], enumType, value);
      if types[n].name != Scalars(enumType) {
        if i :| 0 <= i < n && types[..n][i].name == Scalars(enumType) && value in types[..n][i].labels
                && forall j :: i < j < n ==> types[..n][j].name != types[..n][i].name {
          assert types[i] == types[..n][i] && forall j :: i < j < n ==> types[j] == types[..n][j];
        }
        if i :| 0 <= i < |types| && types[i].name == Scalars(enumType) && value in types[i].labels
                && forall j :: i < j < |types| ==> types[j].name != types[i].name {
          assert types[..n][i] == types[i];
        }
      }
    }
  }

  /** The first enum type of this name in the contract. */
  predicate IsFirst(enums: seq<string>, name: string, n: nat) {
    n < |enums| && enums[n] == name && forall i :: 0 <= i < n ==> enums[i] != name
  }

  lemma {:induction false} IndexIsFirst(enums: seq<string>, name: string)
    requires name in enums
    ensures IsFirst(enums, name, IndexOf(enums, name))
  {
    if enums[0] != name {
      IndexIsFirst(enums[1..], name);
      assert forall i :: 0 < i < |enums| ==> enums[i] == enums[1..][i - 1];
    }
  }

  /** Two's complement, most significant byte first. */
  predicate IsSigned(p: bytes, k: nat, v: int) {
    |p| == k && Positional(p) == if v < 0 then v + Pow256(k) else v
  }

  lemma SignedMeans(k: nat, v: int)
    requires k > 0 && -(Pow256(k) as int) <= 2 * v < Pow256(k)
    ensures IsSigned(Signed(k, v), k, v)
  {
    BigEndianMeans(k, if v < 0 then v + Pow256(k) else v);
  }

  /** What a value that is not null says, by its type. */
  ghost predicate Says(enums: seq<string>, ft: FieldType, enumType: Option<string>, t: Text, tag: int, p: bytes) {
    match ft
    case TextField => tag == 1 && t.Scalars? && p == Utf8(t.s)
    case Int4 => tag == 2 && exists v :: t == Scalars(ShowSigned(v)) && IsSigned(p, 4, v)
    case Int8 => tag == 3 && exists v :: t == Scalars(ShowSigned(v)) && IsSigned(p, 8, v)
    case BoolField => tag == 4 && p == [if t == Scalars("true") then 1 else 0]
    case Tstz =>
      tag == 5 && |p| == 9
      && (if t == Scalars("+infinity") then p == [2, 0, 0, 0, 0, 0, 0, 0, 0]
          else if t == Scalars("-infinity") then p == [3, 0, 0, 0, 0, 0, 0, 0, 0]
          else p[0] == 1 && exists v :: t == Scalars(ShowSigned(v)) && IsSigned(p[1..], 8, v))
    case EnumField =>
      tag == 6 && t.Scalars? && enumType.Some?
      && exists n: nat :: IsFirst(enums, enumType.value, n) && p == BigEndian(2, n) + (BigEndian(4, |Utf8(t.s)|) + Utf8(t.s))
    case Jsonb => tag == 7 && t.Scalars? && p == Utf8(t.s)
  }

  /** Null is one zero byte. Any other accepted value is a one, the tag of its type, the length of what it says in four bytes, most
      significant first, and what it says. */
  lemma FieldLayout(enums: seq<string>, labels: map<Text, seq<Text>>, ft: FieldType, enumType: Option<string>, cell: Cell) returns (tag: Byte, p: bytes)
    requires FieldOk(enums, labels, ft, enumType, cell)
    ensures cell.None? ==> FieldBytes(enums, ft, enumType, cell) == [0]
    ensures cell.Some? ==>
              && FieldBytes(enums, ft, enumType, cell) == [1, tag] + (BigEndian(4, |p|) + p)
              && Positional(BigEndian(4, |p|)) == |p|
              && Says(enums, ft, enumType, cell.value, tag, p)
  {
    tag, p := 0, [];
    if cell.Some? {
      tag, p := Tag(ft), Payload(enums, ft, enumType, cell.value);
      PayloadReads(enums, labels, ft, enumType, cell.value);
      Powers();
      BigEndianMeans(4, |p|);
      PayloadSays(enums, labels, ft, enumType, cell.value);
    }
  }

  lemma PayloadSays(enums: seq<string>, labels: map<Text, seq<Text>>, ft: FieldType, enumType: Option<string>, t: Text)
    requires FieldOk(enums, labels, ft, enumType, Some(t))
    ensures Says(enums, ft, enumType, t, Tag(ft), Payload(enums, ft, enumType, t))
  {
    hide Utf8, BigEndian, Positional, IsInteger, SignedValue, ShowSigned, Signed, IsSigned, IsFirst;
    Powers();
    match ft {
      case TextField =>
      case Jsonb =>
      case BoolField =>
      case Int4 => IntegersAreExact(t, INT32_LIMIT); SignedMeans(4, Number(t));
      case Int8 => IntegersAreExact(t, INT64_LIMIT); SignedMeans(8, Number(t));
      case Tstz => InstantSays(t);
      case EnumField => IndexIsFirst(enums, enumType.value);
    }
  }

  lemma InstantSays(t: Text)
    requires t == Scalars("+infinity") || t == Scalars("-infinity") || InRange(t, INT64_LIMIT)
    ensures |Instant(t)| == 9
    ensures if t == Scalars("+infinity") then Instant(t) == [2, 0, 0, 0, 0, 0, 0, 0, 0]
            else if t == Scalars("-infinity") then Instant(t) == [3, 0, 0, 0, 0, 0, 0, 0, 0]
            else Instant(t)[0] == 1 && exists v :: t == Scalars(ShowSigned(v)) && IsSigned(Instant(t)[1..], 8, v)
  {
    hide BigEndian, Positional, IsInteger, SignedValue, ShowSigned, IsSigned;
    if t != Scalars("+infinity") && t != Scalars("-infinity") {
      Powers();
      IntegersAreExact(t, INT64_LIMIT);
      SignedMeans(8, Number(t));
      assert Instant(t)[1..] == Signed(8, Number(t));
    }
  }

  // ---- accepted states -----------------------------------------------------------------------------------------

  /** The catalogue says of the column what the contract says. */
  predicate AgreesWith(c: ColumnFacts, k: StateTypes.Column) {
    c.attnum == k.attnum && c.name == Scalars(k.name) && c.formatType == Scalars(k.formatType) && c.notNull == k.notNull && (c.defaultExpr != None <==> k.hasDefault)
  }

  /** An accepted state was read under the protected search path in UTF-8, over exactly the enum types, functions and tables of the contract,
      each table with the contract's columns and nothing that could hide or add rows. */
  lemma AcceptedFollowsTheContract(contract: Contract, cap: nat, s: State)
    requires StateOk(contract, cap, s)
    ensures s.header.searchPath == Scalars("pg_catalog, pg_temp")
    ensures s.header.serverEncoding == Scalars("UTF8") && s.header.clientEncoding == Scalars("UTF8")
    ensures |s.types| == |contract.enums| && forall i :: 0 <= i < |s.types| ==> s.types[i].schema == Scalars("public") && s.types[i].name == Scalars(contract.enums[i])
    ensures |s.functions| == |contract.functions| && forall i :: 0 <= i < |s.functions| ==> s.functions[i].name == Scalars(contract.functions[i])
    ensures |s.relations| == |contract.tables|
    ensures forall i :: 0 <= i < |s.relations| ==>
              var f, table := s.relations[i].facts, contract.tables[i];
              && f.relation == Scalars(table.relation) && |f.columns| == |table.columns|
              && (forall k :: 0 <= k < |f.columns| ==> AgreesWith(f.columns[k], table.columns[k]))
              && !f.rowSecurity && !f.forceRowSecurity && f.policies == f.rules == f.children == 0
  {
    hide HeadWritable, RowsOk, KeyAttnums, TextOk, LabelMap, EnumWritable, FunctionWritable, FieldOk, IsMarkerUuid, IsVersionNumber, HeadBytes;
    forall i | 0 <= i < |s.relations|
      ensures var f, table := s.relations[i].facts, contract.tables[i];
              && f.relation == Scalars(table.relation) && |f.columns| == |table.columns|
              && (forall k :: 0 <= k < |f.columns| ==> AgreesWith(f.columns[k], table.columns[k]))
              && !f.rowSecurity && !f.forceRowSecurity && f.policies == f.rules == f.children == 0
    {
      assert SectionOk(contract.enums, LabelMap(s.types), cap, contract.tables[i], s.relations[i]);
    }
  }

  /** It carries a marker that is a lower-case UUID and a server version of five or six digits. */
  lemma AcceptedHeaderMeans(h: Header)
    requires HeaderOk(h)
    ensures h.markerId.Scalars? && |h.markerId.s| == 36
            && forall i :: 0 <= i < 36 ==>
                 var x := h.markerId.s[i];
                 if i == 8 || i == 13 || i == 18 || i == 23 then x == '-' else '0' <= x <= '9' || 'a' <= x <= 'f'
    ensures h.serverVersion.Scalars? && (|h.serverVersion.s| == 5 || |h.serverVersion.s| == 6)
            && forall i :: 0 <= i < |h.serverVersion.s| ==> '0' <= h.serverVersion.s[i] <= '9'
    ensures h.installedAt == Scalars("+infinity") || h.installedAt == Scalars("-infinity")
            || exists v :: h.installedAt == Scalars(ShowSigned(v)) && -0x8000_0000_0000_0000 <= v < 0x8000_0000_0000_0000
  {
    hide TextOk, ShowSigned, InRange;
    IntegersAreExact(h.installedAt, INT64_LIMIT);
    var s := h.markerId.s;
    assert forall i :: 0 <= i < 36 ==> Texts.Lower(s)[i] == Texts.LowerChar(s[i]);
  }

  /** The recorded key of an accepted table is the contract's: the columns with a key position, in the order of their positions. */
  lemma AcceptedKeyFollowsTheContract(contract: Contract, cap: nat, s: State, i: nat) returns (key: seq<StateTypes.Column>)
    requires StateOk(contract, cap, s) && i < |contract.tables|
    ensures |s.relations| == |contract.tables| && |key| == |s.relations[i].facts.pk|
    ensures forall k :: 0 <= k < |key| ==> s.relations[i].facts.pk[k] == key[k].attnum
    ensures forall c :: c in key <==> c in contract.tables[i].columns && c.pk > 0
    ensures forall j, k :: 0 <= j < k < |key| ==> key[j].pk <= key[k].pk
  {
    hide HeadWritable, RowsOk, KeyAttnums, TextOk, LabelMap, HeaderOk, TypesOk, FunctionsOk, FieldOk, HeadBytes, SameColumn, NothingElse;
    assert SectionOk(contract.enums, LabelMap(s.types), cap, contract.tables[i], s.relations[i]);
    key := KeyFollowsPositions(contract.tables[i]);
  }

  /** And every value in it is one of its column's type. */
  lemma AcceptedValuesAreTyped(contract: Contract, cap: nat, s: State, i: nat, r: nat, k: nat)
    requires StateOk(contract, cap, s) && i < |s.relations| && r < |s.relations[i].rows| && k < |contract.tables[i].columns|
    ensures |s.relations[i].rows[r]| == |contract.tables[i].columns|
    ensures var column, cell := contract.tables[i].columns[k], s.relations[i].rows[r][k];
            cell.Some? ==>
              match column.fieldType
              case TextField => cell.value.Scalars?
              case Jsonb => cell.value.Scalars?
              case Int4 => exists v :: cell.value == Scalars(ShowSigned(v)) && -0x8000_0000 <= v < 0x8000_0000
              case Int8 => exists v :: cell.value == Scalars(ShowSigned(v)) && -0x8000_0000_0000_0000 <= v < 0x8000_0000_0000_0000
              case BoolField => cell.value == Scalars("true") || cell.value == Scalars("false")
              case Tstz =>
                || cell.value == Scalars("+infinity") || cell.value == Scalars("-infinity")
                || exists v :: cell.value == Scalars(ShowSigned(v)) && -0x8000_0000_0000_0000 <= v < 0x8000_0000_0000_0000
              case EnumField => column.enumType.Some? && column.enumType.value in contract.enums && IsLabel(s.types, column.enumType.value, cell.value)
  {
    hide HeadWritable, Ascending, KeyOk, HeaderOk, TypesOk, FunctionsOk, FactsOk, HeadBytes, LabelMap, InRange, TextOk, ShowSigned, IsLabel, IndexOf, Str, All;
    assert SectionOk(contract.enums, LabelMap(s.types), cap, contract.tables[i], s.relations[i]);
    var column, cell := contract.tables[i].columns[k], s.relations[i].rows[r][k];
    assert RowOk(contract.enums, LabelMap(s.types), contract.tables[i], s.relations[i].rows[r]);
    if cell.Some? {
      TextIsScalar(cell.value);
      IntegersAreExact(cell.value, INT32_LIMIT);
      IntegersAreExact(cell.value, INT64_LIMIT);
      if column.enumType.Some? {
        LabelsAreExact(s.types, column.enumType.value, cell.value);
      }
    }
  }

  lemma TextIsScalar(t: Text)
    ensures TextOk(t) ==> t.Scalars?
  {
  }

  // ---- what the stream leaves out --------------------------------------------------------------------------------

  /** The same text, or null on one side and the empty text on the other. */
  predicate SameOrEmpty(a: Option<Text>, b: Option<Text>) {
    a == b || (a == None && b == Some(Scalars(""))) || (b == None && a == Some(Scalars("")))
  }

  predicate SameFacts(a: RelationFacts, b: RelationFacts) {
    && |a.columns| == |b.columns|
    && (forall k :: 0 <= k < |a.columns| ==>
          a.columns[k] == b.columns[k].(collation := a.columns[k].collation) && SameOrEmpty(a.columns[k].collation, b.columns[k].collation))
    && a == b.(columns := a.columns, comment := a.comment) && SameOrEmpty(a.comment, b.comment)
  }

  /** Nothing differs but null against empty collations and comments. */
  predicate SameButForNulls(s: State, t: State) {
    && s == t.(relations := s.relations) && |s.relations| == |t.relations|
    && forall i :: 0 <= i < |s.relations| ==> s.relations[i].rows == t.relations[i].rows && SameFacts(s.relations[i].facts, t.relations[i].facts)
  }

  lemma NormalFactsMean(a: RelationFacts, b: RelationFacts)
    ensures NormalFacts(a) == NormalFacts(b) <==> SameFacts(a, b)
  {
    if NormalFacts(a) == NormalFacts(b) {
      forall k | 0 <= k < |a.columns|
        ensures |a.columns| == |b.columns|
        ensures a.columns[k] == b.columns[k].(collation := a.columns[k].collation)
        ensures SameOrEmpty(a.columns[k].collation, b.columns[k].collation)
      {
        assert NormalColumns(a.columns) == NormalColumns(b.columns);
        assert NormalColumns(a.columns)[k] == NormalColumns(b.columns)[k];
      }
    }
    if SameFacts(a, b) {
      assert NormalColumns(a.columns) == NormalColumns(b.columns);
    }
  }

  lemma NormalMeans(s: State, t: State)
    ensures Normal(s) == Normal(t) <==> SameButForNulls(s, t)
  {
    hide NormalFacts, SameFacts;
    var a, b := s.relations, t.relations;
    if |a| == |b| {
      forall i | 0 <= i < |a| ensures NormalFacts(a[i].facts) == NormalFacts(b[i].facts) <==> SameFacts(a[i].facts, b[i].facts) {
        NormalFactsMean(a[i].facts, b[i].facts);
      }
    }
    if Normal(s) == Normal(t) {
      assert |NormalRelations(a)| == |NormalRelations(b)|;
      forall i | 0 <= i < |a| ensures a[i].rows == b[i].rows && SameFacts(a[i].facts, b[i].facts) {
        assert NormalRelations(a)[i] == NormalRelations(b)[i];
      }
      assert s.header == t.header && s.types == t.types && s.functions == t.functions;
    }
    if SameButForNulls(s, t) {
      assert NormalRelations(a) == NormalRelations(b);
    }
  }

  /** So accepted states have one stream exactly when nothing else differs: no row, no cell, no fact can change unseen. */
  lemma OneStreamOneState(contract: Contract, cap: nat, s: State, t: State)
    requires StateOk(contract, cap, s) && StateOk(contract, cap, t)
    ensures StreamBytes(contract, s) == StreamBytes(contract, t) <==> SameButForNulls(s, t)
  {
    UniquelyDecodable(contract, cap, s, cap, t);
    NormalMeans(s, t);
    hide StateOk, StreamBytes, Normal, SameButForNulls;
  }
}
