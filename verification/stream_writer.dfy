/** The staged writer and its hash sinks: imperative code proved to put out exactly the canonical stream, and to refuse exactly
    the states that are not acceptable. */
module StreamWriter {
  import opened Wrappers
  import opened Ordering
  import opened Sequences
  import opened Bytes
  import opened StateTypes
  import opened StateFields
  import opened StateStream

  /** A SHA-256 value, named by the bytes that were hashed. */
  datatype Digest = Sha256(message: bytes)

  class DigestSink {
    const role: Role
    var written: bytes
    var done: bool

    constructor (role: Role)
      ensures this.role == role && written == Str(Scalars(RoleName(role))) && !done
    {
      this.role := role;
      written := Str(Scalars(RoleName(role)));
      done := false;
    }

    method Write(chunk: bytes) returns (ok: bool)
      modifies this`written
      ensures ok == !done
      ensures written == if ok then old(written) + chunk else old(written)
    {
      ok := !done;
      if ok {
        written := written + chunk;
      }
    }

    /** The digest is handed out once; an ended sink takes no more bytes. */
    method End() returns (digest: Option<Digest>)
      modifies this`done
      ensures digest == if old(done) then None else Some(Sha256(written))
      ensures done
    {
      if done {
        return None;
      }
      done := true;
      digest := Some(Sha256(written));
    }
  }

  datatype Stage = HeaderStage | TypesStage | FunctionsStage | RelationsStage | Finished

  lemma {:induction false} AllSplits<T>(put: T -> bytes, a: seq<T>, b: seq<T>)
    ensures All(put, a + b) == All(put, a) + All(put, b)
  {
    if |a| > 0 {
      AllSplits(put, a[1..], b);
      assert (a + b)[1..] == a[1..] + b;
    } else {
      assert a + b == b;
    }
  }

  lemma AllNext<T>(put: T -> bytes, xs: seq<T>, i: nat)
    requires i < |xs|
    ensures All(put, xs[..i + 1]) == All(put, xs[..i]) + put(xs[i])
  {
    AllSnoc(put, xs[..i], xs[i]);
    assert xs[..i + 1] == xs[..i] + [xs[i]];
  }

  /** The loop that pushes one encoded record after another, giving up at the first that cannot be encoded. */
  method EncodeList<T>(put: T -> bytes, ok: T -> bool, xs: seq<T>) returns (good: bool, b: bytes)
    ensures good <==> forall i :: 0 <= i < |xs| ==> ok(xs[i])
    ensures good ==> b == All(put, xs)
  {
    b := [];
    var i := 0;
    while i < |xs|
      invariant 0 <= i <= |xs|
      invariant forall k :: 0 <= k < i ==> ok(xs[k])
      invariant b == All(put, xs[..i])
    {
      if !ok(xs[i]) {
        return false, b;
      }
      AllNext(put, xs, i);
      b := b + put(xs[i]);
      i := i + 1;
    }
    assert xs[..|xs|] == xs;
    good := true;
  }

  method EncodeCounted<T>(put: T -> bytes, ok: T -> bool, xs: seq<T>) returns (good: bool, b: bytes)
    ensures good <==> ListOk(ok, xs)
    ensures good ==> b == Counted(put, xs)
  {
    if |xs| > MAX_LENGTH {
      return false, [];
    }
    good, b := EncodeList(put, ok, xs);
    b := U32(|xs|) + b;
  }

  lemma {:induction false} CellsNext(enums: seq<string>, columns: seq<Column>, row: Row, i: nat)
    requires i < |row| == |columns|
    ensures CellsBytes(enums, columns[..i + 1], row[..i + 1])
         == CellsBytes(enums, columns[..i], row[..i]) + FieldBytes(enums, columns[i].fieldType, columns[i].enumType, row[i])
  {
    hide FieldBytes;
    if i > 0 {
      CellsNext(enums, columns[1..], row[1..], i - 1);
      assert columns[..i + 1][1..] == columns[1..][..i] && row[..i + 1][1..] == row[1..][..i];
      assert columns[..i][1..] == columns[1..][..i - 1] && row[..i][1..] == row[1..][..i - 1];
    } else {
      assert columns[..1][1..] == [] && row[..1][1..] == [];
    }
  }

  method EncodeCells(enums: seq<string>, labels: map<Text, seq<Text>>, columns: seq<Column>, row: Row) returns (good: bool, b: bytes)
    requires |row| == |columns|
    ensures good <==> CellsOk(enums, labels, columns, row)
    ensures good ==> b == CellsBytes(enums, columns, row)
  {
    hide FieldOk, FieldBytes;
    b := [];
    var i := 0;
    while i < |row|
      invariant 0 <= i <= |row|
      invariant forall k :: 0 <= k < i ==> FieldOk(enums, labels, columns[k].fieldType, columns[k].enumType, row[k])
      invariant b == CellsBytes(enums, columns[..i], row[..i])
    {
      if !FieldOk(enums, labels, columns[i].fieldType, columns[i].enumType, row[i]) {
        return false, b;
      }
      CellsNext(enums, columns, row, i);
      b := b + FieldBytes(enums, columns[i].fieldType, columns[i].enumType, row[i]);
      i := i + 1;
    }
    assert columns[..|row|] == columns && row[..|row|] == row;
    good := true;
  }

  /** compareKeys as the source runs it: part by part over the common length, then by length. */
  method CompareByParts(a: seq<bytes>, b: seq<bytes>) returns (c: Cmp)
    ensures c == CompareKeys(a, b)
  {
    hide CompareBytes;
    var i := 0;
    while i < |a| && i < |b|
      invariant 0 <= i <= |a| && i <= |b|
      invariant CompareKeys(a, b) == CompareKeys(a[i..], b[i..])
    {
      c := CompareBytes(a[i], b[i]);
      if !c.Equal? {
        return;
      }
      assert a[i..][1..] == a[i + 1..] && b[i..][1..] == b[i + 1..];
      i := i + 1;
    }
    c := CompareInts(|a|, |b|);
  }

  /** A row whose key must come after the previous one. */
  method EncodeRow(enums: seq<string>, labels: map<Text, seq<Text>>, table: Table, previous: Option<seq<bytes>>, row: Row)
    returns (good: bool, encoded: bytes)
    ensures good <==> RowOk(enums, labels, table, row) && (previous.Some? ==> CompareKeys(previous.value, Key(table, row)).Less?)
    ensures good ==> encoded == PutRow(enums, table.columns)(row)
  {
    hide CellsBytes, KeyOk, Key, CompareKeys;
    good, encoded := false, [];
    if |row| != |table.columns| || !KeyOk(table, row) {
      return;
    }
    if previous.Some? {
      var c := CompareByParts(previous.value, Key(table, row));
      if !c.Less? {
        return;
      }
    }
    var cells;
    good, cells := EncodeCells(enums, labels, table.columns, row);
    encoded := ROW_MARK + cells;
  }

  lemma NoRowsOk(enums: seq<string>, labels: map<Text, seq<Text>>, cap: nat, table: Table, start: nat)
    ensures RowsOk(enums, labels, cap, table, start, []) && All(PutRow(enums, table.columns), []) == []
  {
  }

  /** Acceptance row by row: a prefix of acceptable rows is acceptable, and one more row adds its own three conditions. */
  lemma RowsOkNext(enums: seq<string>, labels: map<Text, seq<Text>>, cap: nat, table: Table, start: nat, rows: seq<Row>, i: nat)
    requires i < |rows|
    requires RowsOk(enums, labels, cap, table, start, rows[..i])
    ensures RowsOk(enums, labels, cap, table, start, rows) ==> RowsOk(enums, labels, cap, table, start, rows[..i + 1])
    ensures RowsOk(enums, labels, cap, table, start, rows[..i + 1])
       <==> RowOk(enums, labels, table, rows[i])
            && (i > 0 ==> CompareKeys(Key(table, rows[i - 1]), Key(table, rows[i])).Less?)
            && start + |All(PutRow(enums, table.columns), rows[..i + 1])| <= cap
  {
    hide RowOk, PutRow, CompareKeys, Key;
    var put := PutRow(enums, table.columns);
    AllSplits(put, rows[..i + 1], rows[i + 1..]);
    assert rows[..i + 1] + rows[i + 1..] == rows;
    var next := rows[..i + 1];
    assert forall k :: 0 <= k < |next| ==> next[k] == rows[k];
    assert forall k :: 0 <= k < i ==> rows[..i][k] == rows[k];
    assert next[i] == rows[i];
  }

  /** The head of a section, refused as a whole if any part of it cannot be encoded. */
  method EncodeHead(table: Table, f: RelationFacts) returns (good: bool, b: bytes)
    ensures good <==> FactsOk(table, f)
    ensures good ==> b == HeadBytes(f)
  {
    hide Record, Counted, TextOk, ListOk, ColumnWritable, ConstraintWritable, IndexWritable, TriggerWritable, RiTriggerWritable, PutColumn,
      PutConstraint, PutIndex, PutTrigger, PutRiTrigger, SameColumn, KeyAttnums;
    good, b := false, [];
    if f.relation != Scalars(table.relation) || |f.columns| != |table.columns| {
      return;
    }
    if exists i :: 0 <= i < |f.columns| && !SameColumn(f.columns[i], table.columns[i]) {
      return;
    }
    if f.pk != KeyAttnums(table) || !NothingElse(f) || !TextOk(f.relation) || !TextOk(OrEmpty(f.comment)) {
      return;
    }
    var columnsOk, columns := EncodeCounted(PutColumn, ColumnWritable, f.columns);
    var pkOk, pk := EncodeCounted(U16, IsShort, f.pk);
    var constraintsOk, constraints := EncodeCounted(PutConstraint, ConstraintWritable, f.constraints);
    var indexesOk, indexes := EncodeCounted(PutIndex, IndexWritable, f.indexes);
    var triggersOk, triggers := EncodeCounted(PutTrigger, TriggerWritable, f.triggers);
    var riOk, ri := EncodeCounted(PutRiTrigger, RiTriggerWritable, f.riTriggers);
    good := columnsOk && pkOk && constraintsOk && indexesOk && triggersOk && riOk;
    b := Record([TextToken(Scalars("public")), TextToken(f.relation)])
         + (columns + (pk + (constraints + (indexes + (triggers + (ri + (NOTHING_ELSE + Record([TextToken(OrEmpty(f.comment))]))))))));
  }

  lemma SectionParts(enums: seq<string>, labels: map<Text, seq<Text>>, cap: nat, table: Table, facts: RelationFacts, rows: seq<Row>)
    ensures SectionOk(enums, labels, cap, table, RelationState(facts, rows))
       <==> FactsOk(table, facts) && |rows| < 0x1_0000_0000_0000_0000 && RowsOk(enums, labels, cap, table, |HeadBytes(facts)| + 8, rows)
    ensures SectionBytes(enums, table, RelationState(facts, rows)) == HeadBytes(facts) + BodyBytes(enums, table, rows)
  {
    hide FactsOk, RowsOk, HeadBytes, BodyBytes;
  }

  lemma NoLabels()
    ensures LabelMap([]) == map[] && All(PutEnum, []) == []
  {
  }

  lemma LabelsNext(types: seq<EnumFacts>, i: nat)
    requires i < |types|
    ensures LabelMap(types[..i + 1]) == LabelMap(types[..i])[types[i].name := types[i].labels]
  {
    assert types[..i + 1][..i] == types[..i];
  }

  /** What each sink has received. */
  ghost function Received(sinks: seq<DigestSink>): seq<bytes>
    reads sinks
  {
    seq(|sinks|, i reads sinks requires 0 <= i < |sinks| => sinks[i].written)
  }

  /** No sink has been ended. */
  ghost predicate AllOpen(sinks: seq<DigestSink>)
    reads sinks
  {
    forall i :: 0 <= i < |sinks| ==> !sinks[i].done
  }

  /** One more chunk everywhere. */
  function Extended(base: seq<bytes>, chunk: bytes): seq<bytes> {
    seq(|base|, i requires 0 <= i < |base| => base[i] + chunk)
  }

  lemma ExtendedTwice(base: seq<bytes>, a: bytes, b: bytes)
    ensures Extended(Extended(base, a), b) == Extended(base, a + b)
  {
    forall i | 0 <= i < |base| ensures base[i] + a + b == base[i] + (a + b) {}
  }

  lemma ExtendedByNothing(base: seq<bytes>)
    ensures Extended(base, []) == base
  {
    forall i | 0 <= i < |base| ensures base[i] + [] == base[i] {}
  }

  class StateStreamWriter {
    const contract: Contract
    const sinks: seq<DigestSink>
    const cap: nat
    var schema: bytes
    var stage: Stage
    var relationIndex: nat
    var labels: map<Text, seq<Text>>

    predicate Valid()
      reads this
    {
      |sinks| > 0 && Distinct(sinks) && relationIndex <= |contract.tables|
    }

    constructor (contract: Contract, sinks: seq<DigestSink>, cap: nat)
      requires |sinks| > 0 && Distinct(sinks)
      ensures this.contract == contract && this.sinks == sinks && this.cap == cap
      ensures Valid() && stage == HeaderStage && relationIndex == 0 && labels == map[]
      ensures schema == Str(Scalars(DIGEST_SCHEME + "/SCHEMA"))
    {
      this.contract := contract;
      this.sinks := sinks;
      this.cap := cap;
      schema := Str(Scalars(DIGEST_SCHEME + "/SCHEMA"));
      stage := HeaderStage;
      relationIndex := 0;
      labels := map[];
    }

    /** Every sink gets the chunk; an ended sink stops the rest. */
    method Emit(chunk: bytes, intoSchema: bool) returns (ok: bool)
      requires Valid()
      modifies this`schema, sinks`written
      ensures Valid() && ok == AllOpen(sinks)
      ensures ok ==> Received(sinks) == Extended(old(Received(sinks)), chunk)
      ensures schema == if ok && intoSchema then old(schema) + chunk else old(schema)
    {
      var i := 0;
      while i < |sinks|
        invariant 0 <= i <= |sinks|
        invariant schema == old(schema)
        invariant forall k :: 0 <= k < i ==> !sinks[k].done && sinks[k].written == old(sinks[k].written) + chunk
        invariant forall k :: i <= k < |sinks| ==> sinks[k].written == old(sinks[k].written)
      {
        ok := sinks[i].Write(chunk);
        if !ok {
          return;
        }
        i := i + 1;
      }
      if intoSchema {
        schema := schema + chunk;
      }
      ok := true;
    }

    method WriteHeader(h: Header) returns (ok: bool)
      requires Valid()
      modifies this`schema, this`stage, sinks`written
      ensures Valid()
      ensures ok <==> old(stage).HeaderStage? && HeaderOk(h) && AllOpen(sinks)
      ensures stage == if ok then TypesStage else old(stage)
      ensures ok ==> Received(sinks) == Extended(old(Received(sinks)), HeaderBytes(h)) && schema == old(schema) + HeaderBytes(h)
    {
      hide HeaderOk, HeaderBytes, Received;
      ok := false;
      if stage != HeaderStage || !HeaderOk(h) {
        return;
      }
      ok := Emit(HeaderBytes(h), true);
      if ok {
        stage := TypesStage;
      }
    }

    /** Remembers the labels of each type and encodes it. */
    method CollectTypes(types: seq<EnumFacts>) returns (ok: bool, parts: bytes)
      modifies this`labels
      ensures ok <==> forall i :: 0 <= i < |types| ==> EnumWritable(types[i])
      ensures ok ==> parts == All(PutEnum, types) && labels == old(labels) + LabelMap(types)
    {
      hide PutEnum, EnumWritable, All, LabelMap;
      NoLabels();
      assert types[..0] == [];
      parts := [];
      var i := 0;
      while i < |types|
        invariant 0 <= i <= |types|
        invariant forall k :: 0 <= k < i ==> EnumWritable(types[k])
        invariant parts == All(PutEnum, types[..i])
        invariant labels == old(labels) + LabelMap(types[..i])
      {
        LabelsNext(types, i);
        labels := labels[types[i].name := types[i].labels];
        if !EnumWritable(types[i]) {
          return false, parts;
        }
        AllNext(PutEnum, types, i);
        parts := parts + PutEnum(types[i]);
        i := i + 1;
      }
      assert types[..|types|] == types;
      ok := true;
    }

    method WriteTypes(types: seq<EnumFacts>) returns (ok: bool)
      requires Valid()
      modifies this`schema, this`stage, this`labels, sinks`written
      ensures Valid()
      ensures ok <==> old(stage).TypesStage? && TypesOk(contract, types) && AllOpen(sinks)
      ensures stage == if ok then FunctionsStage else old(stage)
      ensures ok ==> Received(sinks) == Extended(old(Received(sinks)), TypesBytes(types)) && schema == old(schema) + TypesBytes(types)
      ensures ok ==> labels == old(labels) + LabelMap(types)
    {
      hide PutEnum, EnumWritable, All, LabelMap, Received;
      ok := false;
      if stage != TypesStage || |types| != |contract.enums| || |types| > MAX_LENGTH {
        return;
      }
      if exists i :: 0 <= i < |types| && !(types[i].schema == Scalars("public") && types[i].name == Scalars(contract.enums[i])) {
        return;
      }
      var good, parts := CollectTypes(types);
      if !good {
        return;
      }
      ok := Emit(U32(|types|) + parts, true);
      if ok {
        stage := FunctionsStage;
      }
    }

    method WriteFunctions(functions: seq<FunctionFacts>) returns (ok: bool)
      requires Valid()
      modifies this`schema, this`stage, sinks`written
      ensures Valid()
      ensures ok <==> old(stage).FunctionsStage? && FunctionsOk(contract, functions) && AllOpen(sinks)
      ensures stage == if ok then RelationsStage else old(stage)
      ensures ok ==> Received(sinks) == Extended(old(Received(sinks)), FunctionsBytes(contract, functions)) && schema == old(schema) + FunctionsBytes(contract, functions)
    {
      hide PutFunction, FunctionWritable, Counted, ListOk, Received;
      ok := false;
      if stage != FunctionsStage || |functions| != |contract.functions| || |contract.tables| > MAX_LENGTH {
        return;
      }
      if exists i :: 0 <= i < |functions| && functions[i].name != Scalars(contract.functions[i]) {
        return;
      }
      var good, parts := EncodeCounted(PutFunction, FunctionWritable, functions);
      if !good {
        return;
      }
      ok := Emit(parts + U32(|contract.tables|), true);
      if ok {
        stage := RelationsStage;
      }
    }

    /** The rows of one table: each is checked, compared with its predecessor, encoded, counted against the cap and sent on. */
    method WriteRows(table: Table, start: nat, rows: seq<Row>) returns (ok: bool)
      requires Valid() && AllOpen(sinks)
      modifies this`schema, sinks`written
      ensures Valid() && schema == old(schema)
      ensures ok <==> RowsOk(contract.enums, labels, cap, table, start, rows)
      ensures ok ==> Received(sinks) == Extended(old(Received(sinks)), All(PutRow(contract.enums, table.columns), rows))
    {
      hide RowsOk, RowOk, Key, CompareKeys, PutRow, All, Extended, Received;
      var put := PutRow(contract.enums, table.columns);
      var relationBytes := start;
      var previous: Option<seq<bytes>> := None;
      var i := 0;
      NoRowsOk(contract.enums, labels, cap, table, start);
      ExtendedByNothing(Received(sinks));
      assert rows[..0] == [];
      while i < |rows|
        invariant 0 <= i <= |rows|
        invariant AllOpen(sinks) && schema == old(schema)
        invariant RowsOk(contract.enums, labels, cap, table, start, rows[..i])
        invariant previous == if i == 0 then None else Some(Key(table, rows[i - 1]))
        invariant relationBytes == start + |All(put, rows[..i])|
        invariant Received(sinks) == Extended(old(Received(sinks)), All(put, rows[..i]))
      {
        RowsOkNext(contract.enums, labels, cap, table, start, rows, i);
        AllNext(put, rows, i);
        var good, encoded := EncodeRow(contract.enums, labels, table, previous, rows[i]);
        relationBytes := relationBytes + |encoded|;
        if !good || relationBytes > cap {
          return false;
        }
        ok := Emit(encoded, false);
        ExtendedTwice(old(Received(sinks)), All(put, rows[..i]), encoded);
        previous := Some(Key(table, rows[i]));
        i := i + 1;
      }
      assert rows[..|rows|] == rows;
      ok := true;
    }

    /** One section: the head with its metadata checks, the row count, then the rows. */
    method WriteRelation(facts: RelationFacts, rows: seq<Row>) returns (ok: bool)
      requires Valid()
      modifies this`schema, this`relationIndex, sinks`written
      ensures Valid()
      ensures ok <==> stage.RelationsStage? && old(relationIndex) < |contract.tables| && AllOpen(sinks)
                      && SectionOk(contract.enums, labels, cap, contract.tables[old(relationIndex)], RelationState(facts, rows))
      ensures relationIndex == if ok then old(relationIndex) + 1 else old(relationIndex)
      ensures ok ==> Received(sinks) == Extended(old(Received(sinks)), SectionBytes(contract.enums, contract.tables[old(relationIndex)], RelationState(facts, rows)))
      ensures ok ==> schema == old(schema) + HeadBytes(facts)
    {
      hide SectionOk, SectionBytes, RowsOk, FactsOk, HeadBytes, BodyBytes, Extended, Received;
      ok := false;
      if stage != RelationsStage || relationIndex == |contract.tables| {
        return;
      }
      var table := contract.tables[relationIndex];
      SectionParts(contract.enums, labels, cap, table, facts, rows);
      if |rows| >= 0x1_0000_0000_0000_0000 {
        return;
      }
      var good, head := EncodeHead(table, facts);
      if !good {
        return;
      }
      ok := Emit(head, true);
      if ok {
        ok := WriteBody(table, |head|, rows);
      }
      if ok {
        relationIndex := relationIndex + 1;
        ExtendedTwice(old(Received(sinks)), head, BodyBytes(contract.enums, table, rows));
      }
    }

    /** The row count, then the rows. */
    method WriteBody(table: Table, head: nat, rows: seq<Row>) returns (ok: bool)
      requires Valid() && AllOpen(sinks)
      modifies this`schema, sinks`written
      ensures Valid() && schema == old(schema)
      ensures ok <==> RowsOk(contract.enums, labels, cap, table, head + 8, rows)
      ensures ok ==> Received(sinks) == Extended(old(Received(sinks)), BodyBytes(contract.enums, table, rows))
    {
      hide RowsOk, PutRow, All, Extended, BigEndian, Received;
      var count := U64(|rows|);
      ok := Emit(count, false);
      ok := WriteRows(table, head + |count|, rows);
      ExtendedTwice(old(Received(sinks)), count, All(PutRow(contract.enums, table.columns), rows));
    }

    /** All the sections, in contract order; their rows are kept in memory if asked for. */
    method WriteSections(rs: seq<RelationState>, keepRows: bool) returns (ok: bool, kept: Rows)
      requires Valid() && AllOpen(sinks) && stage.RelationsStage? && relationIndex == 0 && |rs| == |contract.tables|
      modifies this`schema, this`relationIndex, sinks`written
      ensures Valid()
      ensures ok <==> SectionsOk(contract.enums, labels, cap, contract.tables, rs)
      ensures ok ==> relationIndex == |contract.tables|
      ensures ok ==> Received(sinks) == Extended(old(Received(sinks)), SectionsBytes(contract.enums, contract.tables, rs))
      ensures ok ==> schema == old(schema) + HeadsBytes(contract.tables, rs)
      ensures ok && keepRows ==> kept == RowsUpTo(contract.tables, rs, |rs|)
    {
      hide SectionOk, SectionBytes, SectionsBytes, HeadsBytes, HeadBytes, Received, Extended;
      NoSections(contract.enums);
      ExtendedByNothing(Received(sinks));
      assert contract.tables[..0] == [] && rs[..0] == [];
      kept := map[];
      var i := 0;
      while i < |rs|
        invariant 0 <= i <= |rs|
        invariant Valid() && AllOpen(sinks) && relationIndex == i
        invariant forall k :: 0 <= k < i ==> SectionOk(contract.enums, labels, cap, contract.tables[k], rs[k])
        invariant Received(sinks) == Extended(old(Received(sinks)), SectionsBytes(contract.enums, contract.tables[..i], rs[..i]))
        invariant schema == old(schema) + HeadsBytes(contract.tables[..i], rs[..i])
        invariant keepRows ==> kept == RowsUpTo(contract.tables, rs, i)
      {
        ok := WriteRelation(rs[i].facts, rs[i].rows);
        assert rs[i] == RelationState(rs[i].facts, rs[i].rows);
        if !ok {
          return;
        }
        if keepRows {
          kept := kept[contract.tables[i].relation := rs[i].rows];
        }
        SectionsNext(contract.enums, contract.tables, rs, i);
        ExtendedTwice(old(Received(sinks)), SectionsBytes(contract.enums, contract.tables[..i], rs[..i]),
                      SectionBytes(contract.enums, contract.tables[i], rs[i]));
        i := i + 1;
      }
      assert contract.tables[..|rs|] == contract.tables && rs[..|rs|] == rs;
      ok := true;
    }

    method Finish() returns (digest: Option<Digest>)
      requires Valid()
      modifies this`schema, this`stage, sinks`written
      ensures Valid()
      ensures digest.Some? <==> old(stage).RelationsStage? && relationIndex == |contract.tables| && AllOpen(sinks)
      ensures stage == if digest.Some? then Finished else old(stage)
      ensures digest.Some? ==> Received(sinks) == Extended(old(Received(sinks)), END) && digest == Some(Sha256(old(schema)))
    {
      hide Received, Extended;
      digest := None;
      if stage != RelationsStage || relationIndex != |contract.tables| {
        return;
      }
      var ok := Emit(END, false);
      if ok {
        stage := Finished;
        digest := Some(Sha256(schema));
      }
    }
  }

  lemma {:induction false} SectionsNext(enums: seq<string>, tables: seq<Table>, rs: seq<RelationState>, i: nat)
    requires i < |tables| == |rs|
    ensures SectionsBytes(enums, tables[..i + 1], rs[..i + 1])
         == SectionsBytes(enums, tables[..i], rs[..i]) + SectionBytes(enums, tables[i], rs[i])
    ensures HeadsBytes(tables[..i + 1], rs[..i + 1]) == HeadsBytes(tables[..i], rs[..i]) + HeadBytes(rs[i].facts)
  {
    hide SectionBytes, HeadBytes;
    if i > 0 {
      SectionsNext(enums, tables[1..], rs[1..], i - 1);
      assert tables[..i + 1][1..] == tables[1..][..i] && rs[..i + 1][1..] == rs[1..][..i];
      assert tables[..i][1..] == tables[1..][..i - 1] && rs[..i][1..] == rs[1..][..i - 1];
    } else {
      assert tables[..1][1..] == [] && rs[..1][1..] == [];
    }
  }

  lemma NoSections(enums: seq<string>)
    ensures SectionsBytes(enums, [], []) == [] && HeadsBytes([], []) == []
  {
  }

  datatype ReadResult = ReadResult(rows: Option<Rows>, serverVersion: Text, markerId: Text, schemaDigest: Digest)

  /** What one read of the state hands back. */
  function ResultOf(contract: Contract, s: State, keepRows: bool): ReadResult {
    ReadResult(if keepRows then Some(RowsOf(contract, s)) else None, s.header.serverVersion, s.header.markerId,
               Sha256(SchemaMessage(contract, s)))
  }

  /** One pass over the state: succeeds exactly on acceptable states, and then every sink has received the canonical stream, the
      schema digest is taken over everything but the rows, and the rows kept are the very rows written. */
  method ReadState(contract: Contract, sinks: seq<DigestSink>, cap: nat, keepRows: bool, s: State) returns (result: Option<ReadResult>)
    requires |sinks| > 0 && Distinct(sinks)
    requires |s.relations| == |contract.tables|
    modifies sinks`written
    ensures result.Some? <==> StateOk(contract, cap, s) && AllOpen(sinks)
    ensures result.Some? ==> Received(sinks) == Extended(old(Received(sinks)), StreamBytes(contract, s))
    ensures result.Some? ==> result.value == ResultOf(contract, s, keepRows)
  {
    hide HeaderOk, TypesOk, FunctionsOk, SectionsOk, HeaderBytes, TypesBytes, FunctionsBytes, SectionsBytes, HeadsBytes, Received, Extended, Str;
    var writer := new StateStreamWriter(contract, sinks, cap);
    result := None;
    var ok := writer.WriteHeader(s.header);
    if !ok {
      return;
    }
    ok := writer.WriteTypes(s.types);
    if !ok {
      return;
    }
    ok := writer.WriteFunctions(s.functions);
    if !ok {
      return;
    }
    assert writer.labels == LabelMap(s.types);
    var kept: Rows;
    ok, kept := writer.WriteSections(s.relations, keepRows);
    if !ok {
      return;
    }
    var schemaDigest := writer.Finish();
    JoinedStream(old(Received(sinks)), contract, s);
    JoinedSchema(contract, s);
    if schemaDigest.Some? {
      result := Some(ReadResult(if keepRows then Some(kept) else None, s.header.serverVersion, s.header.markerId, schemaDigest.value));
    }
  }

  lemma JoinedStream(base: seq<bytes>, contract: Contract, s: State)
    ensures Extended(Extended(Extended(Extended(Extended(base, HeaderBytes(s.header)), TypesBytes(s.types)),
              FunctionsBytes(contract, s.functions)), SectionsBytes(contract.enums, contract.tables, s.relations)), END)
         == Extended(base, StreamBytes(contract, s))
  {
    hide HeaderBytes, TypesBytes, FunctionsBytes, SectionsBytes, Extended;
    var header, types, functions := HeaderBytes(s.header), TypesBytes(s.types), FunctionsBytes(contract, s.functions);
    var sections := SectionsBytes(contract.enums, contract.tables, s.relations);
    ExtendedTwice(Extended(Extended(Extended(base, header), types), functions), sections, END);
    ExtendedTwice(Extended(Extended(base, header), types), functions, sections + END);
    ExtendedTwice(Extended(base, header), types, functions + (sections + END));
    ExtendedTwice(base, header, types + (functions + (sections + END)));
  }

  lemma JoinedSchema(contract: Contract, s: State)
    ensures Str(Scalars(DIGEST_SCHEME + "/SCHEMA")) + HeaderBytes(s.header) + TypesBytes(s.types) + FunctionsBytes(contract, s.functions)
            + HeadsBytes(contract.tables, s.relations) == SchemaMessage(contract, s)
  {
    hide HeaderBytes, TypesBytes, FunctionsBytes, HeadsBytes, Str;
  }
}
