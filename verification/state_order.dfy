/** The order the stream writer demands of rows, in plain terms: keys part by part, each part byte by byte, the smaller byte first. */
module StateOrder {
  import opened Wrappers
  import opened Ordering
  import opened Sequences
  import opened Bytes
  import opened StateTypes
  import opened StateFields
  import opened StateStream
  import opened StateTheorems

  /** The first is a proper prefix of the second, or has the smaller number at the first byte where they differ. */
  ghost predicate BytesBefore(a: bytes, b: bytes) {
    || (|a| < |b| && a == b[..|a|])
    || exists i :: 0 <= i < |a| && i < |b| && a[..i] == b[..i] && a[i] < b[i]
  }

  /** The same part by part. */
  ghost predicate KeyBefore(a: seq<bytes>, b: seq<bytes>) {
    || (|a| < |b| && a == b[..|a|])
    || exists i :: 0 <= i < |a| && i < |b| && a[..i] == b[..i] && BytesBefore(a[i], b[i])
  }

  /** The byte comparison is that of raw byte order. */
  lemma CompareBytesMeans(a: bytes, b: bytes)
    ensures CompareBytes(a, b).Less? <==> BytesBefore(a, b)
    ensures CompareBytes(a, b).Equal? <==> a == b
    ensures CompareBytes(a, b).Greater? <==> BytesBefore(b, a)
  {
    ByteOrderIsTotal();
    BytesRise(a, b);
    BytesRise(b, a);
    hide BytesBefore, CompareBytes;
  }

  lemma BytesRise(a: bytes, b: bytes)
    ensures CompareBytes(a, b).Less? <==> BytesBefore(a, b)
  {
    assert IsTotalOrder(CompareByte);
    LexMeans(CompareByte, a, b);
    if i :| AgreeUpTo(a, b, i) && CompareByte(a[i], b[i]).Less? {
      assert a[i] < b[i];
    }
    if i :| 0 <= i < |a| && i < |b| && a[..i] == b[..i] && a[i] < b[i] {
      assert AgreeUpTo(a, b, i) && CompareByte(a[i], b[i]).Less?;
    }
  }

  /** And the comparison of composite keys is that order of their parts. */
  lemma CompareKeysMeans(a: seq<bytes>, b: seq<bytes>)
    ensures CompareKeys(a, b).Less? <==> KeyBefore(a, b)
    ensures CompareKeys(a, b).Equal? <==> a == b
    ensures CompareKeys(a, b).Greater? <==> KeyBefore(b, a)
  {
    KeyOrderIsTotal();
    KeysRise(a, b);
    KeysRise(b, a);
    hide KeyBefore, CompareKeys;
  }

  lemma KeysRise(a: seq<bytes>, b: seq<bytes>)
    ensures CompareKeys(a, b).Less? <==> KeyBefore(a, b)
  {
    hide CompareBytes, BytesBefore;
    ByteOrderIsTotal();
    LexMeans(CompareBytes, a, b);
    if i :| AgreeUpTo(a, b, i) && CompareBytes(a[i], b[i]).Less? {
      CompareBytesMeans(a[i], b[i]);
    }
    if i :| 0 <= i < |a| && i < |b| && a[..i] == b[..i] && BytesBefore(a[i], b[i]) {
      CompareBytesMeans(a[i], b[i]);
      assert AgreeUpTo(a, b, i);
    }
  }

  // ---- the key of a row ----------------------------------------------------------------------------------------

  lemma {:induction false} KeyColumnsAre(columns: seq<StateTypes.Column>)
    ensures forall c :: c in KeyColumns(columns) <==> c in columns && c.pk > 0
  {
    if |columns| > 0 {
      KeyColumnsAre(columns[..|columns| - 1]);
      assert columns == columns[..|columns| - 1] + [columns[|columns| - 1]];
    }
  }

  /** The key columns are the columns with a key position, in the order of their positions. */
  lemma KeyFollowsPositions(table: Table) returns (key: seq<StateTypes.Column>)
    ensures |key| == |KeyAttnums(table)| && forall i :: 0 <= i < |key| ==> KeyAttnums(table)[i] == key[i].attnum
    ensures forall c :: c in key <==> c in table.columns && c.pk > 0
    ensures forall i, j :: 0 <= i < j < |key| ==> key[i].pk <= key[j].pk
  {
    key := Sort(ByKeyPosition, KeyColumns(table.columns));
    PositionsAreOrdered();
    SortSorts(ByKeyPosition, KeyColumns(table.columns));
    SortMembers(ByKeyPosition, KeyColumns(table.columns));
    KeyColumnsAre(table.columns);
    hide KeyColumns, Sort, IsPreorder;
    forall i, j | 0 <= i < j < |key| ensures key[i].pk <= key[j].pk {
      assert !ByKeyPosition(key[i], key[j]).Greater?;
    }
  }

  lemma PositionsAreOrdered()
    ensures IsPreorder(ByKeyPosition)
  {
  }

  /** Each part of a row's key is the UTF-8 form of the cell of its column. */
  lemma KeyParts(table: Table, row: Row, i: nat)
    requires KeyOk(table, row) && i < |KeyAttnums(table)|
    ensures |Key(table, row)| == |KeyAttnums(table)|
    ensures var k := ColumnAt(table.columns, KeyAttnums(table)[i]);
            k < |row| && row[k].Some? && row[k].value.Scalars? && Key(table, row)[i] == Utf8(row[k].value.s)
  {
    hide KeyAttnums;
  }

  // ---- accepted rows -------------------------------------------------------------------------------------------

  ghost predicate RowsRise(table: Table, rows: seq<Row>) {
    forall i, j :: 0 <= i < j < |rows| ==> KeyBefore(Key(table, rows[i]), Key(table, rows[j]))
  }

  /** Rows are accepted exactly when each is, their keys rise strictly in that order, and they fit under the cap. */
  lemma RowsAreAcceptedRising(enums: seq<string>, labels: map<Text, seq<Text>>, cap: nat, table: Table, start: nat, rows: seq<Row>)
    ensures RowsOk(enums, labels, cap, table, start, rows) <==>
            && (forall i :: 0 <= i < |rows| ==> RowOk(enums, labels, table, rows[i]))
            && RowsRise(table, rows)
            && (|rows| > 0 ==> start + |All(PutRow(enums, table.columns), rows)| <= cap)
  {
    hide RowOk, Key, CompareKeys, KeyBefore, All, PutRow;
    if Ascending(table, rows) {
      forall i, j | 0 <= i < j < |rows| ensures KeyBefore(Key(table, rows[i]), Key(table, rows[j])) {
        KeysAreDistinct(table, rows, i, j);
        CompareKeysMeans(Key(table, rows[i]), Key(table, rows[j]));
      }
    }
    if RowsRise(table, rows) {
      forall i | 0 < i < |rows| ensures CompareKeys(Key(table, rows[i - 1]), Key(table, rows[i])).Less? {
        CompareKeysMeans(Key(table, rows[i - 1]), Key(table, rows[i]));
      }
    }
  }
}
