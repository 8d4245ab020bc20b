/** The encoding of one value, the conditions under which the writer accepts it, and the reader that undoes it. */
module StateFields {
  import opened Wrappers
  import opened Bytes
  import opened Decimal
  import opened StateTypes

  const INT32_LIMIT: nat := 0x8000_0000
  const INT64_LIMIT: nat := 0x8000_0000_0000_0000
  const ZEROS: bytes := [0, 0, 0, 0, 0, 0, 0, 0]

  predicate InRange(t: Text, limit: nat) {
    t.Scalars? && IsInteger(t.s) && -(limit as int) <= SignedValue(t.s) < limit
  }

  function Number(t: Text): int {
    if t.Scalars? && IsInteger(t.s) then SignedValue(t.s) else 0
  }

  function Utf8Of(t: Text): bytes {
    if t.Scalars? then Utf8(t.s) else []
  }

  function Tag(ft: FieldType): Byte {
    match ft
    case TextField => 1
    case Int4 => 2
    case Int8 => 3
    case BoolField => 4
    case Tstz => 5
    case EnumField => 6
    case Jsonb => 7
  }

  function Instant(t: Text): bytes {
    if t == Scalars("+infinity") then [2] + ZEROS
    else if t == Scalars("-infinity") then [3] + ZEROS
    else [1] + Signed(8, Number(t))
  }

  function Ordinal(enums: seq<string>, enumType: Option<string>): nat {
    if enumType.Some? && enumType.value in enums then IndexOf(enums, enumType.value) else 0
  }

  function Payload(enums: seq<string>, ft: FieldType, enumType: Option<string>, t: Text): bytes {
    match ft
    case TextField => Utf8Of(t)
    case Int4 => Signed(4, Number(t))
    case Int8 => Signed(8, Number(t))
    case BoolField => Flag(t == Scalars("true"))
    case Tstz => Instant(t)
    case EnumField => U16(Ordinal(enums, enumType)) + Str(t)
    case Jsonb => Utf8Of(t)
  }

  function FieldBytes(enums: seq<string>, ft: FieldType, enumType: Option<string>, cell: Cell): bytes {
    if cell.None? then [0] else [1, Tag(ft)] + Prefixed(Payload(enums, ft, enumType, cell.value))
  }

  predicate EnumOk(enums: seq<string>, labels: map<Text, seq<Text>>, enumType: Option<string>, t: Text) {
    && enumType.Some?
    && enumType.value in enums
    && IndexOf(enums, enumType.value) < 0x1_0000
    && Scalars(enumType.value) in labels
    && t in labels[Scalars(enumType.value)]
    && TextOk(t)
    && |Str(t)| + 2 <= MAX_LENGTH
  }

  /** Exactly the values the writer does not refuse. */
  predicate FieldOk(enums: seq<string>, labels: map<Text, seq<Text>>, ft: FieldType, enumType: Option<string>, cell: Cell) {
    cell.Some? ==>
      var t := cell.value;
      match ft
      case TextField => TextOk(t)
      case Int4 => InRange(t, INT32_LIMIT)
      case Int8 => InRange(t, INT64_LIMIT)
      case BoolField => t == Scalars("true") || t == Scalars("false")
      case Tstz => t == Scalars("+infinity") || t == Scalars("-infinity") || InRange(t, INT64_LIMIT)
      case EnumField => EnumOk(enums, labels, enumType, t)
      case Jsonb => TextOk(t)
  }

  // ---- reading back --------------------------------------------------------------------------------------------

  function GetText(p: bytes): Option<Text> {
    var s :- FromUtf8(p);
    Some(Scalars(s))
  }

  function GetInstant(p: bytes): Option<Text> {
    if |p| != 9 then None
    else if p[0] == 2 then Some(Scalars("+infinity"))
    else if p[0] == 3 then Some(Scalars("-infinity"))
    else Some(Scalars(ShowSigned(SignedOf(p[1..]))))
  }

  function GetLabel(p: bytes): Option<Text> {
    var (_, rest) :- GetUnsigned(2, p);
    var (t, _) :- GetStr(rest);
    Some(t)
  }

  function GetPayload(ft: FieldType, p: bytes): Option<Text> {
    match ft
    case TextField => GetText(p)
    case Int4 => Some(Scalars(ShowSigned(SignedOf(p))))
    case Int8 => Some(Scalars(ShowSigned(SignedOf(p))))
    case BoolField => Some(Scalars(if p == [1] then "true" else "false"))
    case Tstz => GetInstant(p)
    case EnumField => GetLabel(p)
    case Jsonb => GetText(p)
  }

  function GetField(ft: FieldType, b: bytes): Option<(Cell, bytes)> {
    var (present, body) :- GetFlag(b);
    if !present then Some((None, body))
    else
      var (tag, framed) :- GetByte(body);
      var (p, rest) :- GetPrefixed(framed);
      if tag != Tag(ft) then None
      else
        var t :- GetPayload(ft, p);
        Some((Some(t), rest))
  }

  lemma IntegerReads(t: Text, k: nat, limit: nat)
    requires k > 0 && InRange(t, limit) && 2 * limit == Pow256(k)
    ensures ShowSigned(SignedOf(Signed(k, Number(t)))) == t.s
  {
    SignedReads(k, Number(t));
    SignedReadShows(t.s);
  }

  lemma InstantReads(t: Text)
    requires t == Scalars("+infinity") || t == Scalars("-infinity") || InRange(t, INT64_LIMIT)
    ensures |Instant(t)| == 9 && GetInstant(Instant(t)) == Some(t)
  {
    if t != Scalars("+infinity") && t != Scalars("-infinity") {
      Powers();
      IntegerReads(t, 8, INT64_LIMIT);
      assert Instant(t)[1..] == Signed(8, Number(t));
    }
  }

  lemma LabelReads(n: nat, t: Text)
    requires n < 0x1_0000 && TextOk(t)
    ensures GetLabel(U16(n) + Str(t)) == Some(t)
  {
    Powers();
    UnsignedFits(2, n, Str(t));
    StrReads(t, []);
    assert Str(t) + [] == Str(t);
  }

  lemma PayloadReads(enums: seq<string>, labels: map<Text, seq<Text>>, ft: FieldType, enumType: Option<string>, t: Text)
    requires FieldOk(enums, labels, ft, enumType, Some(t))
    ensures |Payload(enums, ft, enumType, t)| <= MAX_LENGTH
    ensures GetPayload(ft, Payload(enums, ft, enumType, t)) == Some(t)
  {
    hide FromUtf8, Utf8, GetStr, Signed, SignedOf, ShowSigned, SignedValue, IsInteger, GetInstant, Instant, GetLabel;
    match ft {
      case TextField => Utf8Reads(t.s);
      case Jsonb => Utf8Reads(t.s);
      case Int4 => Powers(); IntegerReads(t, 4, INT32_LIMIT); SignedLength(4, Number(t));
      case Int8 => Powers(); IntegerReads(t, 8, INT64_LIMIT); SignedLength(8, Number(t));
      case BoolField =>
      case Tstz => InstantReads(t);
      case EnumField => LabelReads(Ordinal(enums, enumType), t);
    }
  }

  lemma SignedLength(k: nat, v: int)
    ensures |Signed(k, v)| == k
  {
  }

  /** A value is read back exactly as it was written, whatever follows it. */
  lemma FieldReads(enums: seq<string>, labels: map<Text, seq<Text>>, ft: FieldType, enumType: Option<string>, cell: Cell, rest: bytes)
    requires FieldOk(enums, labels, ft, enumType, cell)
    ensures GetField(ft, FieldBytes(enums, ft, enumType, cell) + rest) == Some((cell, rest))
  {
    hide FieldOk, Payload, GetPayload, GetPrefixed, Prefixed;
    var b := FieldBytes(enums, ft, enumType, cell) + rest;
    if cell.None? {
      assert b[1..] == rest;
    } else {
      PayloadReads(enums, labels, ft, enumType, cell.value);
      var p := Prefixed(Payload(enums, ft, enumType, cell.value));
      assert b[1..][1..] == p + rest;
      PrefixedReads(Payload(enums, ft, enumType, cell.value), rest);
    }
  }
}
