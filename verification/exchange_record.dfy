/** The durable record of an attempt and the durable high-water mark, as JSON: writers and strict readers. */
module ExchangeRecord {
  import opened Wrappers
  import opened ExchangeTypes
  import opened Texts
  import opened ExchangeCanonical
  import opened Fingerprint
  import opened Decimal
  import opened Json

  // ---- writers -------------------------------------------------------------------------------------------------

  function LineToJson(l: CanonicalLine): Json {
    Obj(map[SALE_ITEM_ID := Str(l.saleItemId), REPLACEMENT_VARIANT_ID := Str(l.replacementVariantId),
            RETURN_QUANTITY := Str(Show(l.returnQuantity))])
  }

  function WatermarkToJson(w: Watermark): Json {
    Obj(map[SALE_ITEM_ID := Str(w.saleItemId), EXCHANGED_QUANTITY_BEFORE := Str(Show(w.before)),
            EXPECTED_EXCHANGED_QUANTITY_AFTER := Str(Show(w.after))])
  }

  function PayloadToJson(p: Payload): Json {
    Obj(map[REASON := Str(p.reason),
            LINES := Arr(seq(|p.lines|, i requires 0 <= i < |p.lines| => LineToJson(p.lines[i])))])
  }

  function WatermarksToJson(w: seq<Watermark>): Json {
    Arr(seq(|w|, i requires 0 <= i < |w| => WatermarkToJson(w[i])))
  }

  function StatusText(s: Status): string {
    match s
    case SENDING => "SENDING"
    case UNCERTAIN => "UNCERTAIN"
    case CONFIRMED => "CONFIRMED"
    case REJECTED => "REJECTED"
  }

  function BaseFields(r: Record): map<Name, Json> {
    map[V := Num(1.0), USER_ID := Str(r.userId), BRANCH_ID := Str(r.branchId), SALE_ID := Str(r.saleId),
        PAYLOAD := PayloadToJson(r.payload), WATERMARKS := WatermarksToJson(r.watermarks),
        FINGERPRINT := Str(r.fingerprint), IDEMPOTENCY_KEY := Str(r.key), STATUS := Str(StatusText(r.status))]
  }

  /** What is written: a tombstone also carries what the server answered and when. */
  function RecordToJson(r: Record): Json {
    if r.status.CONFIRMED? then
      Obj(BaseFields(r) + map[
            EXCHANGE_ID := if r.exchangeId.Some? then Str(r.exchangeId.value) else Null,
            CONFIRMED_AT := if r.confirmedAt.Some? then Num(r.confirmedAt.value as real) else Null])
    else Obj(BaseFields(r))
  }

  // ---- strict readers ------------------------------------------------------------------------------------------

  const BASE_NAMES: set<Name> :=
    {BRANCH_ID, FINGERPRINT, IDEMPOTENCY_KEY, PAYLOAD, SALE_ID, STATUS, USER_ID, V, WATERMARKS}

  predicate IsShortText(s: string) {
    0 < Utf16Length(s) <= 128
  }

  function ParseLine(j: Json): (r: Option<CanonicalLine>) {
    if !HasExactNames(j, {REPLACEMENT_VARIANT_ID, RETURN_QUANTITY, SALE_ITEM_ID}) then None
    else
      var item, variant, quantity := j.fields[SALE_ITEM_ID], j.fields[REPLACEMENT_VARIANT_ID], j.fields[RETURN_QUANTITY];
      if !item.Str? || !IsUuid(item.text) || Lower(item.text) != item.text then None
      else if !variant.Str? || !IsUuid(variant.text) || Lower(variant.text) != variant.text then None
      else if !quantity.Str? || !IsQuantityText(quantity.text) then None
      else Some(CanonicalLine(item.text, variant.text, Value(quantity.text)))
  }

  predicate IsWatermarkText(s: string) {
    IsNatural(s) && |s| <= WATERMARK_DIGITS
  }

  predicate IsBaselineText(s: string) {
    IsNatural(s) && |s| <= QUANTITY_DIGITS
  }

  function ParseWatermark(j: Json, line: CanonicalLine): Option<Watermark> {
    if !HasExactNames(j, {EXCHANGED_QUANTITY_BEFORE, EXPECTED_EXCHANGED_QUANTITY_AFTER, SALE_ITEM_ID}) then None
    else
      var item, before, after := j.fields[SALE_ITEM_ID], j.fields[EXCHANGED_QUANTITY_BEFORE], j.fields[EXPECTED_EXCHANGED_QUANTITY_AFTER];
      if item != Str(line.saleItemId) then None
      else if !before.Str? || !IsBaselineText(before.text) then None
      else if !after.Str? || !IsWatermarkText(after.text) then None
      else if Value(after.text) != Value(before.text) + line.returnQuantity then None
      else Some(Watermark(line.saleItemId, Value(before.text), Value(after.text)))
  }

  /** The lines of a prefix of the array, as far as they all parse. */
  function ParseLines(items: seq<Json>): (r: Option<seq<CanonicalLine>>)
    ensures r.Some? ==> |r.value| == |items|
  {
    if |items| == 0 then Some([])
    else
      var front := ParseLines(items[..|items| - 1]);
      var last := ParseLine(items[|items| - 1]);
      if front.None? || last.None? then None else Some(front.value + [last.value])
  }

  function ParseWatermarks(items: seq<Json>, lines: seq<CanonicalLine>): (r: Option<seq<Watermark>>)
    requires |items| == |lines|
    ensures r.Some? ==> |r.value| == |items|
  {
    if |items| == 0 then Some([])
    else
      var n := |items| - 1;
      var front := ParseWatermarks(items[..n], lines[..n]);
      var last := ParseWatermark(items[n], lines[n]);
      if front.None? || last.None? then None else Some(front.value + [last.value])
  }

  function ParsePayload(j: Json): Option<Payload> {
    if !HasExactNames(j, {LINES, REASON}) then None
    else
      var reason, items := j.fields[REASON], j.fields[LINES];
      if !reason.Str? || Trim(reason.text) != reason.text then None
      else if Utf16Length(reason.text) < 1 || Utf16Length(reason.text) > REASON_MAX then None
      else if !items.Arr? || |items.items| < 1 || |items.items| > LINES_MAX then None
      else
        var lines := ParseLines(items.items);
        if lines.None? || !StrictlyAscending(lines.value) then None else Some(Payload(reason.text, lines.value))
  }

  function ParseStatus(j: Json): Option<Status> {
    if j == Str("SENDING") then Some(SENDING)
    else if j == Str("UNCERTAIN") then Some(UNCERTAIN)
    else if j == Str("CONFIRMED") then Some(CONFIRMED)
    else None
  }

  predicate HeaderOk(f: map<Name, Json>)
    requires BASE_NAMES <= f.Keys
  {
    && f[V] == Num(1.0)
    && f[USER_ID].Str? && IsShortText(f[USER_ID].text)
    && f[BRANCH_ID].Str? && IsShortText(f[BRANCH_ID].text)
    && f[SALE_ID].Str? && IsUuid(f[SALE_ID].text)
    && f[IDEMPOTENCY_KEY].Str? && IsUuidV4(f[IDEMPOTENCY_KEY].text)
    && f[FINGERPRINT].Str?
  }

  predicate TombstoneOk(f: map<Name, Json>)
    requires {EXCHANGE_ID, CONFIRMED_AT} <= f.Keys
  {
    && f[EXCHANGE_ID].Str? && IsUuid(f[EXCHANGE_ID].text)
    && f[CONFIRMED_AT].Num? && IsSafeInteger(f[CONFIRMED_AT].number) && f[CONFIRMED_AT].number > 0.0
  }

  function NamesFor(s: Status): set<Name> {
    if s.CONFIRMED? then BASE_NAMES + {CONFIRMED_AT, EXCHANGE_ID} else BASE_NAMES
  }

  /** Anything that is not exactly what this module writes is refused. */
  function ParsePersisted(j: Json): Option<Record> {
    if !j.Obj? || STATUS !in j.fields then None
    else
      var f := j.fields;
      var status := ParseStatus(f[STATUS]);
      if status.None? || f.Keys != NamesFor(status.value) then None
      else if !HeaderOk(f) || (status.value.CONFIRMED? && !TombstoneOk(f)) then None
      else
        var payload := ParsePayload(f[PAYLOAD]);
        if payload.None? || !f[WATERMARKS].Arr? || |f[WATERMARKS].items| != |payload.value.lines| then None
        else
          var marks := ParseWatermarks(f[WATERMARKS].items, payload.value.lines);
          if marks.None? || FingerprintOf(f[SALE_ID].text, payload.value, marks.value) != f[FINGERPRINT].text then None
          else Some(Record(
                      f[USER_ID].text, f[BRANCH_ID].text, f[SALE_ID].text, payload.value, marks.value, f[FINGERPRINT].text,
                      f[IDEMPOTENCY_KEY].text, status.value,
                      if status.value.CONFIRMED? then Some(f[EXCHANGE_ID].text) else None,
                      if status.value.CONFIRMED? then Some(f[CONFIRMED_AT].number.Floor) else None))
  }

  // ---- which records survive the round trip --------------------------------------------------------------------

  predicate WellFormedPayload(p: Payload) {
    && Trim(p.reason) == p.reason && 1 <= Utf16Length(p.reason) <= REASON_MAX
    && 1 <= |p.lines| <= LINES_MAX
    && (forall i :: 0 <= i < |p.lines| ==> ValidCanonicalLine(p.lines[i]))
    && StrictlyAscending(p.lines)
  }

  predicate WellFormedWatermarks(p: Payload, w: seq<Watermark>) {
    && Matches(p, w)
    && forall i :: 0 <= i < |w| ==> IsBaseline(w[i].before) && IsWatermarkQuantity(w[i].after)
  }

  /** A tombstone says which exchange was confirmed and when; an open attempt says neither. */
  predicate TombstoneFits(r: Record) {
    if r.status.CONFIRMED? then
      && r.exchangeId.Some? && IsUuid(r.exchangeId.value)
      && r.confirmedAt.Some? && 0 < r.confirmedAt.value <= MAX_SAFE_INTEGER
    else r.exchangeId.None? && r.confirmedAt.None?
  }

  predicate Persistable(r: Record) {
    && !r.status.REJECTED?
    && IsShortText(r.userId) && IsShortText(r.branchId) && IsUuid(r.saleId) && IsUuidV4(r.key)
    && TombstoneFits(r)
    && WellFormedPayload(r.payload) && WellFormedWatermarks(r.payload, r.watermarks)
    && r.fingerprint == FingerprintOf(r.saleId, r.payload, r.watermarks)
  }

  lemma QuantityText(s: string, k: nat)
    requires IsNatural(s) && k >= 1
    ensures Show(Value(s)) == s && (|s| <= k <==> Value(s) < Pow10(k)) && (s[0] != '0' <==> Value(s) > 0)
  {
    ReadShows(s);
    DigitCount(s, k);
    if s[0] != '0' {
      PositiveValue(s);
    } else {
      assert s[..0] == "";
    }
  }

  lemma QuantityShown(n: nat, k: nat)
    requires k >= 1
    ensures IsNatural(Show(n)) && Value(Show(n)) == n
    ensures (|Show(n)| <= k <==> n < Pow10(k)) && (Show(n)[0] != '0' <==> n > 0)
  {
    ShowReads(n);
    QuantityText(Show(n), k);
  }

  lemma LineRoundTrip(j: Json, l: CanonicalLine)
    ensures ParseLine(j) == Some(l) <==> j == LineToJson(l) && ValidCanonicalLine(l)
  {
    QuantityShown(l.returnQuantity, QUANTITY_DIGITS);
    if ParseLine(j) == Some(l) {
      QuantityText(j.fields[RETURN_QUANTITY].text, QUANTITY_DIGITS);
      assert j.fields == LineToJson(l).fields;
    }
  }

  predicate GoodWatermark(w: Watermark, line: CanonicalLine) {
    && w.saleItemId == line.saleItemId && w.after == w.before + line.returnQuantity
    && IsBaseline(w.before) && IsWatermarkQuantity(w.after)
  }

  lemma WatermarkWritten(line: CanonicalLine, w: Watermark)
    requires GoodWatermark(w, line)
    ensures ParseWatermark(WatermarkToJson(w), line) == Some(w)
  {
    QuantityShown(w.before, QUANTITY_DIGITS);
    QuantityShown(w.after, WATERMARK_DIGITS);
    var f := WatermarkToJson(w).fields;
    assert f.Keys == {EXCHANGED_QUANTITY_BEFORE, EXPECTED_EXCHANGED_QUANTITY_AFTER, SALE_ITEM_ID};
    assert f[EXCHANGED_QUANTITY_BEFORE] == Str(Show(w.before));
  }

  lemma WatermarkAccepted(j: Json, line: CanonicalLine, w: Watermark)
    requires ParseWatermark(j, line) == Some(w)
    ensures j == WatermarkToJson(w) && GoodWatermark(w, line)
  {
    QuantityText(j.fields[EXCHANGED_QUANTITY_BEFORE].text, QUANTITY_DIGITS);
    QuantityText(j.fields[EXPECTED_EXCHANGED_QUANTITY_AFTER].text, WATERMARK_DIGITS);
    assert j.fields == WatermarkToJson(w).fields;
  }

  lemma {:induction false} LinesRoundTrip(items: seq<Json>, lines: seq<CanonicalLine>)
    ensures ParseLines(items) == Some(lines) <==>
            |items| == |lines| && forall i :: 0 <= i < |lines| ==> items[i] == LineToJson(lines[i]) && ValidCanonicalLine(lines[i])
  {
    hide ParseLine, LineToJson, ValidCanonicalLine;
    if |items| == |lines| && |items| > 0 {
      var n := |items| - 1;
      LinesRoundTrip(items[..n], lines[..n]);
      LineRoundTrip(items[n], lines[n]);
      assert lines == lines[..n] + [lines[n]];
      if ParseLines(items) == Some(lines) {
        assert (ParseLines(items[..n]).value + [ParseLine(items[n]).value])[..n] == ParseLines(items[..n]).value;
      }
    }
  }

  lemma {:induction false} WatermarksWritten(items: seq<Json>, lines: seq<CanonicalLine>, marks: seq<Watermark>)
    requires |items| == |lines| == |marks|
    requires forall i :: 0 <= i < |marks| ==> items[i] == WatermarkToJson(marks[i]) && GoodWatermark(marks[i], lines[i])
    ensures ParseWatermarks(items, lines) == Some(marks)
  {
    hide ParseWatermark, WatermarkToJson, GoodWatermark;
    if |items| > 0 {
      var n := |items| - 1;
      WatermarksWritten(items[..n], lines[..n], marks[..n]);
      WatermarkWritten(lines[n], marks[n]);
      assert marks == marks[..n] + [marks[n]];
    }
  }

  lemma {:induction false} WatermarksAccepted(items: seq<Json>, lines: seq<CanonicalLine>, marks: seq<Watermark>)
    requires |items| == |lines|
    requires ParseWatermarks(items, lines) == Some(marks)
    ensures |marks| == |items|
    ensures forall i :: 0 <= i < |marks| ==> items[i] == WatermarkToJson(marks[i]) && GoodWatermark(marks[i], lines[i])
  {
    hide ParseWatermark, WatermarkToJson, GoodWatermark;
    if |items| > 0 {
      var n := |items| - 1;
      var front := ParseWatermarks(items[..n], lines[..n]).value;
      WatermarksAccepted(items[..n], lines[..n], front);
      WatermarkAccepted(items[n], lines[n], marks[n]);
    }
  }

  lemma PayloadRoundTrip(j: Json, p: Payload)
    ensures ParsePayload(j) == Some(p) <==> j == PayloadToJson(p) && WellFormedPayload(p)
  {
    hide ParseLines, StrictlyAscending, Utf16Length;
    if ParsePayload(j) == Some(p) {
      LinesRoundTrip(j.fields[LINES].items, p.lines);
      assert j.fields[LINES].items == PayloadToJson(p).fields[LINES].items;
      assert j.fields == PayloadToJson(p).fields;
    }
    if j == PayloadToJson(p) && WellFormedPayload(p) {
      LinesRoundTrip(j.fields[LINES].items, p.lines);
    }
  }

  lemma MarksRoundTrip(items: seq<Json>, p: Payload, w: seq<Watermark>)
    requires |items| == |p.lines|
    ensures ParseWatermarks(items, p.lines) == Some(w) <==> Arr(items) == WatermarksToJson(w) && WellFormedWatermarks(p, w)
  {
    hide ParseWatermarks;
    if ParseWatermarks(items, p.lines) == Some(w) {
      WatermarksAccepted(items, p.lines, w);
      assert items == WatermarksToJson(w).items;
    }
    if Arr(items) == WatermarksToJson(w) && WellFormedWatermarks(p, w) {
      WatermarksWritten(items, p.lines, w);
    }
  }

  lemma SafeIntegers(n: int)
    ensures IsSafeInteger(n as real) <==> -MAX_SAFE_INTEGER <= n <= MAX_SAFE_INTEGER
    ensures (n as real).Floor == n
  {
  }

  /** The strict reader accepts exactly what the writer produces from a persistable record, and returns that record. */
  lemma StrictReaderIsExact(j: Json, r: Record)
    ensures ParsePersisted(j) == Some(r) <==> j == RecordToJson(r) && Persistable(r)
  {
    if ParsePersisted(j) == Some(r) {
      AcceptedWasWritten(j, r);
    }
    if j == RecordToJson(r) && Persistable(r) {
      WrittenIsAccepted(r);
    }
  }

  lemma WrittenBase(r: Record)
    ensures var f := BaseFields(r);
            && f.Keys == BASE_NAMES
            && f[V] == Num(1.0) && f[USER_ID] == Str(r.userId) && f[BRANCH_ID] == Str(r.branchId) && f[SALE_ID] == Str(r.saleId)
            && f[PAYLOAD] == PayloadToJson(r.payload) && f[WATERMARKS] == WatermarksToJson(r.watermarks)
            && f[FINGERPRINT] == Str(r.fingerprint) && f[IDEMPOTENCY_KEY] == Str(r.key) && f[STATUS] == Str(StatusText(r.status))
  {
    hide PayloadToJson, WatermarksToJson;
  }

  lemma WrittenNames(r: Record)
    ensures RecordToJson(r).Obj? && RecordToJson(r).fields.Keys == NamesFor(r.status)
  {
    WrittenBase(r);
    hide BaseFields;
  }

  lemma WrittenFields(r: Record)
    requires RecordToJson(r).fields.Keys == NamesFor(r.status)
    ensures forall name :: name in BASE_NAMES ==> RecordToJson(r).fields[name] == BaseFields(r)[name]
    ensures r.status.CONFIRMED? ==>
              var f := RecordToJson(r).fields;
              && f[EXCHANGE_ID] == (if r.exchangeId.Some? then Str(r.exchangeId.value) else Null)
              && f[CONFIRMED_AT] == (if r.confirmedAt.Some? then Num(r.confirmedAt.value as real) else Null)
  {
    WrittenBase(r);
    hide BaseFields;
  }

  lemma WrittenIsAccepted(r: Record)
    requires Persistable(r)
    ensures ParsePersisted(RecordToJson(r)) == Some(r)
  {
    hide BaseFields, ParsePayload, ParseWatermarks, FingerprintOf, WellFormedPayload, RecordToJson, PayloadToJson, ValidCanonicalLine, IsShortText, IsUuid, IsUuidV4, Utf16Length;
    WrittenNames(r);
    WrittenFields(r);
    WrittenBase(r);
    var f := RecordToJson(r).fields;
    PayloadRoundTrip(f[PAYLOAD], r.payload);
    MarksRoundTrip(f[WATERMARKS].items, r.payload, r.watermarks);
    if r.status.CONFIRMED? {
      SafeIntegers(r.confirmedAt.value);
    }
  }

  lemma AcceptedWasWritten(j: Json, r: Record)
    requires ParsePersisted(j) == Some(r)
    ensures j == RecordToJson(r) && Persistable(r)
  {
    hide BaseFields, ParsePayload, ParseWatermarks, FingerprintOf, WellFormedPayload, WellFormedWatermarks, IsUuid, IsUuidV4, Utf16Length;
    var f := j.fields;
    PayloadRoundTrip(f[PAYLOAD], r.payload);
    MarksRoundTrip(f[WATERMARKS].items, r.payload, r.watermarks);
    WrittenNames(r);
    WrittenFields(r);
    WrittenBase(r);
    if r.status.CONFIRMED? {
      SafeIntegers(r.confirmedAt.value);
    }
    var g := RecordToJson(r).fields;
    assert f.Keys == g.Keys;
    forall k | k in f ensures f[k] == g[k] {
      assert k in BASE_NAMES || k in {CONFIRMED_AT, EXCHANGE_ID};
    }
    assert f == g;
  }

  // ---- what a write leaves behind ------------------------------------------------------------------------------

  lemma LineJsonIsInjective(a: CanonicalLine, b: CanonicalLine)
    requires LineToJson(a) == LineToJson(b)
    ensures a == b
  {
    var f, g := LineToJson(a).fields, LineToJson(b).fields;
    assert f[SALE_ITEM_ID] == g[SALE_ITEM_ID] && f[REPLACEMENT_VARIANT_ID] == g[REPLACEMENT_VARIANT_ID];
    assert f[RETURN_QUANTITY] == g[RETURN_QUANTITY];
    ShowReads(a.returnQuantity);
    ShowReads(b.returnQuantity);
  }

  lemma WatermarkJsonIsInjective(a: Watermark, b: Watermark)
    requires WatermarkToJson(a) == WatermarkToJson(b)
    ensures a == b
  {
    var f, g := WatermarkToJson(a).fields, WatermarkToJson(b).fields;
    assert f[SALE_ITEM_ID] == g[SALE_ITEM_ID] && f[EXCHANGED_QUANTITY_BEFORE] == g[EXCHANGED_QUANTITY_BEFORE];
    assert f[EXPECTED_EXCHANGED_QUANTITY_AFTER] == g[EXPECTED_EXCHANGED_QUANTITY_AFTER];
    ShowReads(a.before);
    ShowReads(b.before);
    ShowReads(a.after);
    ShowReads(b.after);
  }

  lemma PayloadJsonIsInjective(a: Payload, b: Payload)
    requires PayloadToJson(a) == PayloadToJson(b)
    ensures a == b
  {
    var f, g := PayloadToJson(a).fields, PayloadToJson(b).fields;
    assert f[REASON] == g[REASON] && f[LINES] == g[LINES];
    assert |a.lines| == |f[LINES].items| == |b.lines|;
    forall i | 0 <= i < |a.lines| ensures a.lines[i] == b.lines[i] {
      assert f[LINES].items[i] == LineToJson(a.lines[i]) && g[LINES].items[i] == LineToJson(b.lines[i]);
      LineJsonIsInjective(a.lines[i], b.lines[i]);
    }
  }

  lemma WatermarksJsonIsInjective(a: seq<Watermark>, b: seq<Watermark>)
    requires WatermarksToJson(a) == WatermarksToJson(b)
    ensures a == b
  {
    assert |a| == |WatermarksToJson(a).items| == |b|;
    forall i | 0 <= i < |a| ensures a[i] == b[i] {
      assert WatermarksToJson(a).items[i] == WatermarkToJson(a[i]) && WatermarksToJson(b).items[i] == WatermarkToJson(b[i]);
      WatermarkJsonIsInjective(a[i], b[i]);
    }
  }

  /** What the store can hand to the writer: a status other than REJECTED, and answer fields only on a tombstone. */
  predicate Writable(r: Record) {
    && !r.status.REJECTED?
    && (!r.status.CONFIRMED? ==> r.exchangeId.None? && r.confirmedAt.None?)
  }

  /** A written record reads back as itself or as nothing; Persistable alone decides which. */
  lemma ReadBack(r: Record)
    requires Writable(r)
    ensures ParsePersisted(RecordToJson(r)) == if Persistable(r) then Some(r) else None
  {
    var read := ParsePersisted(RecordToJson(r));
    if Persistable(r) {
      WrittenIsAccepted(r);
    } else if read.Some? {
      AcceptedWasWritten(RecordToJson(r), read.value);
      WriterIsInjective(r, read.value);
      assert false;
    }
  }

  lemma WriterIsInjective(a: Record, b: Record)
    requires Writable(a) && Writable(b) && (b.status.CONFIRMED? ==> b.exchangeId.Some? && b.confirmedAt.Some?)
    requires RecordToJson(a) == RecordToJson(b)
    ensures a == b
  {
    hide BaseFields, PayloadToJson, WatermarksToJson;
    WrittenNames(a);
    WrittenNames(b);
    WrittenFields(a);
    WrittenFields(b);
    WrittenBase(a);
    WrittenBase(b);
    PayloadJsonIsInjective(a.payload, b.payload);
    WatermarksJsonIsInjective(a.watermarks, b.watermarks);
    assert a.status == b.status;
    if a.status.CONFIRMED? {
      var f, g := RecordToJson(a).fields, RecordToJson(b).fields;
      assert f[EXCHANGE_ID] == g[EXCHANGE_ID] && f[CONFIRMED_AT] == g[CONFIRMED_AT];
      SafeIntegers(b.confirmedAt.value);
      if a.confirmedAt.Some? {
        SafeIntegers(a.confirmedAt.value);
      }
    }
  }

  // ---- the high-water mark -------------------------------------------------------------------------------------

  function MarkLinesToJson(lines: map<string, nat>): Json {
    Obj(map id | id in lines :: Named(id) := Str(Show(lines[id])))
  }

  function MarkToJson(userId: string, saleId: string, lines: map<string, nat>): Json {
    Obj(map[V := Num(1.0), USER_ID := Str(userId), SALE_ID := Str(Lower(saleId)), LINES := MarkLinesToJson(lines)])
  }

  predicate MarkLineOk(name: Name, value: Json) {
    && IsUuid(TextOf(name)) && Lower(TextOf(name)) == TextOf(name)
    && value.Str? && IsWatermarkText(value.text)
  }

  /** Canonical quantities by lower-case item id, about exactly this user and sale. */
  function ParseMark(j: Json, userId: string, saleId: string): Option<map<string, nat>> {
    if !HasExactNames(j, {LINES, SALE_ID, USER_ID, V}) then None
    else
      var f := j.fields;
      if f[V] != Num(1.0) || f[USER_ID] != Str(userId) || f[SALE_ID] != Str(Lower(saleId)) || !f[LINES].Obj? then None
      else ParseMarkLines(f[LINES].fields)
  }

  function ParseMarkLines(entries: map<Name, Json>): Option<map<string, nat>> {
    if entries == map[] || exists name :: name in entries && !MarkLineOk(name, entries[name]) then None
    else
      var ids := set name | name in entries :: TextOf(name);
      Some(map id | id in ids && Named(id) in entries && MarkLineOk(Named(id), entries[Named(id)]) :: Value(entries[Named(id)].text))
  }

  predicate ReadableMark(lines: map<string, nat>) {
    lines != map[] && forall id :: id in lines ==> IsUuid(id) && Lower(id) == id && IsWatermarkQuantity(lines[id])
  }

  lemma MarkEntry(lines: map<string, nat>, id: string)
    requires id in lines
    ensures var entries := MarkLinesToJson(lines).fields;
            && Named(id) in entries && entries[Named(id)] == Str(Show(lines[id])) && IsNatural(Show(lines[id]))
            && Value(Show(lines[id])) == lines[id]
            && (MarkLineOk(Named(id), entries[Named(id)]) <==> IsUuid(id) && Lower(id) == id && IsWatermarkQuantity(lines[id]))
  {
    QuantityShown(lines[id], WATERMARK_DIGITS);
    hide IsUuid, Lower, Named, TextOf;
  }

  lemma EntriesAreNamed(lines: map<string, nat>)
    ensures MarkLinesToJson(lines).Obj?
    ensures var entries := MarkLinesToJson(lines).fields;
            && (forall name :: name in entries <==> TextOf(name) in lines && name == Named(TextOf(name)))
            && (set name | name in entries :: TextOf(name)) == lines.Keys
  {
    hide Named, TextOf, Show;
    var entries := MarkLinesToJson(lines).fields;
    forall id | id in lines ensures id in (set name | name in entries :: TextOf(name)) {
      assert Named(id) in entries && TextOf(Named(id)) == id;
    }
  }

  lemma MarkLinesReadBack(lines: map<string, nat>)
    requires ReadableMark(lines)
    ensures ParseMarkLines(MarkLinesToJson(lines).fields) == Some(lines)
  {
    hide IsUuid, Lower, Show, Named, TextOf, MarkLinesToJson;
    EntriesAreNamed(lines);
    var entries := MarkLinesToJson(lines).fields;
    forall id | id in lines
      ensures Named(id) in entries && MarkLineOk(Named(id), entries[Named(id)]) && Value(entries[Named(id)].text) == lines[id]
    {
      MarkEntry(lines, id);
    }
    var any :| any in lines;
    assert Named(any) in entries;
    assert ParseMarkLines(entries).value == lines;
  }

  lemma BadMarkLines(lines: map<string, nat>, id: string)
    requires id in lines && !(IsUuid(id) && Lower(id) == id && IsWatermarkQuantity(lines[id]))
    ensures ParseMarkLines(MarkLinesToJson(lines).fields).None?
  {
    MarkEntry(lines, id);
    hide IsUuid, Lower, Show, Named, TextOf;
    assert !MarkLineOk(Named(id), MarkLinesToJson(lines).fields[Named(id)]);
  }

  lemma MarkHeaderReads(userId: string, saleId: string, lines: map<string, nat>)
    ensures MarkLinesToJson(lines).Obj?
    ensures ParseMark(MarkToJson(userId, saleId, lines), userId, saleId) == ParseMarkLines(MarkLinesToJson(lines).fields)
  {
    EntriesAreNamed(lines);
    hide ParseMarkLines, MarkLinesToJson, Lower, Named, TextOf;
    var f := MarkToJson(userId, saleId, lines).fields;
    assert f.Keys == {LINES, SALE_ID, USER_ID, V};
    assert f[V] == Num(1.0) && f[USER_ID] == Str(userId) && f[SALE_ID] == Str(Lower(saleId)) && f[LINES] == MarkLinesToJson(lines);
  }

  /** A written mark reads back as itself, unless one of its entries is not one this module would read. */
  lemma MarkReadBack(userId: string, saleId: string, lines: map<string, nat>)
    requires lines != map[]
    ensures ParseMark(MarkToJson(userId, saleId, lines), userId, saleId) == if ReadableMark(lines) then Some(lines) else None
  {
    hide ParseMark, MarkToJson, ParseMarkLines, MarkLinesToJson, Lower, IsUuid, IsWatermarkQuantity;
    MarkHeaderReads(userId, saleId, lines);
    if ReadableMark(lines) {
      MarkLinesReadBack(lines);
    } else {
      var id :| id in lines && !(IsUuid(id) && Lower(id) == id && IsWatermarkQuantity(lines[id]));
      BadMarkLines(lines, id);
    }
  }
}
