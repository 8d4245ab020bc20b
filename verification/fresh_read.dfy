/** Is the body of GET /sales/exchangeable a trustworthy, fresh read of this sale in this branch? */
module FreshRead {
  import opened Wrappers
  import opened ExchangeTypes
  import opened Texts
  import opened Decimal
  import opened Json
  import opened Sequences

  datatype ReadLine = ReadLine(saleItemId: string, variantId: string, quantity: nat, exchanged: nat, remaining: nat)
  datatype Read = Read(saleId: string, saleNumber: string, branchId: string, status: string, exchangeable: bool, lines: seq<ReadLine>)

  datatype Failure = READ_INVALID | READ_MISMATCH | READ_STALE | NOT_EXCHANGEABLE | NOTHING_LEFT_TO_EXCHANGE

  /** saleId is None when the read is what defines the sale; watermarks is None when there is no confirmed attempt to prove. */
  datatype Expectation = Expectation(saleId: Option<string>, branchId: string, saleNumber: string, watermarks: Option<seq<Watermark>>)

  datatype Mode = OPEN_DRAFT | RECONCILE_CONFIRMED

  // ---- shape ---------------------------------------------------------------------------------------------------

  predicate HasText(j: Json, name: Name) {
    j.Obj? && name in j.fields && j.fields[name].Str? && j.fields[name].text != ""
  }

  predicate HasDecimal(j: Json, name: Name) {
    j.Obj? && name in j.fields && j.fields[name].Str? && IsNatural(j.fields[name].text)
  }

  function DecimalAt(j: Json, name: Name): nat
    requires HasDecimal(j, name)
  {
    Value(j.fields[name].text)
  }

  /** One row: an item, and three quantities of which the remainder is what was sold and not yet exchanged. */
  predicate ValidRow(j: Json) {
    && HasText(j, SALE_ITEM_ID) && IsUuid(j.fields[SALE_ITEM_ID].text)
    && HasText(j, VARIANT_ID)
    && HasDecimal(j, QUANTITY) && HasDecimal(j, EXCHANGED_QUANTITY) && HasDecimal(j, REMAINING_QUANTITY)
    && var sold, taken := DecimalAt(j, QUANTITY), DecimalAt(j, EXCHANGED_QUANTITY);
       DecimalAt(j, REMAINING_QUANTITY) == if sold > taken then sold - taken else 0
  }

  function RowOf(j: Json): ReadLine {
    if ValidRow(j) then
      ReadLine(j.fields[SALE_ITEM_ID].text, j.fields[VARIANT_ID].text, DecimalAt(j, QUANTITY), DecimalAt(j, EXCHANGED_QUANTITY), DecimalAt(j, REMAINING_QUANTITY))
    else ReadLine("", "", 0, 0, 0)
  }

  function ItemOfRead(l: ReadLine): string {
    Lower(l.saleItemId)
  }

  predicate ValidRows(rows: seq<Json>) {
    forall i :: 0 <= i < |rows| ==> ValidRow(rows[i])
  }

  predicate ValidHeader(j: Json) {
    && j.Obj? && SALE in j.fields && EXCHANGEABLE in j.fields && LINES in j.fields
    && j.fields[EXCHANGEABLE].Bool? && j.fields[LINES].Arr?
    && var sale := j.fields[SALE];
       && HasText(sale, ID) && IsUuid(sale.fields[ID].text)
       && HasText(sale, SALE_NUMBER) && HasText(sale, BRANCH_ID) && HasText(sale, STATUS)
  }

  /** The read, when its shape is right and no item appears twice in any spelling. */
  function ParseRead(j: Json): Option<Read> {
    if !ValidHeader(j) then None
    else
      var rows := j.fields[LINES].items;
      var lines := Map(RowOf, rows);
      if !ValidRows(rows) || !Distinct(Map(ItemOfRead, lines)) then None
      else
        var sale := j.fields[SALE].fields;
        Some(Read(sale[ID].text, sale[SALE_NUMBER].text, sale[BRANCH_ID].text, sale[STATUS].text, j.fields[EXCHANGEABLE].value, lines))
  }

  method ReadRows(rows: seq<Json>) returns (r: Option<seq<ReadLine>>)
    ensures r == if ValidRows(rows) && Distinct(Map(ItemOfRead, Map(RowOf, rows))) then Some(Map(RowOf, rows)) else None
  {
    var lines: seq<ReadLine> := [];
    var seen: set<string> := {};
    ghost var items := Map(ItemOfRead, Map(RowOf, rows));
    for i := 0 to |rows|
      invariant |lines| == i && forall j :: 0 <= j < i ==> lines[j] == RowOf(rows[j]) && ValidRow(rows[j])
      invariant seen == set j | 0 <= j < i :: items[j]
      invariant Distinct(items[..i])
    {
      if !ValidRow(rows[i]) { return None; }
      var line := RowOf(rows[i]);
      if ItemOfRead(line) in seen {
        ghost var j :| 0 <= j < i && items[j] == items[i];
        assert !Distinct(items);
        return None;
      }
      seen := seen + {ItemOfRead(line)};
      lines := lines + [line];
    }
    assert items[..|rows|] == items;
    assert lines == Map(RowOf, rows);
    r := Some(lines);
  }

  method ParseFreshRead(j: Json) returns (r: Option<Read>)
    ensures r == ParseRead(j)
  {
    if !ValidHeader(j) { return None; }
    var lines := ReadRows(j.fields[LINES].items);
    if lines.None? { return None; }
    var sale := j.fields[SALE].fields;
    r := Some(Read(sale[ID].text, sale[SALE_NUMBER].text, sale[BRANCH_ID].text, sale[STATUS].text, j.fields[EXCHANGEABLE].value, lines.value));
  }

  // ---- what a parsed read is the read of -----------------------------------------------------------------------

  predicate Has(j: Json, name: Name, value: Json) {
    j.Obj? && name in j.fields && j.fields[name] == value
  }

  /** The row of the body that stands for a line; whatever else it carries is ignored. */
  predicate CarriesRow(j: Json, l: ReadLine) {
    && Has(j, SALE_ITEM_ID, Str(l.saleItemId)) && Has(j, VARIANT_ID, Str(l.variantId))
    && Has(j, QUANTITY, Str(Show(l.quantity))) && Has(j, EXCHANGED_QUANTITY, Str(Show(l.exchanged)))
    && Has(j, REMAINING_QUANTITY, Str(Show(l.remaining)))
  }

  /** The body that stands for a read. */
  predicate Carries(j: Json, r: Read) {
    && Has(j, EXCHANGEABLE, Bool(r.exchangeable))
    && j.Obj? && SALE in j.fields && LINES in j.fields
    && Has(j.fields[SALE], ID, Str(r.saleId)) && Has(j.fields[SALE], SALE_NUMBER, Str(r.saleNumber))
    && Has(j.fields[SALE], BRANCH_ID, Str(r.branchId)) && Has(j.fields[SALE], STATUS, Str(r.status))
    && j.fields[LINES].Arr? && |j.fields[LINES].items| == |r.lines|
    && forall i :: 0 <= i < |r.lines| ==> CarriesRow(j.fields[LINES].items[i], r.lines[i])
  }

  /** Of one item, with what was sold and not exchanged yet left over. */
  predicate LineAddsUp(l: ReadLine) {
    IsUuid(l.saleItemId) && l.variantId != "" && l.remaining == if l.quantity > l.exchanged then l.quantity - l.exchanged else 0
  }

  /** Every line adds up, and no item occurs twice in any spelling. */
  predicate AddsUp(r: Read) {
    && IsUuid(r.saleId) && r.saleNumber != "" && r.branchId != "" && r.status != ""
    && (forall i :: 0 <= i < |r.lines| ==> LineAddsUp(r.lines[i]))
    && forall i, k :: 0 <= i < k < |r.lines| ==> Lower(r.lines[i].saleItemId) != Lower(r.lines[k].saleItemId)
  }

  lemma DecimalIs(j: Json, name: Name, n: nat)
    ensures HasDecimal(j, name) && DecimalAt(j, name) == n <==> Has(j, name, Str(Show(n)))
  {
    ShowReads(n);
    if HasDecimal(j, name) {
      ReadShows(j.fields[name].text);
    }
  }

  lemma UuidIsText(s: string)
    ensures IsUuid(s) ==> s != ""
  {
  }

  lemma RowIsExact(j: Json, l: ReadLine)
    ensures ValidRow(j) && RowOf(j) == l <==> CarriesRow(j, l) && LineAddsUp(l)
  {
    DecimalIs(j, QUANTITY, l.quantity);
    DecimalIs(j, EXCHANGED_QUANTITY, l.exchanged);
    DecimalIs(j, REMAINING_QUANTITY, l.remaining);
    UuidIsText(l.saleItemId);
    hide IsUuid, Show, DecimalAt, HasDecimal;
  }

  /** A body is parsed to a read exactly when it carries that read and the read adds up. */
  lemma ParsedReadIsTheBody(j: Json, r: Read)
    ensures ParseRead(j) == Some(r) <==> Carries(j, r) && AddsUp(r)
  {
    hide ValidRow, RowOf, CarriesRow, LineAddsUp, Lower, IsUuid, Show;
    UuidIsText(r.saleId);
    if j.Obj? && LINES in j.fields && j.fields[LINES].Arr? && |j.fields[LINES].items| == |r.lines| {
      var rows := j.fields[LINES].items;
      assert (ValidRows(rows) && Map(RowOf, rows) == r.lines) <==>
             (forall i :: 0 <= i < |rows| ==> CarriesRow(rows[i], r.lines[i]) && LineAddsUp(r.lines[i])) by {
        RowsAreExact(rows, r.lines);
      }
      DistinctItems(r.lines);
    }
  }

  lemma RowsAreExact(rows: seq<Json>, lines: seq<ReadLine>)
    requires |rows| == |lines|
    ensures (ValidRows(rows) && Map(RowOf, rows) == lines) <==>
            (forall i :: 0 <= i < |rows| ==> CarriesRow(rows[i], lines[i]) && LineAddsUp(lines[i]))
  {
    hide ValidRow, RowOf, CarriesRow, LineAddsUp;
    forall i | 0 <= i < |rows| ensures ValidRow(rows[i]) && RowOf(rows[i]) == lines[i] <==> CarriesRow(rows[i], lines[i]) && LineAddsUp(lines[i]) {
      RowIsExact(rows[i], lines[i]);
    }
    assert Map(RowOf, rows) == lines <==> forall i :: 0 <= i < |rows| ==> RowOf(rows[i]) == lines[i];
  }

  lemma DistinctItems(lines: seq<ReadLine>)
    ensures Distinct(Map(ItemOfRead, lines)) <==>
            forall i, k :: 0 <= i < k < |lines| ==> Lower(lines[i].saleItemId) != Lower(lines[k].saleItemId)
  {
    hide Lower;
    var items := Map(ItemOfRead, lines);
    assert forall i :: 0 <= i < |lines| ==> items[i] == Lower(lines[i].saleItemId);
    if Distinct(items) {
      forall i, k | 0 <= i < k < |lines| ensures Lower(lines[i].saleItemId) != Lower(lines[k].saleItemId) {
        assert items[i] != items[k];
      }
    }
  }

  // ---- verdicts ------------------------------------------------------------------------------------------------

  function FindRow(lines: seq<ReadLine>, item: string): (r: Option<ReadLine>)
    ensures r.Some? ==> r.value in lines && ItemOfRead(r.value) == item
    ensures r.None? ==> forall l :: l in lines ==> ItemOfRead(l) != item
  {
    if |lines| == 0 then None
    else if ItemOfRead(lines[0]) == item then Some(lines[0])
    else FindRow(lines[1..], item)
  }

  predicate Shows(read: Read, mark: Watermark) {
    FindRow(read.lines, Lower(mark.saleItemId)).Some?
  }

  /** The read shows at least what a confirmed attempt left behind. */
  predicate Covers(read: Read, mark: Watermark) {
    var row := FindRow(read.lines, Lower(mark.saleItemId));
    row.Some? && row.value.exchanged >= mark.after
  }

  function ValidateIdentity(parsed: Option<Read>, expected: Expectation): Result<Read, Failure> {
    if parsed.None? then Err(READ_INVALID)
    else
      var read := parsed.value;
      if (expected.saleId.Some? && Lower(read.saleId) != Lower(expected.saleId.value))
         || read.branchId != expected.branchId || read.saleNumber != expected.saleNumber then Err(READ_MISMATCH)
      else if expected.watermarks.Some? && exists m :: m in expected.watermarks.value && !Shows(read, m) then Err(READ_MISMATCH)
      else if expected.watermarks.Some? && exists m :: m in expected.watermarks.value && !Covers(read, m) then Err(READ_STALE)
      else if !read.exchangeable || read.status != "COMPLETED" then Err(NOT_EXCHANGEABLE)
      else Ok(read)
  }

  predicate HasRemaining(read: Read) {
    exists l :: l in read.lines && l.remaining > 0
  }

  function ValidateFreshRead(parsed: Option<Read>, expected: Expectation, mode: Mode): Result<Read, Failure> {
    var verdict := ValidateIdentity(parsed, expected);
    if verdict.Err? then verdict
    else
      var proven := mode.RECONCILE_CONFIRMED? && expected.watermarks.Some? && |expected.watermarks.value| > 0;
      if !proven && !HasRemaining(verdict.value) then Err(NOTHING_LEFT_TO_EXCHANGE) else verdict
  }

  /** Of this sale, this branch and this number. */
  predicate IsOf(read: Read, expected: Expectation) {
    && (expected.saleId.Some? ==> Lower(read.saleId) == Lower(expected.saleId.value))
    && read.branchId == expected.branchId && read.saleNumber == expected.saleNumber
  }

  predicate CoversAll(read: Read, watermarks: Option<seq<Watermark>>) {
    watermarks.Some? ==> forall m :: m in watermarks.value ==> Covers(read, m)
  }

  predicate ShowsAll(read: Read, watermarks: Option<seq<Watermark>>) {
    watermarks.Some? ==> forall m :: m in watermarks.value ==> Shows(read, m)
  }

  /** Nothing left to exchange is fine only when the read proves what was confirmed. */
  predicate Proves(expected: Expectation, mode: Mode) {
    mode.RECONCILE_CONFIRMED? && expected.watermarks.Some? && |expected.watermarks.value| > 0
  }

  /** A read is accepted exactly when it is well formed, of this sale, this branch and this number, covers every watermark it was asked to
      prove, is of a completed exchangeable sale, and has something left or proves a confirmation. */
  lemma AcceptedReadIsFresh(parsed: Option<Read>, expected: Expectation, mode: Mode)
    ensures ValidateFreshRead(parsed, expected, mode).Ok? <==>
            && parsed.Some? && IsOf(parsed.value, expected) && CoversAll(parsed.value, expected.watermarks)
            && parsed.value.exchangeable && parsed.value.status == "COMPLETED"
            && (HasRemaining(parsed.value) || Proves(expected, mode))
    ensures ValidateFreshRead(parsed, expected, mode).Ok? ==> parsed == Some(ValidateFreshRead(parsed, expected, mode).value)
  {
    hide Lower;
    if parsed.Some? && CoversAll(parsed.value, expected.watermarks) {
      assert ShowsAll(parsed.value, expected.watermarks);
    }
  }

  /** And each refusal says the first thing that is wrong with it. */
  lemma RefusalIsExact(parsed: Option<Read>, expected: Expectation, mode: Mode)
    ensures var r := ValidateFreshRead(parsed, expected, mode);
            && (r == Err(READ_INVALID) <==> parsed.None?)
            && (r == Err(READ_MISMATCH) <==>
                  parsed.Some? && !(IsOf(parsed.value, expected) && ShowsAll(parsed.value, expected.watermarks)))
            && (r == Err(READ_STALE) <==>
                  parsed.Some? && IsOf(parsed.value, expected) && ShowsAll(parsed.value, expected.watermarks)
                  && !CoversAll(parsed.value, expected.watermarks))
            && (r == Err(NOT_EXCHANGEABLE) <==>
                  parsed.Some? && IsOf(parsed.value, expected) && CoversAll(parsed.value, expected.watermarks)
                  && !(parsed.value.exchangeable && parsed.value.status == "COMPLETED"))
  {
    hide Lower;
    if parsed.Some? && CoversAll(parsed.value, expected.watermarks) {
      assert ShowsAll(parsed.value, expected.watermarks);
    }
  }

  // ---- lines of a new draft ------------------------------------------------------------------------------------

  function DraftLineOf(l: ReadLine): DraftLine {
    DraftLine(l.saleItemId, None, "", l.exchanged)
  }

  function AvailableLineOf(l: ReadLine): AvailableLine {
    AvailableLine(l.saleItemId, l.exchanged)
  }

  /** Only items with something left; the baseline is what the read says is already exchanged. */
  function DraftLinesOf(lines: seq<ReadLine>): (r: seq<DraftLine>)
    ensures forall d :: d in r ==> exists l :: l in lines && l.remaining > 0 && d == DraftLineOf(l)
  {
    if |lines| == 0 then []
    else
      var front := DraftLinesOf(lines[..|lines| - 1]);
      var last := lines[|lines| - 1];
      if last.remaining > 0 then front + [DraftLineOf(last)] else front
  }

  predicate HasLeft(l: ReadLine) {
    l.remaining > 0
  }

  /** A new draft has exactly one line for each row with something left, in the order of the read, from what is exchanged of it already. */
  lemma {:induction false} OneLinePerRowWithSomethingLeft(lines: seq<ReadLine>)
    ensures var left := Filter(HasLeft, lines);
            && |DraftLinesOf(lines)| == |left|
            && forall i :: 0 <= i < |left| ==> DraftLinesOf(lines)[i] == DraftLine(left[i].saleItemId, None, "", left[i].exchanged)
  {
    if |lines| > 0 {
      var front, last := lines[..|lines| - 1], lines[|lines| - 1];
      OneLinePerRowWithSomethingLeft(front);
      FilterJoins(HasLeft, front, [last]);
      assert lines == front + [last];
      assert Filter(HasLeft, [last]) == if HasLeft(last) then [last] else [];
    }
  }
}
