/** From an editable draft to the canonical request and its watermarks. */
module ExchangeCanonical {
  import opened Wrappers
  import opened ExchangeTypes
  import opened Texts
  import opened Ordering
  import opened Sequences
  import opened Decimal

  const REASON_MAX := 200
  const LINES_MAX := 100
  const QUANTITY_DIGITS := 19
  const WATERMARK_DIGITS := 20

  // ---- the payload ---------------------------------------------------------------------------------------------

  /** The pattern [1-9][0-9]{0,18}. */
  predicate IsQuantityText(s: string) {
    IsNatural(s) && s[0] != '0' && |s| <= QUANTITY_DIGITS
  }

  predicate IsQuantity(n: nat) {
    0 < n < Pow10(QUANTITY_DIGITS)
  }

  predicate IsBaseline(n: nat) {
    n < Pow10(QUANTITY_DIGITS)
  }

  predicate IsWatermarkQuantity(n: nat) {
    n < Pow10(WATERMARK_DIGITS)
  }

  predicate ValidDraftLine(l: DraftLine) {
    && IsUuid(l.saleItemId)
    && l.replacementVariantId.Some? && IsUuid(l.replacementVariantId.value)
    && IsQuantityText(l.returnQuantity)
  }

  function CanonicalLineOf(l: DraftLine): CanonicalLine {
    CanonicalLine(
      Lower(l.saleItemId),
      if l.replacementVariantId.Some? then Lower(l.replacementVariantId.value) else "",
      if IsQuantityText(l.returnQuantity) then Value(l.returnQuantity) else 0)
  }

  function ItemOf(l: CanonicalLine): string {
    l.saleItemId
  }

  function ItemOfDraft(l: DraftLine): string {
    Lower(l.saleItemId)
  }

  function ByItem(a: CanonicalLine, b: CanonicalLine): Cmp {
    CompareText(a.saleItemId, b.saleItemId)
  }

  predicate StrictlyAscending(lines: seq<CanonicalLine>) {
    forall i :: 0 < i < |lines| ==> ByItem(lines[i - 1], lines[i]).Less?
  }

  predicate AllValid(lines: seq<DraftLine>) {
    forall l :: l in lines ==> ValidDraftLine(l)
  }

  predicate HasTwins(lines: seq<CanonicalLine>) {
    exists i :: 0 < i < |lines| && lines[i].saleItemId == lines[i - 1].saleItemId
  }

  /** The request to send, or None when the draft is not a complete, valid request. */
  function CanonicalPayloadOf(reason: string, lines: seq<DraftLine>): Option<Payload> {
    var text := Trim(reason);
    if Utf16Length(text) < 1 || Utf16Length(text) > REASON_MAX then None
    else if |lines| < 1 || |lines| > LINES_MAX then None
    else if !AllValid(lines) then None
    else
      var sorted := Sort(ByItem, Map(CanonicalLineOf, lines));
      if HasTwins(sorted) then None else Some(Payload(text, sorted))
  }

  lemma ByItemIsPreorder()
    ensures IsPreorder(ByItem)
  {
    TextOrderIsTotal();
    assert forall a, b :: ByItem(a, b) == CompareText(a.saleItemId, b.saleItemId);
  }

  lemma AscendingIsDistinct(lines: seq<CanonicalLine>)
    requires Sorted(ByItem, lines) && !HasTwins(lines)
    ensures StrictlyAscending(lines) && Distinct(Map(ItemOf, lines))
  {
    TextOrderIsTotal();
    forall i | 0 < i < |lines| ensures ByItem(lines[i - 1], lines[i]).Less? {
      assert !ByItem(lines[i - 1], lines[i]).Greater?;
    }
    StrictIsDistinct(lines);
  }

  lemma StrictIsDistinct(lines: seq<CanonicalLine>)
    requires StrictlyAscending(lines)
    ensures Sorted(ByItem, lines) && Distinct(Map(ItemOf, lines))
  {
    TextOrderIsTotal();
    forall i, j | 0 <= i < j < |lines| ensures ByItem(lines[i], lines[j]).Less? {
      StrictReaches(lines, i, j);
    }
  }

  lemma {:induction false} StrictReaches(lines: seq<CanonicalLine>, i: nat, j: nat)
    requires StrictlyAscending(lines) && i < j < |lines|
    ensures ByItem(lines[i], lines[j]).Less?
    decreases j
  {
    TextOrderIsTotal();
    if i + 1 < j {
      StrictReaches(lines, i, j - 1);
      var a, b, c := lines[i].saleItemId, lines[j - 1].saleItemId, lines[j].saleItemId;
      assert CompareText(a, b).Less? && ByItem(lines[j - 1], lines[j]).Less?;
      assert !CompareText(a, c).Greater?;
    }
  }

  /** A payload has between 1 and 100 valid lines in strictly ascending item order, one per draft line, and a trimmed reason. */
  lemma PayloadShape(reason: string, lines: seq<DraftLine>)
    requires CanonicalPayloadOf(reason, lines).Some?
    ensures var p := CanonicalPayloadOf(reason, lines).value;
            && p.reason == Trim(reason) && 1 <= Utf16Length(p.reason) <= REASON_MAX
            && 1 <= |p.lines| <= LINES_MAX
            && multiset(p.lines) == multiset(Map(CanonicalLineOf, lines))
            && StrictlyAscending(p.lines)
            && Distinct(Map(ItemOf, p.lines))
            && Distinct(Map(ItemOfDraft, lines))
            && (forall l :: l in p.lines ==> ValidCanonicalLine(l))
  {
    var p := CanonicalPayloadOf(reason, lines).value;
    var image := Map(CanonicalLineOf, lines);
    ByItemIsPreorder();
    SortSorts(ByItem, image);
    AscendingIsDistinct(p.lines);
    ImageForgetsOrder(ItemOf, p.lines, image);
    assert Map(ItemOf, image) == Map(ItemOfDraft, lines);
    DistinctForgetsOrder(Map(ItemOf, p.lines), Map(ItemOfDraft, lines));
    forall l | l in p.lines ensures ValidCanonicalLine(l) {
      assert l in multiset(p.lines);
      assert l in image;
      var i :| 0 <= i < |lines| && image[i] == l;
      assert lines[i] in lines;
      CanonicalLineIsValid(lines[i]);
    }
  }

  /** A quantity is the canonical text of a positive number below 10 to the 19. */
  lemma QuantityTextIs(s: string)
    ensures IsQuantityText(s) <==> exists n: nat :: s == Show(n) && 0 < n < 10_000_000_000_000_000_000
  {
    NineteenDigits();
    if IsQuantityText(s) {
      ReadShows(s);
      PositiveValue(s);
      DigitCount(s, 19);
    }
    if n: nat :| s == Show(n) && 0 < n < 10_000_000_000_000_000_000 {
      ShowReads(n);
      DigitCount(s, 19);
    }
  }

  lemma DistinctItems(lines: seq<DraftLine>)
    ensures Distinct(Map(ItemOfDraft, lines)) <==>
            forall i, j :: 0 <= i < j < |lines| ==> Lower(lines[i].saleItemId) != Lower(lines[j].saleItemId)
  {
    hide Lower;
    var items := Map(ItemOfDraft, lines);
    assert forall i :: 0 <= i < |lines| ==> items[i] == Lower(lines[i].saleItemId);
    if Distinct(items) {
      forall i, j | 0 <= i < j < |lines| ensures Lower(lines[i].saleItemId) != Lower(lines[j].saleItemId) {
        assert items[i] != items[j];
      }
    }
  }

  lemma NoTwins(lines: seq<DraftLine>)
    requires Distinct(Map(ItemOfDraft, lines))
    ensures !HasTwins(Sort(ByItem, Map(CanonicalLineOf, lines)))
  {
    hide Lower, IsQuantityText, Value;
    var image := Map(CanonicalLineOf, lines);
    var sorted := Sort(ByItem, image);
    ByItemIsPreorder();
    SortSorts(ByItem, image);
    ImageForgetsOrder(ItemOf, sorted, image);
    assert Map(ItemOf, image) == Map(ItemOfDraft, lines);
    DistinctForgetsOrder(Map(ItemOf, image), Map(ItemOf, sorted));
    hide Sort;
    forall i | 0 < i < |sorted| ensures sorted[i].saleItemId != sorted[i - 1].saleItemId {
      assert Map(ItemOf, sorted)[i - 1] != Map(ItemOf, sorted)[i];
    }
  }

  /** A draft can be sent exactly when its trimmed reason has 1 to 200 UTF-16 units and its lines are 1 to 100, each with two UUIDs and a
      quantity, no two of one item in any spelling. */
  lemma PayloadIsExact(reason: string, lines: seq<DraftLine>)
    ensures CanonicalPayloadOf(reason, lines).Some? <==>
            && 1 <= Utf16Length(Trim(reason)) <= 200 && 1 <= |lines| <= 100
            && (forall l :: l in lines ==> IsUuid(l.saleItemId) && l.replacementVariantId.Some? && IsUuid(l.replacementVariantId.value)
                                           && IsQuantityText(l.returnQuantity))
            && (forall i, j :: 0 <= i < j < |lines| ==> Lower(lines[i].saleItemId) != Lower(lines[j].saleItemId))
  {
    hide IsUuid, IsQuantityText, Utf16Length, Trim, Lower, HasTwins, Sort;
    DistinctItems(lines);
    if Distinct(Map(ItemOfDraft, lines)) {
      NoTwins(lines);
    }
    if CanonicalPayloadOf(reason, lines).Some? {
      PayloadShape(reason, lines);
    }
  }

  /** The lines are sent in the order of their lower-case item ids. */
  lemma LinesAreInOrder(reason: string, lines: seq<DraftLine>)
    requires CanonicalPayloadOf(reason, lines).Some?
    ensures var sent := CanonicalPayloadOf(reason, lines).value.lines;
            forall i, j :: 0 <= i < j < |sent| ==> TextBefore(sent[i].saleItemId, sent[j].saleItemId)
  {
    hide TextBefore, StrictlyAscending;
    PayloadShape(reason, lines);
    var sent := CanonicalPayloadOf(reason, lines).value.lines;
    hide CanonicalPayloadOf;
    forall i, j | 0 <= i < j < |sent| ensures TextBefore(sent[i].saleItemId, sent[j].saleItemId) {
      StrictReaches(sent, i, j);
      CompareTextMeans(sent[i].saleItemId, sent[j].saleItemId);
    }
  }

  predicate ValidCanonicalLine(l: CanonicalLine) {
    && IsUuid(l.saleItemId) && Lower(l.saleItemId) == l.saleItemId
    && IsUuid(l.replacementVariantId) && Lower(l.replacementVariantId) == l.replacementVariantId
    && IsQuantity(l.returnQuantity)
  }

  lemma CanonicalLineIsValid(l: DraftLine)
    requires ValidDraftLine(l)
    ensures ValidCanonicalLine(CanonicalLineOf(l))
  {
    LowerIsStable(l.saleItemId);
    LowerIsStable(l.replacementVariantId.value);
    DigitCount(l.returnQuantity, QUANTITY_DIGITS);
    PositiveValue(l.returnQuantity);
  }

  lemma PayloadOfPermutation(reason: string, a: seq<DraftLine>, b: seq<DraftLine>)
    requires multiset(a) == multiset(b)
    requires CanonicalPayloadOf(reason, a).Some?
    ensures CanonicalPayloadOf(reason, b) == CanonicalPayloadOf(reason, a)
  {
    hide IsUuid, IsQuantityText, Trim, Utf16Length, Lower;
    assert |multiset(a)| == |multiset(b)|;
    PayloadShape(reason, a);
    SameSorting(a, b, CanonicalPayloadOf(reason, a).value.lines);
    forall l | l in b ensures ValidDraftLine(l) {
      assert l in multiset(b);
      assert l in a;
    }
  }

  lemma SameSorting(a: seq<DraftLine>, b: seq<DraftLine>, sent: seq<CanonicalLine>)
    requires multiset(a) == multiset(b)
    requires multiset(sent) == multiset(Map(CanonicalLineOf, a)) && Distinct(Map(ItemOf, sent))
    ensures Sort(ByItem, Map(CanonicalLineOf, a)) == Sort(ByItem, Map(CanonicalLineOf, b))
  {
    hide Sort, CanonicalLineOf;
    ByItemIsPreorder();
    ImageForgetsOrder(CanonicalLineOf, a, b);
    var image := Map(CanonicalLineOf, a);
    forall x, y | x in image && y in image && ByItem(x, y).Equal? ensures x == y {
      TextOrderIsTotal();
      assert x in multiset(sent) && y in multiset(sent);
      var i :| 0 <= i < |sent| && sent[i] == x;
      var j :| 0 <= j < |sent| && sent[j] == y;
      assert Map(ItemOf, sent)[i] == Map(ItemOf, sent)[j];
    }
    SortForgetsOrder(ByItem, image, Map(CanonicalLineOf, b));
  }

  // ---- the watermarks ------------------------------------------------------------------------------------------

  /** The first draft line of an item. */
  function FindLine(lines: seq<DraftLine>, item: string): (r: Option<DraftLine>)
    ensures r.Some? ==> r.value in lines && ItemOfDraft(r.value) == item
    ensures r.None? ==> forall l :: l in lines ==> ItemOfDraft(l) != item
  {
    if |lines| == 0 then None
    else if ItemOfDraft(lines[0]) == item then Some(lines[0])
    else FindLine(lines[1..], item)
  }

  predicate HasBaseline(lines: seq<DraftLine>, l: CanonicalLine) {
    var source := FindLine(lines, l.saleItemId);
    source.Some? && IsBaseline(source.value.before)
  }

  predicate AllHaveBaseline(lines: seq<DraftLine>, wanted: seq<CanonicalLine>) {
    forall i :: 0 <= i < |wanted| ==> HasBaseline(lines, wanted[i])
  }

  function WatermarkOf(lines: seq<DraftLine>, l: CanonicalLine): Watermark {
    var source := FindLine(lines, l.saleItemId);
    var before := if source.Some? then source.value.before else 0;
    Watermark(l.saleItemId, before, before + l.returnQuantity)
  }

  /** One watermark per payload line, in payload order; None when a line has no valid baseline. */
  function CanonicalWatermarksOf(lines: seq<DraftLine>, payload: Payload): (r: Option<seq<Watermark>>)
    ensures r.Some? ==> |r.value| == |payload.lines|
  {
    if !AllHaveBaseline(lines, payload.lines) then None
    else Some(seq(|payload.lines|, i requires 0 <= i < |payload.lines| => WatermarkOf(lines, payload.lines[i])))
  }

  /** The watermarks match the payload line by line, and each baseline is that of a line of the draft. */
  predicate Matches(payload: Payload, watermarks: seq<Watermark>) {
    && |watermarks| == |payload.lines|
    && forall i :: 0 <= i < |watermarks| ==>
         && watermarks[i].saleItemId == payload.lines[i].saleItemId
         && watermarks[i].after == watermarks[i].before + payload.lines[i].returnQuantity
  }

  lemma WatermarksShape(lines: seq<DraftLine>, payload: Payload)
    requires CanonicalWatermarksOf(lines, payload).Some?
    ensures var w := CanonicalWatermarksOf(lines, payload).value;
            && Matches(payload, w)
            && forall i :: 0 <= i < |w| ==>
                 && IsBaseline(w[i].before)
                 && exists l :: l in lines && ItemOfDraft(l) == w[i].saleItemId && l.before == w[i].before
  {
    var w := CanonicalWatermarksOf(lines, payload).value;
    forall i | 0 <= i < |w|
      ensures IsBaseline(w[i].before)
      ensures exists l :: l in lines && ItemOfDraft(l) == w[i].saleItemId && l.before == w[i].before
    {
      assert HasBaseline(lines, payload.lines[i]);
      var source := FindLine(lines, payload.lines[i].saleItemId).value;
      assert source in lines && ItemOfDraft(source) == w[i].saleItemId && source.before == w[i].before;
    }
  }

  /** A 19-digit baseline plus a 19-digit quantity always fits the 20-digit watermark. */
  lemma WatermarkFits(before: nat, quantity: nat)
    requires IsBaseline(before) && IsQuantity(quantity)
    ensures IsWatermarkQuantity(before + quantity)
  {
    assert Pow10(WATERMARK_DIGITS) == 10 * Pow10(QUANTITY_DIGITS);
  }

  lemma FindForgetsOrder(a: seq<DraftLine>, b: seq<DraftLine>, item: string)
    requires multiset(a) == multiset(b) && Distinct(Map(ItemOfDraft, a))
    ensures FindLine(a, item) == FindLine(b, item)
  {
    var x, y := FindLine(a, item), FindLine(b, item);
    if x.Some? {
      assert x.value in multiset(b);
      assert x.value in b;
    }
    if y.Some? {
      assert y.value in multiset(a);
      assert y.value in a;
    }
    if x.Some? && y.Some? {
      var i :| 0 <= i < |a| && a[i] == x.value;
      var j :| 0 <= j < |a| && a[j] == y.value;
      assert Map(ItemOfDraft, a)[i] == Map(ItemOfDraft, a)[j];
    }
  }

  /** Canonicalisation is exact about order: drafts whose lines are permutations of each other give the same request and the
      same watermarks, hence the same fingerprint; or neither is sendable. */
  lemma CanonicalisationForgetsOrder(reason: string, a: seq<DraftLine>, b: seq<DraftLine>)
    requires multiset(a) == multiset(b)
    ensures CanonicalPayloadOf(reason, a) == CanonicalPayloadOf(reason, b)
    ensures CanonicalPayloadOf(reason, a).Some? ==>
              var p := CanonicalPayloadOf(reason, a).value;
              CanonicalWatermarksOf(a, p) == CanonicalWatermarksOf(b, p)
  {
    if CanonicalPayloadOf(reason, a).Some? {
      PayloadOfPermutation(reason, a, b);
      WatermarksOfPermutation(reason, a, b);
    } else if CanonicalPayloadOf(reason, b).Some? {
      PayloadOfPermutation(reason, b, a);
    }
  }

  lemma WatermarksOfPermutation(reason: string, a: seq<DraftLine>, b: seq<DraftLine>)
    requires multiset(a) == multiset(b)
    requires CanonicalPayloadOf(reason, a).Some?
    ensures var p := CanonicalPayloadOf(reason, a).value;
            CanonicalWatermarksOf(a, p) == CanonicalWatermarksOf(b, p)
  {
    PayloadShape(reason, a);
    var wanted := CanonicalPayloadOf(reason, a).value.lines;
    forall i | 0 <= i < |wanted|
      ensures HasBaseline(a, wanted[i]) == HasBaseline(b, wanted[i])
      ensures WatermarkOf(a, wanted[i]) == WatermarkOf(b, wanted[i])
    {
      FindForgetsOrder(a, b, wanted[i].saleItemId);
    }
    var p := CanonicalPayloadOf(reason, a).value;
    assert AllHaveBaseline(a, wanted) == AllHaveBaseline(b, wanted);
    if AllHaveBaseline(a, wanted) {
      assert CanonicalWatermarksOf(a, p).value == CanonicalWatermarksOf(b, p).value;
    }
  }

  // ---- the loops -----------------------------------------------------------------------------------------------

  method CanonicalLines(lines: seq<DraftLine>) returns (r: Option<seq<CanonicalLine>>)
    ensures r == if AllValid(lines) then Some(Map(CanonicalLineOf, lines)) else None
  {
    var pushed: seq<CanonicalLine> := [];
    for i := 0 to |lines|
      invariant |pushed| == i && forall j :: 0 <= j < i ==> pushed[j] == CanonicalLineOf(lines[j])
      invariant forall j :: 0 <= j < i ==> ValidDraftLine(lines[j])
    {
      if !ValidDraftLine(lines[i]) { return None; }
      pushed := pushed + [CanonicalLineOf(lines[i])];
    }
    assert pushed == Map(CanonicalLineOf, lines);
    r := Some(pushed);
  }

  method FindTwins(lines: seq<CanonicalLine>) returns (found: bool)
    ensures found == HasTwins(lines)
  {
    var i := 1;
    while i < |lines|
      invariant 1 <= i
      invariant forall j :: 0 < j < i && j < |lines| ==> lines[j].saleItemId != lines[j - 1].saleItemId
    {
      if lines[i].saleItemId == lines[i - 1].saleItemId { return true; }
      i := i + 1;
    }
    return false;
  }

  method CanonicalPayload(reason: string, lines: seq<DraftLine>) returns (r: Option<Payload>)
    ensures r == CanonicalPayloadOf(reason, lines)
  {
    var text := Trim(reason);
    if Utf16Length(text) < 1 || Utf16Length(text) > REASON_MAX { return None; }
    if |lines| < 1 || |lines| > LINES_MAX { return None; }
    var pushed := CanonicalLines(lines);
    if pushed.None? { return None; }
    var sorted := Sort(ByItem, pushed.value);
    var twins := FindTwins(sorted);
    if twins { return None; }
    return Some(Payload(text, sorted));
  }

  method CanonicalWatermarks(lines: seq<DraftLine>, payload: Payload) returns (r: Option<seq<Watermark>>)
    ensures r == CanonicalWatermarksOf(lines, payload)
  {
    var marks: seq<Watermark> := [];
    for i := 0 to |payload.lines|
      invariant |marks| == i && forall j :: 0 <= j < i ==> marks[j] == WatermarkOf(lines, payload.lines[j])
      invariant forall j :: 0 <= j < i ==> HasBaseline(lines, payload.lines[j])
    {
      var source := FindLine(lines, payload.lines[i].saleItemId);
      if source.None? || !IsBaseline(source.value.before) {
        assert !HasBaseline(lines, payload.lines[i]);
        return None;
      }
      marks := marks + [Watermark(payload.lines[i].saleItemId, source.value.before, source.value.before + payload.lines[i].returnQuantity)];
    }
    assert AllHaveBaseline(lines, payload.lines);
    assert marks == CanonicalWatermarksOf(lines, payload).value;
    r := Some(marks);
  }
}
