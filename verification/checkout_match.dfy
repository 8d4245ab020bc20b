/** Matching a quote against the draft it was made for: sorted, joined tender keys, and what their equality really says. */
module CheckoutMatch {
  import opened Wrappers
  import opened Ordering
  import opened Sequences
  import opened Decimal
  import opened CheckoutTypes

  datatype Entry = Entry(means: Method, amount: string)

  function MethodName(m: Method): (s: string)
    ensures |s| > 0
  {
    match m
    case Cash => "CASH"
    case Transfer => "TRANSFER"
    case CardDebit => "CARD_DEBIT"
    case CardCredit => "CARD_CREDIT"
    case Qr => "QR"
  }

  function EntryText(e: Entry): string {
    MethodName(e.means) + ":" + e.amount
  }

  /** Array.join. */
  function JoinBars(parts: seq<string>): string {
    if |parts| == 0 then "" else if |parts| == 1 then parts[0] else parts[0] + "|" + JoinBars(parts[1..])
  }

  /** `order` is the order of Array.sort on strings; only that it is a total order matters. */
  function TenderKey(order: (string, string) -> Cmp, entries: seq<Entry>): string {
    JoinBars(Sort(order, Map(EntryText, entries)))
  }

  function QuoteEntry(t: QuoteTender): Entry {
    Entry(t.means, Show(t.amount))
  }

  function DraftEntry(t: FixedTender): Entry {
    Entry(t.means, t.amount)
  }

  function QuoteEntries(q: Quote): seq<Entry> {
    Map(QuoteEntry, q.tenders)
  }

  function DraftEntries(d: Draft): seq<Entry> {
    Map(DraftEntry, d.fixed)
  }

  predicate QuoteMatchesDraft(order: (string, string) -> Cmp, q: Quote, d: Draft, saleId: string) {
    && q.saleId == saleId
    && q.balanceMethod == d.balanceMethod
    && |q.tenders| == |d.fixed|
    && TenderKey(order, QuoteEntries(q)) == TenderKey(order, DraftEntries(d))
  }

  // ---- separators ----------------------------------------------------------------------------------------------

  function Bars(s: string): nat {
    if |s| == 0 then 0 else (if s[0] == '|' then 1 else 0) + Bars(s[1..])
  }

  function AllBars(parts: seq<string>): nat {
    if |parts| == 0 then 0 else Bars(parts[0]) + AllBars(parts[1..])
  }

  lemma {:induction false} BarsAdd(a: string, b: string)
    ensures Bars(a + b) == Bars(a) + Bars(b)
  {
    if |a| > 0 {
      BarsAdd(a[1..], b);
      assert (a + b)[1..] == a[1..] + b;
    } else {
      assert a + b == b;
    }
  }

  lemma {:induction false} NoBars(s: string)
    ensures Bars(s) == 0 <==> '|' !in s
  {
    if |s| > 0 {
      NoBars(s[1..]);
      assert s == [s[0]] + s[1..];
    }
  }

  /** A join has its parts' bars and one more between any two parts. */
  lemma {:induction false} JoinCounts(parts: seq<string>)
    requires |parts| > 0
    ensures Bars(JoinBars(parts)) == AllBars(parts) + |parts| - 1
  {
    if |parts| > 1 {
      JoinCounts(parts[1..]);
      BarsAdd(parts[0] + "|", JoinBars(parts[1..]));
      BarsAdd(parts[0], "|");
      assert Bars("|") == 1;
    }
  }

  lemma {:induction false} BarsInParts(parts: seq<string>)
    ensures AllBars(parts) == 0 <==> forall i :: 0 <= i < |parts| ==> '|' !in parts[i]
  {
    if |parts| > 0 {
      BarsInParts(parts[1..]);
      NoBars(parts[0]);
      assert forall i :: 1 <= i < |parts| ==> parts[i] == parts[1..][i - 1];
    }
  }

  /** Up to the first bar two texts are read the same way. */
  lemma FirstPart(a: string, x: string, b: string, y: string)
    requires '|' !in a && '|' !in b && a + "|" + x == b + "|" + y
    ensures a == b && x == y
  {
    var s, t := a + "|" + x, b + "|" + y;
    assert s[|a|] == '|' && t[|b|] == '|';
    assert |a| == |b|;
    assert a == s[..|a|] && b == t[..|b|];
    assert x == s[|a| + 1..] && y == t[|b| + 1..];
  }

  lemma {:induction false} JoinIsInjective(a: seq<string>, b: seq<string>)
    requires |a| == |b| && JoinBars(a) == JoinBars(b)
    requires forall i :: 0 <= i < |a| ==> '|' !in a[i] && '|' !in b[i]
    ensures a == b
  {
    if |a| > 1 {
      FirstPart(a[0], JoinBars(a[1..]), b[0], JoinBars(b[1..]));
      JoinIsInjective(a[1..], b[1..]);
      assert a == [a[0]] + a[1..] && b == [b[0]] + b[1..];
    } else if |a| == 1 {
      assert a == [a[0]] && b == [b[0]];
    }
  }

  /** Equal joins of equally many parts, one side free of bars: then so is the other, and the parts are equal. */
  lemma JoinsAgree(a: seq<string>, b: seq<string>)
    requires |a| == |b| && JoinBars(a) == JoinBars(b)
    requires forall i :: 0 <= i < |a| ==> '|' !in a[i]
    ensures a == b
  {
    if |a| > 0 {
      JoinCounts(a);
      JoinCounts(b);
      BarsInParts(a);
      BarsInParts(b);
      JoinIsInjective(a, b);
    }
  }

  // ---- entries -------------------------------------------------------------------------------------------------

  /** Reads an entry back; the method's name holds no colon. */
  function ReadEntry(s: string): Entry {
    if "CASH:" <= s then Entry(Cash, s[5..])
    else if "TRANSFER:" <= s then Entry(Transfer, s[9..])
    else if "CARD_DEBIT:" <= s then Entry(CardDebit, s[11..])
    else if "CARD_CREDIT:" <= s then Entry(CardCredit, s[12..])
    else Entry(Qr, if |s| >= 3 then s[3..] else "")
  }

  lemma EntryReads(e: Entry)
    ensures ReadEntry(EntryText(e)) == e
  {
    var s := EntryText(e);
    match e.means
    case Cash => assert s[5..] == e.amount;
    case Transfer => assert s[9..] == e.amount && s[0] == 'T';
    case CardDebit => assert s[11..] == e.amount && s[1] == 'A' && s[2] == 'R';
    case CardCredit => assert s[12..] == e.amount && s[2] == 'R' && s[5] == 'C';
    case Qr => assert s[3..] == e.amount && s[0] == 'Q';
  }

  lemma EntriesRead(a: seq<Entry>)
    ensures Map(ReadEntry, Map(EntryText, a)) == a
  {
    forall i | 0 <= i < |a| ensures Map(ReadEntry, Map(EntryText, a))[i] == a[i] {
      EntryReads(a[i]);
    }
  }

  lemma TextsTellEntries(a: seq<Entry>, b: seq<Entry>)
    ensures multiset(Map(EntryText, a)) == multiset(Map(EntryText, b)) <==> multiset(a) == multiset(b)
  {
    if multiset(a) == multiset(b) {
      ImageForgetsOrder(EntryText, a, b);
    }
    if multiset(Map(EntryText, a)) == multiset(Map(EntryText, b)) {
      ImageForgetsOrder(ReadEntry, Map(EntryText, a), Map(EntryText, b));
      EntriesRead(a);
      EntriesRead(b);
    }
  }

  lemma DigitsOnly(t: QuoteTender)
    requires IsNatural(Show(t.amount))
    ensures '|' !in EntryText(QuoteEntry(t))
  {
    hide Show;
    assert '|' !in Show(t.amount) by {
      assert AllDigits(Show(t.amount));
    }
    assert '|' !in MethodName(t.means) by {
      match t.means
      case Cash => case Transfer => case CardDebit => case CardCredit => case Qr =>
    }
  }

  lemma QuotedHasNoBars(q: Quote)
    ensures forall i :: 0 <= i < |q.tenders| ==> '|' !in EntryText(QuoteEntry(q.tenders[i]))
  {
    forall i | 0 <= i < |q.tenders| ensures '|' !in EntryText(QuoteEntry(q.tenders[i])) {
      ShowReads(q.tenders[i].amount);
      DigitsOnly(q.tenders[i]);
    }
  }

  /** A quote matches a draft exactly when sale and balance method agree and the fixed tenders are equal as multisets, whatever text
      the draft's amounts hold. */
  lemma MatchIsExact(order: (string, string) -> Cmp, q: Quote, d: Draft, saleId: string)
    requires IsTotalOrder(order)
    ensures QuoteMatchesDraft(order, q, d, saleId)
       <==> q.saleId == saleId && q.balanceMethod == d.balanceMethod && multiset(QuoteEntries(q)) == multiset(DraftEntries(d))
  {
    var a, b := Map(EntryText, QuoteEntries(q)), Map(EntryText, DraftEntries(d));
    TextsTellEntries(QuoteEntries(q), DraftEntries(d));
    SortSorts(order, a);
    SortSorts(order, b);
    if multiset(a) == multiset(b) {
      SortForgetsOrder(order, a, b);
      assert |multiset(QuoteEntries(q))| == |multiset(DraftEntries(d))|;
    }
    if |q.tenders| == |d.fixed| && JoinBars(Sort(order, a)) == JoinBars(Sort(order, b)) {
      QuotedHasNoBars(q);
      SortedHasNoBars(order, a);
      JoinsAgree(Sort(order, a), Sort(order, b));
    }
  }

  lemma SortedHasNoBars(order: (string, string) -> Cmp, a: seq<string>)
    requires IsTotalOrder(order) && forall i :: 0 <= i < |a| ==> '|' !in a[i]
    ensures forall i :: 0 <= i < |Sort(order, a)| ==> '|' !in Sort(order, a)[i]
  {
    SortSorts(order, a);
    forall i | 0 <= i < |Sort(order, a)| ensures '|' !in Sort(order, a)[i] {
      assert Sort(order, a)[i] in multiset(a);
    }
  }
}
