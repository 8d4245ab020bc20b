/** Draft validation. Each issue has one condition over the draft and the quote; the source finds them with loops that push into a
    shared list, and the list comes out with exactly the issues whose condition holds, each once. */
module CheckoutIssues {
  import opened Wrappers
  import opened Sequences
  import opened Decimal
  import opened Texts
  import opened CheckoutTypes

  const MAX_CENTAVOS: nat := 0x7FFF_FFFF_FFFF_FFFF
  const MAX_REFERENCE_CODE_POINTS: nat := 64
  const MIN_REFERENCE_KEY_LENGTH: nat := 3
  const MAX_REFERENCE_KEY_LENGTH: nat := 40
  const MAX_INSTITUTION_OTHER_LENGTH: nat := 60

  /** Canonical centavos that fit PostgreSQL's int8. */
  function CentavosOf(s: string): Option<nat> {
    if IsNatural(s) && |s| <= 19 && Value(s) <= MAX_CENTAVOS then Some(Value(s)) else None
  }

  /** Exactly the canonical texts of the amounts up to 2^63 - 1 are centavos, and each is read as its amount. */
  lemma CentavosOfIs(s: string, n: nat)
    ensures CentavosOf(s) == Some(n) <==> s == Show(n) && n < 0x8000_0000_0000_0000
  {
    if CentavosOf(s) == Some(n) {
      ReadShows(s);
    }
    if s == Show(n) && n < 0x8000_0000_0000_0000 {
      ShowReads(n);
      NineteenDigits();
      DigitCount(s, 19);
    }
  }

  // ---- one condition per issue ---------------------------------------------------------------------------------

  datatype Evidence = Evidence(means: Method, reference: Option<string>, institution: Option<Institution>, institutionOther: Option<string>,
                               collectionId: Option<string>)

  function EvidenceOf(t: FixedTender): Evidence {
    Evidence(t.means, t.reference, t.institution, t.institutionOther, t.collectionId)
  }

  function BalanceEvidence(d: Draft): Evidence {
    Evidence(d.balanceMethod, d.balanceReference, d.balanceInstitution, d.balanceInstitutionOther, None)
  }

  /** `key` is the server's canonical form of a reference: upper-cased, letters and digits only. */
  predicate ReferenceFits(reference: string, key: string -> string) {
    1 <= |reference| <= MAX_REFERENCE_CODE_POINTS && MIN_REFERENCE_KEY_LENGTH <= |key(reference)| <= MAX_REFERENCE_KEY_LENGTH
  }

  predicate LabelFits(name: string) {
    1 <= Utf16Length(Trim(name)) <= MAX_INSTITUTION_OTHER_LENGTH
  }

  predicate NonCashRaises(e: Evidence, key: string -> string, issue: Issue) {
    match issue
    case InstitutionOtherNotAllowed => e.institutionOther.Some? && e.institution != Some(OtherInstitution)
    case InstitutionOtherRequired =>
      e.institution == Some(OtherInstitution) && (e.institutionOther.None? || !LabelFits(e.institutionOther.value))
    case ReferenceXorCollection => e.reference.None? == e.collectionId.None?
    case ReferenceInvalid => e.reference.Some? && e.collectionId.None? && !ReferenceFits(e.reference.value, key)
    case InvalidCollectionId => e.collectionId.Some? && !IsUuid(e.collectionId.value)
    case InstitutionNotAllowed => e.institution.Some? && (e.collectionId.Some? || !e.means.Transfer?)
    case InstitutionRequired => e.means.Transfer? && e.collectionId.None? && (e.institution.None? || e.institution.value.Unlisted?)
    case _ => false
  }

  predicate CashRaises(received: Option<string>, amount: Option<nat>, issue: Issue) {
    match issue
    case ReceivedRequired => received.None? || received.value == ""
    case InvalidAmount => received.Some? && received.value != "" && CentavosOf(received.value).None?
    case ReceivedBelowAmount => received.Some? && CentavosOf(received.value).Some? && amount.Some? && CentavosOf(received.value).value < amount.value
    case _ => false
  }

  predicate HasEvidence(e: Evidence) {
    e.reference.Some? || e.institution.Some? || e.institutionOther.Some? || e.collectionId.Some?
  }

  /** What a tender's payment data may raise, fixed or balance alike. */
  predicate PaymentRaises(e: Evidence, received: Option<string>, amount: Option<nat>, key: string -> string, issue: Issue) {
    if e.means.Cash? then (issue == ReferenceNotAllowed && HasEvidence(e)) || CashRaises(received, amount, issue)
    else (issue == ReceivedOnlyForCash && received.Some?) || NonCashRaises(e, key, issue)
  }

  predicate TenderRaises(t: FixedTender, key: string -> string, issue: Issue) {
    PaymentRaises(EvidenceOf(t), t.received, CentavosOf(t.amount), key, issue)
  }

  predicate BalanceRaises(d: Draft, key: string -> string, issue: Issue) {
    PaymentRaises(BalanceEvidence(d), d.received, None, key, issue)
  }

  predicate AmountRaises(t: FixedTender, issue: Issue) {
    match issue
    case InvalidAmount => CentavosOf(t.amount).None?
    case AmountBelowMinimum => CentavosOf(t.amount) == Some(0)
    case _ => false
  }

  /** The pricing issues the first n fixed tenders give rise to, beside their number. */
  predicate PricingRaises(d: Draft, n: nat, issue: Issue)
    requires n <= |d.fixed|
  {
    || (issue == DuplicateMethod && exists i, j :: 0 <= i < j < n && d.fixed[i].means == d.fixed[j].means)
    || (issue == BalanceMethodAlsoFixed && exists i :: 0 <= i < n && d.fixed[i].means == d.balanceMethod)
    || exists i :: 0 <= i < n && AmountRaises(d.fixed[i], issue)
  }

  /** Whether the last word on a method in the quote is that it is available; unmentioned methods are not. */
  predicate Available(enabled: seq<Enabled>, m: Method) {
    |enabled| > 0 && (if enabled[|enabled| - 1].means == m then enabled[|enabled| - 1].available else Available(enabled[..|enabled| - 1], m))
  }

  function FindCollection(collections: seq<Collection>, id: string): Option<Collection> {
    if |collections| == 0 then None
    else if collections[0].id == id then Some(collections[0])
    else FindCollection(collections[1..], id)
  }

  /** A collection can be used only if it is pending for this sale with this method and exactly this amount. */
  predicate CollectionMismatch(t: FixedTender, q: Quote) {
    && t.collectionId.Some?
    && var pending := FindCollection(q.collections, t.collectionId.value);
       pending.None? || pending.value.means != t.means || Show(pending.value.amount) != t.amount
  }

  predicate QuoteRaises(d: Draft, q: Quote, issue: Issue) {
    match issue
    case MethodNotAvailable => !Available(q.enabled, d.balanceMethod) || exists i :: 0 <= i < |d.fixed| && !Available(q.enabled, d.fixed[i].means)
    case InvalidCollectionId => exists i :: 0 <= i < |d.fixed| && CollectionMismatch(d.fixed[i], q)
    case _ => false
  }

  /** The condition of each issue. */
  predicate Raised(d: Draft, q: Option<Quote>, key: string -> string, issue: Issue) {
    || (issue == TooManyFixedTenders && |d.fixed| > 2)
    || PricingRaises(d, |d.fixed|, issue)
    || (exists i :: 0 <= i < |d.fixed| && TenderRaises(d.fixed[i], key, issue))
    || BalanceRaises(d, key, issue)
    || (q.Some? && QuoteRaises(d, q.value, issue))
  }

  // ---- the order in which they are found -----------------------------------------------------------------------

  function When(raised: bool, issue: Issue): seq<Issue> {
    if raised then [issue] else []
  }

  function TenderPricingList(d: Draft, i: nat): seq<Issue>
    requires i < |d.fixed|
  {
    When(exists k :: 0 <= k < i && d.fixed[k].means == d.fixed[i].means, DuplicateMethod)
    + When(d.fixed[i].means == d.balanceMethod, BalanceMethodAlsoFixed)
    + When(CentavosOf(d.fixed[i].amount).None?, InvalidAmount) + When(CentavosOf(d.fixed[i].amount) == Some(0), AmountBelowMinimum)
  }

  /** The pricing issues of the first n fixed tenders, beside their number. */
  function PricingList(d: Draft, n: nat): seq<Issue>
    requires n <= |d.fixed|
  {
    if n == 0 then [] else PricingList(d, n - 1) + TenderPricingList(d, n - 1)
  }

  function CashList(received: Option<string>): seq<Issue> {
    if received.None? || received.value == "" then [ReceivedRequired] else When(CentavosOf(received.value).None?, InvalidAmount)
  }

  function BelowList(received: Option<string>, amount: Option<nat>): seq<Issue> {
    When(CashRaises(received, amount, ReceivedBelowAmount), ReceivedBelowAmount)
  }

  function LabelList(e: Evidence): seq<Issue> {
    if e.institutionOther.None? then When(e.institution == Some(OtherInstitution), InstitutionOtherRequired)
    else if e.institution != Some(OtherInstitution) then [InstitutionOtherNotAllowed]
    else When(!LabelFits(e.institutionOther.value), InstitutionOtherRequired)
  }

  function ReferenceList(e: Evidence, key: string -> string): seq<Issue> {
    if e.reference.None? == e.collectionId.None? then [ReferenceXorCollection]
    else When(e.reference.Some? && !ReferenceFits(e.reference.value, key), ReferenceInvalid)
  }

  function InstitutionList(e: Evidence): seq<Issue> {
    if e.collectionId.Some? then When(!IsUuid(e.collectionId.value), InvalidCollectionId) + When(e.institution.Some?, InstitutionNotAllowed)
    else if e.means.Transfer? then When(e.institution.None? || e.institution.value.Unlisted?, InstitutionRequired)
    else When(e.institution.Some?, InstitutionNotAllowed)
  }

  function PaymentList(e: Evidence, received: Option<string>, amount: Option<nat>, key: string -> string): seq<Issue> {
    if e.means.Cash? then When(HasEvidence(e), ReferenceNotAllowed) + CashList(received) + BelowList(received, amount)
    else When(received.Some?, ReceivedOnlyForCash) + (LabelList(e) + ReferenceList(e, key) + InstitutionList(e))
  }

  function FixedPaymentList(d: Draft, key: string -> string, n: nat): seq<Issue>
    requires n <= |d.fixed|
  {
    if n == 0 then []
    else
      var t := d.fixed[n - 1];
      FixedPaymentList(d, key, n - 1) + PaymentList(EvidenceOf(t), t.received, CentavosOf(t.amount), key)
  }

  function AvailabilityList(d: Draft, q: Quote, n: nat): seq<Issue>
    requires n <= |d.fixed|
  {
    if n == 0 then When(!Available(q.enabled, d.balanceMethod), MethodNotAvailable)
    else AvailabilityList(d, q, n - 1) + When(!Available(q.enabled, d.fixed[n - 1].means), MethodNotAvailable)
  }

  function CollectionList(d: Draft, q: Quote, n: nat): seq<Issue>
    requires n <= |d.fixed|
  {
    if n == 0 then [] else CollectionList(d, q, n - 1) + When(CollectionMismatch(d.fixed[n - 1], q), InvalidCollectionId)
  }

  function QuoteList(d: Draft, q: Option<Quote>): seq<Issue> {
    if q.None? then [] else AvailabilityList(d, q.value, |d.fixed|) + CollectionList(d, q.value, |d.fixed|)
  }

  /** Every issue in the order it is found: prices, fixed tenders, balance, availability, collections. */
  function IssueList(d: Draft, q: Option<Quote>, key: string -> string): seq<Issue> {
    When(|d.fixed| > 2, TooManyFixedTenders) + PricingList(d, |d.fixed|)
    + (FixedPaymentList(d, key, |d.fixed|) + PaymentList(BalanceEvidence(d), d.received, None, key))
    + QuoteList(d, q)
  }

  lemma NoPricing(d: Draft, issue: Issue)
    ensures !PricingRaises(d, 0, issue)
  {
  }

  lemma {:induction false} PricingListIs(d: Draft, n: nat, issue: Issue)
    requires n <= |d.fixed|
    ensures issue in PricingList(d, n) <==> PricingRaises(d, n, issue)
  {
    hide PricingRaises, TenderPricing, TenderPricingList;
    if n > 0 {
      PricingListIs(d, n - 1, issue);
      PricingNext(d, n - 1, issue);
      TenderPricingListIs(d, n - 1, issue);
    } else {
      NoPricing(d, issue);
    }
  }

  lemma TenderPricingListIs(d: Draft, i: nat, issue: Issue)
    requires i < |d.fixed|
    ensures issue in TenderPricingList(d, i) <==> TenderPricing(d, i, issue)
  {
    hide CentavosOf;
  }

  lemma LabelListIs(e: Evidence, key: string -> string, issue: Issue)
    ensures issue in LabelList(e) <==> NonCashRaises(e, key, issue) && (issue.InstitutionOtherNotAllowed? || issue.InstitutionOtherRequired?)
  {
    hide LabelFits, ReferenceFits, IsUuid;
  }

  lemma ReferenceListIs(e: Evidence, key: string -> string, issue: Issue)
    ensures issue in ReferenceList(e, key) <==> NonCashRaises(e, key, issue) && (issue.ReferenceXorCollection? || issue.ReferenceInvalid?)
  {
    hide LabelFits, ReferenceFits, IsUuid;
  }

  lemma InstitutionListIs(e: Evidence, key: string -> string, issue: Issue)
    ensures issue in InstitutionList(e) <==>
            NonCashRaises(e, key, issue) && (issue.InvalidCollectionId? || issue.InstitutionNotAllowed? || issue.InstitutionRequired?)
  {
    hide LabelFits, ReferenceFits, IsUuid;
  }

  lemma NonCashListIs(e: Evidence, key: string -> string, issue: Issue)
    ensures issue in LabelList(e) + ReferenceList(e, key) + InstitutionList(e) <==> NonCashRaises(e, key, issue)
  {
    LabelListIs(e, key, issue);
    ReferenceListIs(e, key, issue);
    InstitutionListIs(e, key, issue);
    hide LabelList, ReferenceList, InstitutionList, LabelFits, ReferenceFits, IsUuid;
  }

  lemma CashListIs(received: Option<string>, amount: Option<nat>, issue: Issue)
    ensures issue in CashList(received) + BelowList(received, amount) <==> CashRaises(received, amount, issue)
  {
    NothingEmptyIsCentavos();
    hide CentavosOf;
  }

  lemma PaymentListIs(e: Evidence, received: Option<string>, amount: Option<nat>, key: string -> string, issue: Issue)
    ensures issue in PaymentList(e, received, amount, key) <==> PaymentRaises(e, received, amount, key, issue)
  {
    hide CashList, BelowList, LabelList, ReferenceList, InstitutionList, CashRaises, NonCashRaises, HasEvidence;
    CashListIs(received, amount, issue);
    NonCashListIs(e, key, issue);
  }

  lemma {:induction false} FixedPaymentListIs(d: Draft, key: string -> string, n: nat, issue: Issue)
    requires n <= |d.fixed|
    ensures issue in FixedPaymentList(d, key, n) <==> exists i :: 0 <= i < n && TenderRaises(d.fixed[i], key, issue)
  {
    hide PaymentRaises, PaymentList, CentavosOf;
    if n > 0 {
      var t := d.fixed[n - 1];
      FixedPaymentListIs(d, key, n - 1, issue);
      PaymentListIs(EvidenceOf(t), t.received, CentavosOf(t.amount), key, issue);
      assert TenderRaises(d.fixed[n - 1], key, issue) <==> issue in PaymentList(EvidenceOf(t), t.received, CentavosOf(t.amount), key);
      hide TenderRaises;
    }
  }

  lemma {:induction false} AvailabilityListIs(d: Draft, q: Quote, n: nat, issue: Issue)
    requires n <= |d.fixed|
    ensures issue in AvailabilityList(d, q, n) <==>
            issue == MethodNotAvailable
            && (!Available(q.enabled, d.balanceMethod) || exists i :: 0 <= i < n && !Available(q.enabled, d.fixed[i].means))
  {
    hide Available;
    if n > 0 {
      AvailabilityListIs(d, q, n - 1, issue);
    }
  }

  lemma {:induction false} CollectionListIs(d: Draft, q: Quote, n: nat, issue: Issue)
    requires n <= |d.fixed|
    ensures issue in CollectionList(d, q, n) <==> issue == InvalidCollectionId && exists i :: 0 <= i < n && CollectionMismatch(d.fixed[i], q)
  {
    hide CollectionMismatch;
    if n > 0 {
      CollectionListIs(d, q, n - 1, issue);
    }
  }

  lemma QuoteListIs(d: Draft, q: Option<Quote>, issue: Issue)
    ensures issue in QuoteList(d, q) <==> q.Some? && QuoteRaises(d, q.value, issue)
  {
    hide Available, CollectionMismatch, AvailabilityList, CollectionList;
    if q.Some? {
      AvailabilityListIs(d, q.value, |d.fixed|, issue);
      CollectionListIs(d, q.value, |d.fixed|, issue);
    }
  }

  /** The list holds an issue exactly when its condition does. */
  lemma IssueListIs(d: Draft, q: Option<Quote>, key: string -> string, issue: Issue)
    ensures issue in IssueList(d, q, key) <==> Raised(d, q, key, issue)
  {
    hide PricingList, PricingRaises, FixedPaymentList, TenderRaises, PaymentList, PaymentRaises, QuoteList, QuoteRaises;
    PricingListIs(d, |d.fixed|, issue);
    FixedPaymentListIs(d, key, |d.fixed|, issue);
    PaymentListIs(BalanceEvidence(d), d.received, None, key, issue);
    QuoteListIs(d, q, issue);
    var pricing, payments := PricingList(d, |d.fixed|), FixedPaymentList(d, key, |d.fixed|);
    var balance, quoted := PaymentList(BalanceEvidence(d), d.received, None, key), QuoteList(d, q);
    assert issue in IssueList(d, q, key) <==>
           (issue == TooManyFixedTenders && |d.fixed| > 2) || issue in pricing || issue in payments || issue in balance || issue in quoted;
  }

  // ---- finding them --------------------------------------------------------------------------------------------

  method FindPricingIssues(d: Draft, issues: seq<Issue>) returns (out: seq<Issue>)
    ensures out == issues + When(|d.fixed| > 2, TooManyFixedTenders) + PricingList(d, |d.fixed|)
  {
    hide CentavosOf, TenderPricingList;
    out := issues;
    if |d.fixed| > 2 {
      out := out + [TooManyFixedTenders];
    }
    ghost var start := out;
    var methods: set<Method> := {};
    var i := 0;
    while i < |d.fixed|
      invariant 0 <= i <= |d.fixed|
      invariant forall m :: m in methods <==> exists k :: 0 <= k < i && d.fixed[k].means == m
      invariant out == start + PricingList(d, i)
    {
      out := FindTenderPricing(d, i, methods, out);
      methods := methods + {d.fixed[i].means};
      i := i + 1;
    }
  }

  /** One turn of the pricing loop; methods holds the methods seen before. */
  method FindTenderPricing(d: Draft, i: nat, methods: set<Method>, issues: seq<Issue>) returns (out: seq<Issue>)
    requires i < |d.fixed| && forall m :: m in methods <==> exists k :: 0 <= k < i && d.fixed[k].means == m
    ensures out == issues + TenderPricingList(d, i)
  {
    hide CentavosOf;
    var t := d.fixed[i];
    out := issues;
    if t.means in methods {
      out := out + [DuplicateMethod];
    }
    assert out == issues + When(t.means in methods, DuplicateMethod);
    if t.means == d.balanceMethod {
      out := out + [BalanceMethodAlsoFixed];
    }
    assert out == issues + (When(t.means in methods, DuplicateMethod) + When(t.means == d.balanceMethod, BalanceMethodAlsoFixed));
    var amount := CentavosOf(t.amount);
    if amount.None? {
      out := out + [InvalidAmount];
    } else if amount.value < 1 {
      out := out + [AmountBelowMinimum];
    }
  }

  predicate TenderPricing(d: Draft, i: nat, issue: Issue)
    requires i < |d.fixed|
  {
    || (issue == DuplicateMethod && exists k :: 0 <= k < i && d.fixed[k].means == d.fixed[i].means)
    || (issue == BalanceMethodAlsoFixed && d.fixed[i].means == d.balanceMethod)
    || AmountRaises(d.fixed[i], issue)
  }

  lemma PricingNext(d: Draft, i: nat, issue: Issue)
    requires i < |d.fixed|
    ensures PricingRaises(d, i + 1, issue) <==> PricingRaises(d, i, issue) || TenderPricing(d, i, issue)
  {
    if PricingRaises(d, i + 1, issue) {
      if k :| 0 <= k < i + 1 && AmountRaises(d.fixed[k], issue) {
        assert k < i || TenderPricing(d, i, issue);
      }
    }
  }

  method CashReceived(received: Option<string>, issues: seq<Issue>) returns (amount: Option<nat>, out: seq<Issue>)
    ensures amount == if received.Some? && received.value != "" then CentavosOf(received.value) else None
    ensures out == issues + CashList(received)
  {
    hide CentavosOf;
    out := issues;
    amount := None;
    if received.None? || received.value == "" {
      out := out + [ReceivedRequired];
      return;
    }
    amount := CentavosOf(received.value);
    if amount.None? {
      out := out + [InvalidAmount];
    }
  }

  /** The rules of every tender that is not cash, fixed or balance. */
  method FindNonCashIssues(e: Evidence, key: string -> string, issues: seq<Issue>) returns (out: seq<Issue>)
    ensures out == issues + (LabelList(e) + ReferenceList(e, key) + InstitutionList(e))
  {
    hide LabelFits, ReferenceFits, IsUuid;
    out := FindLabelIssues(e, issues);
    ghost var labelled := out;
    if e.reference.None? == e.collectionId.None? {
      out := out + [ReferenceXorCollection];
    } else if e.reference.Some? {
      if !ReferenceFits(e.reference.value, key) {
        out := out + [ReferenceInvalid];
      }
    }
    assert out == labelled + ReferenceList(e, key);
    hide LabelList, ReferenceList;
    out := FindInstitutionIssues(e, out);
  }

  method FindLabelIssues(e: Evidence, issues: seq<Issue>) returns (out: seq<Issue>)
    ensures out == issues + LabelList(e)
  {
    hide LabelFits;
    out := issues;
    if e.institutionOther.Some? {
      if e.institution != Some(OtherInstitution) {
        out := out + [InstitutionOtherNotAllowed];
      } else if !LabelFits(e.institutionOther.value) {
        out := out + [InstitutionOtherRequired];
      }
    } else if e.institution == Some(OtherInstitution) {
      out := out + [InstitutionOtherRequired];
    }
  }

  method FindInstitutionIssues(e: Evidence, issues: seq<Issue>) returns (out: seq<Issue>)
    ensures out == issues + InstitutionList(e)
  {
    hide IsUuid;
    out := issues;
    if e.collectionId.Some? {
      if !IsUuid(e.collectionId.value) {
        out := out + [InvalidCollectionId];
      }
      if e.institution.Some? {
        out := out + [InstitutionNotAllowed];
      }
      return;
    }
    if e.means == Transfer {
      if e.institution.None? || e.institution.value.Unlisted? {
        out := out + [InstitutionRequired];
      }
    } else if e.institution.Some? {
      out := out + [InstitutionNotAllowed];
    }
  }

  /** One tender's payment data. */
  method FindTenderIssues(e: Evidence, received: Option<string>, amount: Option<nat>, key: string -> string, issues: seq<Issue>)
    returns (out: seq<Issue>)
    ensures out == issues + PaymentList(e, received, amount, key)
  {
    hide LabelList, ReferenceList, InstitutionList;
    NothingEmptyIsCentavos();
    hide CentavosOf;
    out := issues;
    if e.means == Cash {
      if HasEvidence(e) {
        out := out + [ReferenceNotAllowed];
      }
      var got;
      got, out := CashReceived(received, out);
      if got.Some? && amount.Some? && got.value < amount.value {
        out := out + [ReceivedBelowAmount];
      }
      return;
    }
    if received.Some? {
      out := out + [ReceivedOnlyForCash];
    }
    out := FindNonCashIssues(e, key, out);
  }

  lemma NothingEmptyIsCentavos()
    ensures CentavosOf("").None?
  {
  }

  method FindPaymentIssues(d: Draft, key: string -> string, issues: seq<Issue>) returns (out: seq<Issue>)
    ensures out == issues + (FixedPaymentList(d, key, |d.fixed|) + PaymentList(BalanceEvidence(d), d.received, None, key))
  {
    hide PaymentList, CentavosOf;
    out := issues;
    var i := 0;
    while i < |d.fixed|
      invariant 0 <= i <= |d.fixed|
      invariant out == issues + FixedPaymentList(d, key, i)
    {
      var t := d.fixed[i];
      out := FindTenderIssues(EvidenceOf(t), t.received, CentavosOf(t.amount), key, out);
      i := i + 1;
    }
    out := FindTenderIssues(BalanceEvidence(d), d.received, None, key, out);
  }

  method MethodAvailability(enabled: seq<Enabled>) returns (availability: map<Method, bool>)
    ensures forall m :: m in availability && availability[m] == Available(enabled, m)
  {
    assert enabled[..0] == [];
    availability := map[Cash := false, Transfer := false, CardDebit := false, CardCredit := false, Qr := false];
    forall m ensures m in availability && !availability[m] {
      match m
      case Cash => case Transfer => case CardDebit => case CardCredit => case Qr =>
    }
    var i := 0;
    while i < |enabled|
      invariant 0 <= i <= |enabled|
      invariant forall m :: m in availability && availability[m] == Available(enabled[..i], m)
    {
      assert enabled[..i + 1][..i] == enabled[..i];
      availability := availability[enabled[i].means := enabled[i].available];
      i := i + 1;
    }
    assert enabled[..|enabled|] == enabled;
  }

  method FindAvailabilityIssues(d: Draft, q: Quote, issues: seq<Issue>) returns (out: seq<Issue>)
    ensures out == issues + AvailabilityList(d, q, |d.fixed|)
  {
    hide Available;
    out := issues;
    var availability := MethodAvailability(q.enabled);
    if !availability[d.balanceMethod] {
      out := out + [MethodNotAvailable];
    }
    var i := 0;
    while i < |d.fixed|
      invariant 0 <= i <= |d.fixed|
      invariant out == issues + AvailabilityList(d, q, i)
    {
      if !availability[d.fixed[i].means] {
        out := out + [MethodNotAvailable];
      }
      i := i + 1;
    }
  }

  method FindCollectionIssues(d: Draft, q: Quote, issues: seq<Issue>) returns (out: seq<Issue>)
    ensures out == issues + CollectionList(d, q, |d.fixed|)
  {
    hide FindCollection;
    out := issues;
    var i := 0;
    while i < |d.fixed|
      invariant 0 <= i <= |d.fixed|
      invariant out == issues + CollectionList(d, q, i)
    {
      var t := d.fixed[i];
      if t.collectionId.Some? {
        var pending := FindCollection(q.collections, t.collectionId.value);
        if pending.None? {
          out := out + [InvalidCollectionId];
        } else if pending.value.means != t.means || Show(pending.value.amount) != t.amount {
          out := out + [InvalidCollectionId];
        }
      }
      i := i + 1;
    }
  }

  /** The list without repetitions, first occurrences in order. */
  function Once(s: seq<Issue>): seq<Issue> {
    if |s| == 0 then []
    else if s[|s| - 1] in s[..|s| - 1] then Once(s[..|s| - 1])
    else Once(s[..|s| - 1]) + [s[|s| - 1]]
  }

  lemma {:induction false} OnceIs(s: seq<Issue>)
    ensures Distinct(Once(s)) && forall x :: x in Once(s) <==> x in s
  {
    if |s| > 0 {
      OnceIs(s[..|s| - 1]);
      assert s == s[..|s| - 1] + [s[|s| - 1]];
    }
  }

  lemma {:induction false} OnceKeepsTheFirst(s: seq<Issue>)
    requires |s| > 0
    ensures |Once(s)| > 0 && Once(s)[0] == s[0]
  {
    if |s| > 1 {
      OnceKeepsTheFirst(s[..|s| - 1]);
    } else {
      assert s[..0] == [];
    }
  }

  /** Everything that keeps the charge from being put together, each reason once and in the order it is first found: an issue is listed
      if and only if its condition holds. */
  method DraftIssues(d: Draft, q: Option<Quote>, key: string -> string) returns (issues: seq<Issue>)
    ensures issues == Once(IssueList(d, q, key))
    ensures Distinct(issues) && forall x :: x in issues <==> Raised(d, q, key, x)
    ensures |issues| > 0 ==> issues[0] == IssueList(d, q, key)[0]
  {
    hide PricingList, FixedPaymentList, PaymentList, AvailabilityList, CollectionList, Raised, When;
    issues := FindPricingIssues(d, []);
    issues := FindPaymentIssues(d, key, issues);
    if q.Some? {
      issues := FindAvailabilityIssues(d, q.value, issues);
      issues := FindCollectionIssues(d, q.value, issues);
    }
    assert issues == IssueList(d, q, key);
    OnceIs(issues);
    if |issues| > 0 {
      OnceKeepsTheFirst(issues);
    }
    forall x ensures x in issues <==> Raised(d, q, key, x) {
      IssueListIs(d, q, key, x);
    }
    issues := Once(issues);
  }
}
