/** The two ways to charge: one request, or a reservation and its confirmation. Over any draft and quote that pass, both carry the same
    payment evidence, tender by tender. */
module CheckoutRoutes {
  import opened Wrappers
  import opened Ordering
  import opened Sequences
  import opened Decimal
  import opened Texts
  import opened CheckoutTypes
  import opened CheckoutIssues
  import opened CheckoutMatch

  /** No issue's condition holds. */
  ghost predicate Clean(d: Draft, q: Option<Quote>, key: string -> string) {
    forall x :: !Raised(d, q, key, x)
  }

  lemma CleanMeansNoIssue(d: Draft, q: Option<Quote>, key: string -> string)
    ensures Clean(d, q, key) <==> IssueList(d, q, key) == []
  {
    hide Raised, IssueList;
    forall x ensures x in IssueList(d, q, key) <==> Raised(d, q, key, x) {
      IssueListIs(d, q, key, x);
    }
    if IssueList(d, q, key) != [] {
      assert IssueList(d, q, key)[0] in IssueList(d, q, key);
    }
  }

  /** The one reason reported for a draft: the first issue that is found. */
  function DraftRefusal(d: Draft, q: Option<Quote>, key: string -> string): Option<Refusal> {
    if IssueList(d, q, key) == [] then None else Some(DraftRefused(IssueList(d, q, key)[0]))
  }

  /** Against its quote: the match, then the first issue. */
  function QuotedRefusal(order: (string, string) -> Cmp, d: Draft, q: Quote, saleId: string, key: string -> string): Option<Refusal> {
    if !QuoteMatchesDraft(order, q, d, saleId) then Some(QuoteDoesNotMatchDraft) else DraftRefusal(d, Some(q), key)
  }

  // ---- one request ---------------------------------------------------------------------------------------------

  /** Reference and institution of a tender that is not cash; the label of another institution travels trimmed. */
  function WithReference(t: CheckoutTender, reference: Option<string>, institution: Option<Institution>, other: Option<string>): CheckoutTender {
    if !t.means.Transfer? then t.(reference := reference)
    else
      t.(reference := reference, institution := institution,
         institutionOther := if institution == Some(OtherInstitution) then Some(Trim(if other.Some? then other.value else "")) else None)
  }

  function FixedBody(t: FixedTender): CheckoutTender {
    var bare := CheckoutTender(t.means, FixedRole, Some(t.amount), None, None, None, None, None);
    if t.means.Cash? then bare.(received := t.received)
    else if t.collectionId.Some? then bare.(collectionId := t.collectionId)
    else WithReference(bare, t.reference, t.institution, t.institutionOther)
  }

  function BalanceBody(d: Draft): CheckoutTender {
    var bare := CheckoutTender(d.balanceMethod, BalanceRole, None, None, None, None, None, None);
    if d.balanceMethod.Cash? then bare.(received := d.received)
    else WithReference(bare, d.balanceReference, d.balanceInstitution, d.balanceInstitutionOther)
  }

  function CheckoutTenders(d: Draft): seq<CheckoutTender> {
    Map(FixedBody, d.fixed) + [BalanceBody(d)]
  }

  /** The reason to refuse a draft, if there is one. */
  method CheckIssues(d: Draft, q: Option<Quote>, key: string -> string) returns (refusal: Option<Refusal>)
    ensures refusal == DraftRefusal(d, q, key)
    ensures refusal.None? <==> Clean(d, q, key)
    ensures refusal.Some? ==> refusal.value.DraftRefused? && Raised(d, q, key, refusal.value.issue)
  {
    hide Raised, IssueList, Once;
    CleanMeansNoIssue(d, q, key);
    refusal := None;
    var issues := DraftIssues(d, q, key);
    if |issues| > 0 {
      assert issues[0] in issues;
      return Some(DraftRefused(issues[0]));
    }
    assert Clean(d, q, key);
  }

  /** Against a quote, the match comes before the issues. */
  method CheckDraft(order: (string, string) -> Cmp, d: Draft, q: Quote, saleId: string, key: string -> string) returns (refusal: Option<Refusal>)
    ensures refusal == QuotedRefusal(order, d, q, saleId, key)
    ensures refusal.None? <==> QuoteMatchesDraft(order, q, d, saleId) && Clean(d, Some(q), key)
  {
    hide QuoteMatchesDraft, Raised, DraftRefusal, Clean;
    if !QuoteMatchesDraft(order, q, d, saleId) {
      return Some(QuoteDoesNotMatchDraft);
    }
    refusal := CheckIssues(d, Some(q), key);
  }

  method BuildCheckoutRequest(order: (string, string) -> Cmp, key: string -> string, saleId: string, cashSessionId: string, operationKey: string,
                              d: Draft, q: Quote) returns (result: Result<CheckoutBody, Refusal>)
    ensures result.Ok? <==>
      IsUuid(saleId) && IsUuid(cashSessionId) && IsUuidV4(operationKey)
      && QuoteMatchesDraft(order, q, d, saleId) && Clean(d, Some(q), key)
    ensures result.Ok? ==>
      result.value == CheckoutBody(operationKey, cashSessionId, d.balanceMethod, Show(q.total), Show(q.balanceAmount), CheckoutTenders(d))
    ensures result.Err? ==>
      Some(result.error) ==
        if !IsUuid(saleId) then Some(InvalidSaleId)
        else if !IsUuid(cashSessionId) then Some(InvalidSessionId)
        else if !IsUuidV4(operationKey) then Some(InvalidOperationKey)
        else QuotedRefusal(order, d, q, saleId, key)
  {
    hide QuoteMatchesDraft, Clean, QuotedRefusal, CheckoutTenders, IsUuid, IsUuidV4;
    if !IsUuid(saleId) {
      return Err(InvalidSaleId);
    }
    if !IsUuid(cashSessionId) {
      return Err(InvalidSessionId);
    }
    if !IsUuidV4(operationKey) {
      return Err(InvalidOperationKey);
    }
    var refusal := CheckDraft(order, d, q, saleId, key);
    if refusal.Some? {
      return Err(refusal.value);
    }
    result := Ok(CheckoutBody(operationKey, cashSessionId, d.balanceMethod, Show(q.total), Show(q.balanceAmount), CheckoutTenders(d)));
  }

  // ---- reserve, then confirm -----------------------------------------------------------------------------------

  function FixedReservation(t: FixedTender): ReservationTender {
    if t.collectionId.Some? then ReservationTender(t.means, FixedRole, CollectionSource, Some(t.amount), t.collectionId)
    else ReservationTender(t.means, FixedRole, NewSource, Some(t.amount), None)
  }

  function ReservationTenders(d: Draft): seq<ReservationTender> {
    Map(FixedReservation, d.fixed) + [ReservationTender(d.balanceMethod, BalanceRole, NewSource, None, None)]
  }

  method BuildReservationRequest(order: (string, string) -> Cmp, key: string -> string, saleId: string, reserveKey: string, cashSessionId: string,
                                 d: Draft, q: Quote) returns (result: Result<ReservationBody, Refusal>)
    ensures result.Ok? <==>
      IsUuid(saleId) && IsUuid(reserveKey) && IsUuid(cashSessionId)
      && QuoteMatchesDraft(order, q, d, saleId) && Clean(d, Some(q), key)
    ensures result.Ok? ==>
      result.value == ReservationBody(reserveKey, cashSessionId, d.balanceMethod, Show(q.total), Show(q.balanceAmount), ReservationTenders(d))
    ensures result.Err? ==>
      Some(result.error) ==
        if !IsUuid(saleId) then Some(InvalidSaleId)
        else if !IsUuid(reserveKey) then Some(InvalidOperationKey)
        else if !IsUuid(cashSessionId) then Some(InvalidSessionId)
        else QuotedRefusal(order, d, q, saleId, key)
  {
    hide QuoteMatchesDraft, Clean, QuotedRefusal, ReservationTenders, IsUuid;
    if !IsUuid(saleId) {
      return Err(InvalidSaleId);
    }
    if !IsUuid(reserveKey) {
      return Err(InvalidOperationKey);
    }
    if !IsUuid(cashSessionId) {
      return Err(InvalidSessionId);
    }
    var refusal := CheckDraft(order, d, q, saleId, key);
    if refusal.Some? {
      return Err(refusal.value);
    }
    result := Ok(ReservationBody(reserveKey, cashSessionId, d.balanceMethod, Show(q.total), Show(q.balanceAmount), ReservationTenders(d)));
  }

  function OrElse<T>(a: Option<T>, b: Option<T>): Option<T> {
    if a.Some? then a else b
  }

  function FindTender(fixed: seq<FixedTender>, m: Method): Option<FixedTender> {
    if |fixed| == 0 then None else if fixed[0].means == m then Some(fixed[0]) else FindTender(fixed[1..], m)
  }

  /** The evidence of one reserved tender: its own draft's fields, and where they are absent the balance's. */
  function ConfirmationEvidence(m: Method, t: Option<FixedTender>, d: Draft): ConfirmationTender {
    if m.Cash? then ConfirmationTender(m, OrElse(if t.Some? then t.value.received else None, d.received), None, None, None)
    else
      var reference := OrElse(if t.Some? then t.value.reference else None, d.balanceReference);
      if !m.Transfer? then ConfirmationTender(m, None, reference, None, None)
      else
        var institution := OrElse(if t.Some? then t.value.institution else None, d.balanceInstitution);
        var other := OrElse(if t.Some? then t.value.institutionOther else None, d.balanceInstitutionOther);
        ConfirmationTender(m, None, reference, institution,
                           if institution == Some(OtherInstitution) && other.Some? then Some(Trim(other.value)) else None)
  }

  function Confirmation(d: Draft): ReservedTender -> ConfirmationTender {
    (r: ReservedTender) =>
      if r.source.CollectionSource? then ConfirmationTender(r.means, None, None, None, None)
      else ConfirmationEvidence(r.means, if r.role.FixedRole? then FindTender(d.fixed, r.means) else None, d)
  }

  method BuildConfirmationRequest(key: string -> string, reserveKey: string, operationKey: string, d: Draft, reserved: seq<ReservedTender>)
    returns (result: Result<ConfirmationBody, Refusal>)
    ensures result.Ok? <==> IsUuid(reserveKey) && IsUuidV4(operationKey) && Clean(d, None, key)
    ensures result.Ok? ==> result.value == ConfirmationBody(reserveKey, operationKey, Map(Confirmation(d), reserved))
    ensures result.Err? ==>
      Some(result.error) ==
        if !IsUuid(reserveKey) || !IsUuidV4(operationKey) then Some(InvalidOperationKey) else DraftRefusal(d, None, key)
  {
    hide Clean, DraftRefusal, Confirmation, IsUuid, IsUuidV4;
    if !IsUuid(reserveKey) || !IsUuidV4(operationKey) {
      return Err(InvalidOperationKey);
    }
    var refusal := CheckIssues(d, None, key);
    if refusal.Some? {
      return Err(refusal.value);
    }
    result := Ok(ConfirmationBody(reserveKey, operationKey, Map(Confirmation(d), reserved)));
  }

  // ---- the refinement ------------------------------------------------------------------------------------------

  /** The server echoes what it was asked to reserve; what it says of the balance's amount plays no part. */
  predicate EchoesTender(r: ReservedTender, asked: ReservationTender) {
    r.means == asked.means && r.role == asked.role && r.source == asked.source && r.collectionId == asked.collectionId
  }

  /** A reservation tender and its confirmation, as one payment. */
  function Joined(asked: ReservationTender, confirmed: ConfirmationTender): CheckoutTender {
    CheckoutTender(asked.means, asked.role, asked.amount, confirmed.received, confirmed.reference, confirmed.institution, confirmed.institutionOther,
                   asked.collectionId)
  }

  lemma CleanTender(d: Draft, q: Option<Quote>, key: string -> string, i: nat)
    requires Clean(d, q, key) && i < |d.fixed|
    ensures forall x :: !TenderRaises(d.fixed[i], key, x)
  {
    hide TenderRaises, PricingRaises, BalanceRaises, QuoteRaises;
    forall x ensures !TenderRaises(d.fixed[i], key, x) {
      assert !Raised(d, q, key, x);
    }
  }

  lemma CleanBalance(d: Draft, q: Option<Quote>, key: string -> string)
    requires Clean(d, q, key)
    ensures forall x :: !BalanceRaises(d, key, x)
  {
    hide TenderRaises, PricingRaises, BalanceRaises, QuoteRaises;
    forall x ensures !BalanceRaises(d, key, x) {
      assert !Raised(d, q, key, x);
    }
  }

  /** In a clean draft no method occurs twice, so a tender is found by its method. */
  lemma FoundByMethod(d: Draft, q: Option<Quote>, key: string -> string, i: nat)
    requires Clean(d, q, key) && i < |d.fixed|
    ensures FindTender(d.fixed, d.fixed[i].means) == Some(d.fixed[i])
  {
    assert !Raised(d, q, key, DuplicateMethod);
    assert forall k :: 0 <= k < i ==> d.fixed[k].means != d.fixed[i].means;
    FoundFirst(d.fixed, i);
  }

  lemma {:induction false} FoundFirst(fixed: seq<FixedTender>, i: nat)
    requires i < |fixed| && forall k :: 0 <= k < i ==> fixed[k].means != fixed[i].means
    ensures FindTender(fixed, fixed[i].means) == Some(fixed[i])
  {
    if i > 0 {
      FoundFirst(fixed[1..], i - 1);
    }
  }

  /** What a clean payment carries: cash its received amount, the others exactly one of reference and collection, a transfer without a
      collection an institution, and a label exactly with the other institution. */
  predicate CarriesEvidence(e: Evidence, received: Option<string>) {
    if e.means.Cash? then received.Some? && !HasEvidence(e)
    else
      && received.None?
      && (e.reference.Some? <==> e.collectionId.None?)
      && (e.institutionOther.Some? <==> e.institution == Some(OtherInstitution))
      && (e.institution.Some? <==> e.means.Transfer? && e.collectionId.None?)
  }

  lemma CleanPayment(e: Evidence, received: Option<string>, amount: Option<nat>, key: string -> string)
    requires forall x :: !PaymentRaises(e, received, amount, key, x)
    ensures CarriesEvidence(e, received)
  {
    hide LabelFits, ReferenceFits, CentavosOf;
    assert !PaymentRaises(e, received, amount, key, ReferenceNotAllowed);
    assert !PaymentRaises(e, received, amount, key, ReceivedRequired);
    assert !PaymentRaises(e, received, amount, key, ReceivedOnlyForCash);
    assert !PaymentRaises(e, received, amount, key, ReferenceXorCollection);
    assert !PaymentRaises(e, received, amount, key, InstitutionOtherNotAllowed);
    assert !PaymentRaises(e, received, amount, key, InstitutionOtherRequired);
    assert !PaymentRaises(e, received, amount, key, InstitutionNotAllowed);
    assert !PaymentRaises(e, received, amount, key, InstitutionRequired);
  }

  /** Fixed tenders: the same payment by either route, despite the fallbacks to the balance's fields. */
  lemma FixedRoutesAgree(d: Draft, q: Option<Quote>, key: string -> string, i: nat, r: ReservedTender)
    requires Clean(d, q, key) && i < |d.fixed| && EchoesTender(r, FixedReservation(d.fixed[i]))
    ensures Joined(FixedReservation(d.fixed[i]), Confirmation(d)(r)) == FixedBody(d.fixed[i])
  {
    var t := d.fixed[i];
    CleanTender(d, q, key, i);
    FoundByMethod(d, q, key, i);
    hide Clean, PaymentRaises, Trim, CentavosOf;
    forall x ensures !PaymentRaises(EvidenceOf(t), t.received, CentavosOf(t.amount), key, x) {
      assert !TenderRaises(t, key, x);
    }
    CleanPayment(EvidenceOf(t), t.received, CentavosOf(t.amount), key);
  }

  lemma BalanceRoutesAgree(d: Draft, q: Option<Quote>, key: string -> string, r: ReservedTender)
    requires Clean(d, q, key) && EchoesTender(r, ReservationTender(d.balanceMethod, BalanceRole, NewSource, None, None))
    ensures Joined(ReservationTender(d.balanceMethod, BalanceRole, NewSource, None, None), Confirmation(d)(r)) == BalanceBody(d)
  {
    CleanBalance(d, q, key);
    hide Clean, PaymentRaises, Trim, CentavosOf;
    forall x ensures !PaymentRaises(BalanceEvidence(d), d.received, None, key, x) {
      assert !BalanceRaises(d, key, x);
    }
    CleanPayment(BalanceEvidence(d), d.received, None, key);
  }

  /** Reserving and then confirming carries, tender by tender, what the one request would have carried. */
  lemma RoutesCarryTheSameEvidence(d: Draft, q: Option<Quote>, key: string -> string, reserved: seq<ReservedTender>)
    requires Clean(d, q, key)
    requires |reserved| == |ReservationTenders(d)|
    requires forall i :: 0 <= i < |reserved| ==> EchoesTender(reserved[i], ReservationTenders(d)[i])
    ensures |reserved| == |CheckoutTenders(d)|
    ensures forall i :: 0 <= i < |reserved| ==>
      Joined(ReservationTenders(d)[i], Map(Confirmation(d), reserved)[i]) == CheckoutTenders(d)[i]
  {
    hide Clean, EchoesTender, Joined, Confirmation, FixedReservation, FixedBody, BalanceBody;
    forall i | 0 <= i < |reserved| ensures Joined(ReservationTenders(d)[i], Map(Confirmation(d), reserved)[i]) == CheckoutTenders(d)[i] {
      if i < |d.fixed| {
        FixedRoutesAgree(d, q, key, i, reserved[i]);
      } else {
        BalanceRoutesAgree(d, q, key, reserved[i]);
      }
    }
  }

  /** A draft that is clean against its quote is clean without it, so a reservation's confirmation is not refused for the draft. */
  lemma CleanWithoutQuote(d: Draft, q: Quote, key: string -> string)
    requires Clean(d, Some(q), key)
    ensures Clean(d, None, key)
  {
    forall x ensures !Raised(d, None, key, x) {
      assert !Raised(d, Some(q), key, x);
    }
  }

  /** Without the checks the fallbacks would lend a fixed tender the balance's evidence: a debit tender that lacks its own reference
      would be confirmed under the balance's. */
  lemma FallbackWouldLend()
    ensures exists d: Draft, r: ReservedTender ::
      |d.fixed| == 1 && EchoesTender(r, FixedReservation(d.fixed[0])) && Joined(FixedReservation(d.fixed[0]), Confirmation(d)(r)) != FixedBody(d.fixed[0])
  {
    var t := FixedTender(CardDebit, "100", None, None, None, None, None);
    var d := Draft(Qr, [t], None, Some("REF123"), None, None);
    var r := ReservedTender(CardDebit, FixedRole, NewSource, Some(100), None);
    assert FindTender(d.fixed, CardDebit) == Some(t);
    assert Confirmation(d)(r).reference == Some("REF123");
    assert d.fixed[0] == t && FixedBody(t).reference == None;
  }
}
