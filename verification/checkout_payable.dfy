/** What a payable draft is, said positively: how it pays, not what could be wrong with it. */
module CheckoutPayable {
  import opened Wrappers
  import opened Sequences
  import opened Decimal
  import opened Texts
  import opened CheckoutTypes
  import opened CheckoutIssues
  import opened CheckoutRoutes

  const LIMIT: nat := 0x8000_0000_0000_0000

  /** The text of an amount of centavos that PostgreSQL's int8 can hold, and not less than this. */
  ghost predicate IsAmountFrom(s: string, least: nat) {
    exists n: nat :: s == Show(n) && least <= n < LIMIT
  }

  /** Cash: what was received, enough for the amount when there is one, and nothing else. */
  ghost predicate PaysInCash(e: Evidence, received: Option<string>, least: nat) {
    && received.Some? && IsAmountFrom(received.value, least)
    && e.reference.None? && e.institution.None? && e.institutionOther.None? && e.collectionId.None?
  }

  predicate NamesInstitution(e: Evidence) {
    && e.institution.Some? && !e.institution.value.Unlisted?
    && if e.institution.value.OtherInstitution? then e.institutionOther.Some? && 1 <= Utf16Length(Trim(e.institutionOther.value)) <= 60
       else e.institutionOther.None?
  }

  /** Anything else: a pending collection and nothing more, or a reference, for a transfer with the institution it came through. */
  predicate PaysByReference(e: Evidence, received: Option<string>, key: string -> string) {
    && received.None?
    && (if e.collectionId.Some? then IsUuid(e.collectionId.value) && e.reference.None?
        else e.reference.Some? && 1 <= |e.reference.value| <= 64 && 3 <= |key(e.reference.value)| <= 40)
    && (if e.means.Transfer? && e.collectionId.None? then NamesInstitution(e) else e.institution.None? && e.institutionOther.None?)
  }

  ghost predicate Pays(e: Evidence, received: Option<string>, least: nat, key: string -> string) {
    if e.means.Cash? then PaysInCash(e, received, least) else PaysByReference(e, received, key)
  }

  ghost predicate FixedPays(t: FixedTender, key: string -> string) {
    exists n: nat :: t.amount == Show(n) && 0 < n < LIMIT
      && Pays(Evidence(t.means, t.reference, t.institution, t.institutionOther, t.collectionId), t.received, n, key)
  }

  /** The quote's last word on the method is that it can be used. */
  ghost predicate Offers(enabled: seq<Enabled>, m: Method) {
    exists i :: 0 <= i < |enabled| && enabled[i] == Enabled(m, true) && forall j :: i < j < |enabled| ==> enabled[j].means != m
  }

  /** The first collection of the quote with this id is pending for this method and amount. */
  ghost predicate IsPending(collections: seq<Collection>, id: string, m: Method, amount: string) {
    exists i: nat :: IsFirstWith(collections, id, i) && collections[i].means == m && amount == Show(collections[i].amount)
  }

  /** What the quote lets the cashier use. */
  ghost predicate Allows(q: Quote, d: Draft) {
    && Offers(q.enabled, d.balanceMethod)
    && (forall i :: 0 <= i < |d.fixed| ==> Offers(q.enabled, d.fixed[i].means))
    && (forall i :: 0 <= i < |d.fixed| && d.fixed[i].collectionId.Some? ==>
          IsPending(q.collections, d.fixed[i].collectionId.value, d.fixed[i].means, d.fixed[i].amount))
  }

  /** At most two fixed tenders by methods of their own, each of a positive amount and with what its method needs, and a balance by yet
      another method; all of it as the quote allows, when there is one. */
  ghost predicate Payable(d: Draft, q: Option<Quote>, key: string -> string) {
    && |d.fixed| <= 2
    && (forall i :: 0 <= i < |d.fixed| ==> FixedPays(d.fixed[i], key))
    && (forall i, j :: 0 <= i < j < |d.fixed| ==> d.fixed[i].means != d.fixed[j].means)
    && (forall i :: 0 <= i < |d.fixed| ==> d.fixed[i].means != d.balanceMethod)
    && Pays(Evidence(d.balanceMethod, d.balanceReference, d.balanceInstitution, d.balanceInstitutionOther, None), d.received, 0, key)
    && (q.Some? ==> Allows(q.value, d))
  }

  // ---- payments ------------------------------------------------------------------------------------------------

  function Least(amount: Option<nat>): nat {
    if amount.Some? then amount.value else 0
  }

  /** A payment raises no issue exactly when it pays. */
  lemma PaysIfNothingIsRaised(e: Evidence, received: Option<string>, amount: Option<nat>, key: string -> string)
    ensures (forall x :: !PaymentRaises(e, received, amount, key, x)) <==> Pays(e, received, Least(amount), key)
  {
    if e.means.Cash? {
      CashPays(e, received, amount, key);
    } else {
      ReferencePays(e, received, amount, key);
    }
  }

  lemma CashPays(e: Evidence, received: Option<string>, amount: Option<nat>, key: string -> string)
    requires e.means.Cash?
    ensures (forall x :: !PaymentRaises(e, received, amount, key, x)) <==> PaysInCash(e, received, Least(amount))
  {
    hide CentavosOf, NonCashRaises;
    if received.Some? {
      AmountIs(received.value, Least(amount));
    }
    if forall x :: !PaymentRaises(e, received, amount, key, x) {
      assert !PaymentRaises(e, received, amount, key, ReferenceNotAllowed);
      assert !PaymentRaises(e, received, amount, key, ReceivedRequired);
      assert !PaymentRaises(e, received, amount, key, InvalidAmount);
      assert !PaymentRaises(e, received, amount, key, ReceivedBelowAmount);
    } else {
      NothingEmptyIsCentavos();
    }
  }

  lemma ReferencePays(e: Evidence, received: Option<string>, amount: Option<nat>, key: string -> string)
    requires !e.means.Cash?
    ensures (forall x :: !PaymentRaises(e, received, amount, key, x)) <==> PaysByReference(e, received, key)
  {
    hide Utf16Length, Trim, IsUuid, CashRaises;
    if forall x :: !PaymentRaises(e, received, amount, key, x) {
      assert !PaymentRaises(e, received, amount, key, ReceivedOnlyForCash);
      assert !PaymentRaises(e, received, amount, key, ReferenceXorCollection);
      assert !PaymentRaises(e, received, amount, key, ReferenceInvalid);
      assert !PaymentRaises(e, received, amount, key, InvalidCollectionId);
      assert !PaymentRaises(e, received, amount, key, InstitutionOtherNotAllowed);
      assert !PaymentRaises(e, received, amount, key, InstitutionOtherRequired);
      assert !PaymentRaises(e, received, amount, key, InstitutionNotAllowed);
      assert !PaymentRaises(e, received, amount, key, InstitutionRequired);
    }
  }

  lemma AmountIs(s: string, least: nat)
    ensures IsAmountFrom(s, least) <==> CentavosOf(s).Some? && CentavosOf(s).value >= least
  {
    if CentavosOf(s).Some? {
      CentavosOfIs(s, CentavosOf(s).value);
    }
    if n: nat :| s == Show(n) && least <= n < LIMIT {
      CentavosOfIs(s, n);
    }
  }

  /** A fixed tender pays exactly when neither its amount nor its payment raises anything. */
  lemma FixedPaysIf(t: FixedTender, key: string -> string)
    ensures FixedPays(t, key) <==> (forall x :: !AmountRaises(t, x) && !TenderRaises(t, key, x))
  {
    var amount := CentavosOf(t.amount);
    PaysIfNothingIsRaised(EvidenceOf(t), t.received, amount, key);
    forall n: nat | t.amount == Show(n) && n < LIMIT ensures amount == Some(n) {
      CentavosOfIs(t.amount, n);
    }
    if amount.Some? {
      CentavosOfIs(t.amount, amount.value);
    }
    hide Pays, CentavosOf, PaymentRaises;
    if forall x :: !AmountRaises(t, x) && !TenderRaises(t, key, x) {
      assert !AmountRaises(t, InvalidAmount) && !AmountRaises(t, AmountBelowMinimum);
      forall x ensures !PaymentRaises(EvidenceOf(t), t.received, amount, key, x) {
        assert !TenderRaises(t, key, x);
      }
    }
  }

  // ---- the quote -----------------------------------------------------------------------------------------------

  lemma {:induction false} LastWord(enabled: seq<Enabled>, m: Method)
    ensures Available(enabled, m) <==> Offers(enabled, m)
  {
    if |enabled| > 0 {
      var n := |enabled| - 1;
      LastWord(enabled[..n], m);
      if Offers(enabled[..n], m) && enabled[n].means != m {
        var i :| 0 <= i < n && enabled[..n][i] == Enabled(m, true) && forall j :: i < j < n ==> enabled[..n][j].means != m;
        assert forall j :: i < j < n ==> enabled[j] == enabled[..n][j];
        assert enabled[i] == Enabled(m, true);
      }
      if Offers(enabled, m) && enabled[n].means != m {
        var i :| 0 <= i <= n && enabled[i] == Enabled(m, true) && forall j :: i < j <= n ==> enabled[j].means != m;
        assert enabled[..n][i] == Enabled(m, true);
      }
    }
  }

  /** The collection at i is the first with this id. */
  predicate IsFirstWith(collections: seq<Collection>, id: string, i: nat) {
    i < |collections| && collections[i].id == id && forall j :: 0 <= j < i ==> collections[j].id != id
  }

  lemma {:induction false} FindsTheFirst(collections: seq<Collection>, id: string)
    ensures forall i: nat :: IsFirstWith(collections, id, i) ==> FindCollection(collections, id) == Some(collections[i])
    ensures FindCollection(collections, id).Some? ==> exists i: nat :: IsFirstWith(collections, id, i)
  {
    if |collections| > 0 && collections[0].id != id {
      var rest := collections[1..];
      FindsTheFirst(rest, id);
      assert forall i: nat :: IsFirstWith(collections, id, i + 1) <==> IsFirstWith(rest, id, i) by {
        forall i: nat {
          FirstShifts(collections, id, i);
        }
      }
      forall i: nat | IsFirstWith(collections, id, i) ensures FindCollection(collections, id) == Some(collections[i]) {
        assert i > 0 && IsFirstWith(rest, id, i - 1);
      }
      if i: nat :| IsFirstWith(rest, id, i) {
        assert IsFirstWith(collections, id, i + 1);
      }
    } else if |collections| > 0 {
      assert IsFirstWith(collections, id, 0);
    }
  }

  lemma FirstShifts(collections: seq<Collection>, id: string, i: nat)
    requires |collections| > 0 && collections[0].id != id
    ensures IsFirstWith(collections, id, i + 1) <==> IsFirstWith(collections[1..], id, i)
  {
    assert forall j :: 0 < j < |collections| ==> collections[j] == collections[1..][j - 1];
    if IsFirstWith(collections, id, i + 1) {
      forall j | 0 <= j < i ensures collections[1..][j].id != id {
        assert collections[1..][j] == collections[j + 1];
      }
    }
  }

  lemma FirstCollection(collections: seq<Collection>, id: string, m: Method, amount: string)
    ensures IsPending(collections, id, m, amount) <==>
            var found := FindCollection(collections, id); found.Some? && found.value.means == m && amount == Show(found.value.amount)
  {
    hide FindCollection, IsFirstWith, Show;
    FindsTheFirst(collections, id);
  }

  lemma AllowsIf(q: Quote, d: Draft)
    ensures Allows(q, d) <==> forall x :: !QuoteRaises(d, q, x)
  {
    hide Available, Offers, IsPending, FindCollection, Show;
    forall m ensures Available(q.enabled, m) <==> Offers(q.enabled, m) {
      LastWord(q.enabled, m);
    }
    forall i | 0 <= i < |d.fixed| && d.fixed[i].collectionId.Some?
      ensures CollectionMismatch(d.fixed[i], q) <==>
              !IsPending(q.collections, d.fixed[i].collectionId.value, d.fixed[i].means, d.fixed[i].amount)
    {
      FirstCollection(q.collections, d.fixed[i].collectionId.value, d.fixed[i].means, d.fixed[i].amount);
    }
    if forall x :: !QuoteRaises(d, q, x) {
      assert !QuoteRaises(d, q, MethodNotAvailable) && !QuoteRaises(d, q, InvalidCollectionId);
    }
  }

  // ---- the draft -----------------------------------------------------------------------------------------------

  /** No issue is raised exactly for the payable drafts. */
  lemma CleanIsPayable(d: Draft, q: Option<Quote>, key: string -> string)
    ensures Clean(d, q, key) <==> Payable(d, q, key)
  {
    forall i | 0 <= i < |d.fixed| ensures FixedPays(d.fixed[i], key) <==> (forall x :: !AmountRaises(d.fixed[i], x) && !TenderRaises(d.fixed[i], key, x)) {
      FixedPaysIf(d.fixed[i], key);
    }
    PaysIfNothingIsRaised(BalanceEvidence(d), d.received, None, key);
    if q.Some? {
      AllowsIf(q.value, d);
    }
    hide FixedPays, Pays, Allows, QuoteRaises, AmountRaises, TenderRaises, PaymentRaises;
    if Clean(d, q, key) {
      CleanPays(d, q, key);
    }
    if Payable(d, q, key) {
      forall x ensures !Raised(d, q, key, x) {
        assert !BalanceRaises(d, key, x);
        assert !PricingRaises(d, |d.fixed|, x);
      }
    }
  }

  lemma CleanPays(d: Draft, q: Option<Quote>, key: string -> string)
    requires Clean(d, q, key)
    ensures |d.fixed| <= 2
    ensures forall i, j :: 0 <= i < j < |d.fixed| ==> d.fixed[i].means != d.fixed[j].means
    ensures forall i :: 0 <= i < |d.fixed| ==> d.fixed[i].means != d.balanceMethod
    ensures forall i, x :: 0 <= i < |d.fixed| ==> !AmountRaises(d.fixed[i], x) && !TenderRaises(d.fixed[i], key, x)
    ensures forall x :: !PaymentRaises(BalanceEvidence(d), d.received, None, key, x)
    ensures q.Some? ==> forall x :: !QuoteRaises(d, q.value, x)
  {
    hide QuoteRaises, AmountRaises, TenderRaises, PaymentRaises;
    assert !Raised(d, q, key, TooManyFixedTenders) && !Raised(d, q, key, DuplicateMethod) && !Raised(d, q, key, BalanceMethodAlsoFixed);
    forall i, x | 0 <= i < |d.fixed| ensures !AmountRaises(d.fixed[i], x) && !TenderRaises(d.fixed[i], key, x) {
      assert !Raised(d, q, key, x);
    }
    forall x ensures !PaymentRaises(BalanceEvidence(d), d.received, None, key, x) {
      assert !Raised(d, q, key, x) && BalanceRaises(d, key, x) == PaymentRaises(BalanceEvidence(d), d.received, None, key, x);
    }
    if q.Some? {
      forall x ensures !QuoteRaises(d, q.value, x) {
        assert !Raised(d, q, key, x);
      }
    }
  }

  // ---- the request ---------------------------------------------------------------------------------------------

  function Trimmed(other: Option<string>): Option<string> {
    if other.Some? then Some(Trim(other.value)) else None
  }

  /** The request of a payable draft carries every field the cashier filled in, tender by tender, with labels trimmed and nothing added. */
  lemma RequestIsTheDraft(d: Draft, q: Option<Quote>, key: string -> string)
    requires Payable(d, q, key)
    ensures |CheckoutTenders(d)| == |d.fixed| + 1
    ensures forall i :: 0 <= i < |d.fixed| ==>
              var t := d.fixed[i];
              CheckoutTenders(d)[i] == CheckoutTender(t.means, FixedRole, Some(t.amount), t.received, t.reference, t.institution,
                                                      Trimmed(t.institutionOther), t.collectionId)
    ensures CheckoutTenders(d)[|d.fixed|]
            == CheckoutTender(d.balanceMethod, BalanceRole, None, d.received, d.balanceReference, d.balanceInstitution,
                              Trimmed(d.balanceInstitutionOther), None)
  {
    hide Utf16Length, Trim, IsUuid, Allows, Show;
    forall i | 0 <= i < |d.fixed|
      ensures var t := d.fixed[i];
              CheckoutTenders(d)[i] == CheckoutTender(t.means, FixedRole, Some(t.amount), t.received, t.reference, t.institution,
                                                      Trimmed(t.institutionOther), t.collectionId)
    {
      assert FixedPays(d.fixed[i], key);
    }
  }
}
