/** The checkout contract's data: the cashier's draft, the server's quote, and the bodies of the two routes. An absent field and a null
    one are the same here, as they are to every reader of these values. */
module CheckoutTypes {
  import opened Wrappers

  datatype Method = Cash | Transfer | CardDebit | CardCredit | Qr

  /** A listed institution, or a name outside the list, which the type allows but the checks refuse. */
  datatype Institution = Macro | Bbva | Nacion | Galicia | MercadoPago | OtherInstitution | Unlisted(name: string)

  datatype FixedTender = FixedTender(means: Method, amount: string, received: Option<string>, reference: Option<string>,
                                     institution: Option<Institution>, institutionOther: Option<string>, collectionId: Option<string>)

  datatype Draft = Draft(balanceMethod: Method, fixed: seq<FixedTender>, received: Option<string>, balanceReference: Option<string>,
                         balanceInstitution: Option<Institution>, balanceInstitutionOther: Option<string>)

  datatype QuoteTender = QuoteTender(means: Method, amount: nat)
  datatype Collection = Collection(id: string, means: Method, amount: nat)
  datatype Enabled = Enabled(means: Method, available: bool)
  datatype Quote = Quote(saleId: string, enabled: seq<Enabled>, tenders: seq<QuoteTender>, balanceMethod: Method, balanceAmount: nat, total: nat,
                         collections: seq<Collection>)

  datatype Issue = TooManyFixedTenders | DuplicateMethod | BalanceMethodAlsoFixed | InvalidAmount | AmountBelowMinimum | ReceivedRequired
                 | ReceivedBelowAmount | ReceivedOnlyForCash | ReferenceNotAllowed | ReferenceXorCollection | ReferenceInvalid
                 | InstitutionRequired | InstitutionNotAllowed | InstitutionOtherRequired | InstitutionOtherNotAllowed | InvalidCollectionId
                 | MethodNotAvailable

  datatype Refusal = InvalidSaleId | InvalidSessionId | InvalidOperationKey | QuoteDoesNotMatchDraft | DraftRefused(issue: Issue)

  datatype Role = FixedRole | BalanceRole
  datatype Source = NewSource | CollectionSource

  datatype CheckoutTender = CheckoutTender(means: Method, role: Role, amount: Option<string>, received: Option<string>, reference: Option<string>,
                                           institution: Option<Institution>, institutionOther: Option<string>, collectionId: Option<string>)
  datatype CheckoutBody = CheckoutBody(operationKey: string, cashSessionId: string, balanceMethod: Method, expectedTotal: string,
                                       expectedBalance: string, tenders: seq<CheckoutTender>)

  datatype ReservationTender = ReservationTender(means: Method, role: Role, source: Source, amount: Option<string>, collectionId: Option<string>)
  datatype ReservationBody = ReservationBody(reserveKey: string, cashSessionId: string, balanceMethod: Method, expectedTotal: string,
                                             expectedBalance: string, tenders: seq<ReservationTender>)

  /** What the server says it reserved. */
  datatype ReservedTender = ReservedTender(means: Method, role: Role, source: Source, amount: Option<nat>, collectionId: Option<string>)

  datatype ConfirmationTender = ConfirmationTender(means: Method, received: Option<string>, reference: Option<string>,
                                                   institution: Option<Institution>, institutionOther: Option<string>)
  datatype ConfirmationBody = ConfirmationBody(reserveKey: string, operationKey: string, tenders: seq<ConfirmationTender>)
}
