/** The values of the exchange draft store: drafts, canonical payloads, watermarks, attempts and durable records. Quantities
    are carried as numbers; Decimal shows that their canonical text is the same information. */
module ExchangeTypes {
  import opened Wrappers

  type Key = string

  datatype CanonicalLine = CanonicalLine(saleItemId: string, replacementVariantId: string, returnQuantity: nat)
  datatype Payload = Payload(reason: string, lines: seq<CanonicalLine>)

  /** What was already exchanged of an item before an attempt, and what a read must show once the attempt is confirmed. */
  datatype Watermark = Watermark(saleItemId: string, before: nat, after: nat)

  /** An editable line: the replacement and the quantity are typed by a person, the baseline comes from a read. */
  datatype DraftLine = DraftLine(saleItemId: string, replacementVariantId: Option<string>, returnQuantity: string, before: nat)
  datatype AvailableLine = AvailableLine(saleItemId: string, before: nat)

  datatype Status = SENDING | UNCERTAIN | CONFIRMED | REJECTED

  datatype Attempt = Attempt(
    key: Key, fingerprint: string, payload: Payload, watermarks: seq<Watermark>, status: Status,
    exchangeId: Option<string>, confirmedAt: Option<int>)

  datatype Recovery = Unreadable | StorageError | ResolvedElsewhere | ConfirmedTombstone | StaleBaseline

  datatype Draft = Draft(
    userId: string, branchId: string, saleId: string, reason: string, lines: seq<DraftLine>, available: seq<AvailableLine>,
    attempt: Option<Attempt>, recovery: Option<Recovery>)

  /** One durable record: an attempt filed under its user and sale. A CONFIRMED record is a tombstone. */
  datatype Record = Record(
    userId: string, branchId: string, saleId: string, payload: Payload, watermarks: seq<Watermark>, fingerprint: string,
    key: Key, status: Status, exchangeId: Option<string>, confirmedAt: Option<int>)

  datatype Outcome = Confirmed(exchangeId: string) | Uncertain | Rejected
}
