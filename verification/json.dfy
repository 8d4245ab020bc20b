/** A parsed JSON value. Objects have no duplicate property names and no order, as after JSON.parse. */
module Json {
  /** A property name: one of those the exchange store and its reads use, or any other text. Named tells which. */
  datatype Name =
    | V | USER_ID | BRANCH_ID | SALE_ID | PAYLOAD | WATERMARKS | FINGERPRINT | IDEMPOTENCY_KEY | STATUS | EXCHANGE_ID | CONFIRMED_AT
    | REASON | LINES | SALE_ITEM_ID | REPLACEMENT_VARIANT_ID | RETURN_QUANTITY | EXCHANGED_QUANTITY_BEFORE
    | EXPECTED_EXCHANGED_QUANTITY_AFTER | SALE | ID | SALE_NUMBER | EXCHANGEABLE | VARIANT_ID | QUANTITY | EXCHANGED_QUANTITY
    | REMAINING_QUANTITY
    | Other(name: string)

  datatype Json =
    | Null
    | Bool(value: bool)
    | Num(number: real)
    | Str(text: string)
    | Arr(items: seq<Json>)
    | Obj(fields: map<Name, Json>)

  /** The text of a property name. */
  function TextOf(n: Name): string {
    match n
    case V => "v" case USER_ID => "userId" case BRANCH_ID => "branchId" case SALE_ID => "saleId"
    case PAYLOAD => "payload" case WATERMARKS => "watermarks" case FINGERPRINT => "fingerprint"
    case IDEMPOTENCY_KEY => "idempotencyKey" case STATUS => "status" case EXCHANGE_ID => "exchangeId"
    case CONFIRMED_AT => "confirmedAt" case REASON => "reason" case LINES => "lines" case SALE_ITEM_ID => "saleItemId"
    case REPLACEMENT_VARIANT_ID => "replacementVariantId" case RETURN_QUANTITY => "returnQuantity"
    case EXCHANGED_QUANTITY_BEFORE => "exchangedQuantityBefore"
    case EXPECTED_EXCHANGED_QUANTITY_AFTER => "expectedExchangedQuantityAfter" case SALE => "sale" case ID => "id"
    case SALE_NUMBER => "saleNumber" case EXCHANGEABLE => "exchangeable" case VARIANT_ID => "variantId"
    case QUANTITY => "quantity" case EXCHANGED_QUANTITY => "exchangedQuantity"
    case REMAINING_QUANTITY => "remainingQuantity" case Other(s) => s
  }

  const LISTED: seq<Name> :=
    [V, USER_ID, BRANCH_ID, SALE_ID, PAYLOAD, WATERMARKS, FINGERPRINT, IDEMPOTENCY_KEY, STATUS, EXCHANGE_ID, CONFIRMED_AT, REASON, LINES,
     SALE_ITEM_ID, REPLACEMENT_VARIANT_ID, RETURN_QUANTITY, EXCHANGED_QUANTITY_BEFORE, EXPECTED_EXCHANGED_QUANTITY_AFTER, SALE, ID,
     SALE_NUMBER, EXCHANGEABLE, VARIANT_ID, QUANTITY, EXCHANGED_QUANTITY, REMAINING_QUANTITY]

  /** The first of these names with this text, or the text as another name. */
  function FindName(names: seq<Name>, s: string): (n: Name)
    ensures TextOf(n) == s
  {
    if |names| == 0 then Other(s) else if TextOf(names[0]) == s then names[0] else FindName(names[1..], s)
  }

  /** The one name of a property: Other is for texts that are not listed. */
  function Named(s: string): (n: Name)
    ensures TextOf(n) == s
  {
    FindName(LISTED, s)
  }

  const MAX_SAFE_INTEGER: int := 9007199254740991

  predicate IsSafeInteger(n: real) {
    n.Floor as real == n && -MAX_SAFE_INTEGER <= n.Floor <= MAX_SAFE_INTEGER
  }

  /** The object carries exactly these properties. */
  predicate HasExactNames(j: Json, names: set<Name>) {
    j.Obj? && j.fields.Keys == names
  }
}
