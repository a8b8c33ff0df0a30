/** Values shared by the three screens: optional values, the JavaScript
    numbers a form cell can hold, and the JSON values a request body carries. */
module Common {

  datatype Option<+T> = None | Some(value: T)

  /** A JavaScript number as the forms see it: NaN (what `parseFloat`
      yields for text it cannot read) or a finite value, kept exact. */
  datatype Num = NaN | Fin(v: real)

  /** `parseFloat(text)` given the outcome of reading `text`: NaN on failure. */
  function FromParse(parsed: Option<real>): (n: Num)
    ensures n.Fin? <==> parsed.Some?
    ensures parsed.Some? ==> n.v == parsed.value
  {
    match parsed
    case Some(x) => Fin(x)
    case None => NaN
  }

  /** `parseFloat(text) || 0`: NaN (and 0) are falsy, so a failed read becomes 0. */
  function OrZero(parsed: Option<real>): (x: real)
    ensures parsed.None? ==> x == 0.0
    ensures parsed.Some? ==> x == parsed.value
  {
    match parsed
    case Some(y) => y
    case None => 0.0
  }

  // IEEE-754 arithmetic where NaN absorbs everything and finite values
  // combine exactly.

  function Add(a: Num, b: Num): Num {
    if a.Fin? && b.Fin? then Fin(a.v + b.v) else NaN
  }

  function Sub(a: Num, b: Num): Num {
    if a.Fin? && b.Fin? then Fin(a.v - b.v) else NaN
  }

  function Mul(a: Num, b: Num): Num {
    if a.Fin? && b.Fin? then Fin(a.v * b.v) else NaN
  }

  /** Division by a non-zero constant (the forms divide only by 100 and 2). */
  function DivBy(a: Num, d: real): Num
    requires d != 0.0
  {
    if a.Fin? then Fin(a.v / d) else NaN
  }

  /** The REST endpoints all three screens call. */
  const ApiBase: string := "http://localhost:8000/api/v1/invoice/"

  /** A JSON value as `JSON.stringify` writes it. */
  datatype JsonValue = JString(s: string) | JNumber(n: real) | JBool(b: bool) | JNull

  /** The property names the request bodies use. */
  datatype Key =
    | IdKey | CompanyNameKey | CustomerNameKey | ContactNumberKey | EmailAddressKey
    | AddressKey | GstNumberKey | ProductNameKey | AmountKey | DiscountKey | GstRateKey
    | StatusKey | DateKey | IsActiveKey | TotalWithoutGstKey | TotalWithGstKey
    | CgstKey | SgstKey | PaidAmountKey | RemainingAmountKey | EmailKey

  /** The name of a property as it appears on the wire. */
  function KeyName(k: Key): string {
    match k
    case IdKey => "_id"
    case CompanyNameKey => "companyName"
    case CustomerNameKey => "customerName"
    case ContactNumberKey => "contactNumber"
    case EmailAddressKey => "emailAddress"
    case AddressKey => "address"
    case GstNumberKey => "gstNumber"
    case ProductNameKey => "productName"
    case AmountKey => "amount"
    case DiscountKey => "discount"
    case GstRateKey => "gstRate"
    case StatusKey => "status"
    case DateKey => "date"
    case IsActiveKey => "isActive"
    case TotalWithoutGstKey => "totalWithoutGst"
    case TotalWithGstKey => "totalWithGst"
    case CgstKey => "cgst"
    case SgstKey => "sgst"
    case PaidAmountKey => "paidAmount"
    case RemainingAmountKey => "remainingAmount"
    case EmailKey => "email"
  }

  /** A JSON object, its properties named by `KeyName`. */
  type JsonObject = map<Key, JsonValue>

  /** `JSON.stringify` writes NaN as `null`. */
  function NumJson(n: Num): (j: JsonValue)
    ensures j.JNull? <==> n.NaN?
    ensures n.Fin? ==> j == JNumber(n.v)
  {
    match n
    case Fin(x) => JNumber(x)
    case NaN => JNull
  }
}
