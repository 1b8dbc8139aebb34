/**
 * The data model of the Antaeus billing core: money, invoices, customers,
 * audit rows and the two enumerations they are built from.
 */
module Domain {

  datatype Option<+T> = None | Some(value: T)

  /** Kotlin's `Int`: every id in the system is a signed 32-bit integer. */
  type Int32 = x: int | -0x8000_0000 <= x < 0x8000_0000

  /** The closed currency enumeration, declared in this order. */
  datatype Currency = EUR | USD | DKK | SEK | GBP

  /** `Currency.values().sorted()`: enum constants sort by declaration order. */
  const Currencies: seq<Currency> := [EUR, USD, DKK, SEK, GBP]

  /** `Currency.name`, used as the message key and in the wire format. */
  function CurrencyName(c: Currency): string
  {
    match c
    case EUR => "EUR"
    case USD => "USD"
    case DKK => "DKK"
    case SEK => "SEK"
    case GBP => "GBP"
  }

  /** The invoice states; PAID and RETRY_FAILED are final for this pipeline. */
  datatype InvoiceStatus = Pending | Paid | Failed | RetryFailed

  /** The enum constant's name, as `toString()` prints it. */
  function StatusName(s: InvoiceStatus): string
  {
    match s
    case Pending => "PENDING"
    case Paid => "PAID"
    case Failed => "FAILED"
    case RetryFailed => "RETRY_FAILED"
  }

  /**
   * The billing state machine: a first attempt takes PENDING to PAID or
   * FAILED, a retry takes FAILED to PAID or RETRY_FAILED.
   */
  predicate IsTransition(from: InvoiceStatus, to: InvoiceStatus)
  {
    match from
    case Pending => to == Paid || to == Failed
    case Failed => to == Paid || to == RetryFailed
    case _ => false
  }

  /**
   * The text a `BigDecimal` prints for itself (`1000`, `356.54`, `1E+3`):
   * digits, a sign, a decimal point and an exponent marker, never a `|`.
   */
  predicate IsDecimalText(s: string)
  {
    |s| > 0 && forall i :: 0 <= i < |s| ==> s[i] in "0123456789.-+E"
  }

  /** The amount is kept as the decimal text the source prints for it. */
  type DecimalText = s: string | IsDecimalText(s) witness "0"

  datatype Money = Money(value: DecimalText, currency: Currency)

  datatype Invoice = Invoice(id: Int32, customerId: Int32, amount: Money, status: InvoiceStatus)

  datatype Customer = Customer(id: Int32, currency: Currency)

  /** One row of the audit table; the insertion timestamp is not modelled. */
  datatype Audit = Audit(invoiceId: Int32, fromStatus: InvoiceStatus, toStatus: InvoiceStatus)
}
