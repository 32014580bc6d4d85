/** The two enumerations of the framework: bit-flag permissions and the payment lifecycle. */
module Enums {
  /** Permission flags; each one occupies its own bit. */
  datatype Permission = PaymentView | PaymentCreate

  /** The integer value of a flag: Payment_View = 1 << 0, Payment_Create = 1 << 1. */
  function Value(p: Permission): (v: int)
    ensures v == 1 || v == 2
    ensures v == 1 <==> p == PaymentView
  {
    match p
    case PaymentView => 1
    case PaymentCreate => 2
  }

  /** Lifecycle of a payment: created New, Completed after the bank accepted it. */
  datatype PaymentState = New | Completed
}
