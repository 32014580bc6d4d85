/**
 * The records the API exchanges and stores. Nullable C# references are Options; amounts are
 * decimals, which are exact, so they are reals; instants are tick counts.
 */
module Models {
  import opened Wrappers
  import opened Enums

  /** A DateTime as its tick count: 100-nanosecond intervals since midnight, 1 January 0001. */
  type Ticks = int

  /** The payment as a client sends it and receives it back. */
  datatype PaymentModel = PaymentModel(
    uid: Option<string>,
    cardHolderName: Option<string>,
    cardNumber: Option<string>,
    expiryDate: Option<string>,
    amount: Option<real>,
    currency: Option<string>,
    cvv: Option<string>,
    paymentDate: Ticks,
    state: PaymentState)

  /** The user as a client sends it and receives it back. */
  datatype UserModel = UserModel(
    uid: Option<string>,
    username: Option<string>,
    password: Option<string>,
    permissions: Option<seq<Permission>>)

  /** `new UserModel()`: every reference null. */
  const EmptyUserModel := UserModel(None, None, None, None)

  /** The stored user. */
  datatype UserDto = UserDto(
    id: int,
    uid: Option<string>,
    username: Option<string>,
    password: Option<string>,
    permissions: Option<seq<Permission>>)

  /** The fields of a stored payment at one moment. */
  datatype PaymentRecord = PaymentRecord(
    id: int,
    uid: Option<string>,
    cardHolderName: Option<string>,
    cardNumber: Option<string>,
    expiryDate: Option<string>,
    amount: Option<real>,
    currency: Option<string>,
    cvv: Option<string>,
    paymentDate: Ticks,
    state: PaymentState)

  /** The stored payment as an object: the payment workflow sets its Uid and State in place. */
  class PaymentDto {
    var id: int
    var uid: Option<string>
    var cardHolderName: Option<string>
    var cardNumber: Option<string>
    var expiryDate: Option<string>
    var amount: Option<real>
    var currency: Option<string>
    var cvv: Option<string>
    var paymentDate: Ticks
    var state: PaymentState

    constructor(r: PaymentRecord)
      ensures Value() == r
    {
      id, uid, cardHolderName, cardNumber := r.id, r.uid, r.cardHolderName, r.cardNumber;
      expiryDate, amount, currency, cvv := r.expiryDate, r.amount, r.currency, r.cvv;
      paymentDate, state := r.paymentDate, r.state;
    }

    /** The current field values. */
    function Value(): PaymentRecord
      reads this
    {
      PaymentRecord(id, uid, cardHolderName, cardNumber, expiryDate, amount, currency, cvv, paymentDate, state)
    }
  }
}
