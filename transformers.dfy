/** The projection of a stored payment to what clients may see: card data masked, the holder left out. */
module PaymentModelTransformer {
  import opened Wrappers
  import opened Models
  import opened CommonMethods

  /** ToModel: null stays null; the card number keeps five characters, the expiry two, the CVV none. */
  function ToModel(dto: Option<PaymentRecord>): (m: Option<PaymentModel>)
    ensures dto.None? <==> m.None?
    ensures m.Some? ==>
              var d, p := dto.value, m.value;
              && p.uid == d.uid && p.amount == d.amount && p.currency == d.currency
              && p.paymentDate == d.paymentDate && p.state == d.state
              && p.cardHolderName.None?
              && p.cardNumber == Mask(d.cardNumber, 5)
              && p.expiryDate == Mask(d.expiryDate, 2)
              && p.cvv == Mask(d.cvv, 0)
  {
    match dto
    case None => None
    case Some(d) =>
      Some(PaymentModel(
        uid := d.uid,
        cardHolderName := None,
        cardNumber := Mask(d.cardNumber, 5),
        expiryDate := Mask(d.expiryDate, 2),
        amount := d.amount,
        currency := d.currency,
        cvv := Mask(d.cvv, 0),
        paymentDate := d.paymentDate,
        state := d.state))
  }

  /**
   * What the client can read of the card: at most the last five characters of the number and
   * the last two of the expiry date; the CVV becomes stars of the same length.
   */
  lemma ToModelHidesCardData(d: PaymentRecord)
    ensures var p := ToModel(Some(d)).value;
            && (d.cardNumber.Some? && |d.cardNumber.value| > 5 ==>
                  var s, t := d.cardNumber.value, p.cardNumber.value;
                  |t| == |s| && (forall i | 0 <= i < |s| - 5 :: t[i] == '*') && t[|s| - 5..] == s[|s| - 5..])
            && (d.expiryDate.Some? && |d.expiryDate.value| > 2 ==>
                  var s, t := d.expiryDate.value, p.expiryDate.value;
                  |t| == |s| && (forall i | 0 <= i < |s| - 2 :: t[i] == '*') && t[|s| - 2..] == s[|s| - 2..])
            && (d.cvv.Some? ==> p.cvv == Some(Stars(|d.cvv.value|)))
  {
    var p := ToModel(Some(d)).value;
    if d.cvv.Some? {
      var s := d.cvv.value;
      if |s| > 0 {
        assert s[|s|..] == [];
        assert Stars(|s|) + s[|s|..] == Stars(|s|);
      }
    }
  }

  /** The transformer's example. */
  lemma ToModelExample(d: PaymentRecord)
    requires d.cardNumber == Some("1234567890123456") && d.expiryDate == Some("2020-12-02") && d.cvv == Some("321")
    ensures var p := ToModel(Some(d)).value;
            && p.cardNumber == Some("***********23456")
            && p.expiryDate == Some("********02")
            && p.cvv == Some("***")
            && p.uid == d.uid && p.amount == d.amount && p.paymentDate == d.paymentDate && p.state == d.state
  {
    assert Stars(11) + "1234567890123456"[11..] == "***********23456";
    assert Stars(8) + "2020-12-02"[8..] == "********02";
    assert Stars(3) + "321"[3..] == "***";
  }
}

/** The projection of a stored user: everything but the password hash. */
module UserModelTransformer {
  import opened Wrappers
  import opened Models

  /** ToModel: null stays null; Uid, Username and Permissions are copied and the password is never set. */
  function ToModel(dto: Option<UserDto>): (m: Option<UserModel>)
    ensures dto.None? <==> m.None?
    ensures m.Some? ==>
              && m.value.uid == dto.value.uid
              && m.value.username == dto.value.username
              && m.value.permissions == dto.value.permissions
              && m.value.password.None?
  {
    match dto
    case None => None
    case Some(d) => Some(UserModel(uid := d.uid, username := d.username, password := None, permissions := d.permissions))
  }
}
