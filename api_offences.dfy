/** The error tokens the API can return. An offence is a struct holding a nullable code. */
module ApiOffences {
  import opened Wrappers

  datatype ApiOffence = ApiOffence(errorCode: Option<string>)

  /** `default(ApiOffence)`: the offence whose code is null. */
  const Default := ApiOffence(None)

  const Missing := ApiOffence(Some("missing"))

  // Payment offences
  const AmountTooLow := ApiOffence(Some("amount_too_low"))
  const AmountTooHigh := ApiOffence(Some("amount_too_high"))
  const InvalidCardNumber := ApiOffence(Some("invalid_card_number"))
  const ExpiryDateInThePast := ApiOffence(Some("expirydate_in_the_past"))
  const ExpiryDateIncorrectFormat := ApiOffence(Some("incorrect_format"))
  const CurrencyNotSupported := ApiOffence(Some("currency_not_supported"))
  const InvalidCvv := ApiOffence(Some("invalid_cvv"))

  // User offences
  const AtLeastFourCharacters := ApiOffence(Some("must_be_at_least_four_characters"))
  const NameAlreadyExists := ApiOffence(Some("name_already_exists"))
  const InvalidUsernameOrPassword := ApiOffence(Some("invalid_username_or_password"))
}
