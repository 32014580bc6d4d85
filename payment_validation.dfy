/**
 * Validation of an incoming payment. The provider reads its limits and currencies from the
 * configuration table once; `Validate` then checks the fields in a fixed order, queues one
 * 418 result per failing check and unifies the queue. A null result means the payment is valid.
 */
module PaymentValidation {
  import opened Wrappers
  import opened Strings
  import opened ApiOffences
  import opened ValidationResults
  import opened CommonMethods
  import opened Configuration
  import opened Models

  const TicksPerDay: int := 864000000000

  /** `DateTime.UtcNow.Date`: the instant truncated to midnight. */
  function Today(nowUtc: Ticks): (t: Ticks)
    requires nowUtc >= 0
    ensures t <= nowUtc < t + TicksPerDay && t % TicksPerDay == 0
  {
    nowUtc - nowUtc % TicksPerDay
  }

  const DefaultMinAmount: real := 0.0
  const DefaultMaxAmount: real := 10000.0
  const DefaultCurrencies: set<string> := {"GBP", "EUR", "USD"}

  /**
   * `decimal.TryParse(text, out v) ? v : fallback`: `parseDecimal` stands for the parser on a
   * non-null text, and a null text never parses.
   */
  function ConfiguredAmount(text: Option<string>, parseDecimal: string -> Option<real>, fallback: real): (r: real)
    ensures text.None? ==> r == fallback
    ensures text.Some? ==> r == (if parseDecimal(text.value).Some? then parseDecimal(text.value).value else fallback)
  {
    match text
    case None => fallback
    case Some(t) =>
      match parseDecimal(t)
      case Some(v) => v
      case None => fallback
  }

  /** The currencies of a configured value: the non-empty comma-separated pieces, trimmed; the defaults when the value is null. */
  function CurrencySet(value: Option<string>): (r: set<string>)
    ensures value.None? ==> r == DefaultCurrencies
    ensures value.Some? ==> forall c | c in r :: exists p | p in Split(value.value, ',') && p != "" :: c == Trim(p)
  {
    match value
    case None => DefaultCurrencies
    case Some(v) => set p | p in NonEmpty(Split(v, ',')) :: Trim(p)
  }

  /** Every non-empty piece of the value is supported once trimmed. */
  lemma CurrencySetComplete(v: string, p: string)
    requires p in Split(v, ',') && p != ""
    ensures Trim(p) in CurrencySet(Some(v))
  {
    assert p in NonEmpty(Split(v, ','));
  }

  /** The checks on each field, as the list of entries they queue. */
  function CardNumberEntries(cardNumber: Option<string>): seq<Entry> {
    if IsNullOrWhiteSpace(cardNumber) then [Entry("CardNumber", "missing")]
    else if !CardNumberValid(cardNumber) then [Entry("CardNumber", "invalid_card_number")]
    else []
  }

  function CvvEntries(cvv: Option<string>): seq<Entry> {
    if IsNullOrWhiteSpace(cvv) then [Entry("Cvv", "missing")]
    else if !IsCvvValid(cvv.value) then [Entry("Cvv", "invalid_cvv")]
    else []
  }

  function CardHolderNameEntries(cardHolderName: Option<string>): seq<Entry> {
    if IsNullOrWhiteSpace(cardHolderName) then [Entry("CardHolderName", "missing")] else []
  }

  /** `parsed` is what the date parser makes of the expiry text; `today` is the current UTC date. */
  function ExpiryDateEntries(expiryDate: Option<string>, parsed: Option<Ticks>, today: Ticks): seq<Entry> {
    if IsNullOrWhiteSpace(expiryDate) then [Entry("ExpiryDate", "missing")]
    else if parsed.None? then [Entry("ExpiryDate", "incorrect_format")]
    else if parsed.value < today then [Entry("ExpiryDate", "expirydate_in_the_past")]
    else []
  }

  /** Both limits are tested, so with min above max an amount can fail on both. */
  function AmountEntries(amount: Option<real>, minAmount: real, maxAmount: real): seq<Entry> {
    if amount.None? then [Entry("Amount", "missing")]
    else
      (if amount.value > maxAmount then [Entry("Amount", "amount_too_high")] else [])
      + (if amount.value < minAmount then [Entry("Amount", "amount_too_low")] else [])
  }

  function CurrencyEntries(currency: Option<string>, supported: set<string>): seq<Entry> {
    if IsNullOrWhiteSpace(currency) then [Entry("Currency", "missing")]
    else if currency.value !in supported then [Entry("Currency", "currency_not_supported")]
    else []
  }

  /** The entries queued for a payment, in the order the fields are checked. */
  function PaymentEntries(model: PaymentModel, parsedExpiry: Option<Ticks>, today: Ticks,
                          minAmount: real, maxAmount: real, supported: set<string>): seq<Entry> {
    CardNumberEntries(model.cardNumber)
    + CvvEntries(model.cvv)
    + CardHolderNameEntries(model.cardHolderName)
    + ExpiryDateEntries(model.expiryDate, parsedExpiry, today)
    + AmountEntries(model.amount, minAmount, maxAmount)
    + CurrencyEntries(model.currency, supported)
  }

  class PaymentModelValidationProvider {
    const minAmount: real
    const maxAmount: real
    const supportedCurrencies: set<string>

    /**
     * Reads MinAmount, MaxAmount and SupportedCurrencies; null or unparseable amounts fall back
     * to 0 and 10000, and a null currency list to GBP, EUR and USD. `parseDecimal` is
     * decimal.TryParse on a non-null text. All three keys must be in the table, as the table's
     * indexer throws on a missing key.
     */
    constructor(config: PGConfiguration, parseDecimal: string -> Option<real>)
      requires "MinAmount" in config.keyValues && "MaxAmount" in config.keyValues
      requires "SupportedCurrencies" in config.keyValues
      ensures minAmount == ConfiguredAmount(config.keyValues["MinAmount"], parseDecimal, DefaultMinAmount)
      ensures maxAmount == ConfiguredAmount(config.keyValues["MaxAmount"], parseDecimal, DefaultMaxAmount)
      ensures supportedCurrencies == CurrencySet(config.keyValues["SupportedCurrencies"])
      ensures config.keyValues["MinAmount"].None? ==> minAmount == 0.0
      ensures config.keyValues["MaxAmount"].None? ==> maxAmount == 10000.0
      ensures config.keyValues["SupportedCurrencies"].None? ==> supportedCurrencies == {"GBP", "EUR", "USD"}
    {
      var minText := config.TryGetValue("MinAmount");
      var maxText := config.TryGetValue("MaxAmount");
      var currencies := config.TryGetValue("SupportedCurrencies");
      minAmount := ConfiguredAmount(minText, parseDecimal, DefaultMinAmount);
      maxAmount := ConfiguredAmount(maxText, parseDecimal, DefaultMaxAmount);
      supportedCurrencies := CurrencySet(currencies);
    }

    /** The entries this provider's checks queue for `model` at instant `nowUtc`, given the date parser. */
    function Entries(model: PaymentModel, nowUtc: Ticks, parseDate: string -> Option<Ticks>): seq<Entry>
      requires nowUtc >= 0
    {
      PaymentEntries(model, if model.expiryDate.Some? then parseDate(model.expiryDate.value) else None,
                     Today(nowUtc), minAmount, maxAmount, supportedCurrencies)
    }

    /**
     * Validate: null when every check passes, else one 418 result whose entries are the failures
     * in field order (with a repeated Amount key merged). `parseDate` stands for DateTime.TryParse
     * and `nowUtc` for the clock.
     */
    method Validate(model: PaymentModel, nowUtc: Ticks, parseDate: string -> Option<Ticks>)
      returns (res: Option<ValidationResult>)
      requires nowUtc >= 0
      ensures var es := Entries(model, nowUtc, parseDate);
              && (res.None? <==> es == [])
              && (res.Some? ==> res.value == ValidationResult(Merge(es), TeapotStatus))
    {
      var validationResults: seq<ValidationResult> := [];
      ghost var es: seq<Entry> := [];
      validationResults, es := CheckCardNumber(validationResults, es, model.cardNumber);
      assert es == CardNumberEntries(model.cardNumber);
      validationResults, es := CheckCvv(validationResults, es, model.cvv);
      validationResults, es := CheckCardHolderName(validationResults, es, model.cardHolderName);
      validationResults, es := CheckExpiryDate(validationResults, es, model.expiryDate, Today(nowUtc), parseDate);
      validationResults, es := CheckAmount(validationResults, es, model.amount);
      validationResults, es := CheckCurrency(validationResults, es, model.currency);
      ghost var expected := PaymentEntries(model, if model.expiryDate.Some? then parseDate(model.expiryDate.value) else None,
                                           Today(nowUtc), minAmount, maxAmount, supportedCurrencies);
      assert es == expected;
      HeadsOfTeapots(es);
      res := GetUnifiedTeapotValidationResults(Some(validationResults));
      assert res.Some? ==> res.value == ValidationResult(Merge(expected), TeapotStatus);
    }

    method CheckAmount(queue: seq<ValidationResult>, ghost es: seq<Entry>, amount: Option<real>)
      returns (queue': seq<ValidationResult>, ghost es': seq<Entry>)
      requires queue == Teapots(es)
      ensures queue' == queue + Teapots(AmountEntries(amount, minAmount, maxAmount))
      ensures es' == es + AmountEntries(amount, minAmount, maxAmount) && queue' == Teapots(es')
    {
      TeapotsAppend(es, AmountEntries(amount, minAmount, maxAmount));
      queue', es' := queue, es;
      if amount.Some? {
        if amount.value > maxAmount {
          queue', es' := Enqueue(queue', es', AmountTooHigh, "Amount");
        }
        if amount.value < minAmount {
          queue', es' := Enqueue(queue', es', AmountTooLow, "Amount");
        }
      } else {
        queue', es' := Enqueue(queue', es', Missing, "Amount");
      }
    }

    method CheckCurrency(queue: seq<ValidationResult>, ghost es: seq<Entry>, currency: Option<string>)
      returns (queue': seq<ValidationResult>, ghost es': seq<Entry>)
      requires queue == Teapots(es)
      ensures queue' == queue + Teapots(CurrencyEntries(currency, supportedCurrencies))
      ensures es' == es + CurrencyEntries(currency, supportedCurrencies) && queue' == Teapots(es')
    {
      TeapotsAppend(es, CurrencyEntries(currency, supportedCurrencies));
      queue', es' := queue, es;
      if IsNullOrWhiteSpace(currency) {
        queue', es' := Enqueue(queue', es', Missing, "Currency");
      } else if currency.value !in supportedCurrencies {
        queue', es' := Enqueue(queue', es', CurrencyNotSupported, "Currency");
      }
    }

    method CheckCardNumber(queue: seq<ValidationResult>, ghost es: seq<Entry>, cardNumber: Option<string>)
      returns (queue': seq<ValidationResult>, ghost es': seq<Entry>)
      requires queue == Teapots(es)
      ensures queue' == queue + Teapots(CardNumberEntries(cardNumber))
      ensures es' == es + CardNumberEntries(cardNumber) && queue' == Teapots(es')
    {
      TeapotsAppend(es, CardNumberEntries(cardNumber));
      queue', es' := queue, es;
      if IsNullOrWhiteSpace(cardNumber) {
        queue', es' := Enqueue(queue', es', Missing, "CardNumber");
      } else {
        var valid := IsCardNumberValid(cardNumber);
        if !valid {
          queue', es' := Enqueue(queue', es', InvalidCardNumber, "CardNumber");
        }
      }
    }

    method CheckCvv(queue: seq<ValidationResult>, ghost es: seq<Entry>, cvv: Option<string>)
      returns (queue': seq<ValidationResult>, ghost es': seq<Entry>)
      requires queue == Teapots(es)
      ensures queue' == queue + Teapots(CvvEntries(cvv))
      ensures es' == es + CvvEntries(cvv) && queue' == Teapots(es')
    {
      TeapotsAppend(es, CvvEntries(cvv));
      queue', es' := queue, es;
      if IsNullOrWhiteSpace(cvv) {
        queue', es' := Enqueue(queue', es', Missing, "Cvv");
      } else if !IsCvvValid(cvv.value) {
        queue', es' := Enqueue(queue', es', InvalidCvv, "Cvv");
      }
    }

    method CheckCardHolderName(queue: seq<ValidationResult>, ghost es: seq<Entry>, cardHolderName: Option<string>)
      returns (queue': seq<ValidationResult>, ghost es': seq<Entry>)
      requires queue == Teapots(es)
      ensures queue' == queue + Teapots(CardHolderNameEntries(cardHolderName))
      ensures es' == es + CardHolderNameEntries(cardHolderName) && queue' == Teapots(es')
    {
      TeapotsAppend(es, CardHolderNameEntries(cardHolderName));
      queue', es' := queue, es;
      if IsNullOrWhiteSpace(cardHolderName) {
        queue', es' := Enqueue(queue', es', Missing, "CardHolderName");
      }
    }

    method CheckExpiryDate(queue: seq<ValidationResult>, ghost es: seq<Entry>, expiryDate: Option<string>,
                           today: Ticks, parseDate: string -> Option<Ticks>)
      returns (queue': seq<ValidationResult>, ghost es': seq<Entry>)
      requires queue == Teapots(es)
      ensures queue' == queue + Teapots(ExpiryDateEntries(expiryDate, if expiryDate.Some? then parseDate(expiryDate.value) else None, today))
      ensures es' == es + ExpiryDateEntries(expiryDate, if expiryDate.Some? then parseDate(expiryDate.value) else None, today)
      ensures queue' == Teapots(es')
    {
      TeapotsAppend(es, ExpiryDateEntries(expiryDate, if expiryDate.Some? then parseDate(expiryDate.value) else None, today));
      queue', es' := queue, es;
      if !IsNullOrWhiteSpace(expiryDate) {
        var dateTime := parseDate(expiryDate.value);
        if dateTime.None? {
          queue', es' := Enqueue(queue', es', ExpiryDateIncorrectFormat, "ExpiryDate");
        } else if dateTime.value < today {
          queue', es' := Enqueue(queue', es', ExpiryDateInThePast, "ExpiryDate");
        }
      } else {
        queue', es' := Enqueue(queue', es', Missing, "ExpiryDate");
      }
    }
  }

  // ---------------------------------------------------------------------------------------
  // Properties of the checks
  // ---------------------------------------------------------------------------------------

  /** A payment is valid exactly when every field passes its checks. */
  lemma NoEntriesIffValid(model: PaymentModel, parsedExpiry: Option<Ticks>, today: Ticks,
                          minAmount: real, maxAmount: real, supported: set<string>)
    ensures PaymentEntries(model, parsedExpiry, today, minAmount, maxAmount, supported) == [] <==>
              && !IsNullOrWhiteSpace(model.cardNumber) && CardNumberValid(model.cardNumber)
              && !IsNullOrWhiteSpace(model.cvv) && IsCvvValid(model.cvv.value)
              && !IsNullOrWhiteSpace(model.cardHolderName)
              && !IsNullOrWhiteSpace(model.expiryDate) && parsedExpiry.Some? && parsedExpiry.value >= today
              && model.amount.Some? && minAmount <= model.amount.value <= maxAmount
              && !IsNullOrWhiteSpace(model.currency) && model.currency.value in supported
  {
  }

  /** A card number is reported at most once, as missing or as invalid. */
  lemma CardNumberAtMostOnce(cardNumber: Option<string>)
    ensures |CardNumberEntries(cardNumber)| <= 1
    ensures CardNumberEntries(cardNumber) == [Entry("CardNumber", "missing")] <==> IsNullOrWhiteSpace(cardNumber)
  {
  }

  /** With min at most max, the amount is reported at most once. */
  lemma AmountAtMostOnce(amount: Option<real>, minAmount: real, maxAmount: real)
    requires minAmount <= maxAmount
    ensures |AmountEntries(amount, minAmount, maxAmount)| <= 1
  {
  }

  /** With min above max, an amount between them is both too high and too low; the later code wins. */
  lemma AmountBothWhenLimitsCross(a: real, minAmount: real, maxAmount: real)
    requires maxAmount < a < minAmount
    ensures AmountEntries(Some(a), minAmount, maxAmount)
              == [Entry("Amount", "amount_too_high"), Entry("Amount", "amount_too_low")]
    ensures Merge(AmountEntries(Some(a), minAmount, maxAmount)) == [Entry("Amount", "amount_too_low")]
  {
    var es := AmountEntries(Some(a), minAmount, maxAmount);
    assert es[..1] == [Entry("Amount", "amount_too_high")];
    assert Merge(es[..1]) == [Entry("Amount", "amount_too_high")] by {
      assert es[..1][..0] == [];
    }
  }

  /** With min at most max every key appears once, so the unified result lists exactly the failures. */
  lemma EntriesDistinct(model: PaymentModel, parsedExpiry: Option<Ticks>, today: Ticks,
                        minAmount: real, maxAmount: real, supported: set<string>)
    requires minAmount <= maxAmount
    ensures var es := PaymentEntries(model, parsedExpiry, today, minAmount, maxAmount, supported);
            Merge(es) == es
  {
    var es := PaymentEntries(model, parsedExpiry, today, minAmount, maxAmount, supported);
    var names := ["CardNumber", "Cvv", "CardHolderName", "ExpiryDate", "Amount", "Currency"];
    var parts := [CardNumberEntries(model.cardNumber), CvvEntries(model.cvv), CardHolderNameEntries(model.cardHolderName),
                  ExpiryDateEntries(model.expiryDate, parsedExpiry, today), AmountEntries(model.amount, minAmount, maxAmount),
                  CurrencyEntries(model.currency, supported)];
    assert Keyed(parts[0], names[0]);
    assert Keyed(parts[1], names[1]);
    assert Keyed(parts[2], names[2]);
    assert Keyed(parts[3], names[3]);
    assert Keyed(parts[4], names[4]) by { AmountAtMostOnce(model.amount, minAmount, maxAmount); }
    assert Keyed(parts[5], names[5]);
    assert es == parts[0] + parts[1] + parts[2] + parts[3] + parts[4] + parts[5];
    KeysOfConcat(parts, names);
    MergeOfDistinct(es);
  }

  /** At most one entry, and only under `name`. */
  predicate Keyed(group: seq<Entry>, name: string) {
    |group| <= 1 && forall e | e in group :: e.key == name
  }

  /** Concatenated groups of at most one entry each, keyed by pairwise-distinct names, have distinct keys. */
  lemma KeysOfConcat(parts: seq<seq<Entry>>, names: seq<string>)
    requires |parts| == 6 && names == ["CardNumber", "Cvv", "CardHolderName", "ExpiryDate", "Amount", "Currency"]
    requires forall g | 0 <= g < 6 :: Keyed(parts[g], names[g])
    ensures Distinct(Keys(parts[0] + parts[1] + parts[2] + parts[3] + parts[4] + parts[5]))
  {
    var es := parts[0] + parts[1] + parts[2] + parts[3] + parts[4] + parts[5];
    var offsets := [0, |parts[0]|, |parts[0]| + |parts[1]|, |parts[0]| + |parts[1]| + |parts[2]|,
                    |parts[0]| + |parts[1]| + |parts[2]| + |parts[3]|,
                    |parts[0]| + |parts[1]| + |parts[2]| + |parts[3]| + |parts[4]|];
    forall i | 0 <= i < |es|
      ensures exists g | 0 <= g < 6 :: offsets[g] <= i && es[i].key == names[g] && i < offsets[g] + |parts[g]|
    {
      if i < offsets[1] { assert es[i] == parts[0][i]; assert Keyed(parts[0], names[0]); assert es[i] in parts[0]; }
      else if i < offsets[2] { assert es[i] == parts[1][i - offsets[1]]; assert Keyed(parts[1], names[1]); assert es[i] in parts[1]; }
      else if i < offsets[3] { assert es[i] == parts[2][i - offsets[2]]; assert Keyed(parts[2], names[2]); assert es[i] in parts[2]; }
      else if i < offsets[4] { assert es[i] == parts[3][i - offsets[3]]; assert Keyed(parts[3], names[3]); assert es[i] in parts[3]; }
      else if i < offsets[5] { assert es[i] == parts[4][i - offsets[4]]; assert Keyed(parts[4], names[4]); assert es[i] in parts[4]; }
      else { assert es[i] == parts[5][i - offsets[5]]; assert Keyed(parts[5], names[5]); assert es[i] in parts[5]; }
    }
  }
}
