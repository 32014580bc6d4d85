/**
 * The payment validator on the payments of its unit tests, with the default limits
 * (0 to 10000) and currencies (GBP, EUR, USD). `today` is the current UTC date; the parsed
 * expiry date stands for what DateTime.TryParse makes of the expiry text.
 */
module PaymentValidationExamples {
  import opened Wrappers
  import opened Enums
  import opened Strings
  import opened ValidationResults
  import opened CommonMethods
  import opened CommonMethodsExamples
  import opened Models
  import opened PaymentValidation
  import opened Configuration

  /** `new PaymentModel()`: every reference null. */
  const EmptyPayment := PaymentModel(None, None, None, None, None, None, None, 0, New)

  /** An empty payment is reported missing on every field, the card holder's name included. */
  lemma AllMissingExample(today: Ticks)
    ensures var es := PaymentEntries(EmptyPayment, None, today, DefaultMinAmount, DefaultMaxAmount, DefaultCurrencies);
            && es == [Entry("CardNumber", "missing"), Entry("Cvv", "missing"), Entry("CardHolderName", "missing"),
                      Entry("ExpiryDate", "missing"), Entry("Amount", "missing"), Entry("Currency", "missing")]
            && Merge(es) == es
  {
    EntriesDistinct(EmptyPayment, None, today, DefaultMinAmount, DefaultMaxAmount, DefaultCurrencies);
  }

  /** A valid card with a short CVV, no holder, an expiry before today, a negative amount and an unknown currency. */
  lemma AllInvalidPastExample(expiry: string, parsed: Ticks, today: Ticks)
    requires !IsNullOrWhiteSpace(Some(expiry)) && parsed < today
    ensures var model := PaymentModel(None, None, Some("11223344"), Some(expiry), Some(-1.0), Some("AAA"), Some("12"), 0, New);
            PaymentEntries(model, Some(parsed), today, DefaultMinAmount, DefaultMaxAmount, DefaultCurrencies)
              == [Entry("Cvv", "invalid_cvv"), Entry("CardHolderName", "missing"), Entry("ExpiryDate", "expirydate_in_the_past"),
                  Entry("Amount", "amount_too_low"), Entry("Currency", "currency_not_supported")]
  {
    ExampleCardAccepted();
    assert CvvEntries(Some("12")) == [Entry("Cvv", "invalid_cvv")] by {
      assert !IsNullOrWhiteSpace(Some("12")) by { assert !IsWhiteSpace("12"[0]); }
    }
    assert CurrencyEntries(Some("AAA"), DefaultCurrencies) == [Entry("Currency", "currency_not_supported")] by {
      assert !IsNullOrWhiteSpace(Some("AAA")) by { assert !IsWhiteSpace("AAA"[0]); }
    }
  }

  /** The same payment with an expiry text that does not parse and an amount above the maximum. */
  lemma AllInvalidFormatExample(today: Ticks)
    ensures var model := PaymentModel(None, None, Some("11223344"), Some("123"), Some(1000000000000000.0), Some("AAA"), Some("12"), 0, New);
            PaymentEntries(model, None, today, DefaultMinAmount, DefaultMaxAmount, DefaultCurrencies)
              == [Entry("Cvv", "invalid_cvv"), Entry("CardHolderName", "missing"), Entry("ExpiryDate", "incorrect_format"),
                  Entry("Amount", "amount_too_high"), Entry("Currency", "currency_not_supported")]
  {
    ExampleCardAccepted();
    assert CvvEntries(Some("12")) == [Entry("Cvv", "invalid_cvv")] by {
      assert !IsNullOrWhiteSpace(Some("12")) by { assert !IsWhiteSpace("12"[0]); }
    }
    assert ExpiryDateEntries(Some("123"), None, today) == [Entry("ExpiryDate", "incorrect_format")] by {
      assert !IsNullOrWhiteSpace(Some("123")) by { assert !IsWhiteSpace("123"[0]); }
    }
    assert CurrencyEntries(Some("AAA"), DefaultCurrencies) == [Entry("Currency", "currency_not_supported")] by {
      assert !IsNullOrWhiteSpace(Some("AAA")) by { assert !IsWhiteSpace("AAA"[0]); }
    }
  }

  /** A payment with every field but the holder's name correct is still rejected, on that name alone. */
  lemma AllPassedButHolderExample(expiry: string, parsed: Ticks, today: Ticks)
    requires !IsNullOrWhiteSpace(Some(expiry)) && parsed >= today
    ensures var model := PaymentModel(None, None, Some("4916132996393639"), Some(expiry), Some(5.0), Some("GBP"), Some("123"), 0, New);
            PaymentEntries(model, Some(parsed), today, DefaultMinAmount, DefaultMaxAmount, DefaultCurrencies)
              == [Entry("CardHolderName", "missing")]
  {
    TestCardAccepted();
    assert CvvEntries(Some("123")) == [] by {
      CvvExamples();
      assert !IsNullOrWhiteSpace(Some("123")) by { assert !IsWhiteSpace("123"[0]); }
    }
    assert CurrencyEntries(Some("GBP"), DefaultCurrencies) == [] by {
      assert !IsNullOrWhiteSpace(Some("GBP")) by { assert !IsWhiteSpace("GBP"[0]); }
    }
  }

  /** The card number of the all-invalid payments queues nothing. */
  lemma ExampleCardAccepted()
    ensures CardNumberEntries(Some("11223344")) == []
  {
    ValidationExampleCard();
    assert !IsNullOrWhiteSpace(Some("11223344")) by { assert !IsWhiteSpace("11223344"[0]); }
  }

  /** The first valid test card queues nothing. */
  lemma TestCardAccepted()
    ensures CardNumberEntries(Some("4916132996393639")) == []
  {
    ValidVector1();
    assert !IsNullOrWhiteSpace(Some("4916132996393639")) by { assert !IsWhiteSpace("4916132996393639"[0]); }
  }

  /**
   * The table the defaults come from: all three keys present with null values. A provider built
   * on it reports an empty payment as missing on every field.
   */
  method NullTableExample(parseDecimal: string -> Option<real>, nowUtc: Ticks, parseDate: string -> Option<Ticks>)
    returns (res: Option<ValidationResult>)
    requires nowUtc >= 0
    ensures res == Some(ValidationResult([Entry("CardNumber", "missing"), Entry("Cvv", "missing"),
                                          Entry("CardHolderName", "missing"), Entry("ExpiryDate", "missing"),
                                          Entry("Amount", "missing"), Entry("Currency", "missing")], TeapotStatus))
  {
    var config := new PGConfiguration();
    var sections := [ConfigSection("MinAmount", None), ConfigSection("MaxAmount", None),
                     ConfigSection("SupportedCurrencies", None)];
    config.SetKeyValues(sections);
    assert Applied(map[], sections[..1]) == map["MinAmount" := None] by {
      assert sections[..1][..0] == [];
    }
    assert Applied(map[], sections[..2]) == Applied(map[], sections[..1])["MaxAmount" := None] by {
      assert sections[..2][..1] == sections[..1];
    }
    assert Applied(map[], sections) == Applied(map[], sections[..2])["SupportedCurrencies" := None] by {
      assert sections[..|sections| - 1] == sections[..2];
    }
    var provider := new PaymentModelValidationProvider(config, parseDecimal);
    AllMissingExample(Today(nowUtc));
    res := provider.Validate(EmptyPayment, nowUtc, parseDate);
  }
}
