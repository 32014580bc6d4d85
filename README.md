# PaymentGateway — a verified model of the payment-intake core

PaymentGateway is a small web API. A merchant logs in, gets permissions, and submits card
payments. Each payment is validated field by field, sent to a bank, stored and returned with
its card data masked. This project models the logic behind that in Dafny and proves what the
code promises:

- the home-grown card-number check, the CVV check and the masking helper;
- the 418 ("I'm a teapot") validation results and their merge into one ordered error object;
- the two field validators;
- the permission filter, which sums enum values and compares them with `&`;
- the global configuration table;
- the two projections that hide card data and password hashes;
- the payment and user business layers over an abstract store;
- the payment and user controllers.

Each file takes the form of the code it models:

- Code that changes state becomes classes with `modifies` and `reads` frames: the configuration
  table, the permission filter's context, the payment record the workflow updates, the store,
  the bank client and the session.
- Loops become methods with invariants: the card check, the masking, the merge, the
  configuration update and the validators' queues. Each of these methods is proved against a
  specification function.
- Pure code becomes functions with lemmas.

Collaborators the code does not implement are inputs:

- the bank's reply (status code and body);
- the clock (`now`, `nowUtc` as tick counts);
- `DateTime.TryParse` and `decimal.TryParse`, as Option-valued functions;
- the password hasher, as the functions `hash` and `verify`;
- the Uid of a new user.

Sign-in and sign-out are recorded as session events. Nothing here was executed.

Modules, one per file:

- `Wrappers`, `Enums`, `Strings`, `Linq`: support.
- `CommonMethods`, `CommonMethodsExamples`: card, CVV, mask.
- `ApiOffences`, `ValidationResults`: the error tokens and teapot results.
- `PaymentValidation`, `PaymentValidationExamples`, `UserValidation`: the validators.
- `Permissions`: the filter.
- `Configuration`: the configuration table.
- `Models`, `PaymentModelTransformer`, `UserModelTransformer`: the records and their projections.
- `Store`, `HttpClients`: the collaborators.
- `PaymentDomain`, `UserDomain`: the business layers.
- `Web`: action results, claims and the session.
- `PaymentControllers`, `UserControllers`: the controllers.

## Model

| member | source | states |
|---|---|---|
| CommonMethods.IsCardNumberValid | Framework/WebUtilities/CommonMethods.cs:19-58 | The loop builds the digit text of the reversed payload; the answer equals `CardNumberValid`. A null or blank number is rejected. |
| CommonMethods.CardNumberValidOnDigits | Framework/WebUtilities/CommonMethods.cs:28-57 | For an all-digit number: valid iff the Luhn sum of the reversed payload (odd positions doubled, minus 9 above 9), taken mod 10, equals 10 minus the last digit. |
| CommonMethods.CardNumberValidVersusLuhn | Framework/WebUtilities/CommonMethods.cs:28-57 | For an all-digit number: valid iff the last digit is not 0 and textbook Luhn accepts. |
| CommonMethods.CalculatedTextSum | Framework/WebUtilities/CommonMethods.cs:34-54 | Summing the characters of the concatenated decimal texts equals the sum of each transformed value's digit sum. A negative value (from a character below '0') counts '-' as -3. |
| CommonMethods.DigitsTextSum | Framework/WebUtilities/CommonMethods.cs:38-51 | On digits, each transformed value is one digit, so the text sum is the Luhn sum, which is non-negative. |
| CommonMethods.IntTextSum | Framework/WebUtilities/CommonMethods.cs:44-54 | The characters of `v.ToString()`, each counted as c - 48, add up to the decimal digit sum of v, with -3 for a minus sign. |
| CommonMethods.PayloadTextSum | Framework/WebUtilities/CommonMethods.cs:31-54 | On an all-digit number the summed text of the reversed payload is its Luhn sum, which is non-negative. |
| CommonMethods.TextSumAppend | Framework/WebUtilities/CommonMethods.cs:44-54 | The character sum of appended texts is the sum of their character sums. |
| CommonMethods.CheckDigitArithmetic | Framework/WebUtilities/CommonMethods.cs:57 | For a non-negative sum and a digit d: `sum % 10 == 10 - d` iff d is not 0 and `sum + d` is a multiple of 10. |
| CommonMethods.CardNumberBlankRejected | Framework/WebUtilities/CommonMethods.cs:22-25 | A null, empty or all-whitespace number is invalid. |
| CommonMethods.CardNumberEndingInZeroRejected | Framework/WebUtilities/CommonMethods.cs:57 | Any number whose last character is '0' is rejected, whatever precedes it. |
| CommonMethods.ColonAloneAccepted | Framework/WebUtilities/CommonMethods.cs:38-57 | ":" and "0:" pass the check: `':' - 48` is 10, so the right-hand side is 0. |
| CommonMethods.IsCvvValid | Framework/WebUtilities/CommonMethods.cs:65-73 | True iff there are 3 or 4 characters and each is in '0'..'9'. |
| CommonMethods.Mask | Framework/WebUtilities/CommonMethods.cs:81-103 | Null stays null; a text no longer than n is unchanged; otherwise the length is kept, the leading characters become '*' and the last n are kept. |
| CommonMethods.MaskString | Framework/WebUtilities/CommonMethods.cs:81-103 | The loop's star prefix and the Remove/Insert give exactly `Mask(s, n)` for n >= 0. |
| CommonMethodsExamples.RightContributionSumOfMirror | Framework/WebUtilities/CommonMethods.cs:31-54 | Summing over the reversed payload from the left equals summing over the payload from the right. |
| CommonMethodsExamples.CardCheckByRightSum | Framework/WebUtilities/CommonMethods.cs:28-57 | The check decided from a sum taken over the unreversed payload. |
| CommonMethodsExamples.ValidVector1 | FrameworkTests/WebUtilities/CommonMethodTests.cs:15 | "4916132996393639" is accepted. ValidVector2 to ValidVector7 do the same for the other vectors at lines 16-21. |
| CommonMethodsExamples.InvalidVector8 | FrameworkTests/WebUtilities/CommonMethodTests.cs:39 | "637894fdssdf95243444333" is rejected. InvalidVector1 to InvalidVector10 cover all vectors at lines 32-41, letters included. |
| CommonMethodsExamples.CvvExamples | FrameworkTests/WebUtilities/CommonMethodTests.cs:67-101 | "323" and "4432" are valid; "23", "43242", "23f" and "43s4" are not. |
| CommonMethodsExamples.MaskExamples | FrameworkTests/WebUtilities/CommonMethodTests.cs:107-161 | The masking vectors: "*3532", "*******532", the unchanged short strings and null. |
| ValidationResults.ToTeapotResult | Framework/WebUtilities/ValidationResult.cs:60-71 | Null iff the offence is `default` or the name is null or empty; otherwise status 418 with the single entry (name, code). |
| ValidationResults.TeapotContent | Framework/WebUtilities/ValidationResult.cs:79-87 | The content is exactly `{"name":{"ErrorCode":"code"}}`, of length \|name\| + \|code\| + 21. |
| ValidationResults.TeapotContentLengths | PaymentGateway.WebApiTests/Controllers/UserControllerTests.cs:42 | The content lengths 32, 66 and 48 that the controller tests pin. |
| ValidationResults.FirstEntryOfObjectJson | Framework/WebUtilities/ValidationResult.cs:43-45 | Reading back the first key and value of a serialised object gives its first entry: the round trip the merge loop relies on. |
| ValidationResults.EntryPieces | Framework/WebUtilities/ValidationResult.cs:79-87 | An entry's JSON splits on quotes into the key, the fixed punctuation and the code. |
| ValidationResults.GetUnifiedTeapotValidationResults | Framework/WebUtilities/ValidationResult.cs:30-52 | Null or empty input gives null. Otherwise the dictionary loop yields `Merge` of the results' first entries, with status 418. |
| ValidationResults.MergeKeys | Framework/WebUtilities/ValidationResult.cs:41-46 | The merged keys are the input keys in first-occurrence order, without repeats. |
| ValidationResults.MergeLookup | Framework/WebUtilities/ValidationResult.cs:45 | A key's merged code is the last code given for that key. |
| ValidationResults.MergeDistinctKeys | Framework/WebUtilities/ValidationResult.cs:45 | The merged keys are distinct, and there is one entry per distinct input key. |
| ValidationResults.MergeOfDistinct | Framework/WebUtilities/ValidationResult.cs:41-46 | Inputs with distinct keys come back unchanged and in order. |
| ValidationResults.PutKeys | Framework/WebUtilities/ValidationResult.cs:45 | The indexer set keeps an existing key's position and appends a new key. |
| ValidationResults.PutLookup | Framework/WebUtilities/ValidationResult.cs:45 | After the set, the key maps to the new code and every other key is unchanged. |
| ValidationResults.DedupProperties | Framework/WebUtilities/ValidationResult.cs:41-46 | The first-occurrence key list has no repeats and the same members as its input. |
| ValidationResults.UnifiedExample | FrameworkTests/WebUtilities/ValidationResultTests.cs:81-94 | Two results merge into an object with both entries, in order, of length 91. |
| ValidationResults.Enqueue | PaymentGateway/Models/ValidationProviders/PaymentModelValidationProvider.cs:41 | Queueing `ToTeapotResult(offence, name)` appends one single-entry 418 result. |
| PaymentValidation.PaymentModelValidationProvider.constructor | PaymentGateway/Models/ValidationProviders/PaymentModelValidationProvider.cs:20-27 | Min and max are the parsed values, or 0 and 10000 when the value is null or does not parse; currencies are the trimmed non-empty comma pieces, or {GBP, EUR, USD} when null. All three keys must be present. |
| PaymentValidation.CurrencySet | PaymentGateway/Models/ValidationProviders/PaymentModelValidationProvider.cs:25-26 | A null value gives the defaults; otherwise every currency is a trimmed non-empty piece of the value. |
| Strings.SplitJoin | PaymentGateway/Models/ValidationProviders/PaymentModelValidationProvider.cs:26 | Splitting comma-free pieces joined with the separator gives the pieces back. |
| PaymentValidation.CurrencySetComplete | PaymentGateway/Models/ValidationProviders/PaymentModelValidationProvider.cs:25-26 | Every non-empty piece, trimmed, is a supported currency. |
| PaymentValidation.Today | PaymentGateway/Models/ValidationProviders/PaymentModelValidationProvider.cs:75 | `UtcNow.Date` is the last midnight at or before the instant. |
| PaymentValidation.PaymentModelValidationProvider.Validate | PaymentGateway/Models/ValidationProviders/PaymentModelValidationProvider.cs:34-116 | Null iff no check fails; otherwise one 418 result whose entries are `Merge` of the failures, in field order. |
| PaymentValidation.PaymentModelValidationProvider.CheckCardNumber | PaymentGateway/Models/ValidationProviders/PaymentModelValidationProvider.cs:39-46 | Queues exactly `CardNumberEntries`: missing, else invalid_card_number. |
| PaymentValidation.PaymentModelValidationProvider.CheckCvv | PaymentGateway/Models/ValidationProviders/PaymentModelValidationProvider.cs:49-56 | Queues exactly `CvvEntries`: missing, else invalid_cvv. |
| PaymentValidation.PaymentModelValidationProvider.CheckCardHolderName | PaymentGateway/Models/ValidationProviders/PaymentModelValidationProvider.cs:59-62 | Queues missing for a blank holder name. |
| PaymentValidation.PaymentModelValidationProvider.CheckExpiryDate | PaymentGateway/Models/ValidationProviders/PaymentModelValidationProvider.cs:65-84 | Queues exactly one of missing, incorrect_format or expirydate_in_the_past ("past" means before today's UTC midnight), or nothing. |
| PaymentValidation.PaymentModelValidationProvider.CheckAmount | PaymentGateway/Models/ValidationProviders/PaymentModelValidationProvider.cs:87-103 | Queues missing for null; otherwise too_high if above max, then too_low if below min. |
| PaymentValidation.PaymentModelValidationProvider.CheckCurrency | PaymentGateway/Models/ValidationProviders/PaymentModelValidationProvider.cs:106-113 | Queues missing, else currency_not_supported when the currency is not an exact member of the set. |
| PaymentValidation.NoEntriesIffValid | PaymentGateway/Models/ValidationProviders/PaymentModelValidationProvider.cs:36-115 | A payment yields no entries iff every field passes its check. |
| PaymentValidation.CardNumberAtMostOnce | PaymentGateway/Models/ValidationProviders/PaymentModelValidationProvider.cs:39-46 | The card number is reported at most once, and as missing exactly when blank. |
| PaymentValidation.AmountAtMostOnce | PaymentGateway/Models/ValidationProviders/PaymentModelValidationProvider.cs:87-103 | With min <= max the amount is reported at most once. |
| PaymentValidation.AmountBothWhenLimitsCross | PaymentGateway/Models/ValidationProviders/PaymentModelValidationProvider.cs:90-98 | With max < a < min both codes are queued, and the merge keeps amount_too_low. |
| PaymentValidation.EntriesDistinct | PaymentGateway/Models/ValidationProviders/PaymentModelValidationProvider.cs:36-115 | With min <= max every key occurs at most once, so the unified result lists exactly the failures in field order. |
| PaymentValidation.KeysOfConcat | PaymentGateway/Models/ValidationProviders/PaymentModelValidationProvider.cs:36-113 | Six groups of at most one entry, under six different keys, have distinct keys. |
| PaymentValidationExamples.AllMissingExample | PaymentGateway.WebApiTests/Models/ValidationProviders/PaymentModelValidationProviderTests.cs:14-30 | An empty payment is missing on all six fields, CardHolderName included. |
| PaymentValidationExamples.AllInvalidPastExample | PaymentGateway.WebApiTests/Models/ValidationProviders/PaymentModelValidationProviderTests.cs:32-58 | The "past, -1" payment yields invalid_cvv, CardHolderName missing, expirydate_in_the_past, amount_too_low and currency_not_supported. |
| PaymentValidationExamples.AllInvalidFormatExample | PaymentGateway.WebApiTests/Models/ValidationProviders/PaymentModelValidationProviderTests.cs:32-63 | The "123, 10^15" payment yields invalid_cvv, CardHolderName missing, incorrect_format, amount_too_high and currency_not_supported. |
| PaymentValidationExamples.AllPassedButHolderExample | PaymentGateway.WebApiTests/Models/ValidationProviders/PaymentModelValidationProviderTests.cs:66-86 | The "all passed" payment is still refused, on CardHolderName alone. |
| PaymentValidationExamples.NullTableExample | PaymentGateway/Models/ValidationProviders/PaymentModelValidationProvider.cs:20-27 | A provider built on a table holding the three keys with null values takes the defaults and reports an empty payment as missing on all six fields. |
| UserValidation.UserModelValidationProvider.Validate | PaymentGateway/Models/ValidationProviders/UserModelValidationProvider.cs:21-43 | Null iff both checks pass; otherwise a 418 result listing a missing Username, then a missing or shorter-than-4 Password. |
| UserValidation.UserValidIff | PaymentGateway/Models/ValidationProviders/UserModelValidationProvider.cs:26-40 | Valid iff the username is not blank and the password is not blank with length >= 4 (whitespace counts); there is no rule on the username's length. |
| UserValidation.UserEntriesDistinct | PaymentGateway/Models/ValidationProviders/UserModelValidationProvider.cs:23-42 | The two keys differ, so unifying keeps every entry. |
| UserValidation.UserExamples | PaymentGateway.WebApiTests/Models/ValidationProviders/UserModelValidationProviderTests.cs:15-70 | Empty model: both missing, Username first. "ABC"/"12": the length code. "ABC"/"1234": null. |
| Permissions.RequireApiPermissionAttribute.constructor | Framework/WebUtilities/RequireApiPermissionAttribute.cs:25-28 | The required list is the given list. |
| Permissions.RequireApiPermissionAttribute.HasPermissions | Framework/WebUtilities/RequireApiPermissionAttribute.cs:49-61 | A null list fails; an empty requirement admits any non-null list. |
| Permissions.RequireApiPermissionAttribute.OnActionExecuting | Framework/WebUtilities/RequireApiPermissionAttribute.cs:30-43 | No claim: result untouched. Claim failing the check: result 403. Claim passing: result untouched. |
| Permissions.HasPermissionsIsInclusion | Framework/WebUtilities/RequireApiPermissionAttribute.cs:56-60 | For duplicate-free lists over the values 1 and 2, `(Σrequired & Σgranted) == Σrequired` iff required ⊆ granted. |
| Permissions.SumOfDistinct | Framework/Enums/Permission.cs:11-12 | A duplicate-free list sums to its bit pattern. |
| Permissions.BitAndCovers | Framework/WebUtilities/RequireApiPermissionAttribute.cs:60 | On two-bit patterns `(r & g) == r` iff the bits of r are among those of g. |
| Permissions.DuplicateRequirementAdmitsWrongUser | Framework/WebUtilities/RequireApiPermissionAttribute.cs:56-60 | Requiring [View, View] admits a user holding only Create. |
| Permissions.CreateAndViewExamples | FrameworkTests/WebUtilities/RequireApiPermissionAttributeTests.cs:25-103 | For [Create, View]: refuses [Create], [View] and []; admits both. |
| Configuration.PGConfiguration.SetKeyValues | Framework/Configuration/PGConfiguration.cs:20-26 | The loop writes every section in order: the table becomes `Applied(old table, sections)`. |
| Configuration.PGConfiguration.TryGetValue | Framework/Configuration/PGConfiguration.cs:33-36 | Returns the stored value and changes nothing; the key must be present. |
| Configuration.AppliedLookup | Framework/Configuration/PGConfiguration.cs:22-25 | A key is present iff it was present or was written; the last section with a key wins; unwritten keys keep their value. |
| Configuration.AppliedKeys | Framework/Configuration/PGConfiguration.cs:14 | The key set grows by exactly the written keys; nothing is removed. |
| Configuration.SetAndReadExample | FrameworkTests/Configuration/PGConfigurationTests.cs:17-52 | The two-key example reads back its values. |
| PaymentModelTransformer.ToModel | PaymentGateway/Models/PaymentModelTransformer.cs:12-28 | Null iff null. Uid, Amount, Currency, PaymentDate and State are copied; the number is masked to 5, the expiry to 2 and the CVV to 0; no holder name. |
| PaymentModelTransformer.ToModelHidesCardData | PaymentGateway/Models/PaymentModelTransformer.cs:20-24 | At most the last five characters of the number and the last two of the expiry are readable; the CVV turns into stars of the same length. |
| PaymentModelTransformer.ToModelExample | PaymentGateway.WebApiTests/Models/PaymentModelTransformerTests.cs:35-41 | The transformer test's masked values. |
| UserModelTransformer.ToModel | PaymentGateway/Models/UserModelTransformer.cs:12-23 | Null iff null. Uid, Username and Permissions are copied; the password is never set. |
| Linq.FirstOrDefault | PaymentGateway/Domain/UserBLL.cs:74-75 | The first matching element, or null iff none matches. |
| Linq.FirstOrDefaultAppend | PaymentGateway/Domain/UserBLL.cs:74-75 | Appending changes the first match only when there was none. |
| Store.DatabaseContext.InsertPayment | Framework/DbContext/IDatabaseContext.cs:18 | The id the store reports: the record is appended iff it is above zero. |
| Store.DatabaseContext.InsertUser | Framework/DbContext/IDatabaseContext.cs:18 | As above, for users. |
| Store.DatabaseContext.UpdateUser | Framework/DbContext/IDatabaseContext.cs:26 | Success replaces the records with the same id; failure changes nothing. |
| Store.DatabaseContext.GetPaymentByUid | Framework/DbContext/IDatabaseContext.cs:41 | A stored payment with that Uid, or null iff none has it. |
| Store.DatabaseContext.GetUserByUid | Framework/DbContext/IDatabaseContext.cs:41 | A stored user with that Uid, or null iff none has it. |
| Store.InsertThenFind | Framework/DbContext/IDatabaseContext.cs:18-41 | After an append, the Uid lookup finds the earlier record with that Uid if any, else the new one. |
| HttpClients.HttpClientWrapper.PostAsync | Framework/WebUtilities/HttpClientWrapper.cs:16 | Appends one request to the posted list and returns the given reply. |
| PaymentDomain.PaymentBLL.constructor | PaymentGateway/Domain/PaymentBLL.cs:29-34 | The bank URI is the configured "ExternalBankUri". |
| PaymentDomain.PaymentBLL.CreatePaymentAsync | PaymentGateway/Domain/PaymentBLL.cs:41-70 | One request, with an empty user model as body. Non-OK reply: false, payment and store unchanged. OK reply: Uid set to the reply body and state Completed before the insert; true iff the completed payment was appended, and it can then be found by that Uid. |
| PaymentDomain.PaymentBLL.GetPaymentByUid | PaymentGateway/Domain/PaymentBLL.cs:77-80 | The store's answer: a stored payment with that Uid, or null iff none has it. |
| PaymentDomain.PaymentBLL.GetAllPayments | PaymentGateway/Domain/PaymentBLL.cs:86-89 | The stored payments unchanged, in store order. |
| UserDomain.UserBLL.CreateUser | PaymentGateway/Domain/UserBLL.cs:27-36 | True iff the insert reported an id above zero, which appends the user; otherwise nothing changes. |
| UserDomain.UserBLL.UpdateUser | PaymentGateway/Domain/UserBLL.cs:43-46 | The store's answer, with the store's effect. |
| UserDomain.UserBLL.GetAllUsers | PaymentGateway/Domain/UserBLL.cs:52-55 | The stored users unchanged, in store order. |
| UserDomain.UserBLL.GetByUserUid | PaymentGateway/Domain/UserBLL.cs:62-65 | A stored user with that Uid, or null iff none has it. |
| UserDomain.UserBLL.GetUserByUsername | PaymentGateway/Domain/UserBLL.cs:72-76 | The first stored user whose Username equals the name exactly, or null iff none does. |
| UserDomain.UsernameLookupStable | PaymentGateway/Domain/UserBLL.cs:72-76 | Once a name is taken, adding another user with it leaves the lookup on the first. |
| PaymentControllers.PaymentController.CreatePaymentAsync | PaymentGateway/Controllers/PaymentController.cs:35-64 | Invalid: the validator's result, with no bank call and no store change. Valid: one bank request; 200 with the masked completed record (holder, card, expiry, amount, currency, cvv, now, New, then Uid and Completed) iff that record was stored, else 500. |
| PaymentControllers.PaymentController.GetPaymentByUid | PaymentGateway/Controllers/PaymentController.cs:71-82 | 404 iff no stored payment has the Uid; else a masked stored payment with it. |
| PaymentControllers.PaymentController.GetAllPayments | PaymentGateway/Controllers/PaymentController.cs:88-95 | Every stored payment, masked, with the same count and order. |
| PaymentControllers.CreateNeedsViewAndCreate | PaymentGateway/Controllers/PaymentController.cs:36 | The create endpoint admits a duplicate-free list iff it holds both View and Create. |
| PaymentControllers.ReadNeedsView | PaymentGateway/Controllers/PaymentController.cs:72 | The read endpoints admit a duplicate-free list iff it holds View. |
| UserControllers.UserController.Login | PaymentGateway/Controllers/UserController.cs:40-79 | Invalid: the validator's result. Unknown name or failed verify: the same invalid_username_or_password on "Username_Password", with no session change. Otherwise sign out, then sign in with Name and Permissions claims, and return the user without the password. |
| UserControllers.UserController.CreateUser | PaymentGateway/Controllers/UserController.cs:101-134 | Invalid: the validator's result. Taken name: name_already_exists on "Username", with no insert. Otherwise a user with the new Uid, the name, the hashed password and the permissions is stored and returned, or 500. |
| UserControllers.UserController.SetPermissions | PaymentGateway/Controllers/UserController.cs:141-178 | Unknown Uid: 404, nothing changed. Update failure: 500. Success: the updated user is stored and returned; the caller's permission claim is replaced and the session re-issued iff the caller's Name claim equals the user's name. |
| UserControllers.UserController.GetUserByUid | PaymentGateway/Controllers/UserController.cs:185-196 | 404 iff no user has the Uid; else a stored user with it, without the password. |
| UserControllers.UserController.GetAllUsers | PaymentGateway/Controllers/UserController.cs:202-207 | Every stored user without the password, same count and order. |
| UserControllers.RefusalsAreTeapotResults | PaymentGateway/Controllers/UserController.cs:50-60 | The refusals are the teapot results of the named offences. |
| Web.LoginPrincipalClaims | PaymentGateway/Controllers/UserController.cs:65-70 | After login, the name claim is the login name and the permission filter receives the stored permissions. |
| Web.ReissuedLoginPrincipal | PaymentGateway/Controllers/UserController.cs:164-170 | Re-issuing a login principal swaps in the new permission list and keeps the name. |
| Web.ReissuedFrame | PaymentGateway/Controllers/UserController.cs:165-170 | Only the payment identity is rewritten, and it then holds the new permission claim. |
| Web.RemoveClaim | PaymentGateway/Controllers/UserController.cs:165 | Removing a present claim takes out exactly one copy; an absent claim changes nothing. |
| Web.PaymentIdentityIndex | PaymentGateway/Controllers/UserController.cs:165 | The first identity whose type is the payment identity, or none iff there is no such identity. |
| Web.FindName | PaymentGateway/Controllers/UserController.cs:160 | The first Name claim of the user, or null iff there is none. |

## Left out

- Serialisation: general JSON (Newtonsoft, System.Text.Json) is not modelled, and neither is
  escaping. The error object is the fixed `{"k":{"ErrorCode":"v"}}` shape, and reading it back
  is proved only for keys and codes without '"'. The permission claim holds the decoded list,
  not its JSON text, and the enum-as-string converter is not modelled.
- Parsing and the clock: `DateTime.TryParse`, `decimal.TryParse`, `DateTime.UtcNow` and
  `DateTime.Now` are parameters. Culture-dependent formats are not modelled.
- Password hashing, GUID generation, cookie sign-in/out and claim identities are opaque. The
  hasher is the functions `hash` and `verify`; the GUID is the parameter `newUid`; the
  sign-ins and sign-outs are recorded events.
- `ValidationResult.ExecuteResultAsync` writes to the HTTP response and is not part of this model.
- The network. The bank's reply is an input, and `HttpClientWrapper.Dispose` is not modelled.
  The TraceIdentifier header read in the error log at PaymentBLL.cs:64 can throw when the header
  is absent; the non-OK path is modelled as returning false.
- Logging (Serilog) everywhere.
- The document store. `LiteDbWrapper`, the string-built Uid query and the store's own choice of
  ids are abstract. Insert and Update outcomes are chosen by the store; an insert does not
  write back the id the store assigns.
  The query text is built as `$.Uid = '<uid>'` (DatabaseContext.cs:90), so a null Uid searches
  for the empty string and a Uid containing a quote changes or breaks the query; the model's
  lookups compare Uids exactly and do not capture either.
- Store.DatabaseContext.UpdateUser: only the success flag and the replacement by id are
  modelled, not the store's rule for when an update succeeds.
- `Enumerable.Sum` throws on overflow; the sums here are unbounded integers. In
  `HasPermissions` overflow would need more than 2^31 permissions. In the card check's
  `calculatedNumbers.Sum(e => (e - 48))` (CommonMethods.cs:54), `TextSum`, each character
  adds at most 9, so overflow needs a number of roughly 2^31/9 characters.
- Strings are sequences of Unicode code points, since a Dafny `char` is one code point. C#
  measures and indexes strings in UTF-16 code units, so a character above U+FFFF is one
  position here and two (a surrogate pair) in the source. On strings made only of characters
  up to U+FFFF the two agree. The members this affects are listed below.
- IsCardNumberValid: works on code points, not UTF-16 units (CommonMethods.cs:19-58). Above
  U+FFFF the source reverses and sums the two surrogate halves, and the model uses the single
  code point. For example, the source accepts U+1F600 followed by "4" (halves 0xDE00 and
  0xD83D after the reverse, sum 46) and the model rejects it. `CommonMethods.CardNumberValid`,
  and the card check in `PaymentValidation.PaymentModelValidationProvider.CheckCardNumber`,
  share this gap.
- Mask: counts lengths and "the last n characters" in code points, not UTF-16 units
  (CommonMethods.cs:88-99). For example, with n = 5 the source masks U+1F600 followed by
  "12345" to "**12345", and the model gives "*12345". `PaymentModelTransformer.ToModel`
  inherits this through its masks.
- MaskString: the loop is proved equal to `Mask`, so it shares `Mask`'s code-point lengths.
- Validate: `UserValidation.UserModelValidationProvider.Validate` measures the password in code
  points. UserModelValidationProvider.cs:37 uses `Length`, which counts UTF-16 units, so the
  source accepts a password of two U+1F600 characters (length 4) and the model reports
  must_be_at_least_four_characters.
- UserValidIff: its "at least four characters" counts code points, not the UTF-16 units of
  UserModelValidationProvider.cs:37. It shares `Validate`'s gap.
- How several `RequireApiPermission` attributes on one action combine is decided by the
  ASP.NET filter pipeline, so the "one of many sets" doc comment is not modelled. This model
  also does not connect the filter's 403 to the controller's answer.
- Exceptions: the source throws on a null CVV, on a missing configuration key, and in
  `ClaimsIdentity.RemoveClaim` when the claim is not in the payment identity. The first two
  are preconditions here. The third is modelled as removing nothing.
- Web.RemoveClaim: removes the first claim equal to the given one. `ClaimsIdentity.RemoveClaim`
  compares by reference, and the claim found by `User.FindFirst` (UserController.cs:164-165)
  may belong to another identity, in which case the source throws; the model does not capture
  reference identity.
- Permission values: the enum is modelled with its two declared values, 1 and 2
  (Permission.cs:11-12). A deserialised request body can carry any integer, such as 3; such
  values are not modelled.
- MaskString: requires a non-negative count. For a negative count the source asks for more
  stars than the string has characters and `Remove(0, stars.Length)` throws
  (CommonMethods.cs:94-99); that error path is not modelled. Its callers pass 5, 2 and 0.
- GetUnifiedTeapotValidationResults: requires every element to hold at least one entry. The
  source throws on a null element, on a null `Content` and, for an empty object, at
  `ElementAt(0)` (ValidationResult.cs:43-45); those inputs are excluded, not modelled as errors.
  The validators only pass results built by `ToTeapotResult`, which always hold one entry.
- `UserController.SignOut`, `BankController` (it returns a random GUID),
  `ExceptionHandlerMiddleware`, `Startup` and `Program` are not part of this model.
- PaymentValidation.PaymentModelValidationProvider.constructor: requires all three keys to be
  in the table, as the table's indexer throws on a missing key.

## Where the code and its tests disagree

The model follows the code:

- The payment validator checks `CardHolderName` (PaymentModelValidationProvider.cs:59-62), but
  the tests' payments never set it and the expected results omit it
  (PaymentModelValidationProviderTests.cs:29, :57, :62). The "all passed" test expects null
  (:85). `AllMissingExample` to `AllPassedButHolderExample` show what the code yields.
- The validator's constructor reads MinAmount, MaxAmount and SupportedCurrencies through the
  throwing indexer (PaymentModelValidationProvider.cs:23-26, PGConfiguration.cs:35), and the
  validator tests never set those keys. With the keys unset, `new PaymentModelValidationProvider()`
  throws `KeyNotFoundException` before `Validate` runs, so as written those tests cannot reach
  their assertions. The defaults arise only for a key that is present with a null or unparseable
  value: `NullTableExample` builds that table and the provider on it. The other payment
  examples skip the constructor and apply `PaymentEntries` to the default limits and currencies
  directly.
- `PGConfiguration.TryGetValue` throws on a missing key (PGConfiguration.cs:35), while the test
  at PGConfigurationTests.cs:53 expects null.
- The card check is not textbook Luhn (CommonMethods.cs:57): a number ending in '0' is always
  rejected, and ":" is accepted.
- PaymentController.cs:47 assigns `CardHolderName`, a field PaymentDto.cs:9-28 lacks; it is a
  field of the record here.
- PaymentBLL.cs:44 posts an empty `UserModel` to the bank, not the payment.
- With duplicates in the required list the permission test is not set inclusion
  (`DuplicateRequirementAdmitsWrongUser`).
