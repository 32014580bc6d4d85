/**
 * Validation of the credentials a client sends to log in or to create a user: the username must
 * be present, and the password present and at least four characters long.
 */
module UserValidation {
  import opened Wrappers
  import opened Strings
  import opened ApiOffences
  import opened ValidationResults
  import opened Models

  const MinPasswordLength := 4

  /** The entries the checks queue, in order: Username, then Password. */
  function UserEntries(model: UserModel): seq<Entry> {
    (if IsNullOrWhiteSpace(model.username) then [Entry("Username", "missing")] else [])
    + (if IsNullOrWhiteSpace(model.password) then [Entry("Password", "missing")]
       else if |model.password.value| < MinPasswordLength then [Entry("Password", "must_be_at_least_four_characters")]
       else [])
  }

  class UserModelValidationProvider {
    constructor()
    {
    }

    /** Validate: null when both checks pass, else one 418 result listing the failures in order. */
    method Validate(model: UserModel) returns (res: Option<ValidationResult>)
      ensures res.None? <==> UserEntries(model) == []
      ensures res.Some? ==> res.value == ValidationResult(UserEntries(model), TeapotStatus)
    {
      var validationResults: seq<ValidationResult> := [];
      ghost var es: seq<Entry> := [];
      if IsNullOrWhiteSpace(model.username) {
        validationResults, es := Enqueue(validationResults, es, Missing, "Username");
      }
      if IsNullOrWhiteSpace(model.password) {
        validationResults, es := Enqueue(validationResults, es, Missing, "Password");
      } else if |model.password.value| < MinPasswordLength {
        validationResults, es := Enqueue(validationResults, es, AtLeastFourCharacters, "Password");
      }
      assert es == UserEntries(model);
      HeadsOfTeapots(es);
      UserEntriesDistinct(model);
      assert Merge(Heads(validationResults)) == UserEntries(model);
      res := GetUnifiedTeapotValidationResults(Some(validationResults));
    }
  }

  /** The two keys differ, so unifying the queue keeps every entry. */
  lemma UserEntriesDistinct(model: UserModel)
    ensures Merge(UserEntries(model)) == UserEntries(model)
  {
    var es := UserEntries(model);
    assert Distinct(Keys(es));
    MergeOfDistinct(es);
  }

  /** A user passes exactly when the username is not blank and the password is a non-blank text of length four or more. */
  lemma UserValidIff(model: UserModel)
    ensures UserEntries(model) == [] <==>
              !IsNullOrWhiteSpace(model.username) && !IsNullOrWhiteSpace(model.password)
              && |model.password.value| >= MinPasswordLength
  {
  }

  /** The three test users: nothing set; "ABC" with password "12"; "ABC" with password "1234". */
  lemma UserExamples()
    ensures UserEntries(EmptyUserModel) == [Entry("Username", "missing"), Entry("Password", "missing")]
    ensures UserEntries(UserModel(None, Some("ABC"), Some("12"), None))
              == [Entry("Password", "must_be_at_least_four_characters")]
    ensures UserEntries(UserModel(None, Some("ABC"), Some("1234"), None)) == []
  {
    assert !IsWhiteSpace("ABC"[0]);
    assert !IsNullOrWhiteSpace(Some("12")) by { assert !IsWhiteSpace("12"[0]); }
    assert !IsNullOrWhiteSpace(Some("1234")) by { assert !IsWhiteSpace("1234"[0]); }
  }
}
