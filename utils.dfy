/** Model of src/utils.py: the field validators. Each either returns
    normally (`Pass`) or raises ValueError (`Fail`); none has any other
    effect. A Python argument that may be `None` is an `Option`. */
module Utils {
  import opened Wrappers
  import opened Strings

  /** `f"{field_name} must be at least {min_length} characters long"`. */
  function MinLengthMessage(fieldName: string, minLength: nat): string {
    fieldName + " must be at least " + NatToString(minLength) + " characters long"
  }

  /** `validate_min_length`: fails when the value is `None`, is the empty
      string (falsy, whatever `minLength` is) or is shorter than `minLength`. */
  function ValidateMinLength(value: Option<string>, minLength: nat, fieldName: string): (o: Outcome)
    ensures o.Pass? <==> value.Some? && value.value != "" && |value.value| >= minLength
    ensures o.Fail? ==> o.error == ValueError(MinLengthMessage(fieldName, minLength))
  {
    if value.None? || value.value == "" || |value.value| < minLength then
      Fail(ValueError(MinLengthMessage(fieldName, minLength)))
    else Pass
  }

  /** A value accepted for some minimum is accepted for every smaller one,
      and the empty string is refused even for minimum 0. */
  lemma MinLengthMonotone(value: Option<string>, m: nat, n: nat, fieldName: string)
    requires n <= m && ValidateMinLength(value, m, fieldName).Pass?
    ensures ValidateMinLength(value, n, fieldName).Pass?
    ensures ValidateMinLength(Some(""), n, fieldName).Fail?
  {
  }

  /** `f"{field_name} must be greater than 0"`. */
  function PositiveMessage(fieldName: string): string {
    fieldName + " must be greater than 0"
  }

  /** `validate_positive_number`: fails when the value is `None` or not
      greater than 0 (0 itself is falsy). */
  function ValidatePositiveNumber(value: Option<real>, fieldName: string): (o: Outcome)
    ensures o.Pass? <==> value.Some? && value.value > 0.0
    ensures o.Fail? ==> o.error == ValueError(PositiveMessage(fieldName))
  {
    if value.None? || value.value == 0.0 || value.value <= 0.0 then
      Fail(ValueError(PositiveMessage(fieldName)))
    else Pass
  }

  const InvalidEmail := "Invalid email address"

  /** `validate_email`: fails when the address is `None`, empty, or has no '@'. */
  function ValidateEmail(email: Option<string>): (o: Outcome)
    ensures o.Pass? <==> email.Some? && '@' in email.value
    ensures o.Fail? ==> o.error == ValueError(InvalidEmail)
  {
    if email.None? || email.value == "" || '@' !in email.value then Fail(ValueError(InvalidEmail))
    else Pass
  }

  /** A validator the update methods run only for an argument that is not
      `None`. */
  function IfGiven<T>(value: Option<T>, check: Outcome): Outcome {
    if value.None? then Pass else check
  }

  /** Running validators one after another: the first failure is raised and
      the later ones never run. */
  function FirstFailure(checks: seq<Outcome>): (o: Outcome)
    ensures o.Pass? <==> forall k :: 0 <= k < |checks| ==> checks[k].Pass?
    ensures o.Fail? ==> exists k :: 0 <= k < |checks| && checks[k] == o
                                   && forall m :: 0 <= m < k ==> checks[m].Pass?
  {
    if checks == [] then Pass
    else if checks[0].Fail? then checks[0]
    else
      var rest := FirstFailure(checks[1..]);
      assert rest.Fail? ==> exists k :: 1 <= k < |checks| && checks[k] == rest
                                      && forall m :: 0 <= m < k ==> checks[m].Pass? by {
        if rest.Fail? {
          var k :| 0 <= k < |checks[1..]| && checks[1..][k] == rest
                   && forall m :: 0 <= m < k ==> checks[1..][m].Pass?;
          assert checks[k + 1] == rest;
          assert forall m :: 1 <= m < k + 1 ==> checks[m] == checks[1..][m - 1];
        }
      }
      rest
  }

  /** Three validators in a row: the first one that fails decides. */
  lemma FirstFailureOfThree(a: Outcome, b: Outcome, c: Outcome)
    ensures FirstFailure([a, b, c]) == if a.Fail? then a else if b.Fail? then b else c
  {
    assert FirstFailure([c]) == c by {
      assert [c][1..] == [];
    }
    assert FirstFailure([b, c]) == if b.Fail? then b else c by {
      assert [b, c][1..] == [c];
    }
    assert [a, b, c][1..] == [b, c];
  }

  /** The messages tests/test_utils.py and the manager tests expect. */
  lemma UsernameMessage()
    ensures ValidateMinLength(Some("ab"), 3, "Username")
         == Fail(ValueError(MinLengthMessage("Username", 3)))
    ensures MinLengthMessage("Username", 3) == "Username" + " must be at least " + "3" + " characters long"
  {
    assert NatToString(3) == "3";
  }

  lemma PasswordMessage()
    ensures ValidateMinLength(Some("short"), 8, "Password")
         == Fail(ValueError(MinLengthMessage("Password", 8)))
    ensures MinLengthMessage("Password", 8) == "Password" + " must be at least " + "8" + " characters long"
  {
    assert NatToString(8) == "8";
  }

  lemma DescriptionMessage(description: string)
    requires |description| < 10
    ensures ValidateMinLength(Some(description), 10, "Description")
         == Fail(ValueError(MinLengthMessage("Description", 10)))
    ensures MinLengthMessage("Description", 10) == "Description" + " must be at least " + "10" + " characters long"
  {
    assert NatToString(10) == "10" by {
      assert NatToString(1) == "1";
      assert DigitChar(0) == '0';
    }
  }

  lemma PriceMessage()
    ensures ValidatePositiveNumber(Some(-5.0), "Price") == Fail(ValueError(PositiveMessage("Price")))
    ensures ValidatePositiveNumber(Some(0.0), "Price").Fail?
    ensures ValidatePositiveNumber(None, "Price").Fail?
  {
  }
}
