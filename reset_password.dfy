/**
 * The password-reset form (`ResetPassword`): the validation of the new password and its
 * confirmation, the editing of a field, the submit guard and the requirement indicators.
 */
module ResetPassword {
  import opened Text

  const PasswordRequired: string := "Password is required"
  const PasswordTooShort: string := "Password must be at least 6 characters"
  const ConfirmRequired: string := "Please confirm your password"
  const PasswordsDiffer: string := "Passwords do not match"
  const MinPasswordLength: nat := 6

  /** `formData[field]`, the empty string when the field is missing (both read as false). */
  function Field(data: map<string, string>, field: string): string {
    if field in data then data[field] else ""
  }

  /** The errors `validateForm` records for a password and its confirmation. */
  function FormErrors(password: string, confirm: string): map<string, string> {
    var passwordErrors: map<string, string> :=
      if password == "" then map["password" := PasswordRequired]
      else if JsLength(password) < MinPasswordLength then map["password" := PasswordTooShort]
      else map[];
    if confirm == "" then passwordErrors["confirmPassword" := ConfirmRequired]
    else if password != confirm then passwordErrors["confirmPassword" := PasswordsDiffer]
    else passwordErrors
  }

  /**
   * The password has an error exactly when it is shorter than six UTF-16 code units
   * ("required" when empty); the confirmation has one exactly when it is empty ("please confirm") or
   * differs; the form is valid exactly when the password has at least six characters and the
   * confirmation repeats it.
   */
  lemma FormErrorsSpec(password: string, confirm: string)
    ensures FormErrors(password, confirm).Keys <= {"password", "confirmPassword"}
    ensures "password" in FormErrors(password, confirm) <==> JsLength(password) < MinPasswordLength
    ensures "password" in FormErrors(password, confirm) ==>
              (FormErrors(password, confirm)["password"] == PasswordRequired <==> password == "")
    ensures "confirmPassword" in FormErrors(password, confirm) <==> confirm == "" || password != confirm
    ensures "confirmPassword" in FormErrors(password, confirm) ==>
              (FormErrors(password, confirm)["confirmPassword"] == ConfirmRequired <==> confirm == "")
    ensures |FormErrors(password, confirm)| == 0 <==> JsLength(password) >= MinPasswordLength && password == confirm
  {
    var e := FormErrors(password, confirm);
    if JsLength(password) < MinPasswordLength {
      assert "password" in e;
    }
    if confirm == "" || password != confirm {
      assert "confirmPassword" in e;
    }
    if JsLength(password) >= MinPasswordLength && password == confirm {
      assert e == map[];
    }
  }

  /** "At least 6 characters", measured like the validation, in UTF-16 code units. */
  predicate LengthIndicator(password: string) {
    password != "" && JsLength(password) >= MinPasswordLength
  }

  /** "At least one uppercase letter (recommended)": `/[A-Z]/`. */
  predicate UppercaseIndicator(password: string) {
    password != "" && exists k :: 0 <= k < |password| && IsUpper(password[k])
  }

  /** "At least one number (recommended)": `/[0-9]/`. */
  predicate DigitIndicator(password: string) {
    password != "" && exists k :: 0 <= k < |password| && IsDigit(password[k])
  }

  /**
   * The length indicator lights exactly when validation accepts the password; the other two
   * are advice only: a password without upper-case letters or digits passes.
   */
  lemma IndicatorsAgainstValidation(password: string, confirm: string)
    ensures LengthIndicator(password) <==> "password" !in FormErrors(password, confirm)
    ensures |FormErrors("abcdef", "abcdef")| == 0
    ensures !UppercaseIndicator("abcdef") && !DigitIndicator("abcdef")
  {
    FormErrorsSpec(password, confirm);
    FormErrorsSpec("abcdef", "abcdef");
  }

  /**
   * Three emoji are six UTF-16 code units, so they pass the length check although they are
   * only three characters.
   */
  lemma SurrogatePairsCountTwice()
    ensures "password" !in FormErrors("\U{1F600}\U{1F600}\U{1F600}", "\U{1F600}\U{1F600}\U{1F600}")
    ensures "password" in FormErrors("abc", "abc")
  {
    JsLengthSurrogates();
    FormErrorsSpec("\U{1F600}\U{1F600}\U{1F600}", "\U{1F600}\U{1F600}\U{1F600}");
    FormErrorsSpec("abc", "abc");
  }

  /** The form's state: its fields, the recorded errors and the submission flags. */
  class ResetPasswordForm {
    var formData: map<string, string>
    var formErrors: map<string, string>
    var isLoading: bool
    var isSuccess: bool
    var error: string

    constructor ()
      ensures formData == map["password" := "", "confirmPassword" := ""]
      ensures formErrors == map[] && !isLoading && !isSuccess && error == ""
    {
      formData := map["password" := "", "confirmPassword" := ""];
      formErrors := map[];
      isLoading := false;
      isSuccess := false;
      error := "";
    }

    /** `validateForm`: records the errors of the current fields and reports whether there are none. */
    method ValidateForm() returns (valid: bool)
      modifies this`formErrors
      ensures formErrors == FormErrors(Field(formData, "password"), Field(formData, "confirmPassword"))
      ensures valid <==> |formErrors| == 0
    {
      var password := Field(formData, "password");
      var confirm := Field(formData, "confirmPassword");
      var errors: map<string, string> := map[];
      if password == "" {
        errors := errors["password" := PasswordRequired];
      } else if JsLength(password) < MinPasswordLength {
        errors := errors["password" := PasswordTooShort];
      }
      if confirm == "" {
        errors := errors["confirmPassword" := ConfirmRequired];
      } else if password != confirm {
        errors := errors["confirmPassword" := PasswordsDiffer];
      }
      formErrors := errors;
      valid := |errors| == 0;
    }

    /** `handleInputChange`: sets one field, and blanks that field's error when it shows one. */
    method HandleInputChange(field: string, value: string)
      modifies this`formData, this`formErrors
      ensures formData == old(formData)[field := value]
      ensures formErrors == if field in old(formErrors) && old(formErrors)[field] != "" then old(formErrors)[field := ""]
                            else old(formErrors)
      ensures forall f :: f != field ==> Field(formData, f) == Field(old(formData), f)
      ensures forall f :: f != field && f in old(formErrors) ==> f in formErrors && formErrors[f] == old(formErrors)[f]
    {
      formData := formData[field := value];
      if field in formErrors && formErrors[field] != "" {
        formErrors := formErrors[field := ""];
      }
    }

    /**
     * `resetPassword`: validates; on failure returns with nothing else changed, otherwise
     * clears the error message and starts loading.
     */
    method Submit() returns (submitted: bool)
      modifies this`formErrors, this`error, this`isLoading
      ensures formErrors == FormErrors(Field(formData, "password"), Field(formData, "confirmPassword"))
      ensures submitted <==> |formErrors| == 0
      ensures !submitted ==> isLoading == old(isLoading) && error == old(error)
      ensures submitted ==> isLoading && error == ""
    {
      var valid := ValidateForm();
      if !valid {
        return false;
      }
      error := "";
      isLoading := true;
      submitted := true;
    }

    /** The end of the simulated request: success, no longer loading. */
    method Completed()
      modifies this`isSuccess, this`isLoading
      ensures isSuccess && !isLoading
    {
      isSuccess := true;
      isLoading := false;
    }
  }
}
