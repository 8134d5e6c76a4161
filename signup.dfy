/** The sign-up form: its validation schema, the register request it sends,
    when the submit button is enabled, and the error banner. */
module SignupForm {
  import opened Js
  import AuthSlice

  datatype SignupData = SignupData(firstName: string, lastName: string, email: string, password: string)

  /** The body of the register request. */
  datatype RegisterRequest = RegisterRequest(firstName: string, lastName: string, emailId: string, password: string)

  // ------------------------------------------------------------ the schema

  predicate OnlyLetters(s: string) {
    forall i :: 0 <= i < |s| ==> IsAsciiLetter(s[i])
  }

  /** What a first or last name must be: 2 to 50 characters, all of them letters A-Z or a-z. */
  predicate ValidName(s: string) {
    2 <= |s| <= 50 && OnlyLetters(s)
  }

  /** The messages the schema reports for a name field: min(2), max(50), then /^[A-Za-z]+$/. */
  function NameIssues(field: string, s: string): (issues: seq<string>)
    ensures issues == [] <==> ValidName(s)
    ensures |s| < 2 ==> field + " must be at least 2 characters" in issues
    ensures |s| > 50 ==> field + " must be less than 50 characters" in issues
  {
    (if |s| < 2 then [field + " must be at least 2 characters"] else [])
    + (if |s| > 50 then [field + " must be less than 50 characters"] else [])
    + (if |s| >= 1 && OnlyLetters(s) then [] else [field + " should contain only letters"])
  }

  predicate HasUpper(s: string) { exists i :: 0 <= i < |s| && IsUpper(s[i]) }
  predicate HasLower(s: string) { exists i :: 0 <= i < |s| && IsLower(s[i]) }
  predicate HasDigit(s: string) { exists i :: 0 <= i < |s| && IsDigit(s[i]) }
  /** Some character outside [A-Za-z0-9]. */
  predicate HasSpecial(s: string) { exists i :: 0 <= i < |s| && !IsAsciiLetter(s[i]) && !IsDigit(s[i]) }

  /** At least 8 characters with an upper-case letter, a lower-case letter, a digit and a special character. */
  predicate ValidPassword(p: string) {
    |p| >= 8 && HasUpper(p) && HasLower(p) && HasDigit(p) && HasSpecial(p)
  }

  function PasswordIssues(p: string): (issues: seq<string>)
    ensures issues == [] <==> ValidPassword(p)
    ensures |issues| <= 5
  {
    (if |p| < 8 then ["Password must be at least 8 characters"] else [])
    + (if HasUpper(p) then [] else ["Password must contain at least one uppercase letter"])
    + (if HasLower(p) then [] else ["Password must contain at least one lowercase letter"])
    + (if HasDigit(p) then [] else ["Password must contain at least one number"])
    + (if HasSpecial(p) then [] else ["Password must contain at least one special character"])
  }

  /** `.email()` is a library check, passed in as `isEmail`; `.min(1)` also rejects the empty string. */
  function EmailIssues(e: string, isEmail: string -> bool): (issues: seq<string>)
    ensures issues == [] <==> isEmail(e) && e != ""
  {
    (if isEmail(e) then [] else ["Please enter a valid email address"])
    + (if |e| >= 1 then [] else ["Email is required"])
  }

  predicate SignupValid(form: SignupData, isEmail: string -> bool) {
    ValidName(form.firstName) && ValidName(form.lastName) && isEmail(form.email) && form.email != ""
    && ValidPassword(form.password)
  }

  /** Every message of every field; the form is valid exactly when there is none. */
  function SignupIssues(form: SignupData, isEmail: string -> bool): (issues: seq<string>)
    ensures issues == [] <==> SignupValid(form, isEmail)
  {
    NameIssues("First name", form.firstName) + NameIssues("Last name", form.lastName)
    + EmailIssues(form.email, isEmail) + PasswordIssues(form.password)
  }

  function Letters(n: nat): (s: string)
    ensures |s| == n && OnlyLetters(s)
  {
    seq(n, _ => 'a')
  }

  /** The upper bound is inclusive: a 50-letter name passes although its message says "less than 50". */
  lemma NameLengthBounds(n: nat)
    ensures NameIssues("First name", Letters(n)) == [] <==> 2 <= n <= 50
  {
  }

  lemma PasswordExamples()
    ensures PasswordIssues("Abcdef1!") == []
    ensures PasswordIssues("abcdefgh") == ["Password must contain at least one uppercase letter",
                                           "Password must contain at least one number",
                                           "Password must contain at least one special character"]
  {
    var good := "Abcdef1!";
    assert IsUpper(good[0]) && IsLower(good[1]) && IsDigit(good[6]) && !IsAsciiLetter(good[7]) && !IsDigit(good[7]);
    var bad := "abcdefgh";
    assert IsLower(bad[0]);
    assert forall i :: 0 <= i < |bad| ==> IsLower(bad[i]);
  }

  // ------------------------------------------------------------ submitting

  /** What the register endpoint is documented to accept, read off the request itself. */
  predicate RegisterRequestValid(r: RegisterRequest, isEmail: string -> bool) {
    ValidName(r.firstName) && ValidName(r.lastName) && isEmail(r.emailId) && r.emailId != ""
    && ValidPassword(r.password)
  }

  function FormOfRequest(r: RegisterRequest): SignupData {
    SignupData(r.firstName, r.lastName, r.emailId, r.password)
  }

  /** `onSubmit`'s request: the form's fields with `email` sent as `emailId`; nothing is lost or reinterpreted. */
  function RegisterPayload(form: SignupData): (r: RegisterRequest)
    ensures FormOfRequest(r) == form
    ensures forall isEmail: string -> bool :: RegisterRequestValid(r, isEmail) <==> SignupValid(form, isEmail)
  {
    RegisterRequest(form.firstName, form.lastName, form.email, form.password)
  }

  /** The form reads `isLoading` from the slice, which has no such field (its flag is `loading`):
      the value is always undefined, so it never disables the button. */
  function SelectedIsLoading(s: AuthSlice.AuthState): bool {
    false
  }

  /** `disabled={isLoading || !isValid}`: in effect only an invalid form disables submitting. */
  function SubmitDisabled(s: AuthSlice.AuthState, form: SignupData, isEmail: string -> bool): (disabled: bool)
    ensures disabled <==> !SignupValid(form, isEmail)
    ensures SignupIssues(form, isEmail) == [] ==> !disabled
  {
    SelectedIsLoading(s) || !SignupValid(form, isEmail)
  }

  const RegistrationFallback: string := "Registration failed. Please try again."

  /** The banner: shown when the error is truthy, with its text when it is a string and the
      fixed fallback for any other value. */
  function ErrorBanner(error: Option<ErrorValue>): (shown: Option<string>)
    ensures shown.Some? <==> TruthyError(error)
    ensures TruthyError(error) && error.value.StringValue? ==> shown == Some(error.value.text)
    ensures TruthyError(error) && error.value.OtherValue? ==> shown == Some(RegistrationFallback)
  {
    if !TruthyError(error) then None
    else match error.value
         case StringValue(t) => Some(t)
         case OtherValue(_) => Some(RegistrationFallback)
  }

  /** A string error held by the slice is shown exactly as stored. */
  lemma SliceErrorShownAsStored(s: AuthSlice.AuthState)
    ensures ErrorBanner(StringError(s.error)) == (if Truthy(s.error) then s.error else None)
  {
  }
}
