/** The login form: its validation schema, the login request it sends,
    when the submit button is enabled, and the error banner. */
module LoginForm {
  import opened Js
  import AuthSlice

  datatype LoginData = LoginData(email: string, password: string)

  /** The body of the login request. */
  datatype LoginRequest = LoginRequest(emailId: string, password: string)

  /** `.min(1, 'Password is required').min(6, ...)`: both checks run, so an empty password gets both messages. */
  function PasswordIssues(p: string): (issues: seq<string>)
    ensures issues == [] <==> |p| >= 6
    ensures p == "" <==> "Password is required" in issues
  {
    (if |p| < 1 then ["Password is required"] else [])
    + (if |p| < 6 then ["Password must be at least 6 characters"] else [])
  }

  /** `.email()` is a library check, passed in as `isEmail`. */
  function EmailIssues(e: string, isEmail: string -> bool): (issues: seq<string>)
    ensures issues == [] <==> isEmail(e) && e != ""
  {
    (if isEmail(e) then [] else ["Please enter a valid email address"])
    + (if |e| >= 1 then [] else ["Email is required"])
  }

  predicate LoginValid(form: LoginData, isEmail: string -> bool) {
    isEmail(form.email) && form.email != "" && |form.password| >= 6
  }

  function LoginIssues(form: LoginData, isEmail: string -> bool): (issues: seq<string>)
    ensures issues == [] <==> LoginValid(form, isEmail)
  {
    EmailIssues(form.email, isEmail) + PasswordIssues(form.password)
  }

  /** Only the length of the password matters: two passwords of one length are judged alike. */
  lemma OnlyPasswordLengthMatters(email: string, p: string, q: string, isEmail: string -> bool)
    requires |p| == |q|
    ensures LoginIssues(LoginData(email, p), isEmail) == LoginIssues(LoginData(email, q), isEmail)
  {
  }

  function FormOfRequest(r: LoginRequest): LoginData {
    LoginData(r.emailId, r.password)
  }

  /** `onSubmit` sends exactly `{ emailId: email, password }`. */
  function LoginPayload(form: LoginData): (r: LoginRequest)
    ensures FormOfRequest(r) == form
    ensures r.emailId == form.email && r.password == form.password
  {
    LoginRequest(form.email, form.password)
  }

  /** `disabled={loading || !isValid}`. */
  function SubmitDisabled(s: AuthSlice.AuthState, form: LoginData, isEmail: string -> bool): (disabled: bool)
    ensures !disabled <==> !s.loading && LoginIssues(form, isEmail) == []
  {
    s.loading || !LoginValid(form, isEmail)
  }

  const LoginFallback: string := "Login failed. Please try again."

  /** The banner: shown when the error is truthy, with its text when it is a string and the
      fixed fallback for any other value. */
  function ErrorBanner(error: Option<ErrorValue>): (shown: Option<string>)
    ensures shown.Some? <==> TruthyError(error)
    ensures TruthyError(error) && error.value.StringValue? ==> shown == Some(error.value.text)
    ensures TruthyError(error) && error.value.OtherValue? ==> shown == Some(LoginFallback)
  {
    if !TruthyError(error) then None
    else match error.value
         case StringValue(t) => Some(t)
         case OtherValue(_) => Some(LoginFallback)
  }

  /** A string error held by the slice is shown exactly as stored. */
  lemma SliceErrorShownAsStored(s: AuthSlice.AuthState)
    ensures ErrorBanner(StringError(s.error)) == (if Truthy(s.error) then s.error else None)
  {
  }
}
