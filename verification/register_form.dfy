/** The registration screen: two guards, then one request whose payload leaves
    the confirmation field out; success sends the user to the login screen. */
module RegisterForm {
  import opened Wrappers
  import ApiClient

  const FillAllFields := "Please fill in all fields"
  const GenericFailure := "An error occurred"
  const PasswordsDiffer := "Passwords do not match"
  const LoginScreen := "Login"

  datatype Fields = Fields(name: string, email: string, password: string, confirmPassword: string)

  /** The body of the register request. */
  datatype RegisterPayload = RegisterPayload(name: string, email: string, password: string)

  /** `handleRegister`: the request it sends, or the alert it shows instead. */
  function HandleRegister(form: Fields): (r: Result<RegisterPayload, string>)
    ensures r.Err? <==> form.name == "" || form.email == "" || form.password == "" || form.confirmPassword == ""
                        || form.password != form.confirmPassword
    ensures (form.name == "" || form.email == "" || form.password == "" || form.confirmPassword == "") ==>
      r == Err(FillAllFields)
    ensures r.Ok? ==> r.value == RegisterPayload(form.name, form.email, form.password)
  {
    if form.name == "" || form.email == "" || form.password == "" || form.confirmPassword == "" then
      Err(FillAllFields)
    else if form.password != form.confirmPassword then
      Err(PasswordsDiffer)
    else
      Ok(RegisterPayload(form.name, form.email, form.password))
  }

  /** A mismatch is reported only once every field is filled in. */
  lemma MismatchNeedsAllFields(form: Fields)
    ensures HandleRegister(form) == Err(PasswordsDiffer) <==>
      form.name != "" && form.email != "" && form.password != "" && form.confirmPassword != ""
      && form.password != form.confirmPassword
  {
  }

  /** The confirmation never travels: a request is only sent when it equals the
      password, and two forms differing only in it send the same payload. */
  lemma ConfirmationIsNotSent(form: Fields, confirm: string)
    requires HandleRegister(form).Ok? && HandleRegister(form.(confirmPassword := confirm)).Ok?
    ensures HandleRegister(form.(confirmPassword := confirm)) == HandleRegister(form)
  {
  }

  /** The alert and the navigation after the request settles. */
  datatype Settled = Succeeded | Failed(detail: Option<string>)

  function AfterRegister(outcome: Settled): (r: ((string, string), Option<string>))
    ensures outcome.Succeeded? <==> r.1 == Some(LoginScreen)
    ensures r.1.Some? ==> r.1 == Some(LoginScreen)
    ensures outcome.Failed? ==> r.0 == ("Registration Failed", ApiClient.ErrorDetail(outcome.detail, GenericFailure))
  {
    match outcome
    case Succeeded => (("Success", "Registration successful! Please login."), Some(LoginScreen))
    case Failed(detail) => (("Registration Failed", ApiClient.ErrorDetail(detail, GenericFailure)), None)
  }
}
