/** The registration page of the JavaScript client (frontend/src/pages/RegisterPage.js). */
module RegisterPage {
  import opened Wrappers
  import opened Accounts
  import opened ApiClient
  import opened LegacySessionContext

  const MismatchMessage: string := "Пароли не совпадают"
  const GenericFailureMessage: string := "Ошибка регистрации"

  /** The roles the form offers, in order. */
  const RoleOptions: seq<Role> := [Student, Teacher, Staff]

  /** The role the form starts with. */
  const DefaultFormRole: Role := Student

  /** The form starts on an offered role; the admin role is never offered; every other role is,
      once. */
  lemma RoleOptionsSpec(r: Role)
    ensures DefaultFormRole in RoleOptions && DefaultFormRole == DefaultRole
    ensures r in RoleOptions <==> r != Admin
    ensures forall i, j :: 0 <= i < j < |RoleOptions| ==> RoleOptions[i] != RoleOptions[j]
  {
  }

  /** The error shown for a failed registration: the server's message, or the generic text. */
  function FailureMessage(e: AxiosError): string
  {
    if Truthy(e.responseMessage) then e.responseMessage.value else GenericFailureMessage
  }

  const LoginPath: string := "/login"

  /** The page's state: the form, the error shown, and where the router was sent, if anywhere. */
  class RegisterPageState {
    var form: RegistrationForm
    var error: string
    var location: Option<string>

    constructor ()
      ensures form == RegistrationForm("", "", "", "", "", "", DefaultFormRole, "", "")
      ensures error == "" && location.None?
    {
      form := RegistrationForm("", "", "", "", "", "", DefaultFormRole, "", "");
      error := "";
      location := None;
    }

    /** handleSubmit. outcome is what the session's register produced; sent is the form register
        was called with, None when it was not called. */
    method HandleSubmit(outcome: Result<(), AxiosError>) returns (sent: Option<RegistrationForm>)
      modifies this`error, this`location
      ensures form.password != form.password2 ==>
        sent.None? && error == MismatchMessage && location == old(location)
      ensures form.password == form.password2 ==> sent == Some(form)
      ensures form.password == form.password2 && outcome.Ok? ==>
        location == Some(LoginPath) && error == old(error)
      ensures form.password == form.password2 && outcome.Err? ==>
        location == old(location) && error == FailureMessage(outcome.error)
    {
      if form.password != form.password2 {
        error := MismatchMessage;
        return None;
      }
      sent := Some(form);
      if outcome.Ok? {
        location := Some(LoginPath);
      } else {
        error := FailureMessage(outcome.error);
      }
    }
  }
}
