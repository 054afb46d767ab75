/** The registration form of the TypeScript client (frontend/src/components/Register.tsx). */
module RegisterComponent {
  import opened Wrappers
  import opened Accounts
  import opened ApiClient

  const MismatchMessage: string := "Пароли не совпадают"
  const GenericFailureMessage: string := "Ошибка регистрации"

  /** The form as first shown: every field empty and the student role. */
  const InitialForm: RegistrationForm := RegistrationForm("", "", "", "", "", "", Student, "", "")

  /** The error shown for a failed registration: the Error's message, or the generic text when the
      thrown value is not an Error. */
  function FailureMessage(e: Thrown): string
  {
    if e.NonError? then GenericFailureMessage else e.message
  }

  /** The component's state. */
  class RegisterForm {
    var form: RegistrationForm
    var error: string
    var loading: bool
    var success: bool

    constructor ()
      ensures form == InitialForm && error == "" && !loading && !success
    {
      form := InitialForm;
      error := "";
      loading := false;
      success := false;
    }

    /** handleSubmit. outcome is what the session's register produced; sent is the form register
        was called with, None when it was not called. */
    method HandleSubmit(outcome: Result<(), Thrown>) returns (sent: Option<RegistrationForm>)
      modifies this`error, this`loading, this`success
      ensures !loading
      ensures form.password != form.password2 ==>
        sent.None? && error == MismatchMessage && success == old(success)
      ensures form.password == form.password2 ==> sent == Some(form)
      ensures form.password == form.password2 && outcome.Ok? ==> success && error == ""
      ensures form.password == form.password2 && outcome.Err? ==>
        error == FailureMessage(outcome.error) && success == old(success)
    {
      loading := true;
      error := "";
      if form.password != form.password2 {
        error := MismatchMessage;
        loading := false;
        return None;
      }
      sent := Some(form);
      if outcome.Ok? {
        success := true;
      } else {
        error := FailureMessage(outcome.error);
      }
      loading := false;
    }
  }
}
