/** The sign-up form: the e-mail must contain '@' and the password must match
    its confirmation before the user is sent; the loading flag is down again on
    every way out of the handler. */
module Register {
  import opened Common

  const InvalidEmail: string := "Ingrese un email válido"
  const PasswordMismatch: string := "Las contraseñas no coinciden"
  const RegisterFailed: string := "Error al registrar el usuario"

  /** The checks of handleSubmit, in order: the message of the first that fails. */
  function Validate(email: string, password: string, confirmPassword: string): (r: Option<string>)
    ensures r == Some(InvalidEmail) <==> '@' !in email
    ensures r == Some(PasswordMismatch) <==> '@' in email && password != confirmPassword
    ensures r == None <==> '@' in email && password == confirmPassword
  {
    if '@' !in email then Some(InvalidEmail)
    else if password != confirmPassword then Some(PasswordMismatch)
    else None
  }

  /** The e-mail check comes first: a form failing both reports the e-mail. */
  lemma EmailCheckedFirst()
    ensures Validate("ana", "a", "b") == Some(InvalidEmail)
    ensures Validate("ana@x", "a", "b") == Some(PasswordMismatch)
    ensures Validate("ana@x", "a", "a") == None
  {
    assert '@' !in "ana";
    assert "ana@x"[3] == '@';
  }

  datatype NewUser = NewUser(name: string, email: string, password: string)

  class RegisterForm {
    var name: string
    var email: string
    var password: string
    var confirmPassword: string
    var error: string
    var isLoading: bool
    var showSuccessModal: bool

    constructor ()
      ensures name == "" && email == "" && password == "" && confirmPassword == ""
      ensures error == "" && !isLoading && !showSuccessModal
    {
      name, email, password, confirmPassword := "", "", "", "";
      error := "";
      isLoading := false;
      showSuccessModal := false;
    }

    /** handleSubmit. The user is sent only when both checks pass; `postOk` is
        the server's answer. */
    method Submit(postOk: bool) returns (sent: Option<NewUser>)
      modifies this
      ensures Validate(email, password, confirmPassword).Some? ==>
        sent == None && error == Validate(email, password, confirmPassword).value
      ensures Validate(email, password, confirmPassword).None? ==> sent == Some(NewUser(name, email, password))
      ensures sent.Some? && postOk ==> error == "" && showSuccessModal
      ensures sent.Some? && !postOk ==> error == RegisterFailed && showSuccessModal == old(showSuccessModal)
      ensures sent.None? ==> showSuccessModal == old(showSuccessModal)
      ensures !isLoading
      ensures name == old(name) && email == old(email)
      ensures password == old(password) && confirmPassword == old(confirmPassword)
    {
      error := "";
      isLoading := true;
      if '@' !in email {
        error := InvalidEmail;
        isLoading := false;
        return None;
      }
      if password != confirmPassword {
        error := PasswordMismatch;
        isLoading := false;
        return None;
      }
      sent := Some(NewUser(name, email, password));
      if postOk {
        showSuccessModal := true;
      } else {
        error := RegisterFailed;
      }
      isLoading := false;
    }
  }
}
