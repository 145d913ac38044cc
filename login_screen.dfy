/** The login screen's form. */
module LoginScreen {

  import opened Js
  import opened Tables
  import opened Client
  import Formatting

  const EnterCredentials := "Por favor ingrese su cédula y contraseña."
  const LoginFailed := "No se pudo iniciar sesión. Verifique sus credenciales."

  /** The body of `POST /api/login`, or None when a field is empty and
      nothing is sent. */
  function LoginRequest(cedula: string, contrasena: string): (r: Option<LoginBody>)
    ensures r.None? <==> cedula == "" || contrasena == ""
    ensures r.Some? ==> r.value == LoginBody(Given(cedula), Given(contrasena))
  {
    if cedula == "" || contrasena == "" then None
    else Some(LoginBody(Given(cedula), Given(contrasena)))
  }

  /** What the screen sends always passes the server's field check. */
  lemma RequestAccepted(cedula: string, contrasena: string)
    requires LoginRequest(cedula, contrasena).Some?
    ensures LoginFieldsPresent(LoginRequest(cedula, contrasena).value)
  {
  }

  class LoginForm {
    var cedula: string
    var contrasena: string
    var statusMessage: Notice

    constructor ()
      ensures cedula == "" && contrasena == "" && statusMessage == Quiet
    {
      cedula, contrasena := "", "";
      statusMessage := Quiet;
    }

    /** The cédula input's `onChangeText`. */
    method FormatCedula(text: string)
      modifies this`cedula
      ensures cedula == Formatting.Cedula(text)
    {
      cedula := Formatting.FormatCedula(text);
    }

    /** `handleLogin`, given how the request comes back: an empty field shows
        an error and sends nothing; a failed login shows the server's error.
        Storing the session on success is not part of the form. */
    method HandleLogin(answer: Answer) returns (sent: Option<LoginBody>)
      modifies this`statusMessage
      ensures sent == LoginRequest(cedula, contrasena)
      ensures sent.None? ==> statusMessage == Failure(EnterCredentials)
      ensures sent.Some? && answer.Succeeded? ==> statusMessage == Quiet
      ensures sent.Some? && answer.Failed? ==> statusMessage == Failure(ErrorText(answer, LoginFailed))
    {
      if cedula == "" || contrasena == "" {
        statusMessage := Failure(EnterCredentials);
        return None;
      }
      statusMessage := Quiet;
      sent := Some(LoginBody(Given(cedula), Given(contrasena)));
      if answer.Failed? {
        statusMessage := Failure(ErrorText(answer, LoginFailed));
      }
    }
  }
}
