/** The two registration screens: the public one registers a cliente, the
    administrator's registers another administrador. Apart from the role and
    the texts they show, they are the same form. */
module Registration {

  import opened Js
  import opened Tables
  import opened Client
  import Formatting

  const FillAll := "Por favor complete todos los campos."

  function SuccessText(rol: string): string {
    if rol == Administrador then "¡Registro Exitoso! El nuevo administrador ha sido creado."
    else "¡Registro Exitoso! Tu cuenta ha sido creada."
  }

  function FallbackText(rol: string): string {
    if rol == Administrador then "Error al registrar administrador" else "Error al registrar usuario"
  }

  /** The body of `POST /api/register`, or None when a field is empty and
      nothing is sent. */
  function RegisterRequest(cedula: string, nombre: string, telefono: string, correo: string,
                           contrasena: string, rol: string): (r: Option<RegisterBody>)
    ensures r.None? <==>
      cedula == "" || nombre == "" || telefono == "" || correo == "" || contrasena == ""
    ensures r.Some? ==>
      r.value == RegisterBody(Given(cedula), Given(nombre), Given(telefono), Given(correo),
                              Given(contrasena), Given(rol))
  {
    if cedula == "" || nombre == "" || telefono == "" || correo == "" || contrasena == "" then None
    else Some(RegisterBody(Given(cedula), Given(nombre), Given(telefono), Given(correo),
                           Given(contrasena), Given(rol)))
  }

  /** What either screen sends passes the server's field and role checks,
      and asks for exactly the screen's role. */
  lemma RequestAccepted(cedula: string, nombre: string, telefono: string, correo: string,
                        contrasena: string, rol: string)
    requires rol == Cliente || rol == Administrador
    requires RegisterRequest(cedula, nombre, telefono, correo, contrasena, rol).Some?
    ensures var b := RegisterRequest(cedula, nombre, telefono, correo, contrasena, rol).value;
      RegisterFieldsPresent(b) && RolAccepted(b) && RequestedRol(b) == Some(rol)
  {
  }

  class RegisterForm {
    /** The role this screen registers. */
    const rol: string
    var cedula: string
    var nombre: string
    var telefono: string
    var correo: string
    var contrasena: string
    var statusMessage: Notice

    /** `RegisterScreen`. */
    constructor ForCliente()
      ensures rol == Cliente
      ensures cedula == "" && nombre == "" && telefono == "" && correo == "" && contrasena == ""
      ensures statusMessage == Quiet
    {
      rol := Cliente;
      cedula, nombre, telefono, correo, contrasena := "", "", "", "", "";
      statusMessage := Quiet;
    }

    /** `RegisterAdminScreen`. */
    constructor ForAdministrador()
      ensures rol == Administrador
      ensures cedula == "" && nombre == "" && telefono == "" && correo == "" && contrasena == ""
      ensures statusMessage == Quiet
    {
      rol := Administrador;
      cedula, nombre, telefono, correo, contrasena := "", "", "", "", "";
      statusMessage := Quiet;
    }

    /** The cédula input's `onChangeText`. */
    method FormatCedula(text: string)
      modifies this`cedula
      ensures cedula == Formatting.Cedula(text)
    {
      cedula := Formatting.FormatCedula(text);
    }

    /** The phone input's `onChangeText`. */
    method FormatTelefono(text: string)
      modifies this`telefono
      ensures telefono == Formatting.Telefono(text)
    {
      telefono := Formatting.FormatTelefono(text);
    }

    /** `handleRegister`, given how the request comes back: an empty field
        shows an error and sends nothing; a successful registration clears
        all five fields; a failed one keeps them and shows the server's
        error. */
    method HandleRegister(answer: Answer) returns (sent: Option<RegisterBody>)
      modifies this`cedula, this`nombre, this`telefono, this`correo, this`contrasena,
               this`statusMessage
      ensures sent == RegisterRequest(old(cedula), old(nombre), old(telefono), old(correo),
                                      old(contrasena), rol)
      ensures sent.None? ==> statusMessage == Failure(FillAll)
      ensures sent.Some? && answer.Succeeded? ==>
        && cedula == "" && nombre == "" && telefono == "" && correo == "" && contrasena == ""
        && statusMessage == Success(SuccessText(rol))
      ensures sent.None? || answer.Failed? ==>
        && cedula == old(cedula) && nombre == old(nombre) && telefono == old(telefono)
        && correo == old(correo) && contrasena == old(contrasena)
      ensures sent.Some? && answer.Failed? ==>
        statusMessage == Failure(ErrorText(answer, FallbackText(rol)))
    {
      if cedula == "" || nombre == "" || telefono == "" || correo == "" || contrasena == "" {
        statusMessage := Failure(FillAll);
        return None;
      }
      statusMessage := Quiet;
      sent := Some(RegisterBody(Given(cedula), Given(nombre), Given(telefono), Given(correo),
                                Given(contrasena), Given(rol)));
      if answer.Succeeded? {
        cedula, nombre, telefono, correo, contrasena := "", "", "", "", "";
        statusMessage := Success(SuccessText(rol));
      } else {
        statusMessage := Failure(ErrorText(answer, FallbackText(rol)));
      }
    }
  }
}
