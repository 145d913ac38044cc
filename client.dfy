/** What the mobile screens share: the status line they show, the logged-in
    user, and the outcome of a request they sent. */
module Client {

  import opened Js
  import Tables

  /** A screen's `{ type, text }` status message; `Quiet` is `{ type: '', text: '' }`. */
  datatype Notice = Quiet | Info(text: string) | Failure(text: string) | Success(text: string)

  /** How a request the screen sent came back: a 2xx answer, or an error
      carrying the server's `error` text when there was one. */
  datatype Answer = Succeeded | Failed(error: Option<string>)

  /** `err.response?.data?.error || fallback`. */
  function ErrorText(a: Answer, fallback: string): (t: string)
    ensures t == fallback || (a.Failed? && a.error == Some(t) && t != "")
    ensures a.Failed? && a.error.Some? && a.error.value != "" ==> t == a.error.value
  {
    if a.Failed? && a.error.Some? && a.error.value != "" then a.error.value else fallback
  }

  /** `user?.rol === 'administrador'`: false when nobody is logged in. The
      session holds the user login returned. */
  predicate IsAdminUser(user: Option<Tables.PublicUser>) {
    user.Some? && user.value.rol == Tables.Administrador
  }

  /** `user?.rol === 'cliente'`. */
  predicate IsClienteUser(user: Option<Tables.PublicUser>) {
    user.Some? && user.value.rol == Tables.Cliente
  }

  /** An optional JSON key: absent when there is no value. */
  function Key(x: Option<string>): Slot<string> {
    match x
    case None => Missing
    case Some(v) => Given(v)
  }
}
