/** Authentication: the abstract password hash and token verification, and
    the `authenticateToken` middleware that guards every endpoint except
    register and login. */
module Auth {

  import opened Js
  import Text
  import opened Http

  /** What a signed token carries, and what the middleware hands to the
      route handler as `req.user`. */
  datatype Claims = Claims(cedula: string, rol: string)

  /** The outcome of `jwt.verify`: the claims of a well-signed, unexpired
      token, or a failure. */
  datatype TokenCheck = Valid(claims: Claims) | Invalid

  /** The server's configuration and the cryptography it delegates to. */
  datatype Config = Config(
    secretSet: bool,                    // JWT_SECRET is defined
    hash: string -> string,             // bcrypt.hash(contrasena, 10)
    matches: (string, string) -> bool,  // bcrypt.compare(contrasena, stored hash)
    verify: string -> TokenCheck)       // jwt.verify(token, JWT_SECRET)

  /** A password always matches its own hash. */
  ghost predicate HashesVerify(cfg: Config) {
    forall p {:trigger cfg.hash(p)} :: cfg.matches(p, cfg.hash(p))
  }

  /** `authHeader && authHeader.split(' ')[1]`, when that is a non-empty
      string; None for every falsy outcome. */
  function BearerToken(header: Option<string>): Option<string> {
    match header
    case None => None
    case Some(h) =>
      if h == "" then None
      else match Text.SecondField(h)
        case Some(t) => if t == "" then None else Some(t)
        case None => None
  }

  /** What the middleware decides: pass the claims on to the handler, or
      answer with an error status. */
  datatype Gate = Pass(user: Claims) | Reject(status: Status)

  /** `authenticateToken`: no token is 401; a missing secret is 500; a token
      that does not verify is 403; only a verified token reaches the handler,
      and it carries exactly the token's claims. */
  function Authenticate(cfg: Config, header: Option<string>): (g: Gate)
    ensures g == Reject(Unauthorized401) <==> BearerToken(header).None?
    ensures g == Reject(Internal500) <==> BearerToken(header).Some? && !cfg.secretSet
    ensures g == Reject(Forbidden403) <==>
      BearerToken(header).Some? && cfg.secretSet && cfg.verify(BearerToken(header).value).Invalid?
    ensures g.Pass? <==>
      BearerToken(header).Some? && cfg.secretSet && cfg.verify(BearerToken(header).value).Valid?
    ensures g.Pass? ==> g.user == cfg.verify(BearerToken(header).value).claims
  {
    match BearerToken(header)
    case None => Reject(Unauthorized401)
    case Some(token) =>
      if !cfg.secretSet then Reject(Internal500)
      else match cfg.verify(token)
        case Invalid => Reject(Forbidden403)
        case Valid(claims) => Pass(claims)
  }

  /** A header `"<scheme> <token>"` carrying a token that verifies lets the
      request through with that token's claims. */
  lemma BearerHeaderPasses(cfg: Config, scheme: string, token: string)
    requires ' ' !in scheme && ' ' !in token && token != ""
    requires cfg.secretSet && cfg.verify(token).Valid?
    ensures Authenticate(cfg, Some(scheme + " " + token)) == Pass(cfg.verify(token).claims)
  {
    Text.BearerField(scheme, token);
  }

  /** A header without a space carries no token: 401. */
  lemma HeaderWithoutSpaceRejected(cfg: Config, header: string)
    requires ' ' !in header
    ensures Authenticate(cfg, Some(header)) == Reject(Unauthorized401)
  {
  }
}
