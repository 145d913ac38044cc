/** The rows of the backend's tables, the request bodies its routes accept,
    and the field checks each route applies before touching a table. */
module Tables {

  import opened Js
  import opened Auth

  const Cliente := "cliente"
  const Administrador := "administrador"

  // Revision states, as stored in `revision.estado`.
  const EnEspera := "en_espera"
  const EnReparacion := "reparacion"
  const Entrega := "entrega"
  const Cancelado := "cancelado"

  // Invoice states, as stored in `informe.estado_factura`.
  const Pendiente := "pendiente"
  const Pagado := "pagado"

  /** `usuarios`; `contrasena` holds the password hash. */
  datatype Usuario = Usuario(cedula: string, nombre: string, telefono: string,
                             correo: string, contrasena: string, rol: string)

  /** A user without the hash: `RETURNING cedula,nombre,correo,rol` on
      register, and login's `userData`. */
  datatype PublicUser = PublicUser(cedula: string, nombre: string, correo: string, rol: string)

  function Public(u: Usuario): PublicUser {
    PublicUser(u.cedula, u.nombre, u.correo, u.rol)
  }

  /** A row of `GET /api/usuarios`. */
  datatype UserSummary = UserSummary(cedula: string, nombre: string)

  datatype Vehiculo = Vehiculo(placa: string, marca: string, modelo: string,
                               propietario: string, fechaRegistro: int)

  /** `Repuestos`; the price is a decimal in the database, an integer here. */
  datatype Repuesto = Repuesto(id: int, nombre: string, precio: int)

  /** `PrecioReparacion`, without the `total` the database computes. */
  datatype Reparacion = Reparacion(id: int, repuestoId: int, cantidad: int,
                                   manoDeObra: int, fecha: int)

  /** A row of `GET /api/reparaciones`: a line item joined with its part's name. */
  datatype ReparacionRow = ReparacionRow(id: int, repuestoId: int, repuestoNombre: string,
                                         cantidad: int, manoDeObra: int, fecha: int)

  datatype Revision = Revision(id: int, placa: string, mecanico: string, detalleAveria: string,
                               estado: string, respuestaCliente: bool, fechaRevision: int)

  /** `informe`; the signature is kept as the base64 text the client sent, in
      place of the bytes `Buffer.from(signature, 'base64')` decodes. */
  datatype Informe = Informe(id: int, placa: string, detalle: Option<string>,
                             estadoFactura: string, signature: Option<string>, fecha: int)

  // ---- request bodies ----

  datatype RegisterBody = RegisterBody(cedula: Slot<string>, nombre: Slot<string>,
                                       telefono: Slot<string>, correo: Slot<string>,
                                       contrasena: Slot<string>, rol: Slot<string>)
  datatype LoginBody = LoginBody(cedula: Slot<string>, contrasena: Slot<string>)
  datatype VehiculoBody = VehiculoBody(placa: Slot<string>, marca: Slot<string>,
                                       modelo: Slot<string>, propietarioCedula: Slot<string>)
  datatype VehiculoChange = VehiculoChange(marca: Slot<string>, modelo: Slot<string>)
  datatype RepuestoBody = RepuestoBody(id: Slot<int>, nombre: Slot<string>, precio: Slot<int>)
  datatype ReparacionBody = ReparacionBody(repuestoId: Slot<int>, cantidad: Slot<int>,
                                           manoDeObra: Slot<int>)
  datatype RevisionBody = RevisionBody(placa: Slot<string>, mecanico: Slot<string>,
                                       detalleAveria: Slot<string>)
  datatype AttachBody = AttachBody(precioReparacionId: Slot<int>)
  datatype RevisionChange = RevisionChange(estado: string, respuestaCliente: bool)
  datatype InformeBody = InformeBody(placa: Slot<string>, detalleInforme: Slot<string>)
  datatype EstadoBody = EstadoBody(estadoFactura: Slot<string>, signature: Slot<string>)

  // ---- field checks ----

  predicate IsAdmin(caller: Claims) {
    caller.rol == Administrador
  }

  predicate RegisterFieldsPresent(b: RegisterBody) {
    !FalsyText(b.cedula) && !FalsyText(b.nombre) && !FalsyText(b.telefono)
    && !FalsyText(b.correo) && !FalsyText(b.contrasena)
  }

  /** The role after destructuring with `rol = 'cliente'`: the default
      replaces an absent field only, not a null one (None). */
  function RequestedRol(b: RegisterBody): Option<string> {
    match b.rol
    case Missing => Some(Cliente)
    case Null => None
    case Given(r) => Some(r)
  }

  predicate RolAccepted(b: RegisterBody) {
    RequestedRol(b) == Some(Cliente) || RequestedRol(b) == Some(Administrador)
  }

  /** The row a valid registration inserts, with the password's hash. */
  function NewUser(b: RegisterBody, hash: string): Usuario
    requires RegisterFieldsPresent(b) && RolAccepted(b)
  {
    Usuario(b.cedula.value, b.nombre.value, b.telefono.value, b.correo.value, hash,
            RequestedRol(b).value)
  }

  predicate LoginFieldsPresent(b: LoginBody) {
    !FalsyText(b.cedula) && !FalsyText(b.contrasena)
  }

  predicate VehiculoFieldsPresent(b: VehiculoBody) {
    !FalsyText(b.placa) && !FalsyText(b.marca) && !FalsyText(b.modelo)
  }

  /** The owner of a new vehicle: the caller, unless an administrador names
      someone else (`propietario_cedula || cedula`). */
  function Owner(caller: Claims, b: VehiculoBody): string {
    if IsAdmin(caller) then TextOr(b.propietarioCedula, caller.cedula) else caller.cedula
  }

  predicate VehiculoChangePresent(b: VehiculoChange) {
    !FalsyText(b.marca) && !FalsyText(b.modelo)
  }

  /** Only a cliente is held to ownership; any other role may change any vehicle. */
  predicate MayChange(caller: Claims, v: Vehiculo) {
    !(caller.rol == Cliente && v.propietario != caller.cedula)
  }

  /** `id == null || !nombre || precio == null`, negated: zero is accepted for
      the numbers. */
  predicate RepuestoFieldsPresent(b: RepuestoBody) {
    !Nullish(b.id) && !FalsyText(b.nombre) && !Nullish(b.precio)
  }

  /** `!repuesto_id || !cantidad || mano_de_obra == null`, negated: a zero
      quantity or part id is refused, a zero labour cost accepted. */
  predicate ReparacionFieldsPresent(b: ReparacionBody) {
    !FalsyNum(b.repuestoId) && !FalsyNum(b.cantidad) && !Nullish(b.manoDeObra)
  }

  predicate RevisionFieldsPresent(b: RevisionBody) {
    !FalsyText(b.placa) && !FalsyText(b.mecanico) && !FalsyText(b.detalleAveria)
  }

  predicate EstadoFacturaAccepted(b: EstadoBody) {
    b.estadoFactura == Given(Pendiente) || b.estadoFactura == Given(Pagado)
  }

  /** Paying without a (truthy) signature. */
  predicate PaysWithoutSignature(b: EstadoBody) {
    b.estadoFactura == Given(Pagado) && FalsyText(b.signature)
  }

  /** A paid invoice carries a non-empty signature. */
  predicate SignedIfPaid(i: Informe) {
    i.estadoFactura == Pagado ==> i.signature.Some? && i.signature.value != ""
  }

  /** A revision after `PUT /api/revision/:id` stores a change: its state
      and the client's answer replaced, everything else kept. */
  function Answered(r: Revision, c: RevisionChange): Revision {
    r.(estado := c.estado, respuestaCliente := c.respuestaCliente)
  }

  /** An invoice after `PUT /api/informes/:id/estado` stores a state and a
      signature. */
  function Settled(i: Informe, estado: string, signature: string): Informe {
    i.(estadoFactura := estado, signature := Some(signature))
  }

  /** The bulk update of `POST /api/informes` on one revision. */
  function Deliver(r: Revision, placa: string): Revision {
    if r.placa == placa && r.estado == EnReparacion then r.(estado := Entrega) else r
  }

  /** The bulk update applied to a whole table: the same rows under the same
      keys, each with its id and placa kept. */
  function DeliverAll(revs: map<int, Revision>, placa: string): (r: map<int, Revision>)
    ensures r.Keys == revs.Keys
    ensures forall i :: i in r ==> r[i] == Deliver(revs[i], placa)
    ensures forall i :: i in r ==> r[i].id == revs[i].id && r[i].placa == revs[i].placa
  {
    map i | i in revs :: Deliver(revs[i], placa)
  }

  // Sort keys of the listings.
  function FechaRegistro(v: Vehiculo): int { v.fechaRegistro }
  function FechaRevision(r: Revision): int { r.fechaRevision }
  function FechaReparacion(r: ReparacionRow): int { r.fecha }
  function FechaInforme(i: Informe): int { i.fecha }
  function MinusId(r: Repuesto): int { -r.id }
}
