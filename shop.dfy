/** The route handlers of the backend, over in-memory tables.

    Every handler here sits behind `authenticateToken` except `Register` and
    `Login`; it receives the verified claims as `caller` (see
    `Auth.Authenticate`). Inserts whose column default is `NOW()` take the
    clock reading as a parameter `now`. Unique keys answer 409; a missing
    foreign-key target answers 500, the status of every other database
    error. The foreign keys are taken with PostgreSQL's default
    `NO ACTION` rule, so deleting a referenced vehicle fails. */
module Server {

  import opened Js
  import opened Http
  import opened Auth
  import opened Tables
  import Ordering

  /** Where the `POST /api/informes` transaction fails, if it does. */
  datatype TxFault = NoFault | FailInsert | FailUpdate | FailCommit

  /** The answer of `POST /api/login`. */
  datatype LoginReply = LoggedIn(usuario: PublicUser, token: Claims) | LoginRefused(status: Status)

  /** True when a registration would clash with a stored cédula or correo. */
  predicate KeyTaken(us: map<string, Usuario>, cedula: string, correo: string) {
    cedula in us || exists c :: c in us && us[c].correo == correo
  }

  // ---- the integrity rules of each table ----

  /** Users are keyed by their cédula, and no two share a correo. */
  ghost predicate UsuariosValid(us: map<string, Usuario>) {
    && (forall c :: c in us ==> us[c].cedula == c)
    && (forall c, d :: c in us && d in us && c != d ==> us[c].correo != us[d].correo)
  }

  /** Vehicles are keyed by placa and owned by a user. */
  ghost predicate VehiculosValid(vs: map<string, Vehiculo>, us: map<string, Usuario>) {
    forall p :: p in vs ==> vs[p].placa == p && vs[p].propietario in us
  }

  ghost predicate RepuestosValid(ps: map<int, Repuesto>) {
    forall i :: i in ps ==> ps[i].id == i
  }

  /** Line items have positive serial ids below the sequence, and their part exists. */
  ghost predicate ReparacionesValid(rs: map<int, Reparacion>, next: int, ps: map<int, Repuesto>) {
    forall i :: i in rs ==> rs[i].id == i && 0 < i < next && rs[i].repuestoId in ps
  }

  /** Revisions have positive serial ids below the sequence, and their vehicle exists. */
  ghost predicate RevisionesValid(rs: map<int, Revision>, next: int, vs: map<string, Vehiculo>) {
    forall i :: i in rs ==> rs[i].id == i && 0 < i < next && rs[i].placa in vs
  }

  /** Every attachment joins an existing revision and an existing line item. */
  ghost predicate LinksValid(links: seq<(int, int)>, rs: map<int, Revision>, ps: map<int, Reparacion>) {
    forall k :: 0 <= k < |links| ==> links[k].0 in rs && links[k].1 in ps
  }

  /** Invoices have positive serial ids below the sequence, their vehicle
      exists, and a paid one is signed. */
  ghost predicate InformesValid(fs: map<int, Informe>, next: int, vs: map<string, Vehiculo>) {
    forall i :: i in fs ==>
      fs[i].id == i && 0 < i < next && fs[i].placa in vs && SignedIfPaid(fs[i])
  }

  class Shop {
    const cfg: Config
    var usuarios: map<string, Usuario>
    var vehiculos: map<string, Vehiculo>
    var repuestos: map<int, Repuesto>
    var reparaciones: map<int, Reparacion>
    var revisiones: map<int, Revision>
    var revisionRepuestos: seq<(int, int)>   // (revision_id, precio_reparacion_id)
    var informes: map<int, Informe>
    // The next values of the serial id columns.
    var nextReparacionId: int
    var nextRevisionId: int
    var nextInformeId: int

    /** Keys agree with the rows, correo is unique, serial ids are positive
        and below their sequence, every foreign key has its target, and a
        paid invoice is signed. */
    ghost predicate Valid()
      reads this
    {
      && 0 < nextReparacionId && 0 < nextRevisionId && 0 < nextInformeId
      && UsuariosValid(usuarios)
      && VehiculosValid(vehiculos, usuarios)
      && RepuestosValid(repuestos)
      && ReparacionesValid(reparaciones, nextReparacionId, repuestos)
      && RevisionesValid(revisiones, nextRevisionId, vehiculos)
      && LinksValid(revisionRepuestos, revisiones, reparaciones)
      && InformesValid(informes, nextInformeId, vehiculos)
    }

    /** An empty database. */
    constructor (cfg: Config)
      ensures Valid()
      ensures usuarios == map[] && vehiculos == map[] && repuestos == map[]
      ensures reparaciones == map[] && revisiones == map[] && informes == map[]
      ensures revisionRepuestos == []
    {
      this.cfg := cfg;
      usuarios, vehiculos, repuestos := map[], map[], map[];
      reparaciones, revisiones, informes := map[], map[], map[];
      revisionRepuestos := [];
      nextReparacionId, nextRevisionId, nextInformeId := 1, 1, 1;
    }

    /** The vehicle `placa` exists and belongs to `cedula`. */
    predicate OwnedBy(placa: string, cedula: string)
      reads this
    {
      placa in vehiculos && vehiculos[placa].propietario == cedula
    }

    /** Some revision or invoice refers to the vehicle `placa`. */
    predicate Referenced(placa: string)
      reads this
    {
      (exists i :: i in revisiones && revisiones[i].placa == placa)
      || (exists i :: i in informes && informes[i].placa == placa)
    }

    // ---- users ----

    /** `POST /api/register`: missing fields, then the role, are 400; a taken
        cédula or correo is 409; otherwise the user is stored with the
        password's hash, and logging in with the same cédula and password then
        succeeds with the claims of the new user. */
    method Register(body: RegisterBody) returns (status: Status, created: Option<PublicUser>)
      requires Valid()
      modifies this`usuarios
      ensures Valid()
      ensures status == BadRequest400 <==> !RegisterFieldsPresent(body) || !RolAccepted(body)
      ensures status == Conflict409 <==>
        RegisterFieldsPresent(body) && RolAccepted(body)
        && KeyTaken(old(usuarios), body.cedula.value, body.correo.value)
      ensures status in {BadRequest400, Conflict409, Created201}
      ensures status != Created201 ==> usuarios == old(usuarios) && created == None
      ensures status == Created201 ==>
        var u := NewUser(body, cfg.hash(body.contrasena.value));
        usuarios == old(usuarios)[u.cedula := u] && created == Some(Public(u))
      ensures status == Created201 && HashesVerify(cfg) && cfg.secretSet ==>
        Login(LoginBody(body.cedula, body.contrasena))
          == LoggedIn(created.value, Claims(body.cedula.value, RequestedRol(body).value))
    {
      if !RegisterFieldsPresent(body) || !RolAccepted(body) {
        return BadRequest400, None;
      }
      if KeyTaken(usuarios, body.cedula.value, body.correo.value) {
        return Conflict409, None;
      }
      var u := NewUser(body, cfg.hash(body.contrasena.value));
      usuarios := usuarios[u.cedula := u];
      status, created := Created201, Some(Public(u));
    }

    /** `POST /api/login`: missing fields are 400; an unknown cédula or a
        password that does not match the stored hash is 401; a missing secret
        is 500; otherwise the user without its hash, and a token carrying
        exactly its cédula and role. */
    function Login(body: LoginBody): (r: LoginReply)
      reads this
      ensures r == LoginRefused(BadRequest400) <==> !LoginFieldsPresent(body)
      ensures r == LoginRefused(Unauthorized401) <==>
        LoginFieldsPresent(body)
        && (body.cedula.value !in usuarios
            || !cfg.matches(body.contrasena.value, usuarios[body.cedula.value].contrasena))
      ensures r == LoginRefused(Internal500) <==>
        LoginFieldsPresent(body) && body.cedula.value in usuarios
        && cfg.matches(body.contrasena.value, usuarios[body.cedula.value].contrasena)
        && !cfg.secretSet
      ensures r.LoggedIn? <==>
        LoginFieldsPresent(body) && body.cedula.value in usuarios
        && cfg.matches(body.contrasena.value, usuarios[body.cedula.value].contrasena)
        && cfg.secretSet
      ensures r.LoggedIn? ==>
        && body.cedula.value in usuarios
        && r.usuario == Public(usuarios[body.cedula.value])
        && r.token == Claims(r.usuario.cedula, r.usuario.rol)
    {
      if !LoginFieldsPresent(body) then LoginRefused(BadRequest400)
      else if body.cedula.value !in usuarios then LoginRefused(Unauthorized401)
      else
        var user := usuarios[body.cedula.value];
        if !cfg.matches(body.contrasena.value, user.contrasena) then LoginRefused(Unauthorized401)
        else if !cfg.secretSet then LoginRefused(Internal500)
        else LoggedIn(Public(user), Claims(user.cedula, user.rol))
    }

    /** `GET /api/usuarios`: 403 for anyone but an administrador; otherwise
        the cédula and name of every user, and nothing else. */
    function Usuarios(caller: Claims): (r: Reply<set<UserSummary>>)
      reads this
      ensures r.Refused? <==> !IsAdmin(caller)
      ensures r.Refused? ==> r.status == Forbidden403
      ensures r.Answer? ==> forall s :: s in r.rows <==>
        s.cedula in usuarios && usuarios[s.cedula].nombre == s.nombre
    {
      if !IsAdmin(caller) then Refused(Forbidden403)
      else Answer(set c | c in usuarios :: UserSummary(c, usuarios[c].nombre))
    }

    // ---- vehicles ----

    /** `GET /api/vehiculos`: every vehicle for an administrador, only the
        caller's own for anyone else; newest registration first. */
    ghost function Vehiculos(caller: Claims): (r: seq<Vehiculo>)
      reads this
      ensures forall v :: v in r <==>
        v in vehiculos.Values && (IsAdmin(caller) || v.propietario == caller.cedula)
      ensures Ordering.Distinct(r) && Ordering.SortedDesc(r, FechaRegistro)
    {
      Ordering.ByKeyDesc(
        (set v | v in vehiculos.Values && (IsAdmin(caller) || v.propietario == caller.cedula)),
        FechaRegistro)
    }

    /** `POST /api/vehiculos`: missing fields are 400 whatever the role; the
        owner is the caller, or for an administrador the named owner if any;
        a taken placa is 409, an owner who is no user 500. */
    method PostVehiculo(caller: Claims, body: VehiculoBody, now: int)
      returns (status: Status, created: Option<Vehiculo>)
      requires Valid()
      modifies this`vehiculos
      ensures Valid()
      ensures status == BadRequest400 <==> !VehiculoFieldsPresent(body)
      ensures status == Conflict409 <==>
        VehiculoFieldsPresent(body) && body.placa.value in old(vehiculos)
      ensures status == Internal500 <==>
        VehiculoFieldsPresent(body) && body.placa.value !in old(vehiculos)
        && Owner(caller, body) !in usuarios
      ensures status in {BadRequest400, Conflict409, Internal500, Created201}
      ensures status != Created201 ==> vehiculos == old(vehiculos) && created == None
      ensures status == Created201 ==>
        var v := Vehiculo(body.placa.value, body.marca.value, body.modelo.value,
                          Owner(caller, body), now);
        vehiculos == old(vehiculos)[v.placa := v] && created == Some(v)
    {
      if !VehiculoFieldsPresent(body) {
        return BadRequest400, None;
      }
      var owner := Owner(caller, body);
      if body.placa.value in vehiculos {
        return Conflict409, None;
      }
      if owner !in usuarios {
        return Internal500, None;
      }
      var v := Vehiculo(body.placa.value, body.marca.value, body.modelo.value, owner, now);
      vehiculos := vehiculos[v.placa := v];
      status, created := Created201, Some(v);
    }

    /** `PUT /api/vehiculos/:placa`: missing marca or modelo is 400; then an
        unknown placa 404, before a cliente who is not the owner gets 403;
        otherwise only marca and modelo change. */
    method PutVehiculo(caller: Claims, placa: string, change: VehiculoChange)
      returns (status: Status)
      requires Valid()
      modifies this`vehiculos
      ensures Valid()
      ensures status == BadRequest400 <==> !VehiculoChangePresent(change)
      ensures status == NotFound404 <==> VehiculoChangePresent(change) && placa !in old(vehiculos)
      ensures status == Forbidden403 <==>
        VehiculoChangePresent(change) && placa in old(vehiculos)
        && !MayChange(caller, old(vehiculos)[placa])
      ensures status in {BadRequest400, NotFound404, Forbidden403, Ok200}
      ensures status != Ok200 ==> vehiculos == old(vehiculos)
      ensures status == Ok200 ==>
        vehiculos == old(vehiculos)[placa :=
          old(vehiculos)[placa].(marca := change.marca.value, modelo := change.modelo.value)]
    {
      if !VehiculoChangePresent(change) {
        return BadRequest400;
      }
      if placa !in vehiculos {
        return NotFound404;
      }
      if !MayChange(caller, vehiculos[placa]) {
        return Forbidden403;
      }
      vehiculos := vehiculos[placa :=
        vehiculos[placa].(marca := change.marca.value, modelo := change.modelo.value)];
      status := Ok200;
    }

    /** `DELETE /api/vehiculos/:placa`: an unknown placa is 404, before a
        cliente who is not the owner gets 403; a vehicle that revisions or
        invoices still refer to is taken to be protected by their foreign
        keys (500); otherwise it is removed. */
    method DeleteVehiculo(caller: Claims, placa: string) returns (status: Status)
      requires Valid()
      modifies this`vehiculos
      ensures Valid()
      ensures status == NotFound404 <==> placa !in old(vehiculos)
      ensures status == Forbidden403 <==>
        placa in old(vehiculos) && !MayChange(caller, old(vehiculos)[placa])
      ensures status == Internal500 <==>
        placa in old(vehiculos) && MayChange(caller, old(vehiculos)[placa]) && Referenced(placa)
      ensures status in {NotFound404, Forbidden403, Internal500, Ok200}
      ensures status != Ok200 ==> vehiculos == old(vehiculos)
      ensures status == Ok200 ==> vehiculos == old(vehiculos) - {placa}
    {
      if placa !in vehiculos {
        return NotFound404;
      }
      if !MayChange(caller, vehiculos[placa]) {
        return Forbidden403;
      }
      if Referenced(placa) {
        return Internal500;
      }
      vehiculos := vehiculos - {placa};
      status := Ok200;
    }

    // ---- parts and priced repairs ----

    /** `GET /api/repuestos`: the whole catalogue, by ascending id. */
    ghost function Repuestos(): (r: seq<Repuesto>)
      reads this
      ensures forall x :: x in r <==> x in repuestos.Values
      ensures Ordering.Distinct(r)
      ensures forall i, j :: 0 <= i < j < |r| ==> r[i].id <= r[j].id
    {
      var r := Ordering.ByKeyDesc(repuestos.Values, MinusId);
      assert forall i, j :: 0 <= i < j < |r| ==> MinusId(r[i]) >= MinusId(r[j]);
      r
    }

    /** `POST /api/repuestos`: 403 for anyone but an administrador, before the
        body is read; a null id or price, or an empty name, is 400 (a zero id
        or price is accepted); a taken id is 409. */
    method PostRepuesto(caller: Claims, body: RepuestoBody) returns (status: Status)
      requires Valid()
      modifies this`repuestos
      ensures Valid()
      ensures status == Forbidden403 <==> !IsAdmin(caller)
      ensures status == BadRequest400 <==> IsAdmin(caller) && !RepuestoFieldsPresent(body)
      ensures status == Conflict409 <==>
        IsAdmin(caller) && RepuestoFieldsPresent(body) && body.id.value in old(repuestos)
      ensures status in {Forbidden403, BadRequest400, Conflict409, Created201}
      ensures status != Created201 ==> repuestos == old(repuestos)
      ensures status == Created201 ==>
        repuestos == old(repuestos)[body.id.value :=
          Repuesto(body.id.value, body.nombre.value, body.precio.value)]
    {
      if !IsAdmin(caller) {
        return Forbidden403;
      }
      if !RepuestoFieldsPresent(body) {
        return BadRequest400;
      }
      if body.id.value in repuestos {
        return Conflict409;
      }
      repuestos := repuestos[body.id.value :=
        Repuesto(body.id.value, body.nombre.value, body.precio.value)];
      status := Created201;
    }

    /** A line item joined with the name of its part. */
    function Joined(i: int): ReparacionRow
      reads this
      requires i in reparaciones && reparaciones[i].repuestoId in repuestos
    {
      var p := reparaciones[i];
      ReparacionRow(i, p.repuestoId, repuestos[p.repuestoId].nombre, p.cantidad,
                    p.manoDeObra, p.fecha)
    }

    /** `GET /api/reparaciones`: every line item whose part exists, with the
        part's name; newest first. */
    ghost function Reparaciones(): (r: seq<ReparacionRow>)
      reads this
      ensures forall i :: i in reparaciones && reparaciones[i].repuestoId in repuestos ==>
        Joined(i) in r
      ensures forall x :: x in r ==>
        x.id in reparaciones && reparaciones[x.id].repuestoId in repuestos && x == Joined(x.id)
      ensures Ordering.Distinct(r) && Ordering.SortedDesc(r, FechaReparacion)
    {
      Ordering.ByKeyDesc(
        (set i | i in reparaciones && reparaciones[i].repuestoId in repuestos :: Joined(i)),
        FechaReparacion)
    }

    /** `POST /api/reparaciones`: 403 for anyone but an administrador; a
        missing or zero part id or quantity, or a null labour cost, is 400; a
        part that does not exist is 500; otherwise a line item with a fresh
        id. The id sequence advances whenever the insert is attempted. */
    method PostReparacion(caller: Claims, body: ReparacionBody, now: int)
      returns (status: Status, created: Option<Reparacion>)
      requires Valid()
      modifies this`reparaciones, this`nextReparacionId
      ensures Valid()
      ensures status == Forbidden403 <==> !IsAdmin(caller)
      ensures status == BadRequest400 <==> IsAdmin(caller) && !ReparacionFieldsPresent(body)
      ensures status == Internal500 <==>
        IsAdmin(caller) && ReparacionFieldsPresent(body) && body.repuestoId.value !in repuestos
      ensures status in {Forbidden403, BadRequest400, Internal500, Created201}
      ensures status != Created201 ==> reparaciones == old(reparaciones) && created == None
      ensures status == Created201 ==>
        var p := Reparacion(old(nextReparacionId), body.repuestoId.value, body.cantidad.value,
                            body.manoDeObra.value, now);
        p.id !in old(reparaciones) && reparaciones == old(reparaciones)[p.id := p]
        && created == Some(p)
    {
      if !IsAdmin(caller) {
        return Forbidden403, None;
      }
      if !ReparacionFieldsPresent(body) {
        return BadRequest400, None;
      }
      var id := nextReparacionId;
      nextReparacionId := nextReparacionId + 1;
      if body.repuestoId.value !in repuestos {
        return Internal500, None;
      }
      var p := Reparacion(id, body.repuestoId.value, body.cantidad.value, body.manoDeObra.value, now);
      reparaciones := reparaciones[id := p];
      status, created := Created201, Some(p);
    }

    // ---- revisions ----

    /** `GET /api/revision`: every revision for an administrador; for anyone
        else only those of vehicles the caller owns; newest first. */
    ghost function Revisiones(caller: Claims): (r: seq<Revision>)
      reads this
      ensures forall x :: x in r <==>
        x in revisiones.Values && (IsAdmin(caller) || OwnedBy(x.placa, caller.cedula))
      ensures Ordering.Distinct(r) && Ordering.SortedDesc(r, FechaRevision)
    {
      Ordering.ByKeyDesc(
        (set x | x in revisiones.Values && (IsAdmin(caller) || OwnedBy(x.placa, caller.cedula))),
        FechaRevision)
    }

    /** `GET /api/revision/:id`: the revision, or 404. No ownership check. */
    function RevisionById(id: int): (r: Reply<Revision>)
      reads this
      ensures r.Answer? <==> id in revisiones
      ensures r.Answer? ==> r.rows == revisiones[id]
      ensures r.Refused? ==> r.status == NotFound404
    {
      if id in revisiones then Answer(revisiones[id]) else Refused(NotFound404)
    }

    /** `POST /api/revision`: 403 for anyone but an administrador; a missing
        field is 400; an unknown placa is 500; otherwise a revision waiting
        for the client (`en_espera`, no answer yet) with a fresh id. */
    method PostRevision(caller: Claims, body: RevisionBody, now: int)
      returns (status: Status, created: Option<Revision>)
      requires Valid()
      modifies this`revisiones, this`nextRevisionId
      ensures Valid()
      ensures status == Forbidden403 <==> !IsAdmin(caller)
      ensures status == BadRequest400 <==> IsAdmin(caller) && !RevisionFieldsPresent(body)
      ensures status == Internal500 <==>
        IsAdmin(caller) && RevisionFieldsPresent(body) && body.placa.value !in vehiculos
      ensures status in {Forbidden403, BadRequest400, Internal500, Created201}
      ensures status != Created201 ==> revisiones == old(revisiones) && created == None
      ensures status == Created201 ==>
        var x := Revision(old(nextRevisionId), body.placa.value, body.mecanico.value,
                          body.detalleAveria.value, EnEspera, false, now);
        x.id !in old(revisiones) && revisiones == old(revisiones)[x.id := x] && created == Some(x)
    {
      if !IsAdmin(caller) {
        return Forbidden403, None;
      }
      if !RevisionFieldsPresent(body) {
        return BadRequest400, None;
      }
      var id := nextRevisionId;
      nextRevisionId := nextRevisionId + 1;
      if body.placa.value !in vehiculos {
        return Internal500, None;
      }
      var x := Revision(id, body.placa.value, body.mecanico.value, body.detalleAveria.value,
                        EnEspera, false, now);
      revisiones := revisiones[id := x];
      status, created := Created201, Some(x);
    }

    /** `POST /api/revision/:id/repuestos`: 403 for anyone but an
        administrador; a missing or zero line-item id is 400; an unknown
        revision or line item is 500; otherwise the pair is appended, even
        when it is already present. */
    method AttachRepuesto(caller: Claims, revisionId: int, body: AttachBody) returns (status: Status)
      requires Valid()
      modifies this`revisionRepuestos
      ensures Valid()
      ensures status == Forbidden403 <==> !IsAdmin(caller)
      ensures status == BadRequest400 <==> IsAdmin(caller) && FalsyNum(body.precioReparacionId)
      ensures status == Internal500 <==>
        IsAdmin(caller) && !FalsyNum(body.precioReparacionId)
        && (revisionId !in revisiones || body.precioReparacionId.value !in reparaciones)
      ensures status in {Forbidden403, BadRequest400, Internal500, Created201}
      ensures status != Created201 ==> revisionRepuestos == old(revisionRepuestos)
      ensures status == Created201 ==>
        revisionRepuestos == old(revisionRepuestos) + [(revisionId, body.precioReparacionId.value)]
    {
      if !IsAdmin(caller) {
        return Forbidden403;
      }
      if FalsyNum(body.precioReparacionId) {
        return BadRequest400;
      }
      if revisionId !in revisiones || body.precioReparacionId.value !in reparaciones {
        return Internal500;
      }
      revisionRepuestos := revisionRepuestos + [(revisionId, body.precioReparacionId.value)];
      status := Created201;
    }

    /** `PUT /api/revision/:id`: no role check; an unknown id is 404;
        otherwise estado and respuesta_cliente are overwritten with the body's
        values and nothing else changes. */
    method PutRevision(id: int, change: RevisionChange) returns (status: Status, updated: Option<Revision>)
      requires Valid()
      modifies this`revisiones
      ensures Valid()
      ensures status == NotFound404 <==> id !in old(revisiones)
      ensures status in {NotFound404, Ok200}
      ensures status == NotFound404 ==> revisiones == old(revisiones) && updated == None
      ensures status == Ok200 ==>
        var x := Answered(old(revisiones)[id], change);
        revisiones == old(revisiones)[id := x] && updated == Some(x)
    {
      if id !in revisiones {
        return NotFound404, None;
      }
      var x := Answered(revisiones[id], change);
      revisiones := revisiones[id := x];
      status, updated := Ok200, Some(x);
    }

    // ---- invoices ----

    /** `POST /api/informes`, one transaction: insert an unpaid invoice for
        the placa, then move every revision of that placa under repair to
        `entrega`. The insert is taken to fail on an unknown or a missing placa
        (a foreign key and a NOT NULL on the invoice's placa). On any
        failure the transaction rolls back: no table changes and the answer
        is 500. */
    method PostInforme(body: InformeBody, now: int, fault: TxFault) returns (status: Status)
      requires Valid()
      modifies this`informes, this`revisiones, this`nextInformeId
      ensures Valid()
      ensures status == Created201 <==>
        fault == NoFault && body.placa.Given? && body.placa.value in vehiculos
      ensures status in {Created201, Internal500}
      ensures status == Internal500 ==> informes == old(informes) && revisiones == old(revisiones)
      ensures status == Created201 ==>
        var x := Informe(old(nextInformeId), body.placa.value, Column(body.detalleInforme),
                         Pendiente, None, now);
        x.id !in old(informes) && informes == old(informes)[x.id := x]
      ensures status == Created201 ==>
        && revisiones.Keys == old(revisiones).Keys
        && forall i :: i in revisiones ==> revisiones[i] == Deliver(old(revisiones)[i], body.placa.value)
    {
      var savedInformes, savedRevisiones := informes, revisiones;   // BEGIN
      var id := nextInformeId;
      nextInformeId := nextInformeId + 1;
      if fault == FailInsert || !body.placa.Given? || body.placa.value !in vehiculos {
        return Internal500;   // the insert failed: nothing to roll back
      }
      informes := informes[id := Informe(id, body.placa.value, Column(body.detalleInforme),
                                         Pendiente, None, now)];
      if fault == FailUpdate {
        informes := savedInformes;   // ROLLBACK
        return Internal500;
      }
      revisiones := DeliverAll(revisiones, body.placa.value);
      if fault == FailCommit {
        informes, revisiones := savedInformes, savedRevisiones;   // ROLLBACK
        return Internal500;
      }
      status := Created201;
    }

    /** `GET /api/informes`: every invoice, newest first; no role check. */
    ghost function Informes(): (r: seq<Informe>)
      reads this
      ensures forall x :: x in r <==> x in informes.Values
      ensures Ordering.Distinct(r) && Ordering.SortedDesc(r, FechaInforme)
    {
      Ordering.ByKeyDesc(informes.Values, FechaInforme)
    }

    /** `GET /api/informes/:id`: the invoice, or 404. */
    function InformeById(id: int): (r: Reply<Informe>)
      reads this
      ensures r.Answer? <==> id in informes
      ensures r.Answer? ==> r.rows == informes[id]
      ensures r.Refused? ==> r.status == NotFound404
    {
      if id in informes then Answer(informes[id]) else Refused(NotFound404)
    }

    /** `GET /api/informes-cliente`: the invoices of vehicles the caller owns,
        whatever its role; newest first. */
    ghost function InformesCliente(caller: Claims): (r: seq<Informe>)
      reads this
      ensures forall x :: x in r <==> x in informes.Values && OwnedBy(x.placa, caller.cedula)
      ensures Ordering.Distinct(r) && Ordering.SortedDesc(r, FechaInforme)
    {
      Ordering.ByKeyDesc(
        (set x | x in informes.Values && OwnedBy(x.placa, caller.cedula)), FechaInforme)
    }

    /** `PUT /api/informes/:id/estado`: a state other than pendiente or
        pagado is 400; paying without a signature is 400; a null or absent
        signature otherwise fails in the base64 decode (500); otherwise state
        and signature are overwritten together, and the answer is 200 even
        when no invoice has that id. */
    method SetInformeStatus(id: int, body: EstadoBody) returns (status: Status)
      requires Valid()
      modifies this`informes
      ensures Valid()
      ensures status == BadRequest400 <==> !EstadoFacturaAccepted(body) || PaysWithoutSignature(body)
      ensures status == Internal500 <==>
        EstadoFacturaAccepted(body) && !PaysWithoutSignature(body) && Nullish(body.signature)
      ensures status in {BadRequest400, Internal500, Ok200}
      ensures status != Ok200 || id !in old(informes) ==> informes == old(informes)
      ensures status == Ok200 && id in old(informes) ==>
        informes == old(informes)[id := Settled(old(informes)[id], body.estadoFactura.value,
                                                body.signature.value)]
    {
      if !EstadoFacturaAccepted(body) {
        return BadRequest400;
      }
      if PaysWithoutSignature(body) {
        return BadRequest400;
      }
      if Nullish(body.signature) {
        return Internal500;
      }
      if id in informes {
        informes := informes[id := Settled(informes[id], body.estadoFactura.value,
                                           body.signature.value)];
      }
      status := Ok200;
    }
  }
}
