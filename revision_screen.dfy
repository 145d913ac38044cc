/** The client's revision screen: which revision it loads, and how the
    client's decision becomes an update of the revision. */
module RevisionScreen {

  import opened Js
  import opened Tables
  import Server
  import Auth

  /** A navigation parameter: a number or a string. */
  datatype Scalar = Num(n: int) | Str(s: string)

  /** `!x` for a navigation parameter. */
  predicate FalsyScalar(x: Slot<Scalar>) {
    match x
    case Given(Num(n)) => n == 0
    case Given(Str(s)) => s == ""
    case _ => true
  }

  /** `route.params`, when present. */
  datatype RouteParams = RouteParams(revisionId: Slot<Scalar>, id: Slot<Scalar>)

  /** `route.params?.revisionId ?? route.params?.id`. */
  function Coalesce(params: Option<RouteParams>): Slot<Scalar> {
    match params
    case None => Missing
    case Some(p) => if Nullish(p.revisionId) then p.id else p.revisionId
  }

  const NoRevisionId := "No se recibió el ID de la revisión."

  /** The revision to fetch, or None when the screen shows `NoRevisionId`
      and fetches nothing: `revisionId` is preferred whenever it is not
      null or absent, `id` is the fallback, and a falsy result is refused. */
  function ResolveRevisionId(params: Option<RouteParams>): (r: Option<Scalar>)
    ensures r.None? <==> FalsyScalar(Coalesce(params))
    ensures params.Some? && !FalsyScalar(params.value.revisionId) ==>
      r == Some(params.value.revisionId.value)
    ensures params.Some? && Nullish(params.value.revisionId) && !FalsyScalar(params.value.id) ==>
      r == Some(params.value.id.value)
    ensures params.None? ==> r.None?
  {
    var x := Coalesce(params);
    if FalsyScalar(x) then None else Some(x.value)
  }

  /** A zero or empty `revisionId` is not replaced by `id`: `??` only skips
      null and absent values, so the screen reports a missing id. */
  lemma FalsyRevisionIdNotReplaced(revisionId: Scalar, id: Slot<Scalar>)
    requires FalsyScalar(Given(revisionId))
    ensures ResolveRevisionId(Some(RouteParams(Given(revisionId), id))).None?
  {
  }

  const StaysWaiting := "La revisión se mantiene en espera."

  /** What `handleDecision` does: send an update, only show a message, or
      nothing at all. */
  datatype Decision = Update(change: RevisionChange) | Stay(message: string) | Ignore

  /** `handleDecision`: `continuar` approves the repair, `rechazar` cancels
      the revision, both recording that the client answered; `en_espera`
      only shows a message; anything else is ignored. */
  function Decide(decision: string): (d: Decision)
    ensures d.Update? <==> decision == "continuar" || decision == "rechazar"
    ensures d.Update? ==> d.change.respuestaCliente
    ensures decision == "continuar" ==> d.Update? && d.change.estado == EnReparacion
    ensures decision == "rechazar" ==> d.Update? && d.change.estado == Cancelado
    ensures d == Stay(StaysWaiting) <==> decision == EnEspera
    ensures d == Ignore <==> decision !in {"continuar", "rechazar", EnEspera}
  {
    if decision == "continuar" then Update(RevisionChange(EnReparacion, true))
    else if decision == "rechazar" then Update(RevisionChange(Cancelado, true))
    else if decision == EnEspera then Stay(StaysWaiting)
    else Ignore
  }

  /** The approve and reject buttons are shown while the client has not
      answered. */
  function ShowDecisionButtons(r: Revision): (shown: bool)
    ensures shown <==> !r.respuestaCliente
  {
    !r.respuestaCliente
  }

  /** A revision the administrator has just created asks the client for a
      decision. */
  method NewRevisionAsksDecision(shop: Server.Shop, caller: Auth.Claims, body: RevisionBody, now: int)
      returns (created: Option<Revision>)
    requires shop.Valid() && IsAdmin(caller)
    requires RevisionFieldsPresent(body) && body.placa.value in shop.vehiculos
    modifies shop
    ensures shop.Valid()
    ensures created.Some? && created.value.id in shop.revisiones
    ensures shop.revisiones[created.value.id] == created.value
    ensures created.value.estado == EnEspera && ShowDecisionButtons(created.value)
  {
    var status;
    status, created := shop.PostRevision(caller, body, now);
  }

  /** The client decides on revision `id`: the screen's update goes to
      `PUT /api/revision/:id`, and afterwards the stored revision no longer
      shows the decision buttons, so the client decides once. */
  method DecisionHidesButtons(shop: Server.Shop, id: int, decision: string)
    requires shop.Valid() && id in shop.revisiones
    requires Decide(decision).Update?
    modifies shop
    ensures shop.Valid() && id in shop.revisiones
    ensures !ShowDecisionButtons(shop.revisiones[id])
  {
    var status, updated := shop.PutRevision(id, Decide(decision).change);
  }

  /** The client decides on revision `id`, then the administrator issues an
      invoice for its vehicle: an approved revision ends in `entrega`, a
      rejected one stays `cancelado`. */
  method DecisionThenInvoice(shop: Server.Shop, id: int, decision: string, detalle: Slot<string>,
                             now: int)
    requires shop.Valid() && id in shop.revisiones
    requires Decide(decision).Update?
    modifies shop
    ensures shop.Valid() && id in shop.revisiones
    ensures decision == "continuar" ==> shop.revisiones[id].estado == Entrega
    ensures decision == "rechazar" ==> shop.revisiones[id].estado == Cancelado
    ensures shop.revisiones[id].respuestaCliente
  {
    var placa := shop.revisiones[id].placa;
    var status, updated := shop.PutRevision(id, Decide(decision).change);
    var created := shop.PostInforme(InformeBody(Given(placa), detalle), now, Server.NoFault);
    assert shop.revisiones[id] == Deliver(Answered(old(shop.revisiones[id]), Decide(decision).change), placa);
  }
}
