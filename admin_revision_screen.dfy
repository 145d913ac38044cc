/** The administrator's revision screen: the list of priced repairs picked
    for a new revision, the checks before saving it, and how a revision's
    state is shown. */
module AdminRevisionScreen {

  import opened Js
  import opened Tables
  import Server

  /** No two selected entries share an id. */
  predicate UniqueIds(s: seq<ReparacionRow>) {
    forall i, j :: 0 <= i < j < |s| ==> s[i].id != s[j].id
  }

  /** `s.some(r => r.id === id)`. */
  predicate HasId(s: seq<ReparacionRow>, id: int) {
    exists k :: 0 <= k < |s| && s[k].id == id
  }

  /** The position of the first row with that id, or -1. */
  function FirstIndex(rows: seq<ReparacionRow>, id: int): (k: int)
    ensures -1 <= k < |rows|
    ensures k >= 0 ==> rows[k].id == id
    ensures forall j :: 0 <= j < |rows| && (k == -1 || j < k) ==> rows[j].id != id
    decreases |rows|
  {
    if |rows| == 0 then -1
    else if rows[0].id == id then 0
    else
      var k := FirstIndex(rows[1..], id);
      if k == -1 then -1 else k + 1
  }

  /** `rows.find(r => r.id === id)`: the first row with that id. */
  function FindById(rows: seq<ReparacionRow>, id: int): (r: Option<ReparacionRow>)
    ensures r.None? <==> !HasId(rows, id)
    ensures r.Some? ==> r.value in rows && r.value.id == id
    ensures r.Some? ==> 0 <= FirstIndex(rows, id) && r.value == rows[FirstIndex(rows, id)]
  {
    var k := FirstIndex(rows, id);
    if k == -1 then None else Some(rows[k])
  }

  /** `addRepuesto`: the placeholder (`''`) is ignored; a picked id is looked
      up in the repairs the screen loaded, and the match is appended unless
      an entry with its id is already selected. */
  function AddRepuesto(catalogue: seq<ReparacionRow>, selected: seq<ReparacionRow>,
                       picked: Option<int>): (r: seq<ReparacionRow>)
    ensures picked.None? ==> r == selected
    ensures picked.Some? && (!HasId(catalogue, picked.value) || HasId(selected, picked.value)) ==>
      r == selected
    ensures picked.Some? && HasId(catalogue, picked.value) && !HasId(selected, picked.value) ==>
      && |r| == |selected| + 1 && r[..|selected|] == selected
      && r[|selected|] in catalogue && r[|selected|].id == picked.value
      && r[|selected|] == FindById(catalogue, picked.value).value
    ensures UniqueIds(selected) ==> UniqueIds(r)
  {
    match picked
    case None => selected
    case Some(id) =>
      match FindById(catalogue, id)
      case None => selected
      case Some(x) => if HasId(selected, x.id) then selected else selected + [x]
  }

  /** `removeRepuesto`: `filter(r => r.id !== id)`. */
  function RemoveRepuesto(selected: seq<ReparacionRow>, id: int): (r: seq<ReparacionRow>)
    ensures forall x :: x in r <==> x in selected && x.id != id
    ensures !HasId(r, id)
    ensures |r| <= |selected|
  {
    if |selected| == 0 then []
    else (if selected[0].id == id then [] else [selected[0]]) + RemoveRepuesto(selected[1..], id)
  }

  /** Removal works piece by piece, so the remaining entries keep their
      relative order. */
  lemma {:induction false} RemoveAppend(a: seq<ReparacionRow>, b: seq<ReparacionRow>, id: int)
    ensures RemoveRepuesto(a + b, id) == RemoveRepuesto(a, id) + RemoveRepuesto(b, id)
    decreases |a|
  {
    if |a| == 0 {
      assert a + b == b;
    } else {
      assert (a + b)[1..] == a[1..] + b;
      RemoveAppend(a[1..], b, id);
    }
  }

  /** Removing an id nobody has changes nothing. */
  lemma {:induction false} RemoveAbsent(selected: seq<ReparacionRow>, id: int)
    requires !HasId(selected, id)
    ensures RemoveRepuesto(selected, id) == selected
    decreases |selected|
  {
    if |selected| > 0 {
      assert selected[0].id != id;
      forall k | 0 <= k < |selected[1..]| ensures selected[1..][k].id != id {
        assert selected[1..][k] == selected[k + 1];
      }
      RemoveAbsent(selected[1..], id);
      assert [selected[0]] + selected[1..] == selected;
    }
  }

  /** Removing what was just added restores the selection. */
  lemma RemoveUndoesAdd(catalogue: seq<ReparacionRow>, selected: seq<ReparacionRow>, id: int)
    requires HasId(catalogue, id) && !HasId(selected, id)
    ensures RemoveRepuesto(AddRepuesto(catalogue, selected, Some(id)), id) == selected
  {
    var r := AddRepuesto(catalogue, selected, Some(id));
    assert r == selected + [r[|selected|]];
    RemoveAppend(selected, [r[|selected|]], id);
    RemoveAbsent(selected, id);
  }

  const FillAll := "Por favor, complete todos los campos."
  const NeedRepuesto := "Debe agregar al menos un repuesto."

  /** What `handleSave` does once its checks pass: create the revision, then
      attach every selected line item to it. */
  datatype SavePlan = Refuse(message: string)
                    | Create(revision: RevisionBody, attachments: seq<AttachBody>)

  /** One attachment body per selected entry, in order. */
  function Attachments(selected: seq<ReparacionRow>): (r: seq<AttachBody>)
    ensures |r| == |selected|
    ensures forall k :: 0 <= k < |r| ==> r[k] == AttachBody(Given(selected[k].id))
  {
    seq(|selected|, k requires 0 <= k < |selected| => AttachBody(Given(selected[k].id)))
  }

  /** `handleSave`'s checks: placa, mecánico and detail are required, then at
      least one line item; only then is anything sent. */
  function Save(placa: string, mecanico: string, detalle: string,
                selected: seq<ReparacionRow>): (p: SavePlan)
    ensures p == Refuse(FillAll) <==> placa == "" || mecanico == "" || detalle == ""
    ensures p == Refuse(NeedRepuesto) <==>
      placa != "" && mecanico != "" && detalle != "" && |selected| == 0
    ensures p.Refuse? ==> p.message in {FillAll, NeedRepuesto}
    ensures p.Create? <==> placa != "" && mecanico != "" && detalle != "" && |selected| > 0
    ensures p.Create? ==>
      && p.revision == RevisionBody(Given(placa), Given(mecanico), Given(detalle))
      && RevisionFieldsPresent(p.revision)
      && p.attachments == Attachments(selected) && |p.attachments| > 0
  {
    if placa == "" || mecanico == "" || detalle == "" then Refuse(FillAll)
    else if |selected| == 0 then Refuse(NeedRepuesto)
    else Create(RevisionBody(Given(placa), Given(mecanico), Given(detalle)), Attachments(selected))
  }

  /** Line items picked from what `GET /api/reparaciones` returned carry
      positive ids, so none of the attachment requests is refused for a
      missing `precio_reparacion_id`. */
  lemma AttachmentsCarryIds(shop: Server.Shop, selected: seq<ReparacionRow>)
    requires shop.Valid()
    requires forall k :: 0 <= k < |selected| ==> selected[k] in shop.Reparaciones()
    ensures forall b :: b in Attachments(selected) ==> !FalsyNum(b.precioReparacionId)
  {
    forall b | b in Attachments(selected) ensures !FalsyNum(b.precioReparacionId) {
      var k :| 0 <= k < |Attachments(selected)| && Attachments(selected)[k] == b;
      assert selected[k].id in shop.reparaciones;
    }
  }

  // ---- how a revision's state is shown ----

  const Green := "#28a745"
  const Orange := "#fd7e14"
  const Blue := "#007bff"
  const Red := "#dc3545"
  const Gray := "#6c757d"

  /** `getStatusColor`. */
  function StatusColor(estado: string): (c: string)
    ensures c == Gray <==> estado !in {Entrega, EnReparacion, EnEspera, Cancelado}
    ensures estado == Entrega ==> c == Green
    ensures estado == EnReparacion ==> c == Orange
    ensures estado == EnEspera ==> c == Blue
    ensures estado == Cancelado ==> c == Red
  {
    if estado == Entrega then Green
    else if estado == EnReparacion then Orange
    else if estado == EnEspera then Blue
    else if estado == Cancelado then Red
    else Gray
  }

  /** The four named states have four different colours. */
  lemma StatusColorsDistinct(a: string, b: string)
    requires a in {Entrega, EnReparacion, EnEspera, Cancelado}
    requires b in {Entrega, EnReparacion, EnEspera, Cancelado}
    ensures StatusColor(a) == StatusColor(b) <==> a == b
  {
  }

  /** `formattedEstado`: only `en_espera` is rewritten, to `En espera`. */
  function FormattedEstado(estado: string): (r: string)
    ensures r != EnEspera
    ensures estado == EnEspera ==> r == "En espera"
    ensures estado != EnEspera ==> r == estado
  {
    if estado == EnEspera then "En espera" else estado
  }
}
