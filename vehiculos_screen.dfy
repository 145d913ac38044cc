/** The vehicle screen's form: opening it for a new or an existing vehicle,
    the placa input, and `handleSave`, which checks the fields and builds the
    object it sends (`dataToSend`) key by key. */
module VehiculosScreen {

  import opened Js
  import opened Text
  import opened Tables
  import opened Client
  import Auth

  const CompleteFields := "Complete todos los campos."
  const ChooseOwner := "Seleccione un propietario para el vehículo."

  /** `dataToSend`: the keys it carries. */
  datatype Payload = Payload(marca: string, modelo: string,
                             propietarioCedula: Option<string>, placa: Option<string>)

  /** `PUT /api/vehiculos/:placa` or `POST /api/vehiculos`. */
  datatype Request = Put(placa: string, payload: Payload) | Post(payload: Payload)

  /** What pressing save leads to: an error message, or a request. */
  datatype Outcome = Rejected(message: string) | Send(request: Request)

  /** The placa input: at most `maxLength={6}` characters, upper-cased. */
  function NormalisePlaca(text: string): (r: string)
    ensures |r| == Min(6, |text|)
    ensures forall i :: 0 <= i < |r| ==> r[i] == UpperChar(text[i])
  {
    Upper(Take(text, 6))
  }

  /** The specification of `handleSave`: marca and modelo are always
      required, placa only for a new vehicle; an administrador creating a
      vehicle must pick an owner. An edit sends exactly marca and modelo to
      the placa being edited; a creation adds placa, and the owner only for
      an administrador. */
  function SaveOutcome(user: Option<PublicUser>, editing: bool, placa: string, marca: string,
                       modelo: string, owner: string): (o: Outcome)
    ensures o == Rejected(CompleteFields) <==> marca == "" || modelo == "" || (!editing && placa == "")
    ensures o == Rejected(ChooseOwner) <==>
      marca != "" && modelo != "" && !editing && placa != "" && IsAdminUser(user) && owner == ""
    ensures o.Rejected? ==> o.message in {CompleteFields, ChooseOwner}
    ensures o.Send? && editing ==> o.request == Put(placa, Payload(marca, modelo, None, None))
    ensures o.Send? && !editing ==>
      && o.request.Post?
      && o.request.payload.marca == marca && o.request.payload.modelo == modelo
      && o.request.payload.placa == Some(placa)
      && (o.request.payload.propietarioCedula.Some? <==> IsAdminUser(user))
      && (IsAdminUser(user) ==> o.request.payload.propietarioCedula == Some(owner))
  {
    if marca == "" || modelo == "" || (!editing && placa == "") then Rejected(CompleteFields)
    else if editing then Send(Put(placa, Payload(marca, modelo, None, None)))
    else if IsAdminUser(user) then
      if owner == "" then Rejected(ChooseOwner)
      else Send(Post(Payload(marca, modelo, Some(owner), Some(placa))))
    else Send(Post(Payload(marca, modelo, None, Some(placa))))
  }

  /** The body the server receives for a creation. */
  function AsBody(p: Payload): VehiculoBody {
    VehiculoBody(Key(p.placa), Given(p.marca), Given(p.modelo), Key(p.propietarioCedula))
  }

  /** The body the server receives for an edit. */
  function AsChange(p: Payload): VehiculoChange {
    VehiculoChange(Given(p.marca), Given(p.modelo))
  }

  /** A creation the screen sends passes the server's field check, and the
      server makes the owner the one the screen chose: the picked user for an
      administrador, the caller itself for anyone else. */
  lemma CreateAccepted(user: PublicUser, caller: Auth.Claims, placa: string, marca: string,
                       modelo: string, owner: string, p: Payload)
    requires caller == Auth.Claims(user.cedula, user.rol)
    requires SaveOutcome(Some(user), false, placa, marca, modelo, owner) == Send(Post(p))
    ensures VehiculoFieldsPresent(AsBody(p))
    ensures Owner(caller, AsBody(p)) == (if IsAdmin(caller) then owner else caller.cedula)
  {
  }

  /** An edit the screen sends passes the server's field check and names
      the vehicle being edited. */
  lemma EditAccepted(user: Option<PublicUser>, placa: string, marca: string, modelo: string,
                     owner: string, target: string, p: Payload)
    requires SaveOutcome(user, true, placa, marca, modelo, owner) == Send(Put(target, p))
    ensures VehiculoChangePresent(AsChange(p)) && target == placa
  {
  }

  /** Opening a stored vehicle for editing and saving it untouched sends an
      edit that, once applied, leaves the vehicle as it was. */
  lemma UntouchedEditKeepsVehiculo(user: Option<PublicUser>, v: Vehiculo)
    requires v.marca != "" && v.modelo != ""
    ensures var o := SaveOutcome(user, true, v.placa, v.marca, v.modelo, v.propietario);
      && o.Send? && o.request == Put(v.placa, o.request.payload)
      && v.(marca := o.request.payload.marca, modelo := o.request.payload.modelo) == v
  {
  }

  /** The add/edit form, as its state hooks hold it. */
  class VehiculoForm {
    var placa: string
    var marca: string
    var modelo: string
    var propietarioSeleccionado: string
    var editing: bool
    var modalStatus: Notice

    /** The initial state of the hooks. */
    constructor ()
      ensures placa == "" && marca == "" && modelo == ""
      ensures propietarioSeleccionado == "" && !editing && modalStatus == Quiet
    {
      placa, marca, modelo := "", "", "";
      propietarioSeleccionado := "";
      editing := false;
      modalStatus := Quiet;
    }

    /** `openModalForNew`: an empty form; the owner is preset to a cliente's
        own cédula, and to nobody for anyone else. */
    method OpenForNew(user: Option<PublicUser>)
      modifies this
      ensures !editing && placa == "" && marca == "" && modelo == ""
      ensures propietarioSeleccionado == (if IsClienteUser(user) then user.value.cedula else "")
      ensures modalStatus == Quiet
    {
      editing := false;
      placa, marca, modelo := "", "", "";
      propietarioSeleccionado := if IsClienteUser(user) then user.value.cedula else "";
      modalStatus := Quiet;
    }

    /** `openModalForEdit`: the form copies the vehicle's placa, marca,
        modelo and owner. */
    method OpenForEdit(v: Vehiculo)
      modifies this
      ensures editing && placa == v.placa && marca == v.marca && modelo == v.modelo
      ensures propietarioSeleccionado == v.propietario && modalStatus == Quiet
    {
      editing := true;
      placa, marca, modelo := v.placa, v.marca, v.modelo;
      propietarioSeleccionado := v.propietario;
      modalStatus := Quiet;
    }

    /** The placa input's `onChangeText`. */
    method TypePlaca(text: string)
      modifies this`placa
      ensures placa == NormalisePlaca(text)
    {
      placa := Upper(Take(text, 6));
    }

    /** `handleSave` up to the request: an error message and nothing sent,
        or the request `SaveOutcome` describes, built by adding keys to
        `dataToSend`. */
    method HandleSave(user: Option<PublicUser>) returns (sent: Option<Request>)
      modifies this`modalStatus
      ensures var o := SaveOutcome(user, editing, placa, marca, modelo, propietarioSeleccionado);
        && (o.Rejected? ==> sent == None && modalStatus == Failure(o.message))
        && (o.Send? ==> sent == Some(o.request) && modalStatus == Quiet)
    {
      if marca == "" || modelo == "" || (!editing && placa == "") {
        modalStatus := Failure(CompleteFields);
        return None;
      }
      modalStatus := Quiet;
      var dataToSend := Payload(marca, modelo, None, None);
      if IsAdminUser(user) && !editing {
        if propietarioSeleccionado == "" {
          modalStatus := Failure(ChooseOwner);
          return None;
        }
        dataToSend := dataToSend.(propietarioCedula := Some(propietarioSeleccionado));
      }
      if editing {
        sent := Some(Put(placa, dataToSend));
      } else {
        dataToSend := dataToSend.(placa := Some(placa));
        sent := Some(Post(dataToSend));
      }
    }
  }
}
