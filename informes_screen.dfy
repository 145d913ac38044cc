/** The client's invoice screen: paying and signing an invoice. */
module InformesScreen {

  import opened Js
  import opened Text
  import opened Tables
  import Server
  import Http

  /** The data-URL header the signature pad puts before the base64 image. */
  const SignaturePrefix := "data:image/png;base64,"
  const SignatureRequired := "Firma requerida: Por favor, firme en el recuadro para poder confirmar."

  /** What confirming a signature leads to: an error message, or
      `PUT /api/informes/:id/estado` with a body. */
  datatype PayRequest = Refuse(message: string) | Pay(informeId: int, body: EstadoBody)

  /** `handleSignatureOK`: nothing is sent without a selected invoice and a
      non-empty signature; otherwise the invoice is marked paid, with the
      signature stripped of the first occurrence of its data-URL header. */
  function SignatureOk(selected: Option<Informe>, signature: string): (r: PayRequest)
    ensures r.Refuse? <==> selected.None? || signature == ""
    ensures r.Refuse? ==> r.message == SignatureRequired
    ensures r.Pay? ==>
      && r.informeId == selected.value.id
      && r.body.estadoFactura == Given(Pagado)
      && r.body.signature == Given(RemoveFirst(signature, SignaturePrefix))
  {
    if selected.None? || signature == "" then Refuse(SignatureRequired)
    else Pay(selected.value.id, EstadoBody(Given(Pagado), Given(RemoveFirst(signature, SignaturePrefix))))
  }

  /** A signature in data-URL form is sent as exactly the base64 text after
      the header. */
  lemma SendsBase64(selected: Informe, base64: string)
    ensures SignatureOk(Some(selected), SignaturePrefix + base64)
      == Pay(selected.id, EstadoBody(Given(Pagado), Given(base64)))
  {
    RemoveFirstOfPrefixed(SignaturePrefix, base64);
  }

  /** A signature without the header is sent unchanged. */
  lemma SendsPlainSignature(selected: Informe, signature: string)
    requires signature != ""
    requires forall k: nat :: !OccursAt(signature, SignaturePrefix, k)
    ensures SignatureOk(Some(selected), signature)
      == Pay(selected.id, EstadoBody(Given(Pagado), Given(signature)))
  {
    RemoveFirstOfAbsent(signature, SignaturePrefix);
  }

  /** Every payment the screen sends names an accepted state and carries a
      signature, so the server neither refuses the state nor fails on a
      missing signature; it refuses it as unsigned exactly when the pad
      produced nothing but the header. */
  lemma PaymentAccepted(selected: Option<Informe>, signature: string)
    requires SignatureOk(selected, signature).Pay?
    ensures var b := SignatureOk(selected, signature).body;
      && EstadoFacturaAccepted(b)
      && !Nullish(b.signature)
      && (PaysWithoutSignature(b) <==> signature == SignaturePrefix)
  {
    RemoveFirstEmpty(signature, SignaturePrefix);
  }

  /** The "Pagar y Firmar" button: offered for a pending invoice, never for
      a paid one. */
  function ShowPayButton(i: Informe): (shown: bool)
    ensures shown <==> i.estadoFactura == Pendiente
    ensures i.estadoFactura == Pagado ==> !shown
  {
    i.estadoFactura == Pendiente
  }

  /** An invoice the administrator has just issued is offered to the client
      for payment. */
  method NewInvoiceOffered(shop: Server.Shop, body: InformeBody, now: int)
      returns (status: Http.Status)
    requires shop.Valid()
    requires body.placa.Given? && body.placa.value in shop.vehiculos
    modifies shop
    ensures shop.Valid() && status == Http.Created201
    ensures old(shop.nextInformeId) in shop.informes
    ensures ShowPayButton(shop.informes[old(shop.nextInformeId)])
  {
    status := shop.PostInforme(body, now, Server.NoFault);
  }

  /** The client signs and pays a stored invoice: the screen's request goes
      to `PUT /api/informes/:id/estado`, which answers 200, and afterwards the
      invoice is paid, carries the sent signature and is no longer offered
      for payment. */
  method PaidNotOffered(shop: Server.Shop, selected: Informe, signature: string)
      returns (status: Http.Status)
    requires shop.Valid() && selected.id in shop.informes
    requires signature != "" && signature != SignaturePrefix
    modifies shop
    ensures shop.Valid() && selected.id in shop.informes
    ensures status == Http.Ok200
    ensures shop.informes[selected.id].estadoFactura == Pagado
    ensures shop.informes[selected.id].signature == Some(RemoveFirst(signature, SignaturePrefix))
    ensures !ShowPayButton(shop.informes[selected.id])
  {
    var request := SignatureOk(Some(selected), signature);
    PaymentAccepted(Some(selected), signature);
    status := shop.SetInformeStatus(request.informeId, request.body);
  }
}
