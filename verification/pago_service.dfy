/** The payment service (`PagoService`): a payment is recorded as pending,
    a simulated gateway decides it, and it is saved again with its final
    state. Payment ids and the transaction reference (a random UUID) are
    parameters. */
module PagoService {
  import opened Base

  datatype EstadoPago = PENDIENTE | APROBADO | RECHAZADO | FALLIDO

  /** `Pago`, without its timestamps. */
  datatype Pago = Pago(
    id: int,
    carritoId: int,
    usuarioId: int,
    monto: real,
    metodoPago: string,
    estado: EstadoPago,
    referenciaTransaccion: Option<string>)

  datatype PagoRequest = PagoRequest(carritoId: int, usuarioId: int, monto: real, metodoPago: string)

  /** The payment store, by payment id. */
  type RepositorioPagos = map<int, Pago>

  /** "Pago no encontrado con ID: <id>" */
  datatype ErrorPago = PagoNoEncontrado(id: int)

  /** Both saves of `procesarPago`: the pending payment first written, the
      decided payment written over it, and the store afterwards. */
  datatype Procesado = Procesado(pendiente: Pago, decidido: Pago, repo: RepositorioPagos)

  /** The builder call: request fields copied, state PENDIENTE, no reference. */
  function CrearPagoPendiente(req: PagoRequest, id: int): (p: Pago)
    ensures p.id == id && p.estado == PENDIENTE && p.referenciaTransaccion.None?
    ensures p.carritoId == req.carritoId && p.usuarioId == req.usuarioId
    ensures p.monto == req.monto && p.metodoPago == req.metodoPago
  {
    Pago(id, req.carritoId, req.usuarioId, req.monto, req.metodoPago, PENDIENTE, None)
  }

  /** `simularPasarelaExterna`: the simulated gateway approves exactly the
      positive amounts. */
  function SimularPasarelaExterna(req: PagoRequest): (aprobado: bool)
    ensures aprobado <==> req.monto > 0.0
  {
    req.monto > 0.0
  }

  /** `procesarPago`. The decided payment is APROBADO with the given
      reference when the amount is positive and RECHAZADO with no reference
      otherwise; it never ends PENDIENTE or FALLIDO, and the fields copied
      from the request are the same in both saves. */
  function ProcesarPago(repo: RepositorioPagos, req: PagoRequest, nuevoId: int, referencia: string): (r: Procesado)
    ensures r.pendiente == CrearPagoPendiente(req, nuevoId)
    ensures r.decidido.estado == APROBADO <==> req.monto > 0.0
    ensures r.decidido.estado == RECHAZADO <==> req.monto <= 0.0
    ensures r.decidido.estado != PENDIENTE && r.decidido.estado != FALLIDO
    ensures r.decidido.estado == APROBADO ==> r.decidido.referenciaTransaccion == Some(referencia)
    ensures r.decidido.estado == RECHAZADO ==> r.decidido.referenciaTransaccion.None?
    ensures r.decidido == r.pendiente.(estado := r.decidido.estado,
                                       referenciaTransaccion := r.decidido.referenciaTransaccion)
    ensures r.repo == repo[nuevoId := r.decidido]
  {
    var pago := CrearPagoPendiente(req, nuevoId);
    var decidido :=
      if SimularPasarelaExterna(req) then pago.(estado := APROBADO, referenciaTransaccion := Some(referencia))
      else pago.(estado := RECHAZADO);
    Procesado(pago, decidido, repo[nuevoId := decidido])
  }

  /** `obtenerPagoPorId`: the stored payment, or not-found. */
  function ObtenerPagoPorId(repo: RepositorioPagos, id: int): (r: Result<Pago, ErrorPago>)
    ensures r.Err? <==> id !in repo
    ensures r.Err? ==> r.error == PagoNoEncontrado(id)
    ensures r.Ok? ==> r.value == repo[id]
  {
    if id in repo then Ok(repo[id]) else Err(PagoNoEncontrado(id))
  }

  /** A processed payment is found again under its id, in its decided state;
      no other stored payment changes. */
  lemma ProcesarThenObtener(repo: RepositorioPagos, req: PagoRequest, nuevoId: int, referencia: string, otro: int)
    ensures var r := ProcesarPago(repo, req, nuevoId, referencia);
            ObtenerPagoPorId(r.repo, nuevoId) == Ok(r.decidido)
    ensures otro != nuevoId ==>
              ObtenerPagoPorId(ProcesarPago(repo, req, nuevoId, referencia).repo, otro) == ObtenerPagoPorId(repo, otro)
  {
  }
}
