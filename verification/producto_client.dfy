/** The cart's view of the product catalog (`ProductoClientService`): one
    remote lookup, guarded by a circuit breaker whose fallback is a fixed
    placeholder product. */
module ProductoClient {
  import opened Base
  import DecimalText

  /** The catalog's product record (`ProductoResponse`), restricted to the
      fields the cart reads or the fallback sets. Every field may be null. */
  datatype ProductoResponse = ProductoResponse(
    id: Option<int>,
    codigoSku: Option<string>,
    nombre: Option<string>,
    imagePrimary: Option<string>,
    descripcion: Option<string>,
    precio: Option<real>,
    costo: Option<real>,
    stock: Option<Int32>,
    tallas: Option<seq<string>>,
    colores: Option<seq<string>>,
    especificaciones: Option<map<string, string>>)

  /** What the guarded remote call produced. The network, the bearer token
      and the breaker's state are outside the model: a call is represented
      only by its outcome. */
  datatype RespuestaCatalogo =
    | Respuesta(status: int, body: Option<ProductoResponse>)  // an HTTP response arrived
    | ErrorDeRed                                                // the call threw (I/O error, timeout)
    | LlamadaNoPermitida                                        // the open breaker refused the call

  /** `HttpStatusCode.is2xxSuccessful()`. */
  predicate Es2xx(status: int) {
    200 <= status <= 299
  }

  /** The call ends in an exception, which the breaker routes to the fallback. */
  predicate EsFalla(resp: RespuestaCatalogo) {
    !(resp.Respuesta? && Es2xx(resp.status))
  }

  const NOMBRE_NO_DISPONIBLE: string := "Producto no disponible"
  const DESCRIPCION_NO_DISPONIBLE: string := "Producto temporalmente no disponible"

  /** `createDefaultProducto`: a placeholder with zero price, cost and stock
      and no variants; every field not set here stays null. */
  function CreateDefaultProducto(productoId: int): (p: ProductoResponse)
    ensures p.id == Some(productoId)
    ensures p.nombre == Some(NOMBRE_NO_DISPONIBLE)
    ensures p.codigoSku == Some("ND-" + DecimalText.LongToString(productoId))
    ensures p.descripcion == Some(DESCRIPCION_NO_DISPONIBLE)
    ensures p.precio == Some(0.0) && p.costo == Some(0.0) && p.stock == Some(0)
    ensures p.tallas == Some([]) && p.colores == Some([]) && p.especificaciones == Some(map[])
    ensures p.imagePrimary.None?
  {
    ProductoResponse(
      id := Some(productoId),
      codigoSku := Some("ND-" + DecimalText.LongToString(productoId)),
      nombre := Some(NOMBRE_NO_DISPONIBLE),
      imagePrimary := None,
      descripcion := Some(DESCRIPCION_NO_DISPONIBLE),
      precio := Some(0.0),
      costo := Some(0.0),
      stock := Some(0),
      tallas := Some([]),
      colores := Some([]),
      especificaciones := Some(map[]))
  }

  /** `fallbackProducto`: the placeholder for the requested id; the failure
      that caused it does not influence the result. */
  function FallbackProducto(productoId: int, causa: RespuestaCatalogo): (p: ProductoResponse)
    ensures p.id == Some(productoId) && p.stock == Some(0) && p.precio == Some(0.0)
    ensures p == CreateDefaultProducto(productoId)
  {
    CreateDefaultProducto(productoId)
  }

  /** The placeholder SKU names the product: two fallbacks with the same
      SKU are for the same product id. */
  lemma FallbackSkuIdentifiesProduct(a: int, b: int, ca: RespuestaCatalogo, cb: RespuestaCatalogo)
    requires FallbackProducto(a, ca).codigoSku == FallbackProducto(b, cb).codigoSku
    ensures a == b
  {
    var sa := DecimalText.LongToString(a);
    var sb := DecimalText.LongToString(b);
    assert ("ND-" + sa)[3..] == sa;
    assert ("ND-" + sb)[3..] == sb;
    DecimalText.LongToStringInjective(a, b);
  }

  /** `consultarProducto` behind its breaker: the response body on a 2xx
      status (null if the body was empty), the fallback on any failure. */
  function ConsultarProducto(productoId: int, resp: RespuestaCatalogo): (r: Option<ProductoResponse>)
    ensures !EsFalla(resp) ==> r == resp.body
    ensures EsFalla(resp) ==> r == Some(CreateDefaultProducto(productoId))
    ensures EsFalla(resp) ==> r.Some? && r.value.stock == Some(0)
  {
    match resp
    case Respuesta(status, body) =>
      if Es2xx(status) then body else Some(FallbackProducto(productoId, resp))
    case ErrorDeRed => Some(FallbackProducto(productoId, resp))
    case LlamadaNoPermitida => Some(FallbackProducto(productoId, resp))
  }
}
