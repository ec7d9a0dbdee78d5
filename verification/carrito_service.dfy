/** The cart service (`CarritoService`): each operation loads the user's
    cart, validates, mutates the aggregate and saves it, or ends in the
    exception the service throws. The store is a map from user id to cart
    and the catalog is an oracle giving the outcome of each lookup. */
module CarritoService {
  import opened Base
  import opened Seqs
  import opened ItemCarritoEntity
  import opened CarritoEntity
  import opened ProductoClient

  /** The cart store: the cart of each user, by user id. */
  type Repositorio = map<int, Carrito>

  /** The outcome of looking up each product id in the remote catalog. */
  type Catalogo = int -> RespuestaCatalogo

  /** `CarritoRequest`: which product variant to add, and how many. */
  datatype CarritoRequest = CarritoRequest(productoId: int, cantidad: Int32, talla: Option<string>, color: Option<string>)

  /** The exceptions the service throws. */
  datatype ErrorCarrito =
    | StockInsuficiente(disponible: Int32)  // "Stock insuficiente. Stock disponible: <n>"
    | CantidadInvalida                      // IllegalArgumentException: quantity must be > 0
    | CarritoNoEncontrado                   // "Carrito no encontrado"
    | ItemNoEncontrado                      // "Item no encontrado en el carrito"
    | ReferenciaNula                        // NullPointerException from unboxing a null value

  /** A successful call: the store after the save, and the cart it saved
      (the cart the response is built from). */
  datatype Guardado = Guardado(repo: Repositorio, carrito: Carrito)

  /** `equalsSafe`: two nulls are equal, null and non-null are not, two
      strings compare by content. */
  function EqualsSafe(a: Option<string>, b: Option<string>): (r: bool)
    ensures r <==> a == b
    ensures a.None? && b.None? ==> r
    ensures a.None? != b.None? ==> !r
  {
    if a.None? && b.None? then true
    else if a.None? || b.None? then false
    else a.value == b.value
  }

  /** The merge key: items with equal keys are one line of the cart. */
  function Clave(it: ItemCarrito): (int, Option<string>, Option<string>) {
    (it.productoId, it.talla, it.color)
  }

  /** The filter `agregarProducto` uses to find an existing line for a request. */
  function Coincide(it: ItemCarrito, req: CarritoRequest): (r: bool)
    ensures r <==> Clave(it) == (req.productoId, req.talla, req.color)
  {
    it.productoId == req.productoId && EqualsSafe(it.talla, req.talla) && EqualsSafe(it.color, req.color)
  }

  /** The search `agregarProducto` runs over the cart's lines. */
  function CoincideCon(req: CarritoRequest): ItemCarrito -> bool {
    it => Coincide(it, req)
  }

  /** The search by item id of `actualizarCantidad` and `removerProducto`. */
  function ConId(itemId: int): ItemCarrito -> bool {
    (it: ItemCarrito) => it.id == itemId
  }

  /** The items of the user's cart before a call, none if there is no cart. */
  function ItemsDe(repo: Repositorio, usuarioId: int): seq<ItemCarrito> {
    if usuarioId in repo then repo[usuarioId].items else []
  }

  /** `crearCarrito`: a new empty cart for the user, saved. */
  function CrearCarrito(repo: Repositorio, usuarioId: int): (g: Guardado)
    ensures g.carrito.usuarioId == usuarioId && g.carrito.items == []
    ensures g.carrito.subtotal == 0.0 && g.carrito.total == 0.0
    ensures g.repo == repo[usuarioId := g.carrito]
  {
    var c := NuevoCarrito(usuarioId);
    Guardado(repo[usuarioId := c], c)
  }

  /** `obtenerCarritoPorUsuario`: the user's cart, created empty and saved
      if the user has none. Other users' carts are never touched. */
  function ObtenerCarritoPorUsuario(repo: Repositorio, usuarioId: int): (g: Guardado)
    ensures usuarioId in repo ==> g.repo == repo && g.carrito == repo[usuarioId]
    ensures usuarioId !in repo ==> g.carrito == NuevoCarrito(usuarioId) && g.carrito.items == []
    ensures usuarioId in g.repo && g.repo[usuarioId] == g.carrito
    ensures g.repo.Keys == repo.Keys + {usuarioId}
    ensures forall u :: u in repo ==> g.repo[u] == repo[u]
  {
    if usuarioId in repo then Guardado(repo, repo[usuarioId]) else CrearCarrito(repo, usuarioId)
  }

  /** `crearItemCarrito`: a new line whose key and quantity come from the
      request and whose name, SKU, price and image are copied from the
      catalog record at this moment. Its subtotal is still the zero it was
      constructed with; the persistence hook recomputes it. */
  function CrearItemCarrito(req: CarritoRequest, p: ProductoResponse, itemId: int): (it: ItemCarrito)
    ensures it.id == itemId && it.carrito.None?
    ensures it.productoId == req.productoId && it.cantidad == Some(req.cantidad)
    ensures it.talla == req.talla && it.color == req.color
    ensures it.nombreProducto == p.nombre && it.codigoSku == p.codigoSku
    ensures it.precioUnitario == p.precio && it.imagen == p.imagePrimary
    ensures it.subtotal == Some(0.0)
  {
    NuevoItem(itemId, req.productoId).(
      nombreProducto := p.nombre,
      codigoSku := p.codigoSku,
      cantidad := Some(req.cantidad),
      precioUnitario := p.precio,
      talla := req.talla,
      color := req.color,
      imagen := p.imagePrimary)
  }

  /** The product as the breaker-guarded lookup resolves it (null when a
      2xx response had no body). */
  function Resolver(catalogo: Catalogo, productoId: int): Option<ProductoResponse> {
    ConsultarProducto(productoId, catalogo(productoId))
  }

  /** The resolved record has a stock and the quantity exceeds it. */
  predicate ExcedeStock(p: Option<ProductoResponse>, cantidad: int) {
    p.Some? && p.value.stock.Some? && cantidad > p.value.stock.value
  }

  /** `validarProducto`: fail when the stock is below the requested
      quantity; reading a null record or a null stock throws. */
  function ValidarProducto(p: Option<ProductoResponse>, req: CarritoRequest): (r: Result<ProductoResponse, ErrorCarrito>)
    ensures r.Ok? <==> p.Some? && p.value.stock.Some? && req.cantidad <= p.value.stock.value
    ensures r.Ok? ==> r.value == p.value
    ensures r == Err(ReferenciaNula) <==> p.None? || p.value.stock.None?
    ensures r.Err? && r.error.StockInsuficiente? <==> ExcedeStock(p, req.cantidad)
    ensures ExcedeStock(p, req.cantidad) ==> r.error.disponible == p.value.stock.value
  {
    if p.None? || p.value.stock.None? then Err(ReferenciaNula)
    else if p.value.stock.value < req.cantidad then Err(StockInsuficiente(p.value.stock.value))
    else Ok(p.value)
  }

  /** `carritoRepository.save`: the cart replaces the user's entry. */
  function Guardar(repo: Repositorio, usuarioId: int, c: Carrito): (r: Result<Guardado, ErrorCarrito>)
    ensures r.Ok? && r.value.carrito == c
    ensures r.value.repo.Keys == repo.Keys + {usuarioId} && r.value.repo[usuarioId] == c
    ensures forall u :: u in repo && u != usuarioId ==> r.value.repo[u] == repo[u]
  {
    Ok(Guardado(repo[usuarioId := c], c))
  }

  /** `agregarProducto`. The stock check comes first, before the cart is
      loaded or created; then the request merges into the first line with
      the same key (its quantity grows by the requested amount, with Java's
      32-bit wrap-around) or becomes a new line. */
  function AgregarProducto(repo: Repositorio, usuarioId: int, req: CarritoRequest,
                           catalogo: Catalogo, nuevoItemId: int): (r: Result<Guardado, ErrorCarrito>)
    ensures r.Err? && r.error.StockInsuficiente? <==> ExcedeStock(Resolver(catalogo, req.productoId), req.cantidad)
    ensures Resolver(catalogo, req.productoId).None? || Resolver(catalogo, req.productoId).value.stock.None?
            ==> r == Err(ReferenciaNula)
    ensures r.Ok? ==> r.value.repo == repo[usuarioId := r.value.carrito]
    ensures r.Ok? ==> TotalsCurrent(r.value.carrito)
    ensures r.Ok? ==> |r.value.carrito.items| == |ItemsDe(repo, usuarioId)|
                      || |r.value.carrito.items| == |ItemsDe(repo, usuarioId)| + 1
  {
    var producto :- ValidarProducto(Resolver(catalogo, req.productoId), req);
    var g := ObtenerCarritoPorUsuario(repo, usuarioId);
    var c := g.carrito;
    match FirstWhere(c.items, CoincideCon(req))
    case Some(i) =>
      var existente := c.items[i];
      if existente.cantidad.None? then Err(ReferenciaNula)
      else
        var actualizado := existente.(cantidad := Some(AddInt32(existente.cantidad.value, req.cantidad)));
        Guardar(g.repo, usuarioId, CalcularTotales(c.(items := c.items[i := actualizado])))
    case None =>
      var nuevo := CrearItemCarrito(req, producto, nuevoItemId);
      Guardar(g.repo, usuarioId, CalcularTotales(AgregarItem(c, nuevo)))
  }

  /** `actualizarCantidad`. In order: a quantity that is not positive is
      rejected before any lookup; then a missing cart or item id; then the
      new quantity is checked against the product's current stock. On
      success only that item's quantity changes. */
  function ActualizarCantidad(repo: Repositorio, usuarioId: int, itemId: int, nuevaCantidad: Int32,
                              catalogo: Catalogo): (r: Result<Guardado, ErrorCarrito>)
    ensures nuevaCantidad <= 0 ==> r == Err(CantidadInvalida)
    ensures nuevaCantidad > 0 && usuarioId !in repo ==> r == Err(CarritoNoEncontrado)
    ensures nuevaCantidad > 0 && usuarioId in repo
            && (forall j :: 0 <= j < |repo[usuarioId].items| ==> repo[usuarioId].items[j].id != itemId)
            ==> r == Err(ItemNoEncontrado)
    ensures r.Ok? ==> nuevaCantidad > 0 && usuarioId in repo
    ensures r.Ok? ==> r.value.repo == repo[usuarioId := r.value.carrito]
    ensures r.Ok? ==> TotalsCurrent(r.value.carrito)
    ensures r.Ok? ==> |r.value.carrito.items| == |repo[usuarioId].items|
    ensures nuevaCantidad > 0 && usuarioId in repo && FirstWhere(repo[usuarioId].items, ConId(itemId)).Some? ==>
              var i := FirstWhere(repo[usuarioId].items, ConId(itemId)).value;
              var p := Resolver(catalogo, repo[usuarioId].items[i].productoId);
              && (p.None? || p.value.stock.None? ==> r == Err(ReferenciaNula))
              && (p.Some? && p.value.stock.Some? ==>
                    && (r == Err(StockInsuficiente(p.value.stock.value)) <==> nuevaCantidad > p.value.stock.value)
                    && (r.Ok? <==> nuevaCantidad <= p.value.stock.value))
  {
    if nuevaCantidad <= 0 then Err(CantidadInvalida)
    else if usuarioId !in repo then Err(CarritoNoEncontrado)
    else
      var c := repo[usuarioId];
      match FirstWhere(c.items, ConId(itemId))
      case None => Err(ItemNoEncontrado)
      case Some(i) =>
        var item := c.items[i];
        var producto := Resolver(catalogo, item.productoId);
        if producto.None? || producto.value.stock.None? then Err(ReferenciaNula)
        else if nuevaCantidad > producto.value.stock.value then Err(StockInsuficiente(producto.value.stock.value))
        else Guardar(repo, usuarioId, CalcularTotales(c.(items := c.items[i := item.(cantidad := Some(nuevaCantidad))])))
  }

  /** `removerProducto`: fails when the user has no cart or the cart has no
      item with that id; otherwise that item leaves the cart. */
  function RemoverProducto(repo: Repositorio, usuarioId: int, itemId: int): (r: Result<Guardado, ErrorCarrito>)
    ensures usuarioId !in repo ==> r == Err(CarritoNoEncontrado)
    ensures usuarioId in repo ==>
              (r == Err(ItemNoEncontrado) <==> forall j :: 0 <= j < |repo[usuarioId].items| ==> repo[usuarioId].items[j].id != itemId)
    ensures r.Ok? ==> usuarioId in repo && r.value.repo == repo[usuarioId := r.value.carrito]
    ensures r.Ok? ==> |r.value.carrito.items| == |repo[usuarioId].items| - 1
    ensures r.Ok? ==> TotalsCurrent(r.value.carrito)
  {
    if usuarioId !in repo then Err(CarritoNoEncontrado)
    else
      var c := repo[usuarioId];
      match FirstWhere(c.items, ConId(itemId))
      case None => Err(ItemNoEncontrado)
      case Some(i) => Guardar(repo, usuarioId, RemoverItem(c, c.items[i]))
  }

  /** `limpiarCarrito` (service): fails when the user has no cart;
      otherwise the cart is emptied and saved, the other carts untouched. */
  function LimpiarCarrito(repo: Repositorio, usuarioId: int): (r: Result<Repositorio, ErrorCarrito>)
    ensures r.Err? <==> usuarioId !in repo
    ensures r.Err? ==> r.error == CarritoNoEncontrado
    ensures r.Ok? ==> r.value.Keys == repo.Keys
    ensures r.Ok? ==> forall u :: u in repo && u != usuarioId ==> r.value[u] == repo[u]
    ensures r.Ok? ==> r.value[usuarioId].items == [] && r.value[usuarioId].subtotal == 0.0
                      && r.value[usuarioId].total == 0.0
    ensures r.Ok? ==> r.value[usuarioId].usuarioId == repo[usuarioId].usuarioId
  {
    if usuarioId !in repo then Err(CarritoNoEncontrado)
    else
      Ok(Guardar(repo, usuarioId, CarritoEntity.LimpiarCarrito(repo[usuarioId])).value.repo)
  }
}
