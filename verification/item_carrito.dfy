/** A cart line item (`ItemCarrito`) and its persistence hook that
    recomputes the line subtotal. */
module ItemCarritoEntity {
  import opened Base

  /** One product variant in a cart. Columns the store declares non-null and
      uses as keys (`id`, `productoId`) are plain integers; every other
      reference may be null. `carrito` is the back-reference to the owning
      cart, identified by that cart's `usuarioId`. */
  datatype ItemCarrito = ItemCarrito(
    id: int,
    carrito: Option<int>,
    productoId: int,
    nombreProducto: Option<string>,
    codigoSku: Option<string>,
    cantidad: Option<Int32>,
    precioUnitario: Option<real>,
    subtotal: Option<real>,
    talla: Option<string>,
    color: Option<string>,
    imagen: Option<string>)

  /** `new ItemCarrito()` followed by setting its key columns: price and
      subtotal start at zero, every other reference is null. */
  function NuevoItem(id: int, productoId: int): (it: ItemCarrito)
    ensures it.id == id && it.productoId == productoId
    ensures it.precioUnitario == Some(0.0) && it.subtotal == Some(0.0)
    ensures it.carrito.None? && it.cantidad.None?
    ensures it.nombreProducto.None? && it.codigoSku.None? && it.imagen.None?
    ensures it.talla.None? && it.color.None?
  {
    ItemCarrito(id, None, productoId, None, None, None, Some(0.0), Some(0.0), None, None, None)
  }

  /** What the line is worth: unit price times quantity, a null price or a
      null quantity counting as zero. */
  function LineAmount(it: ItemCarrito): real {
    PrecioOrZero(it) * CantidadOrZero(it)
  }

  function PrecioOrZero(it: ItemCarrito): real {
    it.precioUnitario.GetOr(0.0)
  }

  function CantidadOrZero(it: ItemCarrito): real {
    it.cantidad.GetOr(0) as real
  }

  /** Setting a quantity makes the line worth the unit price (zero if null)
      times that quantity. */
  lemma LineAmountWithCantidad(it: ItemCarrito, n: Int32)
    ensures LineAmount(it.(cantidad := Some(n))) == PrecioOrZero(it) * (n as real)
  {
    var x := it.(cantidad := Some(n));
    assert PrecioOrZero(x) == PrecioOrZero(it);
    assert CantidadOrZero(x) == n as real;
  }

  /** The item's stored subtotal agrees with its price and quantity. */
  predicate ItemConsistent(it: ItemCarrito) {
    it.subtotal == Some(LineAmount(it))
  }

  /** `calcularSubtotal`, the item's `@PrePersist`/`@PreUpdate` hook. */
  function CalcularSubtotal(it: ItemCarrito): (r: ItemCarrito)
    ensures r == it.(subtotal := r.subtotal)
    ensures it.precioUnitario.Some? && it.cantidad.Some? ==>
              r.subtotal == Some(it.precioUnitario.value * (it.cantidad.value as real))
    ensures it.precioUnitario.None? ==> r.subtotal == Some(0.0)
    ensures it.cantidad.None? ==> r.subtotal == Some(0.0)
    ensures ItemConsistent(r)
    ensures ItemConsistent(it) ==> r == it
  {
    var r := it.(subtotal := Some(PrecioOrZero(it) * CantidadOrZero(it)));
    assert LineAmount(r) == PrecioOrZero(it) * CantidadOrZero(it);
    assert it.cantidad.Some? ==> CantidadOrZero(it) == it.cantidad.value as real;
    assert it.precioUnitario.Some? ==> PrecioOrZero(it) == it.precioUnitario.value;
    assert it.precioUnitario.Some? && it.cantidad.Some? ==>
             PrecioOrZero(it) * CantidadOrZero(it) == it.precioUnitario.value * (it.cantidad.value as real);
    r
  }

  /** Running the hook twice is running it once. */
  lemma CalcularSubtotalIdempotent(it: ItemCarrito)
    ensures CalcularSubtotal(CalcularSubtotal(it)) == CalcularSubtotal(it)
  {
  }
}
