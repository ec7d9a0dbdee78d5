/** Concrete inputs to the cart service that show its edge behaviour:
    totals reported before the line subtotals are recomputed, a merge that
    skips the cumulative stock check, and a merged quantity that wraps
    around. */
module CarritoExamples {
  import opened Base
  import opened ItemCarritoEntity
  import opened CarritoEntity
  import opened ProductoClient
  import opened CarritoService

  /** A catalog record with a price of 10 and a stock of 10. */
  const CAMISA: ProductoResponse := CreateDefaultProducto(42).(
    nombre := Some("Camisa"), codigoSku := Some("CAM-42"), precio := Some(10.0), stock := Some(10))

  /** A catalog that always answers 200 with the given record. */
  function CatalogoFijo(p: ProductoResponse): Catalogo {
    (id: int) => Respuesta(200, Some(p))
  }

  /** Adding 2 units at 10 to an empty store: the saved cart reports a
      subtotal of 0, because the new line still carries the zero subtotal
      it was constructed with; the persistence hooks make it 20. */
  lemma AddReportsStaleSubtotal()
    ensures var r := AgregarProducto(map[], 7, CarritoRequest(42, 2, None, None), CatalogoFijo(CAMISA), 1);
            && r.Ok?
            && |r.value.carrito.items| == 1
            && r.value.carrito.items[0].cantidad == Some(2)
            && r.value.carrito.subtotal == 0.0
            && EjecutarHooks(r.value.carrito).subtotal == 20.0
  {
    var r := AgregarProducto(map[], 7, CarritoRequest(42, 2, None, None), CatalogoFijo(CAMISA), 1);
    var c := r.value.carrito;
    assert c.items[..0] == [];
    assert c.items == [c.items[0]];
    SumOfSingleton(c.items[0], SubtotalOrZero);
    SumOfSingleton(c.items[0], LineAmount);
    var h := EjecutarHooks(c);
    assert h.items[0] == CalcularSubtotal(c.items[0]);
    assert h.items[..0] == [];
  }

  /** A consistent cart with one line of 2 units at 10 (subtotal 20). */
  const LINEA: ItemCarrito := CalcularSubtotal(CrearItemCarrito(CarritoRequest(42, 2, None, None), CAMISA, 1).(carrito := Some(7)))
  const CARRITO: Carrito := Carrito(7, [LINEA], 20.0, 20.0)

  /** Merging 1 more unit into that line: the quantity becomes 3, but the
      saved cart still reports 20, the sum over the line's old subtotal;
      the hooks make it 30. */
  lemma MergeReportsStaleSubtotal()
    ensures var r := AgregarProducto(map[7 := CARRITO], 7, CarritoRequest(42, 1, None, None), CatalogoFijo(CAMISA), 2);
            && r.Ok?
            && |r.value.carrito.items| == 1
            && r.value.carrito.items[0].cantidad == Some(3)
            && r.value.carrito.subtotal == 20.0
            && EjecutarHooks(r.value.carrito).subtotal == 30.0
  {
    assert LINEA.subtotal == Some(20.0);
    var r := AgregarProducto(map[7 := CARRITO], 7, CarritoRequest(42, 1, None, None), CatalogoFijo(CAMISA), 2);
    var c := r.value.carrito;
    assert c.items[..0] == [];
    assert c.items[0].subtotal == Some(20.0);
    assert c.items == [c.items[0]];
    SumOfSingleton(c.items[0], SubtotalOrZero);
    SumOfSingleton(c.items[0], LineAmount);
    var h := EjecutarHooks(c);
    assert h.items[0] == CalcularSubtotal(c.items[0]);
    assert h.items[..0] == [];
  }

  /** The merge checks only the requested increment against stock: with a
      stock of 10 and 2 units already in the cart, adding 10 more is
      accepted and the line holds 12. */
  lemma MergeSkipsCumulativeStockCheck()
    ensures var r := AgregarProducto(map[7 := CARRITO], 7, CarritoRequest(42, 10, None, None), CatalogoFijo(CAMISA), 2);
            && r.Ok?
            && r.value.carrito.items[0].cantidad == Some(12)
            && 12 > CAMISA.stock.value
  {
  }

  /** The merged quantity is a Java `int`: with a large enough stock, two
      adds of the maximum quantity wrap around to -2. */
  lemma MergeQuantityWrapsAround()
    ensures var p := CAMISA.(stock := Some(MAX_INT32));
            var grande := LINEA.(cantidad := Some(MAX_INT32));
            var r := AgregarProducto(map[7 := Carrito(7, [grande], 0.0, 0.0)], 7,
                                     CarritoRequest(42, MAX_INT32, None, None), CatalogoFijo(p), 2);
            && r.Ok?
            && r.value.carrito.items[0].cantidad == Some(-2)
  {
  }

  /** Updating that line to 5 units with a stock of 10, then running the
      hooks, gives a subtotal of 50; the cart the update saved still shows
      the old 20. */
  lemma UpdateExample()
    ensures var r := ActualizarCantidad(map[7 := CARRITO], 7, 1, 5, CatalogoFijo(CAMISA));
            && r.Ok?
            && r.value.carrito.items[0].cantidad == Some(5)
            && r.value.carrito.subtotal == 20.0
            && EjecutarHooks(r.value.carrito).subtotal == 50.0
  {
    assert LINEA.subtotal == Some(20.0);
    var r := ActualizarCantidad(map[7 := CARRITO], 7, 1, 5, CatalogoFijo(CAMISA));
    var c := r.value.carrito;
    assert c.items[..0] == [];
    assert c.items[0].subtotal == Some(20.0);
    assert c.items == [c.items[0]];
    SumOfSingleton(c.items[0], SubtotalOrZero);
    SumOfSingleton(c.items[0], LineAmount);
    var h := EjecutarHooks(c);
    assert h.items[0] == CalcularSubtotal(c.items[0]);
    assert h.items[..0] == [];
  }

  /** Removing the only line leaves an empty cart with subtotal 0. */
  lemma RemoveExample()
    ensures var r := RemoverProducto(map[7 := CARRITO], 7, 1);
            && r.Ok? && r.value.carrito.items == [] && r.value.carrito.subtotal == 0.0
  {
    assert LINEA.subtotal == Some(20.0);
  }
}
