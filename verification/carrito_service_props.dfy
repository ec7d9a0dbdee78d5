/** Properties of the cart service that relate several calls, or a call
    and the store it leaves behind. */
module CarritoServiceProperties {
  import opened Base
  import opened Seqs
  import opened ItemCarritoEntity
  import opened CarritoEntity
  import opened ProductoClient
  import opened CarritoService

  /** No two lines of a cart share a merge key. */
  predicate UniqueKeys(items: seq<ItemCarrito>) {
    forall i, j :: 0 <= i < j < |items| ==> Clave(items[i]) != Clave(items[j])
  }

  /** No two lines of a cart share an id. */
  predicate UniqueIds(items: seq<ItemCarrito>) {
    forall i, j :: 0 <= i < j < |items| ==> items[i].id != items[j].id
  }

  /** What the store keeps true of every saved cart: it is filed under its
      own user, its merge keys and ids are unique, every line has a
      quantity and belongs to that cart. */
  predicate WellFormedCart(u: int, c: Carrito) {
    && c.usuarioId == u
    && UniqueKeys(c.items)
    && UniqueIds(c.items)
    && (forall i :: 0 <= i < |c.items| ==> c.items[i].cantidad.Some?)
  }

  predicate WellFormedStore(repo: Repositorio) {
    forall u :: u in repo ==> WellFormedCart(u, repo[u])
  }

  /** The item id the store generates for a new line is not in use in that cart. */
  predicate FreshId(items: seq<ItemCarrito>, id: int) {
    forall j :: 0 <= j < |items| ==> items[j].id != id
  }

  // ---------------------------------------------------------------------
  // obtenerCarritoPorUsuario

  /** Asking twice gives the same cart and leaves the store as the first
      call left it: at most one cart per user is ever created. */
  lemma ObtenerIsIdempotent(repo: Repositorio, usuarioId: int)
    ensures var g := ObtenerCarritoPorUsuario(repo, usuarioId);
            ObtenerCarritoPorUsuario(g.repo, usuarioId) == g
  {
  }

  lemma ObtenerPreservesWellFormed(repo: Repositorio, usuarioId: int)
    requires WellFormedStore(repo)
    ensures WellFormedStore(ObtenerCarritoPorUsuario(repo, usuarioId).repo)
  {
  }

  // ---------------------------------------------------------------------
  // agregarProducto

  /** The stock verdict is reached before the cart is loaded or created: it
      does not depend on the store, the user or the id a new line would get,
      and on that verdict nothing is saved. */
  lemma AddStockVerdictIgnoresCart(repo1: Repositorio, u1: int, id1: int,
                                   repo2: Repositorio, u2: int, id2: int,
                                   req: CarritoRequest, catalogo: Catalogo)
    requires ExcedeStock(Resolver(catalogo, req.productoId), req.cantidad)
    ensures AgregarProducto(repo1, u1, req, catalogo, id1) == AgregarProducto(repo2, u2, req, catalogo, id2)
    ensures AgregarProducto(repo1, u1, req, catalogo, id1)
            == Err(StockInsuficiente(Resolver(catalogo, req.productoId).value.stock.value))
  {
  }

  /** During a catalog outage the fallback's stock of zero rejects every
      add of at least one unit. */
  lemma AddFailsDuringOutage(repo: Repositorio, usuarioId: int, req: CarritoRequest,
                             catalogo: Catalogo, nuevoItemId: int)
    requires EsFalla(catalogo(req.productoId))
    requires req.cantidad >= 1
    ensures AgregarProducto(repo, usuarioId, req, catalogo, nuevoItemId) == Err(StockInsuficiente(0))
  {
  }

  /** There is no positivity check on add: any quantity up to the resolved
      stock, zero and negative ones included, is accepted. */
  lemma {:induction false} AddAcceptsWithinStock(repo: Repositorio, usuarioId: int, req: CarritoRequest,
                              catalogo: Catalogo, nuevoItemId: int)
    requires Resolver(catalogo, req.productoId).Some?
    requires Resolver(catalogo, req.productoId).value.stock.Some?
    requires req.cantidad <= Resolver(catalogo, req.productoId).value.stock.value
    requires forall j :: 0 <= j < |ItemsDe(repo, usuarioId)| ==> ItemsDe(repo, usuarioId)[j].cantidad.Some?
    ensures AgregarProducto(repo, usuarioId, req, catalogo, nuevoItemId).Ok?
  {
    var c := ObtenerCarritoPorUsuario(repo, usuarioId).carrito;
    assert c.items == ItemsDe(repo, usuarioId);
  }

  /** When a line with the request's key exists, the first such line's
      quantity grows by the requested amount and nothing else changes: the
      line count, the other lines, and the line's own name, SKU and price
      snapshot stay as they were. */
  lemma {:induction false} AddMergesIntoFirstMatch(repo: Repositorio, usuarioId: int, req: CarritoRequest,
                                catalogo: Catalogo, nuevoItemId: int, i: nat)
    requires usuarioId in repo
    requires i < |repo[usuarioId].items| && Coincide(repo[usuarioId].items[i], req)
    requires forall j :: 0 <= j < i ==> !Coincide(repo[usuarioId].items[j], req)
    requires AgregarProducto(repo, usuarioId, req, catalogo, nuevoItemId).Ok?
    ensures var before := repo[usuarioId].items[i];
            var c := AgregarProducto(repo, usuarioId, req, catalogo, nuevoItemId).value.carrito;
            && before.cantidad.Some?
            && c.usuarioId == repo[usuarioId].usuarioId
            && c.items == repo[usuarioId].items[i := before.(cantidad := Some(AddInt32(before.cantidad.value, req.cantidad)))]
  {
    FirstWhereIs(repo[usuarioId].items, CoincideCon(req), i);
  }

  /** When no line has the request's key, exactly one line is appended: key
      and quantity from the request, name, SKU, price and image from the
      resolved catalog record, attached to the cart. */
  lemma {:induction false} AddAppendsNewLine(repo: Repositorio, usuarioId: int, req: CarritoRequest,
                          catalogo: Catalogo, nuevoItemId: int)
    requires forall j :: 0 <= j < |ItemsDe(repo, usuarioId)| ==> !Coincide(ItemsDe(repo, usuarioId)[j], req)
    requires AgregarProducto(repo, usuarioId, req, catalogo, nuevoItemId).Ok?
    ensures var c := AgregarProducto(repo, usuarioId, req, catalogo, nuevoItemId).value.carrito;
            var p := Resolver(catalogo, req.productoId).value;
            var owner := if usuarioId in repo then repo[usuarioId].usuarioId else usuarioId;
            && c.usuarioId == owner
            && c.items == ItemsDe(repo, usuarioId) + [CrearItemCarrito(req, p, nuevoItemId).(carrito := Some(owner))]
  {
    var g := ObtenerCarritoPorUsuario(repo, usuarioId);
    assert g.carrito.items == ItemsDe(repo, usuarioId);
    assert FirstWhere(g.carrito.items, CoincideCon(req)).None?;
  }

  /** Replacing a line by one with the same key keeps keys unique. */
  lemma {:induction false} UniqueKeysReplace(items: seq<ItemCarrito>, i: nat, x: ItemCarrito)
    requires UniqueKeys(items) && i < |items| && Clave(x) == Clave(items[i])
    ensures UniqueKeys(items[i := x])
  {
    var r := items[i := x];
    forall a, b | 0 <= a < b < |r|
      ensures Clave(r[a]) != Clave(r[b])
    {
      assert Clave(r[a]) == Clave(items[a]) && Clave(r[b]) == Clave(items[b]);
    }
  }

  /** Appending a line whose key no line has keeps keys unique. */
  lemma {:induction false} UniqueKeysAppend(items: seq<ItemCarrito>, x: ItemCarrito)
    requires UniqueKeys(items)
    requires forall j :: 0 <= j < |items| ==> Clave(items[j]) != Clave(x)
    ensures UniqueKeys(items + [x])
  {
    var r := items + [x];
    forall a, b | 0 <= a < b < |r|
      ensures Clave(r[a]) != Clave(r[b])
    {
      assert r[a] == items[a];
    }
  }

  /** The line an add produces for the user's cart, either case. */
  lemma {:induction false} AddLineShape(repo: Repositorio, usuarioId: int, req: CarritoRequest,
                                        catalogo: Catalogo, nuevoItemId: int)
    requires AgregarProducto(repo, usuarioId, req, catalogo, nuevoItemId).Ok?
    ensures var items := ItemsDe(repo, usuarioId);
            var r := AgregarProducto(repo, usuarioId, req, catalogo, nuevoItemId).value.carrito.items;
            || (exists i :: 0 <= i < |items| && items[i].cantidad.Some? && Coincide(items[i], req)
                  && r == items[i := items[i].(cantidad := Some(AddInt32(items[i].cantidad.value, req.cantidad)))])
            || (&& (forall j :: 0 <= j < |items| ==> !Coincide(items[j], req))
                && |r| == |items| + 1 && r[..|items|] == items
                && r[|items|].id == nuevoItemId && Coincide(r[|items|], req) && r[|items|].cantidad.Some?)
  {
    var items := ItemsDe(repo, usuarioId);
    match FirstWhere(items, CoincideCon(req))
    case Some(i) =>
      AddMergesIntoFirstMatch(repo, usuarioId, req, catalogo, nuevoItemId, i);
    case None =>
      AddAppendsNewLine(repo, usuarioId, req, catalogo, nuevoItemId);
  }

  /** Adding keeps the merge keys of the user's cart unique. */
  lemma {:induction false} AddKeepsKeysUnique(repo: Repositorio, usuarioId: int, req: CarritoRequest,
                                              catalogo: Catalogo, nuevoItemId: int)
    requires UniqueKeys(ItemsDe(repo, usuarioId))
    requires AgregarProducto(repo, usuarioId, req, catalogo, nuevoItemId).Ok?
    ensures UniqueKeys(AgregarProducto(repo, usuarioId, req, catalogo, nuevoItemId).value.carrito.items)
  {
    var items := ItemsDe(repo, usuarioId);
    var r := AgregarProducto(repo, usuarioId, req, catalogo, nuevoItemId).value.carrito.items;
    AddLineShape(repo, usuarioId, req, catalogo, nuevoItemId);
    if i :| 0 <= i < |items| && items[i].cantidad.Some? && Coincide(items[i], req)
           && r == items[i := items[i].(cantidad := Some(AddInt32(items[i].cantidad.value, req.cantidad)))] {
      UniqueKeysReplace(items, i, r[i]);
    } else {
      assert r == items + [r[|items|]];
      UniqueKeysAppend(items, r[|items|]);
    }
  }

  /** Adding keeps the store well formed, given that the id the store
      generates for a new line is unused in that cart. */
  lemma {:induction false} AddPreservesWellFormed(repo: Repositorio, usuarioId: int, req: CarritoRequest,
                                                  catalogo: Catalogo, nuevoItemId: int)
    requires WellFormedStore(repo)
    requires FreshId(ItemsDe(repo, usuarioId), nuevoItemId)
    requires AgregarProducto(repo, usuarioId, req, catalogo, nuevoItemId).Ok?
    ensures WellFormedStore(AgregarProducto(repo, usuarioId, req, catalogo, nuevoItemId).value.repo)
  {
    var items := ItemsDe(repo, usuarioId);
    var g := AgregarProducto(repo, usuarioId, req, catalogo, nuevoItemId).value;
    var r := g.carrito.items;
    AddKeepsKeysUnique(repo, usuarioId, req, catalogo, nuevoItemId);
    AddLineShape(repo, usuarioId, req, catalogo, nuevoItemId);
    if i :| 0 <= i < |items| && items[i].cantidad.Some? && Coincide(items[i], req)
           && r == items[i := items[i].(cantidad := Some(AddInt32(items[i].cantidad.value, req.cantidad)))] {
      CartLinesKeepIds(items, r, i);
    } else {
      CartLinesAppendFresh(items, r);
    }
    assert g.carrito.usuarioId == usuarioId;
    assert WellFormedCart(usuarioId, g.carrito);
  }

  /** Changing one line's quantity keeps ids unique and quantities present. */
  lemma {:induction false} CartLinesKeepIds(items: seq<ItemCarrito>, r: seq<ItemCarrito>, i: nat)
    requires i < |items| && |r| == |items|
    requires forall k :: 0 <= k < |items| && k != i ==> r[k] == items[k]
    requires r[i].id == items[i].id && r[i].cantidad.Some?
    requires UniqueIds(items) && forall k :: 0 <= k < |items| ==> items[k].cantidad.Some?
    ensures UniqueIds(r) && forall k :: 0 <= k < |r| ==> r[k].cantidad.Some?
  {
    assert forall k :: 0 <= k < |r| ==> r[k].id == items[k].id;
  }

  /** Appending a line with a fresh id and a quantity keeps ids unique and
      quantities present. */
  lemma {:induction false} CartLinesAppendFresh(items: seq<ItemCarrito>, r: seq<ItemCarrito>)
    requires |r| == |items| + 1 && r[..|items|] == items
    requires FreshId(items, r[|items|].id) && r[|items|].cantidad.Some?
    requires UniqueIds(items) && forall k :: 0 <= k < |items| ==> items[k].cantidad.Some?
    ensures UniqueIds(r) && forall k :: 0 <= k < |r| ==> r[k].cantidad.Some?
  {
    assert forall k :: 0 <= k < |items| ==> r[k] == items[k];
  }

  // ---------------------------------------------------------------------
  // actualizarCantidad

  /** During a catalog outage every update that passes the positivity check
      and finds its item is rejected by the fallback's stock of zero. */
  lemma {:induction false} UpdateFailsDuringOutage(repo: Repositorio, usuarioId: int, itemId: int, nuevaCantidad: Int32,
                                catalogo: Catalogo, i: nat)
    requires nuevaCantidad > 0
    requires usuarioId in repo && i < |repo[usuarioId].items| && repo[usuarioId].items[i].id == itemId
    requires forall j :: 0 <= j < i ==> repo[usuarioId].items[j].id != itemId
    requires EsFalla(catalogo(repo[usuarioId].items[i].productoId))
    ensures ActualizarCantidad(repo, usuarioId, itemId, nuevaCantidad, catalogo) == Err(StockInsuficiente(0))
  {
    FirstWhereIs(repo[usuarioId].items, ConId(itemId), i);
  }

  /** Once the item is found, the verdict rests on the product resolved for
      its line: a null record or stock is a null reference, a quantity above
      the stock is rejected with that stock, and anything up to the stock
      is accepted. */
  lemma {:induction false} UpdateStockVerdict(repo: Repositorio, usuarioId: int, itemId: int, nuevaCantidad: Int32,
                           catalogo: Catalogo, i: nat)
    requires nuevaCantidad > 0
    requires usuarioId in repo && i < |repo[usuarioId].items| && repo[usuarioId].items[i].id == itemId
    requires forall j :: 0 <= j < i ==> repo[usuarioId].items[j].id != itemId
    ensures var p := Resolver(catalogo, repo[usuarioId].items[i].productoId);
            var r := ActualizarCantidad(repo, usuarioId, itemId, nuevaCantidad, catalogo);
            && (p.None? || p.value.stock.None? ==> r == Err(ReferenciaNula))
            && (p.Some? && p.value.stock.Some? ==>
                  && (r == Err(StockInsuficiente(p.value.stock.value)) <==> nuevaCantidad > p.value.stock.value)
                  && (r.Ok? <==> nuevaCantidad <= p.value.stock.value))
  {
    FirstWhereIs(repo[usuarioId].items, ConId(itemId), i);
  }

  /** A successful update checked the new quantity against the stock of the
      product of the first line with that id, and changed that line's
      quantity and nothing else. */
  lemma {:induction false} UpdateSetsOnlyQuantity(repo: Repositorio, usuarioId: int, itemId: int, nuevaCantidad: Int32,
                               catalogo: Catalogo, i: nat)
    requires usuarioId in repo && i < |repo[usuarioId].items| && repo[usuarioId].items[i].id == itemId
    requires forall j :: 0 <= j < i ==> repo[usuarioId].items[j].id != itemId
    requires ActualizarCantidad(repo, usuarioId, itemId, nuevaCantidad, catalogo).Ok?
    ensures var items := repo[usuarioId].items;
            var c := ActualizarCantidad(repo, usuarioId, itemId, nuevaCantidad, catalogo).value.carrito;
            var p := Resolver(catalogo, items[i].productoId);
            && p.Some? && p.value.stock.Some? && 0 < nuevaCantidad <= p.value.stock.value
            && c.usuarioId == repo[usuarioId].usuarioId
            && c.items == items[i := items[i].(cantidad := Some(nuevaCantidad))]
  {
    FirstWhereIs(repo[usuarioId].items, ConId(itemId), i);
  }

  /** Once the persistence hooks have run, an update from a consistent cart
      moves the subtotal by exactly the change in that line's worth. */
  lemma {:induction false} UpdateThenHooksTotal(repo: Repositorio, usuarioId: int, itemId: int, nuevaCantidad: Int32,
                             catalogo: Catalogo, i: nat)
    requires usuarioId in repo && Consistent(repo[usuarioId])
    requires i < |repo[usuarioId].items| && repo[usuarioId].items[i].id == itemId
    requires forall j :: 0 <= j < i ==> repo[usuarioId].items[j].id != itemId
    requires ActualizarCantidad(repo, usuarioId, itemId, nuevaCantidad, catalogo).Ok?
    ensures var before := repo[usuarioId];
            var c := ActualizarCantidad(repo, usuarioId, itemId, nuevaCantidad, catalogo).value.carrito;
            EjecutarHooks(c).subtotal
              == before.subtotal - LineAmount(before.items[i]) + LineAmount(before.items[i].(cantidad := Some(nuevaCantidad)))
  {
    var before := repo[usuarioId];
    var x := before.items[i].(cantidad := Some(nuevaCantidad));
    var c := ActualizarCantidad(repo, usuarioId, itemId, nuevaCantidad, catalogo).value.carrito;
    UpdateSetsOnlyQuantity(repo, usuarioId, itemId, nuevaCantidad, catalogo, i);
    assert c.items == before.items[i := x];
    QuantityChangeWorth(before, i, nuevaCantidad);
    assert EjecutarHooks(c).subtotal == SumLineAmounts(c.items);
  }

  lemma {:induction false} UpdatePreservesWellFormed(repo: Repositorio, usuarioId: int, itemId: int, nuevaCantidad: Int32,
                                  catalogo: Catalogo)
    requires WellFormedStore(repo)
    requires ActualizarCantidad(repo, usuarioId, itemId, nuevaCantidad, catalogo).Ok?
    ensures WellFormedStore(ActualizarCantidad(repo, usuarioId, itemId, nuevaCantidad, catalogo).value.repo)
  {
    var items := repo[usuarioId].items;
    var i := FirstWhere(items, ConId(itemId)).value;
    UpdateSetsOnlyQuantity(repo, usuarioId, itemId, nuevaCantidad, catalogo, i);
    var c := ActualizarCantidad(repo, usuarioId, itemId, nuevaCantidad, catalogo).value.carrito;
    assert forall k :: 0 <= k < |items| ==> Clave(c.items[k]) == Clave(items[k]) && c.items[k].id == items[k].id;
    assert WellFormedCart(usuarioId, c);
  }

  // ---------------------------------------------------------------------
  // removerProducto

  /** A successful removal takes out the first line with that id, keeps the
      others in order, and lowers the subtotal by that line's subtotal. */
  lemma {:induction false} RemoveTakesOutFoundItem(repo: Repositorio, usuarioId: int, itemId: int, i: nat)
    requires usuarioId in repo
    requires i < |repo[usuarioId].items| && repo[usuarioId].items[i].id == itemId
    requires forall j :: 0 <= j < i ==> repo[usuarioId].items[j].id != itemId
    ensures var items := repo[usuarioId].items;
            var r := RemoverProducto(repo, usuarioId, itemId);
            && r.Ok?
            && r.value.carrito.usuarioId == repo[usuarioId].usuarioId
            && r.value.carrito.items == RemoveAt(items, i)
            && (TotalsCurrent(repo[usuarioId]) ==>
                  r.value.carrito.subtotal == repo[usuarioId].subtotal - SubtotalOrZero(items[i]))
  {
    var items := repo[usuarioId].items;
    FirstWhereIs(items, ConId(itemId), i);
    FirstWhereIs(items, IgualA(items[i]), i);
  }

  /** Removing a line from a consistent cart leaves it consistent, with no
      hook needed: the remaining lines keep their current subtotals. */
  lemma {:induction false} RemoveKeepsConsistency(repo: Repositorio, usuarioId: int, itemId: int)
    requires usuarioId in repo && Consistent(repo[usuarioId])
    requires RemoverProducto(repo, usuarioId, itemId).Ok?
    ensures Consistent(RemoverProducto(repo, usuarioId, itemId).value.carrito)
  {
    var items := repo[usuarioId].items;
    var i := FirstWhere(items, ConId(itemId)).value;
    RemoveTakesOutFoundItem(repo, usuarioId, itemId, i);
    var c := RemoverProducto(repo, usuarioId, itemId).value.carrito;
    assert forall k :: 0 <= k < |c.items| ==> c.items[k] == items[if k < i then k else k + 1];
  }

  lemma {:induction false} RemovePreservesWellFormed(repo: Repositorio, usuarioId: int, itemId: int)
    requires WellFormedStore(repo)
    requires RemoverProducto(repo, usuarioId, itemId).Ok?
    ensures WellFormedStore(RemoverProducto(repo, usuarioId, itemId).value.repo)
  {
    var items := repo[usuarioId].items;
    var i := FirstWhere(items, ConId(itemId)).value;
    RemoveTakesOutFoundItem(repo, usuarioId, itemId, i);
    var c := RemoverProducto(repo, usuarioId, itemId).value.carrito;
    WellFormedRemoveAt(usuarioId, repo[usuarioId], c, i);
  }

  /** Dropping one line keeps a cart well formed. */
  lemma {:induction false} WellFormedRemoveAt(u: int, c: Carrito, c': Carrito, i: nat)
    requires WellFormedCart(u, c) && i < |c.items|
    requires c'.usuarioId == c.usuarioId && c'.items == RemoveAt(c.items, i)
    ensures WellFormedCart(u, c')
  {
    assert forall k :: 0 <= k < |c'.items| ==> c'.items[k] == c.items[if k < i then k else k + 1];
  }

  // ---------------------------------------------------------------------
  // limpiarCarrito

  lemma ClearPreservesWellFormed(repo: Repositorio, usuarioId: int)
    requires WellFormedStore(repo)
    requires CarritoService.LimpiarCarrito(repo, usuarioId).Ok?
    ensures WellFormedStore(CarritoService.LimpiarCarrito(repo, usuarioId).value)
    ensures Consistent(CarritoService.LimpiarCarrito(repo, usuarioId).value[usuarioId])
  {
  }
}
