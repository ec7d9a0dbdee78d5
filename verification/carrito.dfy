/** The cart aggregate (`Carrito`): its items, its derived totals and the
    structural operations that keep the totals recomputed. */
module CarritoEntity {
  import opened Base
  import opened Seqs
  import opened ItemCarritoEntity

  /** One user's cart. The store keys carts by `usuarioId`; the database id
      and the timestamps are not modelled. */
  datatype Carrito = Carrito(usuarioId: int, items: seq<ItemCarrito>, subtotal: real, total: real)

  /** An item's stored subtotal, a null subtotal counting as zero. */
  function SubtotalOrZero(it: ItemCarrito): real {
    it.subtotal.GetOr(0.0)
  }

  /** Sum of `f` over the items, in list order: the shape of the
      `stream().map(f).reduce(ZERO, add)` fold. */
  function SumOf(items: seq<ItemCarrito>, f: ItemCarrito -> real): real {
    if |items| == 0 then 0.0
    else SumOf(items[..|items| - 1], f) + f(items[|items| - 1])
  }

  /** Sum of the items' stored subtotals. */
  function SumSubtotals(items: seq<ItemCarrito>): real {
    SumOf(items, SubtotalOrZero)
  }

  /** Sum of what the items are worth (price times quantity). */
  function SumLineAmounts(items: seq<ItemCarrito>): real {
    SumOf(items, LineAmount)
  }

  lemma {:induction false} SumOfConcat(a: seq<ItemCarrito>, b: seq<ItemCarrito>, f: ItemCarrito -> real)
    ensures SumOf(a + b, f) == SumOf(a, f) + SumOf(b, f)
    decreases |b|
  {
    if |b| > 0 {
      var b' := b[..|b| - 1];
      assert (a + b)[..|a + b| - 1] == a + b';
      SumOfConcat(a, b', f);
    } else {
      assert a + b == a;
    }
  }

  /** The sum over a single item is that item's value. */
  lemma SumOfSingleton(x: ItemCarrito, f: ItemCarrito -> real)
    ensures SumOf([x], f) == f(x)
  {
    assert [x][..0] == [];
  }

  /** Taking one item out lowers the sum of subtotals by exactly its subtotal. */
  lemma {:induction false} SumSubtotalsRemoveAt(items: seq<ItemCarrito>, i: nat)
    requires i < |items|
    ensures SumSubtotals(RemoveAt(items, i)) == SumSubtotals(items) - SubtotalOrZero(items[i])
  {
    var a, b := items[..i], items[i + 1..];
    assert RemoveAt(items, i) == a + b;
    assert items == (a + [items[i]]) + b;
    SumOfConcat(a + [items[i]], b, SubtotalOrZero);
    SumOfConcat(a, [items[i]], SubtotalOrZero);
    SumOfConcat(a, b, SubtotalOrZero);
    SumOfSingleton(items[i], SubtotalOrZero);
  }

  /** Replacing one item changes the sum of line amounts by the difference
      of the two lines. */
  lemma {:induction false} SumLineAmountsUpdate(items: seq<ItemCarrito>, i: nat, x: ItemCarrito)
    requires i < |items|
    ensures SumLineAmounts(items[i := x]) == SumLineAmounts(items) - LineAmount(items[i]) + LineAmount(x)
  {
    var a, b := items[..i], items[i + 1..];
    assert items == (a + [items[i]]) + b;
    assert items[i := x] == (a + [x]) + b;
    SumOfConcat(a + [items[i]], b, LineAmount);
    SumOfConcat(a, [items[i]], LineAmount);
    SumOfConcat(a + [x], b, LineAmount);
    SumOfConcat(a, [x], LineAmount);
    SumOfSingleton(items[i], LineAmount);
    SumOfSingleton(x, LineAmount);
  }

  /** In a consistent cart, giving line `i` quantity `n` makes the lines
      worth the old subtotal minus that line's old worth plus its new one,
      which is its unit price (zero if null) times `n`. */
  lemma QuantityChangeWorth(c: Carrito, i: nat, n: Int32)
    requires Consistent(c) && i < |c.items|
    ensures SumLineAmounts(c.items[i := c.items[i].(cantidad := Some(n))])
            == c.subtotal - LineAmount(c.items[i]) + LineAmount(c.items[i].(cantidad := Some(n)))
    ensures LineAmount(c.items[i].(cantidad := Some(n))) == PrecioOrZero(c.items[i]) * (n as real)
  {
    SumLineAmountsUpdate(c.items, i, c.items[i].(cantidad := Some(n)));
    SumsAgree(c.items);
    LineAmountWithCantidad(c.items[i], n);
  }

  /** When every item's subtotal is current, the sum of subtotals is the sum
      of price times quantity. */
  lemma {:induction false} SumsAgree(items: seq<ItemCarrito>)
    requires forall i :: 0 <= i < |items| ==> ItemConsistent(items[i])
    ensures SumSubtotals(items) == SumLineAmounts(items)
  {
    if |items| > 0 {
      SumsAgree(items[..|items| - 1]);
      assert ItemConsistent(items[|items| - 1]);
    }
  }

  /** The cart's totals agree with the subtotals its items carry. */
  predicate TotalsCurrent(c: Carrito) {
    c.subtotal == SumSubtotals(c.items) && c.total == c.subtotal
  }

  /** Every item's subtotal is current and so are the cart's totals. */
  predicate Consistent(c: Carrito) {
    && (forall i :: 0 <= i < |c.items| ==> ItemConsistent(c.items[i]))
    && TotalsCurrent(c)
  }

  /** `new Carrito()` for a user: no items, zero totals. */
  function NuevoCarrito(usuarioId: int): (c: Carrito)
    ensures c.usuarioId == usuarioId && c.items == []
    ensures c.subtotal == 0.0 && c.total == 0.0
    ensures Consistent(c)
  {
    Carrito(usuarioId, [], 0.0, 0.0)
  }

  /** `calcularTotales`: subtotal is the sum of item subtotals, total equals
      subtotal; the items are not touched. */
  function CalcularTotales(c: Carrito): (r: Carrito)
    ensures r.usuarioId == c.usuarioId && r.items == c.items
    ensures TotalsCurrent(r)
    ensures TotalsCurrent(c) ==> r == c
  {
    var s := SumSubtotals(c.items);
    c.(subtotal := s, total := s)
  }

  /** `agregarItem`: attach the item to this cart, append it, recompute. */
  function AgregarItem(c: Carrito, it: ItemCarrito): (r: Carrito)
    ensures r.usuarioId == c.usuarioId
    ensures |r.items| == |c.items| + 1 && r.items[..|c.items|] == c.items
    ensures r.items[|c.items|] == it.(carrito := Some(c.usuarioId))
    ensures TotalsCurrent(r)
    ensures TotalsCurrent(c) ==> r.subtotal == c.subtotal + SubtotalOrZero(it)
  {
    var attached := it.(carrito := Some(c.usuarioId));
    var items := c.items + [attached];
    assert items[..|items| - 1] == c.items;
    CalcularTotales(c.(items := items))
  }

  /** The search `List.remove(Object)` runs: an element equal to `it`. */
  function IgualA(it: ItemCarrito): ItemCarrito -> bool {
    x => x == it
  }

  /** `removerItem`: remove the first item equal to `it` (Java's
      `List.remove(Object)`), keep the rest in order, recompute. */
  function RemoverItem(c: Carrito, it: ItemCarrito): (r: Carrito)
    ensures r.usuarioId == c.usuarioId
    ensures TotalsCurrent(r)
    ensures it !in c.items ==> r.items == c.items
    ensures it in c.items ==> exists i :: 0 <= i < |c.items| && c.items[i] == it
                                && it !in c.items[..i] && r.items == RemoveAt(c.items, i)
    ensures it in c.items && TotalsCurrent(c) ==> r.subtotal == c.subtotal - SubtotalOrZero(it)
  {
    match FirstWhere(c.items, IgualA(it))
    case None => CalcularTotales(c)
    case Some(i) =>
      assert it !in c.items[..i] by {
        assert forall j :: 0 <= j < i ==> c.items[..i][j] == c.items[j];
      }
      SumSubtotalsRemoveAt(c.items, i);
      CalcularTotales(c.(items := RemoveAt(c.items, i)))
  }

  /** `limpiarCarrito`: drop every item, recompute. */
  function LimpiarCarrito(c: Carrito): (r: Carrito)
    ensures r.usuarioId == c.usuarioId && r.items == []
    ensures r.subtotal == 0.0 && r.total == 0.0
    ensures Consistent(r)
  {
    CalcularTotales(c.(items := []))
  }

  /** The persistence hooks as one step, in an assumed order: every item's
      `calcularSubtotal`, then the cart's `calcularTotales` (whether the
      persistence layer fires the cart's hook at all is left open). After
      the step the cart is consistent and its subtotal is the sum of price
      times quantity over its items. */
  function EjecutarHooks(c: Carrito): (r: Carrito)
    ensures r.usuarioId == c.usuarioId && |r.items| == |c.items|
    ensures forall i :: 0 <= i < |c.items| ==> r.items[i] == CalcularSubtotal(c.items[i])
    ensures Consistent(r)
    ensures r.subtotal == SumLineAmounts(c.items) && r.total == r.subtotal
    ensures Consistent(c) ==> r == c
  {
    var items := seq(|c.items|, i requires 0 <= i < |c.items| => CalcularSubtotal(c.items[i]));
    SumsAgree(items);
    LineAmountsUnchangedByHook(c.items, items);
    assert Consistent(c) ==> forall i :: 0 <= i < |c.items| ==> items[i] == c.items[i];
    assert Consistent(c) ==> items == c.items;
    CalcularTotales(c.(items := items))
  }

  /** The hook does not change what a line is worth, so recomputing every
      item leaves the sum of line amounts alone. */
  lemma {:induction false} LineAmountsUnchangedByHook(a: seq<ItemCarrito>, b: seq<ItemCarrito>)
    requires |a| == |b|
    requires forall i :: 0 <= i < |a| ==> b[i] == CalcularSubtotal(a[i])
    ensures SumLineAmounts(b) == SumLineAmounts(a)
  {
    if |a| > 0 {
      LineAmountsUnchangedByHook(a[..|a| - 1], b[..|b| - 1]);
    }
  }
}
