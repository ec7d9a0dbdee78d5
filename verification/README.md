# Shopping-cart aggregate and services, modelled in Dafny

This project models the cart microservice (MS-CARD) of a clothing-store
backend, plus the payment outcome rule of the payment microservice (MS-Pay):

- the line item `ItemCarrito` and its subtotal hook;
- the cart aggregate `Carrito`, with its totals and its append, remove and clear operations;
- the cart service `CarritoService`, where each operation loads, validates, mutates and saves the cart, or throws;
- the catalog lookup `ProductoClientService`, which falls back to a fixed placeholder product when the call fails;
- `PagoService.procesarPago` and `obtenerPagoPorId`.

Everything is immutable data and pure functions:

- Java's nullable references are `Option`.
- Money is `real`, because `BigDecimal` arithmetic here is exact.
- Quantities and stock are Java `int` (`Base.Int32`). Adding to a merged quantity wraps around as Java's `int + int` does.
- The cart store is a map from user id to cart.
- The remote catalog is an oracle: a function giving, for each product id, the outcome of the guarded call. That outcome is an HTTP status with a body that may be null, a network error, or a call the circuit breaker refused.
- Each service exception is a `Result.Err`. Because an error returns no store, nothing a failed call did is kept. That matches the transactional rollback.

Modules: `Base`, `Seqs`, `DecimalText`, `ItemCarritoEntity`,
`CarritoEntity`, `ProductoClient`, `CarritoService`,
`CarritoServiceProperties`, `CarritoExamples`, `PagoService`.

The model follows the code, including these behaviours of it:

- **Totals can be stale.** An item's subtotal is recomputed only by its persistence hooks (`@PrePersist`/`@PreUpdate`). The service computes the cart totals before those hooks run. So the cart it saves and returns sums a new line as 0, and a merged or updated line at its old subtotal.
  - The hooks are the explicit step `CarritoEntity.EjecutarHooks`, which assumes that every item hook runs and that the cart's own hook then runs after them. "Subtotal = Σ price × quantity" is proved for that step's result. Whether the persistence layer actually reaches that state is not modelled (see "Left out").
  - `CarritoExamples` exhibits the stale totals.
- **Quantities need not be positive.** `agregarProducto` has no positivity check: any quantity up to the resolved stock is accepted, including 0 and negatives.
- **Merging skips the cumulative stock check.** It adds to the quantity without re-checking the new total against stock.
- **Placeholder name.** The fallback product is named "Producto no disponible".
- **No breaker state machine.** The circuit breaker exists only as an annotation. There is no breaker logic in the code, so the breaker is represented only by the outcomes it produces.

## Model

| member | source | states |
|---|---|---|
| Base.AddInt32 | MS-CARD/src/main/java/com/necronet/mscard/domain/service/CarritoService.java:57 | The merged quantity is the one 32-bit value congruent to the true sum modulo 2^32. It equals the true sum whenever that fits in an int. |
| Seqs.FirstWhere | MS-CARD/src/main/java/com/necronet/mscard/domain/service/CarritoService.java:48-53 | This is `stream().filter(p).findFirst()`. It returns the index of an element satisfying p, with no satisfying element before it. It returns nothing exactly when no element satisfies p. |
| DecimalText.NatToString | MS-CARD/src/main/java/com/necronet/mscard/domain/service/ProductoClientService.java:62 | The id's decimal text is non-empty, consists of digits only and has no leading zero. |
| DecimalText.LongToString | MS-CARD/src/main/java/com/necronet/mscard/domain/service/ProductoClientService.java:62 | The decimal text of a long: a leading minus exactly for negative values, then digits only, with no leading zero except for "0" itself. |
| DecimalText.ParseLongToString | MS-CARD/src/main/java/com/necronet/mscard/domain/service/ProductoClientService.java:62 | Reading back `Long.toString(n)` gives n, so the text identifies the number. |
| ItemCarritoEntity.NuevoItem | MS-CARD/src/main/java/com/necronet/mscard/domain/entity/ItemCarrito.java:28-32 | A freshly constructed item has unit price 0 and subtotal 0. Its quantity, variant and snapshot fields are null. |
| ItemCarritoEntity.CalcularSubtotal | MS-CARD/src/main/java/com/necronet/mscard/domain/entity/ItemCarrito.java:38-45 | The subtotal is price × quantity, and 0 when the price or the quantity is null. No other field changes. The result is consistent, and the hook leaves an already consistent item unchanged. |
| ItemCarritoEntity.CalcularSubtotalIdempotent | MS-CARD/src/main/java/com/necronet/mscard/domain/entity/ItemCarrito.java:38-45 | Running the subtotal hook twice is the same as running it once. |
| ItemCarritoEntity.LineAmountWithCantidad | MS-CARD/src/main/java/com/necronet/mscard/domain/entity/ItemCarrito.java:42-44 | After a quantity is set, the line is worth the unit price (0 if null) times that quantity. |
| CarritoEntity.NuevoCarrito | MS-CARD/src/main/java/com/necronet/mscard/domain/entity/Carrito.java:22-28 | A new cart has no items and subtotal = total = 0, and it is consistent. |
| CarritoEntity.CalcularTotales | MS-CARD/src/main/java/com/necronet/mscard/domain/entity/Carrito.java:46-52 | The subtotal is the sum of the item subtotals, with null counted as 0, and total = subtotal. The items do not change. Recomputing totals that are already current changes nothing. |
| CarritoEntity.SumOfConcat | MS-CARD/src/main/java/com/necronet/mscard/domain/entity/Carrito.java:48-50 | The `map`/`reduce` fold over a concatenation is the sum of the folds over the two parts, for any per-item value. |
| CarritoEntity.SumSubtotalsRemoveAt | MS-CARD/src/main/java/com/necronet/mscard/domain/entity/Carrito.java:60-63 | Taking one item out lowers the sum of subtotals by exactly that item's subtotal. |
| CarritoEntity.SumsAgree | MS-CARD/src/main/java/com/necronet/mscard/domain/entity/Carrito.java:46-51 | When every item's subtotal is current, the cart's sum of subtotals equals Σ price × quantity. |
| CarritoEntity.QuantityChangeWorth | MS-CARD/src/main/java/com/necronet/mscard/domain/entity/Carrito.java:46-51 | In a consistent cart, changing one line's quantity changes Σ price × quantity by exactly the difference in that line's worth. The line's new worth is its unit price (0 if null) times the new quantity. |
| CarritoEntity.AgregarItem | MS-CARD/src/main/java/com/necronet/mscard/domain/entity/Carrito.java:54-58 | The item is appended with its back-reference set to this cart, and the earlier items are unchanged. The totals are recomputed. If they were current before, the subtotal grows by exactly the new item's subtotal. |
| CarritoEntity.RemoverItem | MS-CARD/src/main/java/com/necronet/mscard/domain/entity/Carrito.java:60-63 | The first item equal to the argument is removed and the others keep their order. An absent item leaves the items unchanged. The totals are recomputed, and the subtotal drops by the removed item's subtotal. |
| CarritoEntity.LimpiarCarrito | MS-CARD/src/main/java/com/necronet/mscard/domain/entity/Carrito.java:65-68 | The items become empty and subtotal = total = 0. The cart stays the same user's and is consistent. |
| CarritoEntity.EjecutarHooks | MS-CARD/src/main/java/com/necronet/mscard/domain/entity/Carrito.java:33-44 | This is the persistence hooks run as one step, in the assumed order: every item hook, then the cart totals. Afterwards every item is consistent, subtotal = total = Σ price × quantity of the items, and an already consistent cart is unchanged. |
| ProductoClient.CreateDefaultProducto | MS-CARD/src/main/java/com/necronet/mscard/domain/service/ProductoClientService.java:58-72 | The placeholder product has the requested id, the name "Producto no disponible" and SKU "ND-" followed by the id. Price, cost and stock are 0. Sizes, colours and specifications are empty, and the image is null. |
| ProductoClient.FallbackProducto | MS-CARD/src/main/java/com/necronet/mscard/domain/service/ProductoClientService.java:53-56 | The fallback is the placeholder for the requested id, whatever the failure was. It has stock 0 and price 0. |
| ProductoClient.FallbackSkuIdentifiesProduct | MS-CARD/src/main/java/com/necronet/mscard/domain/service/ProductoClientService.java:62 | Two fallbacks with the same SKU are for the same product id. |
| ProductoClient.ConsultarProducto | MS-CARD/src/main/java/com/necronet/mscard/domain/service/ProductoClientService.java:28-50 | A 2xx response yields its body, which may be null. Any non-2xx status, network error or refused call yields the placeholder, whose stock is 0. |
| CarritoService.EqualsSafe | MS-CARD/src/main/java/com/necronet/mscard/domain/service/CarritoService.java:188-192 | Null-safe equality is exactly equality of optional strings: two nulls are equal, and null vs non-null is unequal. |
| CarritoService.Coincide | MS-CARD/src/main/java/com/necronet/mscard/domain/service/CarritoService.java:49-51 | An item matches a request exactly when their (productoId, talla, color) keys are equal. |
| CarritoService.CrearCarrito | MS-CARD/src/main/java/com/necronet/mscard/domain/service/CarritoService.java:130-134 | A new empty cart with zero totals is saved under the user's id. |
| CarritoService.ObtenerCarritoPorUsuario | MS-CARD/src/main/java/com/necronet/mscard/domain/service/CarritoService.java:26-34 | Returns the user's existing cart with the store unchanged. Otherwise it creates and saves a new empty cart for that user. No other user's cart changes. |
| CarritoService.CrearItemCarrito | MS-CARD/src/main/java/com/necronet/mscard/domain/service/CarritoService.java:136-147 | The new line takes productoId, quantity, size and colour from the request. It takes name, SKU, price and image from the catalog record. Its subtotal is still 0 and it has no owner yet. |
| CarritoService.Guardar | MS-CARD/src/main/java/com/necronet/mscard/domain/service/CarritoService.java:65 | `carritoRepository.save` (also at lines 96 and 114) always succeeds and returns the cart it was given. The cart is filed under its user, and every other user's cart is unchanged. |
| CarritoService.ValidarProducto | MS-CARD/src/main/java/com/necronet/mscard/domain/service/CarritoService.java:149-154 | Fails with insufficient stock, carrying the available stock, exactly when quantity > stock. A null record or a null stock throws a null-reference error. Otherwise the record passes. |
| CarritoService.AgregarProducto | MS-CARD/src/main/java/com/necronet/mscard/domain/service/CarritoService.java:36-69 | Fails with insufficient stock exactly when the requested quantity exceeds the resolved stock. A null catalog body or a null stock is a null-reference error, raised before any cart is loaded. On success only this user's entry in the store changes, the saved cart's totals match its item subtotals, and the line count grows by at most one. |
| CarritoService.ActualizarCantidad | MS-CARD/src/main/java/com/necronet/mscard/domain/service/CarritoService.java:71-99 | A quantity ≤ 0 fails with invalid-argument before anything else. Then a missing cart or item id fails with not-found. For the first line with that id, a null product or stock is a null-reference error. Otherwise the update fails with insufficient stock, carrying that stock, exactly when the new quantity exceeds it, and succeeds exactly when it does not. On success only this user's entry changes, the line count is unchanged and the totals are recomputed. |
| CarritoService.RemoverProducto | MS-CARD/src/main/java/com/necronet/mscard/domain/service/CarritoService.java:101-117 | Fails with not-found when the user has no cart. Fails with item-not-found exactly when no line has that id. On success the cart has one line fewer and its totals are current. |
| CarritoService.LimpiarCarrito | MS-CARD/src/main/java/com/necronet/mscard/domain/service/CarritoService.java:119-128 | Fails with not-found exactly when the user has no cart. Otherwise that cart ends with no items and zero totals, and every other cart is untouched. |
| CarritoServiceProperties.ObtenerIsIdempotent | MS-CARD/src/main/java/com/necronet/mscard/domain/service/CarritoService.java:30-31 | A second lookup returns the same cart and store: at most one cart per user is created. |
| CarritoServiceProperties.ObtenerPreservesWellFormed | MS-CARD/src/main/java/com/necronet/mscard/domain/service/CarritoService.java:130-134 | Creating a cart keeps the store well formed. Well formed means: each cart is filed under its own user, merge keys and item ids are unique, and every quantity is present. |
| CarritoServiceProperties.AddStockVerdictIgnoresCart | MS-CARD/src/main/java/com/necronet/mscard/domain/service/CarritoService.java:41-45 | The stock rejection does not depend on the store, the user or the new item id, since it happens before the cart is loaded or created. It is the same error whatever the store holds. |
| CarritoServiceProperties.AddFailsDuringOutage | MS-CARD/src/main/java/com/necronet/mscard/domain/service/CarritoService.java:41-42 | When the catalog call fails, every add of at least one unit fails with insufficient stock (available 0). |
| CarritoServiceProperties.AddAcceptsWithinStock | MS-CARD/src/main/java/com/necronet/mscard/domain/service/CarritoService.java:149-152 | Any quantity up to the resolved stock, including zero and negative ones, is accepted by the service's own checks. The database's not-null columns are not modelled (see "Left out"). |
| CarritoServiceProperties.AddMergesIntoFirstMatch | MS-CARD/src/main/java/com/necronet/mscard/domain/service/CarritoService.java:48-57 | When a line with the request's key exists, only the first such line changes: its quantity grows by the requested amount (32-bit). The line count, the other lines and that line's name, SKU and price snapshot are unchanged. |
| CarritoServiceProperties.AddAppendsNewLine | MS-CARD/src/main/java/com/necronet/mscard/domain/service/CarritoService.java:58-61 | When no line matches, the result is the old lines plus exactly one new line, built from the request and the catalog record and attached to the cart. |
| CarritoServiceProperties.AddKeepsKeysUnique | MS-CARD/src/main/java/com/necronet/mscard/domain/service/CarritoService.java:47-62 | If no two lines shared a (productoId, talla, color) key before an add, none do after it. |
| CarritoServiceProperties.AddPreservesWellFormed | MS-CARD/src/main/java/com/necronet/mscard/domain/service/CarritoService.java:36-69 | An add keeps the store well formed, provided the id generated for a new line is unused in that cart. |
| CarritoServiceProperties.UpdateFailsDuringOutage | MS-CARD/src/main/java/com/necronet/mscard/domain/service/CarritoService.java:88-92 | When the catalog call fails, every update that passes the positivity check and finds its item fails with insufficient stock (available 0). |
| CarritoServiceProperties.UpdateStockVerdict | MS-CARD/src/main/java/com/necronet/mscard/domain/service/CarritoService.java:88-94 | For a positive quantity and a found item, a null product or stock is a null-reference error. Otherwise the update fails with insufficient stock, carrying that stock, exactly when the new quantity exceeds it, and succeeds exactly when it does not. |
| CarritoServiceProperties.UpdateSetsOnlyQuantity | MS-CARD/src/main/java/com/necronet/mscard/domain/service/CarritoService.java:83-95 | A successful update checked the new quantity against the stock of the first line with that id. It changed only that line's quantity. |
| CarritoServiceProperties.UpdateThenHooksTotal | MS-CARD/src/main/java/com/necronet/mscard/domain/service/CarritoService.java:94-96 | After the persistence hooks, an update from a consistent cart moves the subtotal by exactly the change in that line's worth. |
| CarritoServiceProperties.UpdatePreservesWellFormed | MS-CARD/src/main/java/com/necronet/mscard/domain/service/CarritoService.java:71-99 | An update keeps the store well formed. |
| CarritoServiceProperties.RemoveTakesOutFoundItem | MS-CARD/src/main/java/com/necronet/mscard/domain/service/CarritoService.java:108-113 | When a line has that id, removal succeeds. It takes out the first line with that id, keeps the others in order and lowers the subtotal by that line's subtotal. |
| CarritoServiceProperties.RemoveKeepsConsistency | MS-CARD/src/main/java/com/necronet/mscard/domain/service/CarritoService.java:113 | Removing a line from a consistent cart leaves it consistent without any hook. |
| CarritoServiceProperties.RemovePreservesWellFormed | MS-CARD/src/main/java/com/necronet/mscard/domain/service/CarritoService.java:101-117 | A removal keeps the store well formed. |
| CarritoServiceProperties.ClearPreservesWellFormed | MS-CARD/src/main/java/com/necronet/mscard/domain/service/CarritoService.java:119-128 | Clearing keeps the store well formed and leaves the user's cart consistent. |
| CarritoExamples.AddReportsStaleSubtotal | MS-CARD/src/main/java/com/necronet/mscard/domain/service/CarritoService.java:58-64 | Adding 2 units at 10 to an empty store saves a cart whose subtotal is 0. After the hooks it is 20. |
| CarritoExamples.MergeReportsStaleSubtotal | MS-CARD/src/main/java/com/necronet/mscard/domain/service/CarritoService.java:55-64 | Merging 1 unit into a line of 2 at 10 makes the quantity 3, but the saved subtotal stays 20. After the hooks it is 30. |
| CarritoExamples.MergeSkipsCumulativeStockCheck | MS-CARD/src/main/java/com/necronet/mscard/domain/service/CarritoService.java:55-57 | With stock 10 and 2 units in the cart, adding 10 more is accepted and the line holds 12. |
| CarritoExamples.MergeQuantityWrapsAround | MS-CARD/src/main/java/com/necronet/mscard/domain/service/CarritoService.java:57 | Two adds of the maximum int quantity leave the line with quantity -2. |
| CarritoExamples.UpdateExample | MS-CARD/src/main/java/com/necronet/mscard/domain/service/CarritoService.java:94-95 | Updating the line to 5 saves a subtotal of 20. After the hooks it is 50. |
| CarritoExamples.RemoveExample | MS-CARD/src/main/java/com/necronet/mscard/domain/service/CarritoService.java:113 | Removing the only line leaves an empty cart with subtotal 0. |
| PagoService.CrearPagoPendiente | MS-Pay/src/main/java/com/app/mspay/domain/service/PagoService.java:31-37 | The first saved payment is PENDIENTE with no reference. Its carritoId, usuarioId, monto and metodoPago are copied from the request. |
| PagoService.SimularPasarelaExterna | MS-Pay/src/main/java/com/app/mspay/domain/service/PagoService.java:62-65 | The simulated gateway approves exactly the positive amounts. |
| PagoService.ProcesarPago | MS-Pay/src/main/java/com/app/mspay/domain/service/PagoService.java:23-54 | The final state is APROBADO exactly when monto > 0, and RECHAZADO otherwise. It is never PENDIENTE or FALLIDO. An approved payment carries the reference and a rejected one has none. The copied fields are the same in both saves. |
| PagoService.ObtenerPagoPorId | MS-Pay/src/main/java/com/app/mspay/domain/service/PagoService.java:56-60 | Fails with not-found exactly when no payment has that id. Otherwise it returns the stored payment. |
| PagoService.ProcesarThenObtener | MS-Pay/src/main/java/com/app/mspay/domain/service/PagoService.java:52-58 | A processed payment is found under its id in its final state. Every other payment lookup is unchanged. |

## Left out

- Circuit breaker internals (closed/open/half-open, failure window, cooldown): only an annotation exists, with no breaker logic in the code. An open breaker appears only as the `LlamadaNoPermitida` outcome.
- The HTTP call, the URL building and the bearer-token propagation: they are I/O. A lookup is represented by its outcome.
- Controllers and the JWT filter: HTTP plumbing with no cart logic.
- Response mapping (`mapToCarritoResponse`, `mapToResponse`) and logging: plain field copying.
- Persistence mechanics: database ids, timestamps, cascade and orphan removal. Item ids and payment ids that the store generates are parameters, as is the random UUID reference. The service functions return the cart as it was handed to `save`. The hooks are the separate step `EjecutarHooks`, because their timing is decided by the persistence layer.
- `BigDecimal` precision and scale (10, 2): amounts are exact reals, never rounded.
- CarritoEntity.EjecutarHooks: assumes that every item's `calcularSubtotal` runs and that the cart's `calcularTotales` runs after them. The cart's `@PreUpdate` fires only when the persistence layer finds the cart row changed. After a merge or an update the recomputed cart subtotal equals the stored one, so in the program the stored cart total can stay stale past the hooks. The model does not decide when the persistence layer flushes or which hooks it fires.
- PagoService.SimularPasarelaExterna: the approval test is exact `monto > 0`. The source converts to `double` first, which this model does not reproduce.
- Null request fields: `CarritoRequest.productoId` and `cantidad`, the update quantity, and `PagoRequest` fields are non-null in the model. In Java a null there makes the call fail. A null quantity throws a NullPointerException when it is unboxed. A null `productoId` reaches the fallback. For a quantity of 1 or more, the fallback's stock of 0 rejects the add. For a quantity of 0 or less, the add builds a new line whose `productoId` is null, and that line violates the not-null `productoId` column at save. A null `PagoRequest` field violates a not-null column at the first save. In memory the model does handle null references for the catalog body, its stock, a merged line's quantity, prices, variants and snapshot fields.
- Not-null column constraints are not modelled. These are `ItemCarrito.precioUnitario` and `cantidad`, and the `Pago` columns. The database enforces them when `save` writes the row. So a catalog record with a null price makes `AgregarProducto` return Ok in the model, with a line whose price is null and whose subtotal is 0. In the program the same add fails at save and the transaction rolls back.
- Item `id` and `productoId` are non-null integers: they are non-null key columns.
- Fields of `ProductoResponse` that the cart never reads, such as the secondary image, category and supplier, are not modelled.
- Concurrency: the per-user serialisation and the shared breaker state. The model is sequential.
- The catalog CRUD service (`ProductoService`), `JsonAttributeHelper` and the supplier client: glue over repositories, Jackson and network calls.
