# Proveedores and purchases: verified model of the quantity cache, provider store, line items and invoice text

APROUD's provider module is a Swing desktop application for recording purchases
from suppliers. This project models its sequential core in Dafny and proves
properties of that model:

- **`CompraService` quantity cache** (`QuantityCache`). It is a `LinkedHashMap`
  in access order that keeps at most 100 purchase-id → total-quantity entries.
  - It is read through with `computeIfAbsent`.
  - An entry is invalidated when its purchase is written.
  - The cache is emptied at logout.
  - The `items_compra` table is an abstract sequence of rows (`ItemStore`).
- **Batch quantities** (`BatchQuantities`). `sumarCantidadesPorCompras` answers
  one `GROUP BY` query for many purchases. It has an empty-input guard and keeps
  the partial result when the driver fails.
- **The purchase window** (`PurchaseWindow`):
  - `cargarPaginaActual`, which slices a page and takes its quantities from one
    batch, showing 0 when a purchase is missing from the batch;
  - the cell helpers `capitalizarCategoria`, `truncarDescripcion` and
    `obtenerEstadoDisplay`;
  - the provider list labels;
  - the `FiltrosCompra.Builder` search-text trim.
- **The search debounce** (`SearchDebounce`). `buscarConDebounce` is a state
  machine over Swing timers, with timer expiry as an explicit event.
- **The in-memory provider store** (`ProviderStore`). `ProveedorDAOImpl` is a
  list plus an id counter. The doc comments of the `ProveedorDAO` interface
  become postconditions of its methods.
- **Line items** (`LineItem`). The `ItemCompra` class keeps its subtotal equal
  to unit price × quantity through its setters.
- **The Markdown invoice** (`InvoiceMarkdown`). `GeneradorFacturaMarkdown`
  builds a seven-column GitHub Flavored Markdown table padded to 25 rows. It
  splits each item code into REF and CÓDIGO at the first `-`.

The shared text helpers are in `Common`. They cover ASCII case mapping, Java's
`contains` and `trim`, and `Integer.toString`.

Java `null` is modelled as `Option`. `BigDecimal` is modelled as `real`, which
is exact. Objects whose fields the source updates in place are Dafny classes:
`CompraService`, `ProveedorDAOImpl`, `ItemCompra` and the search state. Their
methods state the whole new state in terms of specification functions.

## Model

| member | source | states |
|---|---|---|
| `ItemStore.NoItemsSumZero` | CODIGO_OPTIMIZADO_EJEMPLOS.java:154 | A purchase with no item rows sums to 0, so showing 0 for an id the batch did not return is the true total. |
| `ItemStore.SumForAppend` | CODIGO_OPTIMIZADO_EJEMPLOS.java:95-98 | Adding an item row changes only its own purchase's summed quantity, by that row's quantity. |
| `BatchQuantities.ResultSet` | CODIGO_OPTIMIZADO_EJEMPLOS.java:95-98 | The `GROUP BY` result has one row per distinct requested id that has items, no id twice, and each carries that purchase's sum. |
| `BatchQuantities.SumarCantidadesPorCompras` | CODIGO_OPTIMIZADO_EJEMPLOS.java:86-120 | An empty list gives an empty map before any query. Every key is a requested id that has items, mapped to its sum. Without a failure, every requested id with items is present; after an `SQLException` the map read so far is returned. |
| `QuantityCache.Empty` | CODIGO_OPTIMIZADO_EJEMPLOS.java:33-39 | The empty cache satisfies the map's invariant: distinct keys, at most 100, and order and values agree. |
| `QuantityCache.AfterHit` | CODIGO_OPTIMIZADO_EJEMPLOS.java:34 | A hit keeps every value and moves the key to most recently used, keeping the other keys in order. |
| `QuantityCache.AfterMiss` | CODIGO_OPTIMIZADO_EJEMPLOS.java:33-39 | A miss inserts the value as most recently used. When 100 entries are already present, exactly the eldest entry is evicted; otherwise nothing is. |
| `QuantityCache.AfterRemove` | CODIGO_OPTIMIZADO_EJEMPLOS.java:56 | Removal drops only that key; the other entries and their recency are kept. |
| `QuantityCache.EntriesWithinCapacity` | CODIGO_OPTIMIZADO_EJEMPLOS.java:36-38 | The cache never holds more than 100 entries. |
| `QuantityCache.HitSurvivesNextMiss` | CODIGO_OPTIMIZADO_EJEMPLOS.java:34-38 | With access order, a key read just before a miss is not the entry that miss evicts. |
| `QuantityCache.InvalidateAfterAddedRow` | CODIGO_OPTIMIZADO_EJEMPLOS.java:52-59 | When an item row is added and its purchase is removed from the cache, every cached total again equals the store's. |
| `QuantityCache.InvalidateAfterWrite` | CODIGO_OPTIMIZADO_EJEMPLOS.java:52-59 | The same holds for any write confined to one purchase, and that purchase is no longer cached. |
| `QuantityCache.CompraService.constructor` | CODIGO_OPTIMIZADO_EJEMPLOS.java:33-39 | The service starts with an empty, valid cache. |
| `QuantityCache.CompraService.SumarCantidadesDeCompra` | CODIGO_OPTIMIZADO_EJEMPLOS.java:44-47 | On a hit it returns the stored total without reading the store and promotes the key. On a miss it stores the store's total and returns it. When the cache agrees with the store, the answer is the store's total and the cache still agrees. |
| `QuantityCache.CompraService.ActualizarCompraConItems` | CODIGO_OPTIMIZADO_EJEMPLOS.java:52-59 | The purchase's entry is removed, the others are untouched, and the update's result is returned unchanged. |
| `QuantityCache.CompraService.RegistrarCompra` | CODIGO_OPTIMIZADO_EJEMPLOS.java:216-232 | A validation error is returned as is. A successful insert invalidates the new id and reports it in the success message. A failed insert reports the error. Only success touches the cache. |
| `QuantityCache.CompraService.LimpiarCache` | CODIGO_OPTIMIZADO_EJEMPLOS.java:64-66 | The cache is left empty. |
| `QuantityCache.InvalidateThenRead` | CODIGO_OPTIMIZADO_EJEMPLOS.java:44-59 | After a write's invalidation, reading that purchase yields the new store total, not a stale value, and the cache stays coherent. |
| `PurchaseWindow.CapitalizarCategoria` | CODIGO_OPTIMIZADO_EJEMPLOS.java:166-169 | Null or empty gives `""`. Otherwise only the first character is upper-cased and the rest is kept, at the same length. |
| `PurchaseWindow.CapitalizarIdempotent` | CODIGO_OPTIMIZADO_EJEMPLOS.java:166-169 | Capitalising twice is the same as capitalising once. |
| `PurchaseWindow.TruncarDescripcion` | CODIGO_OPTIMIZADO_EJEMPLOS.java:171-174 | Null gives `""`. A text longer than `maxLen` becomes its first `maxLen-3` characters plus `"..."`, exactly `maxLen` long, and cutting it requires `maxLen >= 3`. A shorter text is unchanged. The result is never longer than `maxLen`. |
| `PurchaseWindow.TruncarIdempotent` | CODIGO_OPTIMIZADO_EJEMPLOS.java:171-174 | Truncating an already truncated description changes nothing. |
| `PurchaseWindow.ObtenerEstadoDisplay` | CODIGO_OPTIMIZADO_EJEMPLOS.java:176-181 | A credit purchase shows its credit state's label, or `""` when it has none. Any other purchase shows "Pagado" iff it has a payment date and "Pendiente" iff it has none. |
| `PurchaseWindow.FilaDe` | CODIGO_OPTIMIZADO_EJEMPLOS.java:150-160 | A row exists only for a purchase with a total. It carries the invoice number, the given quantity, that total, and a description of at most 40 characters. |
| `PurchaseWindow.IdsDePagina` | CODIGO_OPTIMIZADO_EJEMPLOS.java:138-141 | The ids collected are those of positions `[inicio, fin)`, in order. |
| `PurchaseWindow.FilasDePagina` | CODIGO_OPTIMIZADO_EJEMPLOS.java:147-162 | One row per position of `[inicio, fin)`, in order, showing the batch quantity or 0. The loop stops exactly at the first purchase whose total is null, and reports that it stopped early. |
| `PurchaseWindow.CantidadMostradaCorrecta` | CODIGO_OPTIMIZADO_EJEMPLOS.java:154 | A quantity shown from the batch is the store total, or 0 only when the batch failed. |
| `PurchaseWindow.Fin` | CODIGO_OPTIMIZADO_EJEMPLOS.java:134-135 | The page end is `min(inicio + N, n)`: at most both, and equal to one of them. |
| `PurchaseWindow.PaginaNegativaLeeIndice` | CODIGO_OPTIMIZADO_EJEMPLOS.java:134-140 | With a non-empty list, a negative page start is below the page end, so the id loop reads `get(inicio)` at a negative index. |
| `PurchaseWindow.CargarPaginaActual` | CODIGO_OPTIMIZADO_EJEMPLOS.java:127-163 | An empty list shows no rows. With a non-empty list, a start past the end is the `IllegalArgumentException` case, and exactly then. A negative start is the `IndexOutOfBoundsException` case, and exactly then. Otherwise the batch ids are those of `[p*N, min(p*N+N, n))`, in order. The rows are those purchases' rows in order, up to the first purchase with a null total, where loading stops with the rows added so far; it completes iff there is none. With no failure every quantity is the purchase's total; after a failure it is that total or 0. |
| `PurchaseWindow.EtiquetaProveedor` | CODIGO_OPTIMIZADO_EJEMPLOS.java:380-381 | The label is the name, followed by ` [tipo]` exactly when a type is set. |
| `PurchaseWindow.ActualizarListaProveedores` | CODIGO_OPTIMIZADO_EJEMPLOS.java:377-383 | The list is rebuilt with one label per provider, in order. |
| `PurchaseWindow.TextoBusqueda` | CODIGO_OPTIMIZADO_EJEMPLOS.java:309-312 | Null gives `""`; any other text is trimmed, so it neither starts nor ends with a character `<= ' '`. |
| `Common.Trim` | CODIGO_OPTIMIZADO_EJEMPLOS.java:310 | Java `trim`: the result is a slice of the input whose cut-off ends consist only of characters `<= ' '`, and it does not begin or end with one. |
| `Common.TrimIdempotent` | CODIGO_OPTIMIZADO_EJEMPLOS.java:310 | Trimming twice is trimming once. |
| `Common.ContainsIff` | src/dao/ProveedorDAOImpl.java:400 | `contains` holds exactly when the text occurs at some position. |
| `Common.ToLower` | src/dao/ProveedorDAOImpl.java:387 | Lower-casing keeps the length and maps each character (ASCII). |
| `Common.IntToString` | CODIGO_OPTIMIZADO_EJEMPLOS.java:228 | The decimal text of an int: non-empty, only digits and a leading `-` exactly for negatives. |
| `Common.NatToStringValue` | CODIGO_OPTIMIZADO_EJEMPLOS.java:228 | The digits written denote exactly the number. |
| `SearchDebounce.Inicial` | CODIGO_OPTIMIZADO_EJEMPLOS.java:192 | Before any keystroke no timer exists, `searchTimer` is null, nothing was filtered, and the invariant holds. |
| `SearchDebounce.Buscar` | CODIGO_OPTIMIZADO_EJEMPLOS.java:202-210 | Every earlier timer is stopped. One new timer (300 ms, non-repeating, running) is armed and becomes `searchTimer`. Nothing is filtered, and the invariant "only `searchTimer` may run" is kept. |
| `SearchDebounce.Vencer` | CODIGO_OPTIMIZADO_EJEMPLOS.java:207-208 | A running timer's expiry runs `filtrarProveedores` once and, being one-shot, stops it. Expiry of a stopped timer does nothing. |
| `SearchDebounce.Rafaga` | CODIGO_OPTIMIZADO_EJEMPLOS.java:194-199 | A burst of `n` document events. |
| `SearchDebounce.SoloDisparaElUltimo` | CODIGO_OPTIMIZADO_EJEMPLOS.java:203-205 | A timer replaced by a later keystroke never fires. |
| `SearchDebounce.UnDisparoPorPausa` | CODIGO_OPTIMIZADO_EJEMPLOS.java:202-210 | Between two keystrokes, `filtrarProveedores` runs at most once, and only from the latest timer, whatever expiries arrive. |
| `SearchDebounce.SinTeclas` | CODIGO_OPTIMIZADO_EJEMPLOS.java:207-209 | While no keystroke arrives, only the armed timer can fire, and only once. |
| `SearchDebounce.RafagaDisparaUnaVez` | CODIGO_OPTIMIZADO_EJEMPLOS.java:202-210 | A burst of `n >= 1` calls followed by any expiries filters at most once, from the last call's timer. |
| `SearchDebounce.BusquedaProveedores.constructor` | CODIGO_OPTIMIZADO_EJEMPLOS.java:192 | The search state starts with no timer. |
| `SearchDebounce.BusquedaProveedores.BuscarConDebounce` | CODIGO_OPTIMIZADO_EJEMPLOS.java:202-210 | The fields change exactly as `Buscar` says, keeping the invariant. |
| `SearchDebounce.BusquedaProveedores.AlVencer` | CODIGO_OPTIMIZADO_EJEMPLOS.java:207-208 | The fields change exactly as `Vencer` says, keeping the invariant. |
| `ProviderStore.NuevoProveedor` | src/dao/ProveedorDAOImpl.java:134-141 | A sample provider before insertion has id 0 and no type, with the given name, NIT and activity. |
| `ProviderStore.Filtrar` | src/dao/ProveedorDAOImpl.java:364 | Filtering never lengthens the list. |
| `ProviderStore.FiltrarMiembros` | src/dao/ProveedorDAOImpl.java:390-428 | The filtered list holds exactly the providers of the list that meet the criterion. |
| `ProviderStore.FiltrarAppend` | src/dao/ProveedorDAOImpl.java:390-404 | Filtering keeps list order: one more provider adds at most itself, at the end. |
| `ProviderStore.NombreContieneEjemplo` | src/dao/ProveedorDAO.java:192-193 | "distri" matches "Distribuidora ABC": the search is partial and case-insensitive. |
| `ProviderStore.Primero` | src/dao/ProveedorDAOImpl.java:246-256 | The first index meeting the criterion, or none exactly when no provider meets it. |
| `ProviderStore.Buscar` | src/dao/ProveedorDAOImpl.java:440-459 | The first provider meeting the criterion, or `null` exactly when none does. |
| `ProviderStore.IdsUnique` | src/dao/ProveedorDAO.java:113-114 | In a store that keeps its invariant, no two providers share an id. |
| `ProviderStore.FiltrarAcotado` | src/dao/ProveedorDAOImpl.java:364 | Filtering keeps every id within the bounds the list's ids were in. |
| `ProviderStore.FiltrarKeepsIds` | src/dao/ProveedorDAOImpl.java:364 | Removing providers keeps ids strictly increasing and bounded by the counter. |
| `ProviderStore.Reemplazar` | src/dao/ProveedorDAOImpl.java:303-320 | Replacement keeps the length. When some provider has the id, the first such provider becomes `p` and every other position is kept. When none has it, nothing changes. |
| `ProviderStore.ReemplazarKeepsIds` | src/dao/ProveedorDAOImpl.java:303-320 | Replacing a provider by one with the same id keeps the invariant. |
| `ProviderStore.ProveedorDAOImpl.constructor` | src/dao/ProveedorDAOImpl.java:105-164 | The store is seeded with the three sample providers, with ids 1, 2 and 3. Only the third is inactive, and the counter is 3. |
| `ProviderStore.ProveedorDAOImpl.Insertar` | src/dao/ProveedorDAOImpl.java:188-225 | The counter is incremented and becomes the new id, larger than every existing id. The provider is appended and `true` returned. A null provider still moves the counter and gives `false`. |
| `ProviderStore.ProveedorDAOImpl.ObtenerPorId` | src/dao/ProveedorDAOImpl.java:235-257 | The first provider with the id, or `null` exactly when none has it. |
| `ProviderStore.ProveedorDAOImpl.ObtenerTodos` | src/dao/ProveedorDAOImpl.java:267-281 | All providers, in order. |
| `ProviderStore.ProveedorDAOImpl.Actualizar` | src/dao/ProveedorDAOImpl.java:290-330 | The first provider with the same id is replaced and `true` returned. With no match, or a null provider, the list is unchanged and the answer is `false`. The length and the counter are kept. |
| `ProviderStore.ProveedorDAOImpl.Eliminar` | src/dao/ProveedorDAOImpl.java:339-371 | Every provider with the id is removed and the rest stay in order. The answer is `true` iff one existed. The counter is kept, so ids are never reused. |
| `ProviderStore.ProveedorDAOImpl.BuscarPorNombre` | src/dao/ProveedorDAOImpl.java:381-407 | In list order, exactly the providers whose lower-cased name contains the lower-cased text. |
| `ProviderStore.ProveedorDAOImpl.ObtenerActivos` | src/dao/ProveedorDAOImpl.java:416-429 | In list order, exactly the active providers. |
| `ProviderStore.ProveedorDAOImpl.BuscarPorNit` | src/dao/ProveedorDAOImpl.java:438-460 | The first provider with an equal NIT, or `null` exactly when none has it. |
| `ProviderStore.ProveedorDAOImpl.ContarProveedores` | src/dao/ProveedorDAOImpl.java:474-477 | The number of providers. |
| `ProviderStore.ProveedorDAOImpl.ExisteNit` | src/dao/ProveedorDAOImpl.java:487-490 | True iff `buscarPorNit` finds a provider, i.e. iff some provider has that NIT. |
| `LineItem.SubtotalCalculado` | src/modelo/ItemCompra.java:105-111 | Price × quantity when there is a price and the quantity is positive; 0 otherwise. |
| `LineItem.SubtotalNoNegativo` | src/modelo/ItemCompra.java:105-111 | A non-negative price never gives a negative subtotal through the recalculation. |
| `LineItem.ItemCompra.constructor` | src/modelo/ItemCompra.java:21-26 | Quantity 1, price 0, subtotal 0, position 0, and the subtotal is consistent. |
| `LineItem.ItemCompra.Con` | src/modelo/ItemCompra.java:28-35 | The subtotal is price × quantity with no positivity check, so the item is consistent exactly when the quantity is positive or that product is 0. |
| `LineItem.ItemCompra.RecalcularSubtotal` | src/modelo/ItemCompra.java:105-115 | Only the subtotal changes, to the recomputed value. It is idempotent: on a consistent item it changes nothing. |
| `LineItem.ItemCompra.SetCantidad` | src/modelo/ItemCompra.java:58-61 | The quantity is set and the subtotal recomputed; the other fields are kept. |
| `LineItem.ItemCompra.SetPrecioUnitario` | src/modelo/ItemCompra.java:83-86 | The price (possibly null) is set and the subtotal recomputed; the other fields are kept. |
| `LineItem.ItemCompra.SetSubtotal` | src/modelo/ItemCompra.java:92-94 | The subtotal is overridden without recomputation. |
| `LineItem.ItemCompra.SetDescripcion` | src/modelo/ItemCompra.java:67-69 | Only the description changes; the subtotal is kept. |
| `LineItem.ItemCompra.SetCodigo` | src/modelo/ItemCompra.java:75-77 | Only the code changes; the subtotal is kept. |
| `LineItem.ItemCompra.SetOrden` | src/modelo/ItemCompra.java:100-102 | Only the position changes; the subtotal is kept. |
| `InvoiceMarkdown.FormatearMoneda` | src/util/GeneradorFacturaMarkdown.java:132-135 | Null is `"$0"`; any other amount goes to the currency formatter. |
| `InvoiceMarkdown.Texto` | src/util/GeneradorFacturaMarkdown.java:60 | A null description is written as `"null"`. |
| `InvoiceMarkdown.PrimerGuion` | src/util/GeneradorFacturaMarkdown.java:50-51 | The position of the first `-`, with none before it, or the length when there is none. |
| `InvoiceMarkdown.DividirCodigo` | src/util/GeneradorFacturaMarkdown.java:46-57 | A null or empty code gives REF `"-"` and CÓDIGO `"-"`. A code without `-` gives REF `"-"` and CÓDIGO the code. |
| `InvoiceMarkdown.DividirCodigoRecompone` | src/util/GeneradorFacturaMarkdown.java:50-53 | A code with `-` is split at its first `-`: REF + `-` + CÓDIGO is the code, REF has no `-`, and either part may be empty. |
| `InvoiceMarkdown.Vista` | src/util/GeneradorFacturaMarkdown.java:59-64 | The invoice reads quantity, description, code, price and subtotal from an item. |
| `InvoiceMarkdown.Vistas` | src/util/GeneradorFacturaMarkdown.java:44 | The items are read in list order, one view each. |
| `InvoiceMarkdown.CeldasItem` | src/util/GeneradorFacturaMarkdown.java:59-65 | An item row has seven cells: quantity, description, REF, CÓDIGO, price, subtotal and `"0"`. |
| `InvoiceMarkdown.FilaItemBordes` | src/util/GeneradorFacturaMarkdown.java:59-65 | Every item row starts with `"| "` and the quantity, and ends with a MÍNIMO cell `"0"`, i.e. `" \| 0 \|"` and a newline. |
| `InvoiceMarkdown.Vacias` | src/util/GeneradorFacturaMarkdown.java:70-72 | `n` blank rows. |
| `InvoiceMarkdown.FilasItems` | src/util/GeneradorFacturaMarkdown.java:44-66 | One row per item, in list order. |
| `InvoiceMarkdown.Relleno` | src/util/GeneradorFacturaMarkdown.java:69-70 | Items plus padding rows make 25, or the item count when that is larger. |
| `InvoiceMarkdown.FilasTabla` | src/util/GeneradorFacturaMarkdown.java:43-78 | With `n >= 1` items, the table is the `n` item rows in order followed by `max(0, 25-n)` blank rows. With null or no items it is exactly 25 blank rows. |
| `InvoiceMarkdown.PlantillaSinItems` | src/util/GeneradorFacturaMarkdown.java:111-119 | The template's table is the table of an invoice without items: exactly 25 blank rows between the header and the total, whether the list is null or empty. |
| `InvoiceMarkdown.BarrasFila` | src/util/GeneradorFacturaMarkdown.java:39-40 | A row of `k` cells without `\|` has `k+1` delimiters, i.e. `k` GFM columns. |
| `InvoiceMarkdown.FilaItemSieteColumnas` | src/util/GeneradorFacturaMarkdown.java:59-65 | An item row whose texts contain no `\|` has 8 delimiters, the header's seven columns. |
| `InvoiceMarkdown.AnexarItems` | src/util/GeneradorFacturaMarkdown.java:44-66 | The item loop appends exactly the item rows, in order. |
| `InvoiceMarkdown.AnexarVacias` | src/util/GeneradorFacturaMarkdown.java:69-72 | The padding loop appends `n` blank rows, or none when `n <= 0`. |
| `InvoiceMarkdown.AnexarFilasConItems` | src/util/GeneradorFacturaMarkdown.java:43-72 | With items, the rows appended are the item rows then the padding, which is `FilasTabla` of the items. |
| `InvoiceMarkdown.AnexarTabla` | src/util/GeneradorFacturaMarkdown.java:43-78 | The table body appended is `FilasTabla` of the items. |
| `InvoiceMarkdown.PieTerminaEnTotal` | src/util/GeneradorFacturaMarkdown.java:80-83 | Any text followed by the footer ends with the line `**TOTAL:** ` + the formatted total. |
| `InvoiceMarkdown.FacturaTerminaEnTotal` | src/util/GeneradorFacturaMarkdown.java:80-83 | An invoice ends with its TOTAL line, and an invoice whose total is null ends with `**TOTAL:** $0`. |
| `InvoiceMarkdown.GenerarFactura` | src/util/GeneradorFacturaMarkdown.java:23-95 | The text is the header, the table of `FilasTabla` and the total. A null total ends the text with `**TOTAL:** $0`. The message is `"Factura generada exitosamente: "` + path on success and `"Error al generar factura: "` + the I/O message on failure. |
| `InvoiceMarkdown.GenerarPlantillaVacia` | src/util/GeneradorFacturaMarkdown.java:100-130 | The text is the blank header, exactly 25 blank rows and the blank total. The message is `"Plantilla generada exitosamente: "` + path or `"Error al generar plantilla: "` + the I/O message. |

## Left out

- Concurrency:
  - the `Collections.synchronizedMap` locking is not modelled, and the cache is modelled sequentially;
  - single-flight `computeIfAbsent` under concurrent callers is not modelled;
  - the `SwingWorker` background loading is not modelled.
- The batch does not consult or fill the cache, and it swallows an `SQLException`, returning the partial map; the model follows the code here. A design where the batch resolves only cache misses, populates the cache and surfaces a store-unavailable error is not what the code does.
- SQL text, placeholder construction, JDBC binding, the HikariCP pool and the SQL index comments are not modelled. The store is an abstract sequence of `(id_compra, cantidad)` rows.
- The `GROUP BY` result order is not specified by SQL, and `ResultSet` fixes one order. Without a failure the map built from it does not depend on that order. After a failure, which ids the partial map holds depends on the order the rows arrived in.
- The Swing `Timer` clock is not modelled. An expiry is an explicit event that may arrive at any time.
- Locale-dependent formatting is not modelled:
  - `FORMATO_MONEDA`, `FORMATO_FECHA` and `String.format("$%,.0f")` are function parameters, or the rows keep raw values;
  - `FormaPago.getEtiqueta` is shown as the enum value.
- Case mapping covers ASCII only; Unicode `toUpperCase`/`toLowerCase` are not modelled.
- Java `int` overflow is not modelled: `contadorId++`, `paginaActual * FACTURAS_POR_PAGINA` and the quantity sums are unbounded integers.
- The model does not capture aliasing: providers are values, so a `Proveedor` object changed by a caller after `insertar` or `actualizar` is not seen changing inside the list.
- `ProveedorDAO` is not a separate interface type. Its documented promises are postconditions of the `ProveedorDAOImpl` methods.
- `ProviderStore.ProveedorDAOImpl.BuscarPorNit`: the interface says a NIT is unique; the store does not enforce that, and the model returns the first match as the code does.
- `CompraService.obtenerCantidadesBatch` is a direct call of `sumarCantidadesPorCompras` and has no member of its own.
- A `null` id list given to `sumarCantidadesPorCompras` is treated like an empty one, as the code does, and is represented by the empty sequence.
- `QuantityCache.CompraService.RegistrarCompra`: the validation and the DAO insert are inputs, as the validation message and the success flag; the id the DAO assigns is an input too.
- `QuantityCache.CompraService.ActualizarCompraConItems`: only the invalidation is modelled. The elided update code is represented by the result string it produces.
- The other `FiltrosCompra.Builder` setters are plain field copies and are not modelled.
- `modelo.Proveedor`, `modelo.Compra` and `modelo.EstadoCredito` are not part of this model. Only the fields the core reads are given, assuming `new Proveedor()` leaves the id at 0 and the type unset.
- Trivial accessors are not modelled: the getters, `ItemCompra.setId` and `ItemCompra.setIdCompra`.
- A null total is modelled: the window stops at it (`TotalNulo`) and the invoice writes `$0`. Exceptions other than those handled are not modelled: a null `Compra` date or payment method, a null `Proveedor`, or a null `precioUnitario` in the four-argument constructor. The argument types exclude them.
- `PurchaseWindow.TruncarDescripcion` requires `maxLen >= 3` only when it cuts, i.e. when the text is longer than `maxLen`; that cut with a smaller `maxLen` makes `substring` throw, which is not modelled as a result. The window always passes 40.
- `PurchaseWindow.TruncarDescripcion`: lengths count Dafny characters (Unicode scalar values), not Java's UTF-16 code units. A text with characters outside the Basic Multilingual Plane is therefore cut at a different place: 30 emoji have Java length 60 and are cut, but are kept here.
- The `FileWriter` write is not modelled. Its outcome is an input: `None` for success, or the `IOException` message.
