/** The purchase list of `VentanaUnificada`: loading one page of purchases with
    their item quantities from a single batch query, the cell helpers it uses,
    and the provider list's labels. Currency and date formatting are
    locale-dependent and are not modelled: rows carry the raw values. */
module PurchaseWindow {
  import opened Common
  import opened ItemStore
  import opened BatchQuantities
  import opened ProviderStore

  datatype FormaPago = Efectivo | Transferencia | Credito

  /** A credit state (`EstadoCredito`), reduced to its display label. */
  datatype EstadoCredito = EstadoCredito(etiqueta: string)

  datatype Fecha = Fecha(anio: int, mes: int, dia: int)

  /** The fields of a purchase (`Compra`) that the list shows. */
  datatype Compra = Compra(
    id: int,
    numeroFactura: string,
    categoria: Option<string>,
    descripcion: Option<string>,
    total: Option<real>,
    fechaCompra: Fecha,
    formaPago: FormaPago,
    estadoCredito: Option<EstadoCredito>,
    fechaPago: Option<Fecha>)

  /** One table row, before currency and date formatting. */
  datatype Fila = Fila(
    numeroFactura: string,
    categoria: string,
    descripcion: string,
    cantidad: int,
    total: real,
    fechaCompra: Fecha,
    formaPago: FormaPago,
    estado: string,
    fechaPago: Option<Fecha>)

  /** `capitalizarCategoria`: `null` or empty gives the empty string; otherwise only
      the first character is upper-cased. */
  function CapitalizarCategoria(categoria: Option<string>): (r: string)
    ensures categoria.None? || categoria.value == [] ==> r == []
    ensures categoria.Some? && categoria.value != [] ==>
      |r| == |categoria.value| && r[0] == UpperAscii(categoria.value[0]) && r[1..] == categoria.value[1..]
  {
    match categoria
    case None => ""
    case Some(c) => if c == [] then "" else [UpperAscii(c[0])] + c[1..]
  }

  /** Capitalising twice is capitalising once. */
  lemma CapitalizarIdempotent(categoria: Option<string>)
    ensures CapitalizarCategoria(Some(CapitalizarCategoria(categoria))) == CapitalizarCategoria(categoria)
  {
  }

  /** `truncarDescripcion`: `null` gives the empty string; a description longer than
      `maxLen` becomes its first `maxLen - 3` characters and `"..."`, exactly `maxLen`
      long; a shorter one is kept. Cutting a longer description with `maxLen < 3`
      makes `substring` throw. */
  function TruncarDescripcion(desc: Option<string>, maxLen: int): (r: string)
    requires desc.Some? && |desc.value| > maxLen ==> maxLen >= 3
    ensures desc.None? ==> r == ""
    ensures desc.Some? ==> |r| <= maxLen
    ensures desc.Some? && |desc.value| <= maxLen ==> r == desc.value
    ensures desc.Some? && |desc.value| > maxLen ==>
      |r| == maxLen && r[..maxLen - 3] == desc.value[..maxLen - 3] && r[maxLen - 3..] == "..."
  {
    match desc
    case None => ""
    case Some(d) => if |d| > maxLen then d[..maxLen - 3] + "..." else d
  }

  /** Truncating a truncated description changes nothing. */
  lemma TruncarIdempotent(desc: Option<string>, maxLen: int)
    requires maxLen >= 0 && (desc.Some? && |desc.value| > maxLen ==> maxLen >= 3)
    ensures TruncarDescripcion(Some(TruncarDescripcion(desc, maxLen)), maxLen) == TruncarDescripcion(desc, maxLen)
  {
  }

  /** `obtenerEstadoDisplay`: a credit purchase shows its credit state's label (empty
      when there is none); any other purchase shows "Pagado" exactly when it has a
      payment date, and "Pendiente" otherwise. */
  function ObtenerEstadoDisplay(c: Compra): (r: string)
    ensures c.formaPago == Credito && c.estadoCredito.Some? ==> r == c.estadoCredito.value.etiqueta
    ensures c.formaPago == Credito && c.estadoCredito.None? ==> r == ""
    ensures c.formaPago != Credito ==> (r == "Pagado" <==> c.fechaPago.Some?)
    ensures c.formaPago != Credito ==> (r == "Pendiente" <==> c.fechaPago.None?)
  {
    if c.formaPago == Credito then
      (if c.estadoCredito.Some? then c.estadoCredito.value.etiqueta else "")
    else
      (if c.fechaPago.Some? then "Pagado" else "Pendiente")
  }

  /** The row `cargarPaginaActual` builds for purchase `c` showing quantity `cantidad`
      (descriptions truncated to 40 characters). `FORMATO_MONEDA.format` rejects a
      `null` total, so a row exists only for a purchase that has one. */
  function FilaDe(c: Compra, cantidad: int): (f: Fila)
    requires c.total.Some?
    ensures f.cantidad == cantidad && f.numeroFactura == c.numeroFactura && f.total == c.total.value
    ensures |f.descripcion| <= 40
  {
    Fila(c.numeroFactura, CapitalizarCategoria(c.categoria), TruncarDescripcion(c.descripcion, 40),
      cantidad, c.total.value, c.fechaCompra, c.formaPago, ObtenerEstadoDisplay(c), c.fechaPago)
  }

  /** How `cargarPaginaActual` ends. `Filas`: every row of the page was added.
      `CapacidadNegativa`: `new ArrayList<>(fin - inicio)` threw
      `IllegalArgumentException` because the page starts past the end of the list.
      `IndiceNegativo`: a negative page made `comprasCompletas.get(inicio)` throw
      `IndexOutOfBoundsException` before any row was added. `TotalNulo`: building the
      row of a purchase without a total threw, leaving the rows added before it. */
  datatype Carga =
    | Filas(filas: seq<Fila>)
    | CapacidadNegativa
    | IndiceNegativo
    | TotalNulo(filas: seq<Fila>)

  /** `cantidades.getOrDefault(id, 0)`. */
  function CantidadMostrada(cantidades: map<int, int>, id: int): int
  {
    if id in cantidades then cantidades[id] else 0
  }

  /** The first loop of `cargarPaginaActual`: the ids of positions `[inicio, fin)`, in order. */
  method IdsDePagina(compras: seq<Compra>, inicio: nat, fin: nat) returns (ids: seq<int>)
    requires inicio <= fin <= |compras|
    ensures |ids| == fin - inicio
    ensures forall j :: 0 <= j < |ids| ==> ids[j] == compras[inicio + j].id
  {
    ids := [];
    for i := inicio to fin
      invariant |ids| == i - inicio
      invariant forall j :: 0 <= j < |ids| ==> ids[j] == compras[inicio + j].id
    {
      ids := ids + [compras[i].id];
    }
  }

  /** The second loop of `cargarPaginaActual`: one row per position from `inicio`, in
      order, showing the batch's quantity or 0 for a purchase the batch did not
      return. It stops (`corte`) at the first purchase without a total, where
      `FORMATO_MONEDA.format(null)` throws, and every purchase before it has one. */
  method FilasDePagina(compras: seq<Compra>, inicio: nat, fin: nat, cantidades: map<int, int>)
    returns (filas: seq<Fila>, corte: bool)
    requires inicio <= fin <= |compras|
    ensures inicio + |filas| <= fin
    ensures corte <==> inicio + |filas| < fin
    ensures corte ==> compras[inicio + |filas|].total.None?
    ensures forall k :: inicio <= k < inicio + |filas| ==> compras[k].total.Some?
    ensures forall j :: 0 <= j < |filas| ==>
      filas[j] == FilaDe(compras[inicio + j], CantidadMostrada(cantidades, compras[inicio + j].id))
  {
    filas := [];
    var i := inicio;
    while i < fin && compras[i].total.Some?
      invariant inicio <= i <= fin && |filas| == i - inicio
      invariant forall k :: inicio <= k < i ==> compras[k].total.Some?
      invariant forall j :: 0 <= j < |filas| ==>
        filas[j] == FilaDe(compras[inicio + j], CantidadMostrada(cantidades, compras[inicio + j].id))
    {
      var c := compras[i];
      filas := filas + [FilaDe(c, CantidadMostrada(cantidades, c.id))];
      i := i + 1;
    }
    corte := i < fin;
  }

  /** A quantity shown from a batch result is the purchase's store total, or 0 when the
      batch failed part-way and did not return it. */
  lemma CantidadMostradaCorrecta(cantidades: map<int, int>, ids: seq<int>, rows: seq<ItemRow>,
                                 fallo: Option<nat>, id: int)
    requires id in ids
    requires forall k :: k in cantidades ==> cantidades[k] == SumFor(rows, k)
    requires fallo.None? ==> forall k :: k in ids && HasItems(rows, k) ==> k in cantidades
    ensures CantidadMostrada(cantidades, id) == SumFor(rows, id)
      || (fallo.Some? && CantidadMostrada(cantidades, id) == 0)
  {
    if id !in cantidades && fallo.None? {
      NoItemsSumZero(rows, id);
    }
  }

  /** The first index of the page at `paginaActual` of `porPagina` rows. */
  function Inicio(paginaActual: int, porPagina: nat): int
  {
    paginaActual * porPagina
  }

  /** The index after the page's last row: `Math.min(inicio + porPagina, n)`. */
  function Fin(paginaActual: int, porPagina: nat, n: nat): (fin: int)
    ensures fin <= n && fin <= Inicio(paginaActual, porPagina) + porPagina
    ensures fin == n || fin == Inicio(paginaActual, porPagina) + porPagina
  {
    var inicio := Inicio(paginaActual, porPagina);
    if inicio + porPagina < n then inicio + porPagina else n
  }

  /** A negative page of a non-empty list is never empty, so the first loop does
      reach `comprasCompletas.get(inicio)` with the negative index. */
  lemma PaginaNegativaLeeIndice(paginaActual: int, porPagina: nat, n: nat)
    requires n > 0 && Inicio(paginaActual, porPagina) < 0
    ensures Inicio(paginaActual, porPagina) < Fin(paginaActual, porPagina, n)
  {
  }

  /** `cargarPaginaActual` for page `paginaActual` of `porPagina` rows
      (`FACTURAS_POR_PAGINA`). An empty list shows no rows. A start past the end and a
      negative page end in the exceptions `Carga` names. Otherwise the ids of indices
      `[inicio, fin)` go to one batch query in list order, and the rows are those
      purchases' rows in list order, up to the first purchase without a total. A
      purchase the batch did not return shows 0: with no store failure every row's
      quantity is its purchase's total; after a failure it is that total or 0. */
  method CargarPaginaActual(comprasCompletas: seq<Compra>, paginaActual: int, porPagina: nat,
                            rows: seq<ItemRow>, fallo: Option<nat>)
    returns (r: Carga, ids: seq<int>)
    ensures comprasCompletas == [] ==> r == Filas([]) && ids == []
    ensures comprasCompletas != [] ==>
      (r.CapacidadNegativa? <==> Inicio(paginaActual, porPagina) > |comprasCompletas|)
    ensures comprasCompletas != [] ==> (r.IndiceNegativo? <==> Inicio(paginaActual, porPagina) < 0)
    ensures r.Filas? || r.TotalNulo? ==>
      var inicio := Inicio(paginaActual, porPagina);
      var fin := Fin(paginaActual, porPagina, |comprasCompletas|);
      && (comprasCompletas == [] || 0 <= inicio <= fin)
      && |ids| == (if comprasCompletas == [] then 0 else fin - inicio)
      && (forall j :: 0 <= j < |ids| ==> ids[j] == comprasCompletas[inicio + j].id)
      && (r.Filas? <==> |r.filas| == |ids|)
      && (r.TotalNulo? ==> |r.filas| < |ids| && comprasCompletas[inicio + |r.filas|].total.None?)
      && (forall j :: 0 <= j < |r.filas| ==>
            && comprasCompletas[inicio + j].total.Some?
            && r.filas[j] == FilaDe(comprasCompletas[inicio + j], r.filas[j].cantidad))
      && (forall j :: 0 <= j < |r.filas| ==>
            r.filas[j].cantidad == SumFor(rows, ids[j]) || (fallo.Some? && r.filas[j].cantidad == 0))
  {
    ids := [];
    if comprasCompletas == [] {
      return Filas([]), ids;
    }
    var inicio := Inicio(paginaActual, porPagina);
    var fin := Fin(paginaActual, porPagina, |comprasCompletas|);
    if fin < inicio {
      return CapacidadNegativa, ids;
    }
    if inicio < 0 {
      return IndiceNegativo, ids;
    }
    ids := IdsDePagina(comprasCompletas, inicio, fin);
    var cantidades := SumarCantidadesPorCompras(ids, rows, fallo);
    var filas, corte := FilasDePagina(comprasCompletas, inicio, fin, cantidades);
    forall j | 0 <= j < |filas|
      ensures filas[j].cantidad == SumFor(rows, ids[j]) || (fallo.Some? && filas[j].cantidad == 0)
    {
      CantidadMostradaCorrecta(cantidades, ids, rows, fallo, ids[j]);
    }
    r := if corte then TotalNulo(filas) else Filas(filas);
  }

  /** The label `actualizarListaProveedores` shows for a provider: its name, then
      its type in brackets when it has one. */
  function EtiquetaProveedor(p: Proveedor): (s: string)
    ensures p.tipo.None? ==> s == p.nombre
    ensures p.tipo.Some? ==> s == p.nombre + " [" + p.tipo.value + "]"
  {
    p.nombre + (if p.tipo.Some? then " [" + p.tipo.value + "]" else "")
  }

  /** `actualizarListaProveedores`: the list model is cleared and refilled with one
      label per provider, in order. */
  method ActualizarListaProveedores(proveedores: seq<Proveedor>) returns (modelo: seq<string>)
    ensures |modelo| == |proveedores|
    ensures forall i :: 0 <= i < |proveedores| ==> modelo[i] == EtiquetaProveedor(proveedores[i])
  {
    modelo := [];
    for i := 0 to |proveedores|
      invariant |modelo| == i
      invariant forall j :: 0 <= j < i ==> modelo[j] == EtiquetaProveedor(proveedores[j])
    {
      modelo := modelo + [EtiquetaProveedor(proveedores[i])];
    }
  }

  /** `FiltrosCompra.Builder.textoBusqueda`: a `null` text becomes empty, any other is trimmed. */
  function TextoBusqueda(texto: Option<string>): (r: string)
    ensures texto.None? ==> r == ""
    ensures texto.Some? ==> r == Trim(texto.value)
    ensures r == [] || (!IsTrimmable(r[0]) && !IsTrimmable(r[|r| - 1]))
  {
    if texto.Some? then Trim(texto.value) else ""
  }
}
