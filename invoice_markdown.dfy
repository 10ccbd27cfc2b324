/** `util.GeneradorFacturaMarkdown`: the Markdown invoice of a purchase and the
    blank invoice template, each a GitHub Flavored Markdown table of seven
    columns padded to 25 rows. Number and date formatting depend on the locale
    and are parameters (`fmtMoneda` is `String.format("$%,.0f", v)`, `fmtFecha`
    is the `dd/MM/yyyy` formatter); the file write is an outcome parameter. */
module InvoiceMarkdown {
  import opened Common
  import opened LineItem
  import opened ProviderStore
  import opened PurchaseWindow

  /** Rows the table is padded to. */
  const FilasMinimas: nat := 25

  const Titulo: string := "# FACTURA / REGISTRO DE COMPRAS\n\n---\n\n"
  const CabeceraTabla: string := "| CANTIDAD | DESCRIPCIÓN | REF | CÓDIGO | COSTO | TOTAL | MÍNIMO |\n"
  const AlineacionTabla: string := "|:--------:|:------------|:---:|:------:|:-----:|:-----:|:------:|\n"
  const FilaVacia: string := "|          |             |     |        |       |       |        |\n"

  /** `formatearMoneda`: `null` is "$0"; any other amount goes to the formatter. */
  function FormatearMoneda(valor: Option<real>, fmtMoneda: real -> string): (s: string)
    ensures valor.None? ==> s == "$0"
    ensures valor.Some? ==> s == fmtMoneda(valor.value)
  {
    if valor.None? then "$0" else fmtMoneda(valor.value)
  }

  /** `StringBuilder.append(String)`: a `null` string is written as "null". */
  function Texto(s: Option<string>): (r: string)
    ensures s.Some? ==> r == s.value
    ensures s.None? ==> r == "null"
  {
    if s.Some? then s.value else "null"
  }

  /** The position of the first '-' in `s`, or `|s|` when there is none. */
  function PrimerGuion(s: string): (i: nat)
    ensures i <= |s|
    ensures i < |s| ==> s[i] == '-'
    ensures forall j :: 0 <= j < i ==> s[j] != '-'
  {
    if s == [] then 0
    else if s[0] == '-' then 0
    else 1 + PrimerGuion(s[1..])
  }

  /** REF and CÓDIGO of an item: `null` or empty gives ("-", "-"); a code with no
      '-' is all CÓDIGO; otherwise `split("-", 2)` cuts at the first '-', and
      either side may be empty. */
  function DividirCodigo(codigo: Option<string>): (partes: (string, string))
    ensures codigo.None? || codigo.value == [] ==> partes == ("-", "-")
    ensures codigo.Some? && codigo.value != [] && '-' !in codigo.value ==> partes == ("-", codigo.value)
  {
    if codigo.None? || codigo.value == [] then ("-", "-")
    else
      var c := codigo.value;
      var i := PrimerGuion(c);
      if i == |c| then ("-", c) else (c[..i], c[i + 1..])
  }

  /** A code containing '-' is recovered as REF + "-" + CÓDIGO, with no '-' in REF:
      the split is at the first '-' and loses nothing. */
  lemma DividirCodigoRecompone(codigo: string)
    requires '-' in codigo
    ensures var (ref, cod) := DividirCodigo(Some(codigo));
      ref + "-" + cod == codigo && '-' !in ref
  {
    var i := PrimerGuion(codigo);
    assert codigo == codigo[..i] + [codigo[i]] + codigo[i + 1..];
  }

  /** What the invoice reads from an `ItemCompra`. */
  datatype ItemVista = ItemVista(cantidad: int, descripcion: Option<string>, codigo: Option<string>,
                                 precioUnitario: Option<real>, subtotal: Option<real>)

  function Vista(item: ItemCompra): (v: ItemVista)
    reads item
    ensures v.cantidad == item.cantidad && v.codigo == item.codigo && v.subtotal == item.subtotal
    ensures v.descripcion == item.descripcion && v.precioUnitario == item.precioUnitario
  {
    ItemVista(item.cantidad, item.descripcion, item.codigo, item.precioUnitario, item.subtotal)
  }

  /** The items' views, in list order. */
  function Vistas(items: seq<ItemCompra>): (vs: seq<ItemVista>)
    reads items
    ensures |vs| == |items|
    ensures forall i :: 0 <= i < |items| ==> vs[i] == Vista(items[i])
  {
    if items == [] then [] else Vistas(items[..|items| - 1]) + [Vista(items[|items| - 1])]
  }

  /** The cells joined by " | ". */
  function Celdas(celdas: seq<string>): string
    requires celdas != []
  {
    if |celdas| == 1 then celdas[0] else Celdas(celdas[..|celdas| - 1]) + " | " + celdas[|celdas| - 1]
  }

  /** A table row: its cells between a leading "| " and a trailing " |", one line. */
  function FilaTabla(celdas: seq<string>): string
    requires celdas != []
  {
    "| " + Celdas(celdas) + " |\n"
  }

  /** The cells of one item's row: quantity, description, REF, CÓDIGO, unit price,
      subtotal, and the MÍNIMO column, which is always "0". */
  function CeldasItem(v: ItemVista, fmtMoneda: real -> string): (celdas: seq<string>)
    ensures |celdas| == 7 && celdas[0] == IntToString(v.cantidad) && celdas[1] == Texto(v.descripcion)
    ensures (celdas[2], celdas[3]) == DividirCodigo(v.codigo)
    ensures celdas[4] == FormatearMoneda(v.precioUnitario, fmtMoneda)
    ensures celdas[5] == FormatearMoneda(v.subtotal, fmtMoneda)
    ensures celdas[6] == "0"
  {
    var (ref, cod) := DividirCodigo(v.codigo);
    [IntToString(v.cantidad), Texto(v.descripcion), ref, cod,
     FormatearMoneda(v.precioUnitario, fmtMoneda), FormatearMoneda(v.subtotal, fmtMoneda), "0"]
  }

  /** The table row of one item. */
  function FilaItem(v: ItemVista, fmtMoneda: real -> string): string
  {
    FilaTabla(CeldasItem(v, fmtMoneda))
  }

  /** The joined cells begin with the first cell and end with the last. */
  lemma {:induction false} CeldasBordes(celdas: seq<string>)
    requires celdas != []
    ensures var t := Celdas(celdas);
      && |celdas[0]| <= |t| && t[..|celdas[0]|] == celdas[0]
      && |celdas[|celdas| - 1]| <= |t| && t[|t| - |celdas[|celdas| - 1]|..] == celdas[|celdas| - 1]
    decreases |celdas|
  {
    if |celdas| > 1 {
      var init := celdas[..|celdas| - 1];
      CeldasBordes(init);
      assert init[0] == celdas[0];
      var t := Celdas(init) + " | " + celdas[|celdas| - 1];
      assert t[..|celdas[0]|] == Celdas(init)[..|celdas[0]|];
    }
  }

  /** Every item row begins with its quantity and ends with a MÍNIMO of "0". */
  lemma FilaItemBordes(v: ItemVista, fmtMoneda: real -> string)
    ensures var fila := FilaItem(v, fmtMoneda);
      && 2 + |IntToString(v.cantidad)| <= |fila|
      && fila[..2 + |IntToString(v.cantidad)|] == "| " + IntToString(v.cantidad)
      && |fila| >= 7 && fila[|fila| - 7..] == " | 0 |\n"
  {
    var c := CeldasItem(v, fmtMoneda);
    CeldasBordes(c);
    var n := IntToString(v.cantidad);
    var t := Celdas(c);
    var fila := "| " + t + " |\n";
    assert fila[..2 + |n|] == "| " + t[..|n|];
    assert t == Celdas(c[..6]) + " | " + "0";
    assert fila[|fila| - 7..] == " | 0 |\n";
  }

  /** `n` blank rows. */
  function Vacias(n: nat): (filas: seq<string>)
    ensures |filas| == n && forall i :: 0 <= i < n ==> filas[i] == FilaVacia
  {
    seq(n, _ => FilaVacia)
  }

  /** The item rows, in list order. */
  function FilasItems(vs: seq<ItemVista>, fmtMoneda: real -> string): (filas: seq<string>)
    ensures |filas| == |vs|
    ensures forall i :: 0 <= i < |vs| ==> filas[i] == FilaItem(vs[i], fmtMoneda)
  {
    if vs == [] then [] else FilasItems(vs[..|vs| - 1], fmtMoneda) + [FilaItem(vs[|vs| - 1], fmtMoneda)]
  }

  /** The number of blank rows after `n` items: `25 - n`, and none once that is not positive. */
  function Relleno(n: nat): (k: nat)
    ensures n + k == (if n < FilasMinimas then FilasMinimas else n)
  {
    if n < FilasMinimas then FilasMinimas - n else 0
  }

  /** The rows of the invoice table: with `n >= 1` items, the `n` item rows in order
      then blank rows up to 25 (none when `n >= 25`); with `null` or no items, 25
      blank rows. */
  function FilasTabla(items: Option<seq<ItemVista>>, fmtMoneda: real -> string): (filas: seq<string>)
    ensures items.None? || items.value == [] ==> filas == Vacias(FilasMinimas)
    ensures items.Some? && items.value != [] ==>
      && |filas| == (if |items.value| < FilasMinimas then FilasMinimas else |items.value|)
      && (forall i :: 0 <= i < |items.value| ==> filas[i] == FilaItem(items.value[i], fmtMoneda))
      && (forall i :: |items.value| <= i < |filas| ==> filas[i] == FilaVacia)
  {
    if items.None? || items.value == [] then Vacias(FilasMinimas)
    else FilasItems(items.value, fmtMoneda) + Vacias(Relleno(|items.value|))
  }

  /** The lines joined, as the `StringBuilder` appends them. */
  function Concat(lineas: seq<string>): (s: string)
    ensures lineas == [] ==> s == []
  {
    if lineas == [] then [] else Concat(lineas[..|lineas| - 1]) + lineas[|lineas| - 1]
  }

  /** Appending one line extends the joined text by that line. */
  lemma ConcatAppend(lineas: seq<string>, l: string)
    ensures Concat(lineas + [l]) == Concat(lineas) + l
  {
    assert (lineas + [l])[..|lineas|] == lineas;
  }

  /** Joining two runs of lines joins their texts. */
  lemma {:induction false} ConcatSplit(a: seq<string>, b: seq<string>)
    ensures Concat(a + b) == Concat(a) + Concat(b)
    decreases |b|
  {
    if b != [] {
      var b' := b[..|b| - 1];
      var l := b[|b| - 1];
      assert a + b == (a + b') + [l];
      assert b == b' + [l];
      ConcatAppend(a + b', l);
      ConcatAppend(b', l);
      ConcatSplit(a, b');
    } else {
      assert a + b == a;
    }
  }

  /** The text up to and including the table header of an invoice. */
  function Encabezado(nombreProveedor: string, fecha: string, numeroFactura: string): string
  {
    Titulo
      + "**PROVEEDOR:** " + nombreProveedor + "\n\n"
      + "**FECHA:** " + fecha + "\n\n"
      + "**No. FACTURA:** " + numeroFactura + "\n\n"
      + "---\n\n"
      + "## Detalle de Productos\n\n"
      + CabeceraTabla + AlineacionTabla
  }

  /** The text after the table of an invoice. */
  function Pie(total: string): string
  {
    "\n---\n\n" + "**TOTAL:** " + total + "\n"
  }

  /** The whole invoice text, as `generarFactura` builds it before writing. */
  function Factura(compra: Compra, proveedor: Proveedor, items: Option<seq<ItemVista>>,
                   fmtFecha: Fecha -> string, fmtMoneda: real -> string): string
  {
    Encabezado(proveedor.nombre, fmtFecha(compra.fechaCompra), compra.numeroFactura)
      + Concat(FilasTabla(items, fmtMoneda))
      + Pie(FormatearMoneda(compra.total, fmtMoneda))
  }

  /** The last line of an invoice whose total is `null`. */
  const TotalCero: string := "**TOTAL:** $0\n"

  /** `s` ends with `t`. */
  predicate TerminaEn(s: string, t: string)
  {
    |t| <= |s| && s[|s| - |t|..] == t
  }

  /** A text with `t` appended ends with `t`. */
  lemma TerminaEnAnexo(x: string, t: string)
    ensures TerminaEn(x + t, t)
  {
    assert (x + t)[|x|..] == t;
  }

  /** Text followed by the footer ends with the TOTAL line. */
  lemma PieTerminaEnTotal(x: string, total: string)
    ensures TerminaEn(x + Pie(total), "**TOTAL:** " + total + "\n")
  {
    var t := "**TOTAL:** " + total + "\n";
    Reagrupar("\n---\n\n" + "**TOTAL:** ", total, "\n");
    Reagrupar("\n---\n\n", "**TOTAL:** ", total + "\n");
    Reagrupar("**TOTAL:** ", total, "\n");
    assert Pie(total) == "\n---\n\n" + t;
    Reagrupar(x, "\n---\n\n", t);
    TerminaEnAnexo(x + "\n---\n\n", t);
  }

  /** An invoice ends with its TOTAL line, and a `null` total is written as `$0`. */
  lemma FacturaTerminaEnTotal(compra: Compra, proveedor: Proveedor, items: Option<seq<ItemVista>>,
                              fmtFecha: Fecha -> string, fmtMoneda: real -> string)
    ensures TerminaEn(Factura(compra, proveedor, items, fmtFecha, fmtMoneda),
                      "**TOTAL:** " + FormatearMoneda(compra.total, fmtMoneda) + "\n")
    ensures compra.total.None? ==> TerminaEn(Factura(compra, proveedor, items, fmtFecha, fmtMoneda), TotalCero)
  {
    var cabeza := Encabezado(proveedor.nombre, fmtFecha(compra.fechaCompra), compra.numeroFactura)
      + Concat(FilasTabla(items, fmtMoneda));
    PieTerminaEnTotal(cabeza, FormatearMoneda(compra.total, fmtMoneda));
  }

  const Linea: string := "_____________________________________________________________________________"

  /** The template's text up to and including the table header, with blank fields. */
  function EncabezadoPlantilla(): string
  {
    Titulo
      + "**PROVEEDOR:** " + Linea + "\n\n"
      + "**FECHA:** _____ / _____ / _________\n\n"
      + "**No. FACTURA:** " + Linea + "\n\n"
      + "---\n\n"
      + "## Detalle de Productos\n\n"
      + CabeceraTabla + AlineacionTabla
  }

  /** The template's text after the table, with a blank total. */
  function PiePlantilla(): string
  {
    "\n---\n\n" + "**TOTAL:** " + Linea + "\n"
  }

  /** The template: header, exactly 25 blank rows, blank total. */
  function Plantilla(): string
  {
    EncabezadoPlantilla() + Concat(Vacias(FilasMinimas)) + PiePlantilla()
  }

  /** The template's table is the table of an invoice without items: 25 blank rows,
      whether the item list is `null` or empty. */
  lemma PlantillaSinItems(fmtMoneda: real -> string)
    ensures Plantilla() == EncabezadoPlantilla() + Concat(FilasTabla(None, fmtMoneda)) + PiePlantilla()
    ensures FilasTabla(None, fmtMoneda) == FilasTabla(Some([]), fmtMoneda)
    ensures |FilasTabla(None, fmtMoneda)| == 25
  {
  }

  /** The number of '|' characters in `s`. */
  function Barras(s: string): (n: nat)
    ensures n <= |s|
    ensures n == 0 <==> '|' !in s
  {
    if s == [] then 0 else (if s[0] == '|' then 1 else 0) + Barras(s[1..])
  }

  lemma {:induction false} BarrasConcat(a: string, b: string)
    ensures Barras(a + b) == Barras(a) + Barras(b)
    decreases |a|
  {
    if a != [] {
      assert (a + b)[0] == a[0];
      assert (a + b)[1..] == a[1..] + b;
      BarrasConcat(a[1..], b);
    } else {
      assert a + b == b;
    }
  }

  /** The cells of a row joined: one " | " per boundary, so no '|' beyond those
      when the cells have none. */
  lemma {:induction false} BarrasCeldas(celdas: seq<string>)
    requires celdas != []
    requires forall i :: 0 <= i < |celdas| ==> '|' !in celdas[i]
    ensures Barras(Celdas(celdas)) == |celdas| - 1
    decreases |celdas|
  {
    if |celdas| > 1 {
      var init := celdas[..|celdas| - 1];
      BarrasCeldas(init);
      BarrasConcat(" ", "| ");
      BarrasConcat(Celdas(init), " | ");
      BarrasConcat(Celdas(init) + " | ", celdas[|celdas| - 1]);
    }
  }

  /** Table well-formedness in the GFM sense: a row of `k` cells containing no '|'
      has `k + 1` delimiters, hence `k` columns. */
  lemma BarrasFila(celdas: seq<string>)
    requires celdas != []
    requires forall i :: 0 <= i < |celdas| ==> '|' !in celdas[i]
    ensures Barras(FilaTabla(celdas)) == |celdas| + 1
  {
    BarrasCeldas(celdas);
    BarrasConcat("| ", Celdas(celdas));
    BarrasConcat("| " + Celdas(celdas), " |\n");
  }

  /** An item row whose description, code and formatted amounts contain no '|'
      has the seven columns of the table header. */
  lemma FilaItemSieteColumnas(v: ItemVista, fmtMoneda: real -> string)
    requires '|' !in Texto(v.descripcion)
    requires v.codigo.Some? ==> '|' !in v.codigo.value
    requires '|' !in FormatearMoneda(v.precioUnitario, fmtMoneda)
    requires '|' !in FormatearMoneda(v.subtotal, fmtMoneda)
    ensures Barras(FilaItem(v, fmtMoneda)) == 8
  {
    var c := CeldasItem(v, fmtMoneda);
    if v.codigo.Some? && v.codigo.value != [] && '-' in v.codigo.value {
      DividirCodigoRecompone(v.codigo.value);
      var ref, cod := c[2], c[3];
      assert ref + "-" + cod == v.codigo.value;
      forall k | 0 <= k < |ref| ensures ref[k] != '|' {
        assert (ref + "-" + cod)[k] == ref[k];
      }
      forall k | 0 <= k < |cod| ensures cod[k] != '|' {
        assert (ref + "-" + cod)[|ref| + 1 + k] == cod[k];
      }
    }
    assert '|' !in c[0];
    assert "0"[0] != '|';
    BarrasFila(c);
  }

  /** One more item adds its row at the end. */
  lemma FilasItemsSiguiente(vs: seq<ItemVista>, i: nat, fmtMoneda: real -> string)
    requires i < |vs|
    ensures FilasItems(vs[..i + 1], fmtMoneda) == FilasItems(vs[..i], fmtMoneda) + [FilaItem(vs[i], fmtMoneda)]
  {
    assert vs[..i + 1][..i] == vs[..i];
  }

  /** Appending to a `StringBuilder` piece by piece builds the same text however the
      appended pieces are grouped. */
  lemma Reagrupar(x: string, y: string, z: string)
    ensures (x + y) + z == x + (y + z)
  {
  }

  /** One turn of the item loop: appending item `i`'s row extends the text built so far. */
  lemma AnexarItemsPaso(sb: string, vs: seq<ItemVista>, i: nat, fila: string, fmtMoneda: real -> string)
    requires i < |vs| && fila == FilaItem(vs[i], fmtMoneda)
    ensures sb + Concat(FilasItems(vs[..i], fmtMoneda)) + fila == sb + Concat(FilasItems(vs[..i + 1], fmtMoneda))
  {
    FilasItemsSiguiente(vs, i, fmtMoneda);
    ConcatAppend(FilasItems(vs[..i], fmtMoneda), fila);
    Reagrupar(sb, Concat(FilasItems(vs[..i], fmtMoneda)), fila);
  }

  /** The item loop of `generarFactura`: one row per item, in list order. */
  method AnexarItems(sb: string, items: seq<ItemCompra>, fmtMoneda: real -> string) returns (r: string)
    ensures r == sb + Concat(FilasItems(Vistas(items), fmtMoneda))
  {
    var vs := Vistas(items);
    r := sb;
    for i := 0 to |vs|
      invariant r == sb + Concat(FilasItems(vs[..i], fmtMoneda))
    {
      var fila := FilaItem(vs[i], fmtMoneda);
      AnexarItemsPaso(sb, vs, i, fila, fmtMoneda);
      r := r + fila;
    }
    assert vs[..|vs|] == vs;
  }

  /** A padding loop `for (int i = 0; i < n; i++)`: `n` blank rows, none when `n <= 0`. */
  method AnexarVacias(sb: string, n: int) returns (r: string)
    ensures r == sb + Concat(Vacias(if n < 0 then 0 else n))
  {
    r := sb;
    var i := 0;
    while i < n
      invariant 0 <= i && (i <= n || i == 0)
      invariant r == sb + Concat(Vacias(i))
    {
      assert Vacias(i + 1) == Vacias(i) + [FilaVacia];
      ConcatAppend(Vacias(i), FilaVacia);
      Reagrupar(sb, Concat(Vacias(i)), FilaVacia);
      r := r + FilaVacia;
      i := i + 1;
    }
  }

  /** With items, the table is their rows followed by the padding. */
  lemma FilasTablaConItems(vs: seq<ItemVista>, fmtMoneda: real -> string)
    requires vs != []
    ensures FilasTabla(Some(vs), fmtMoneda) == FilasItems(vs, fmtMoneda) + Vacias(Relleno(|vs|))
  {
  }

  /** The item rows appended, then the padding, give the table of `FilasTabla`. */
  lemma TablaConItems(sb: string, vs: seq<ItemVista>, fmtMoneda: real -> string)
    requires vs != []
    ensures sb + Concat(FilasItems(vs, fmtMoneda)) + Concat(Vacias(Relleno(|vs|)))
      == sb + Concat(FilasTabla(Some(vs), fmtMoneda))
  {
    var filasItems := FilasItems(vs, fmtMoneda);
    var relleno := Vacias(Relleno(|vs|));
    FilasTablaConItems(vs, fmtMoneda);
    ConcatSplit(filasItems, relleno);
    Reagrupar(sb, Concat(filasItems), Concat(relleno));
  }

  /** The table body of `generarFactura`: the item rows and their padding, or 25
      blank rows when the list is `null` or empty. */
  method AnexarTabla(sb: string, items: Option<seq<ItemCompra>>, fmtMoneda: real -> string) returns (r: string)
    ensures r == sb + Concat(FilasTabla(if items.None? then None else Some(Vistas(items.value)), fmtMoneda))
  {
    if items.Some? && items.value != [] {
      r := AnexarFilasConItems(sb, items.value, fmtMoneda);
    } else {
      r := AnexarVacias(sb, FilasMinimas);
    }
  }

  /** The table body when there are items: their rows, then the padding. */
  method AnexarFilasConItems(sb: string, items: seq<ItemCompra>, fmtMoneda: real -> string) returns (r: string)
    requires items != []
    ensures r == sb + Concat(FilasTabla(Some(Vistas(items)), fmtMoneda))
  {
    r := AnexarItems(sb, items, fmtMoneda);
    var n := FilasMinimas - |items|;
    assert (if n < 0 then 0 else n) == Relleno(|items|);
    r := AnexarVacias(r, n);
    TablaConItems(sb, Vistas(items), fmtMoneda);
  }

  /** `generarFactura`. The text is the header, the table of `FilasTabla` and the
      total; `errorEscritura` is the `IOException` message when opening or
      writing `rutaArchivo` fails, `None` when the write succeeds. */
  method GenerarFactura(compra: Compra, proveedor: Proveedor, items: Option<seq<ItemCompra>>,
                        rutaArchivo: string, fmtFecha: Fecha -> string, fmtMoneda: real -> string,
                        errorEscritura: Option<string>)
    returns (contenido: string, mensaje: string)
    ensures contenido == Factura(compra, proveedor,
      if items.None? then None else Some(Vistas(items.value)), fmtFecha, fmtMoneda)
    ensures compra.total.None? ==> TerminaEn(contenido, TotalCero)
    ensures errorEscritura.None? ==> mensaje == "Factura generada exitosamente: " + rutaArchivo
    ensures errorEscritura.Some? ==> mensaje == "Error al generar factura: " + errorEscritura.value
  {
    var sb := Encabezado(proveedor.nombre, fmtFecha(compra.fechaCompra), compra.numeroFactura);
    sb := AnexarTabla(sb, items, fmtMoneda);
    sb := sb + Pie(FormatearMoneda(compra.total, fmtMoneda));
    contenido := sb;
    FacturaTerminaEnTotal(compra, proveedor, if items.None? then None else Some(Vistas(items.value)),
      fmtFecha, fmtMoneda);
    if errorEscritura.None? {
      mensaje := "Factura generada exitosamente: " + rutaArchivo;
    } else {
      mensaje := "Error al generar factura: " + errorEscritura.value;
    }
  }

  /** `generarPlantillaVacia`: the template text and the outcome message. */
  method GenerarPlantillaVacia(rutaArchivo: string, errorEscritura: Option<string>)
    returns (contenido: string, mensaje: string)
    ensures contenido == Plantilla()
    ensures errorEscritura.None? ==> mensaje == "Plantilla generada exitosamente: " + rutaArchivo
    ensures errorEscritura.Some? ==> mensaje == "Error al generar plantilla: " + errorEscritura.value
  {
    var sb := EncabezadoPlantilla();
    sb := AnexarVacias(sb, FilasMinimas);
    sb := sb + PiePlantilla();
    contenido := sb;
    if errorEscritura.None? {
      mensaje := "Plantilla generada exitosamente: " + rutaArchivo;
    } else {
      mensaje := "Error al generar plantilla: " + errorEscritura.value;
    }
  }
}
