/** `modelo.ItemCompra`: one product line of a purchase. The quantity and unit
    price setters recompute the subtotal. `BigDecimal` arithmetic is exact, so
    prices are `real`; a `null` `BigDecimal` is `None`. */
module LineItem {
  import opened Common

  /** `precio.multiply(new BigDecimal(cantidad))`: exact decimal multiplication. */
  function Multiplicar(precio: real, cantidad: int): real
  {
    precio * cantidad as real
  }

  /** `calcularSubtotal`'s value: unit price times quantity when there is a price
      and the quantity is positive, zero otherwise. */
  function SubtotalCalculado(precioUnitario: Option<real>, cantidad: int): (s: real)
    ensures precioUnitario.None? || cantidad <= 0 ==> s == 0.0
    ensures precioUnitario.Some? && cantidad > 0 ==> s == precioUnitario.value * cantidad as real
  {
    if precioUnitario.Some? && cantidad > 0 then Multiplicar(precioUnitario.value, cantidad) else 0.0
  }

  /** A non-negative price never yields a negative subtotal, whatever the quantity. */
  lemma SubtotalNoNegativo(precioUnitario: real, cantidad: int)
    requires precioUnitario >= 0.0
    ensures SubtotalCalculado(Some(precioUnitario), cantidad) >= 0.0
  {
    if cantidad > 0 {
      assert precioUnitario * cantidad as real >= 0.0 * cantidad as real;
    }
  }

  class ItemCompra {
    var id: int
    var idCompra: int
    var cantidad: int
    var descripcion: Option<string>
    var codigo: Option<string>
    var precioUnitario: Option<real>
    var subtotal: Option<real>
    var orden: int

    /** The subtotal is what `calcularSubtotal` would store now. */
    predicate SubtotalAlDia()
      reads this
    {
      subtotal == Some(SubtotalCalculado(precioUnitario, cantidad))
    }

    /** The no-argument constructor: quantity 1, price 0, subtotal 0, position 0. */
    constructor ()
      ensures cantidad == 1 && precioUnitario == Some(0.0) && subtotal == Some(0.0) && orden == 0
      ensures id == 0 && idCompra == 0 && descripcion.None? && codigo.None?
      ensures SubtotalAlDia()
    {
      id, idCompra := 0, 0;
      cantidad := 1;
      descripcion, codigo := None, None;
      precioUnitario := Some(0.0);
      subtotal := Some(0.0);
      orden := 0;
    }

    /** The four-argument constructor: the subtotal is price times quantity with no
        positivity check, so a negative quantity gives a product, not zero, and the
        item is consistent exactly when the quantity is positive or the product is
        zero. The price must not be `null` (`multiply` is called on it). */
    constructor Con(cantidad: int, descripcion: Option<string>, codigo: Option<string>, precioUnitario: real)
      ensures this.cantidad == cantidad && this.descripcion == descripcion && this.codigo == codigo
      ensures this.precioUnitario == Some(precioUnitario)
      ensures subtotal == Some(Multiplicar(precioUnitario, cantidad))
      ensures orden == 0 && id == 0 && idCompra == 0
      ensures SubtotalAlDia() <==> cantidad > 0 || Multiplicar(precioUnitario, cantidad) == 0.0
    {
      id, idCompra := 0, 0;
      this.cantidad := cantidad;
      this.descripcion := descripcion;
      this.codigo := codigo;
      this.precioUnitario := Some(precioUnitario);
      subtotal := Some(Multiplicar(precioUnitario, cantidad));
      orden := 0;
    }

    /** `calcularSubtotal` / `recalcularSubtotal`: only the subtotal changes, to the
        recomputed value. Running it on a state where it already holds changes
        nothing, so calling it twice is the same as once. */
    method RecalcularSubtotal()
      modifies this
      ensures SubtotalAlDia()
      ensures cantidad == old(cantidad) && precioUnitario == old(precioUnitario)
      ensures id == old(id) && idCompra == old(idCompra) && orden == old(orden)
      ensures descripcion == old(descripcion) && codigo == old(codigo)
      ensures old(SubtotalAlDia()) ==> unchanged(this)
    {
      if precioUnitario.Some? && cantidad > 0 {
        subtotal := Some(Multiplicar(precioUnitario.value, cantidad));
      } else {
        subtotal := Some(0.0);
      }
    }

    /** `setCantidad`: sets the quantity and recomputes the subtotal. */
    method SetCantidad(cantidad: int)
      modifies this
      ensures this.cantidad == cantidad && SubtotalAlDia()
      ensures precioUnitario == old(precioUnitario)
      ensures id == old(id) && idCompra == old(idCompra) && orden == old(orden)
      ensures descripcion == old(descripcion) && codigo == old(codigo)
    {
      this.cantidad := cantidad;
      RecalcularSubtotal();
    }

    /** `setPrecioUnitario`: sets the price (possibly `null`) and recomputes the subtotal. */
    method SetPrecioUnitario(precioUnitario: Option<real>)
      modifies this
      ensures this.precioUnitario == precioUnitario && SubtotalAlDia()
      ensures cantidad == old(cantidad)
      ensures id == old(id) && idCompra == old(idCompra) && orden == old(orden)
      ensures descripcion == old(descripcion) && codigo == old(codigo)
    {
      this.precioUnitario := precioUnitario;
      RecalcularSubtotal();
    }

    /** `setSubtotal`: overrides the subtotal without recomputing it. */
    method SetSubtotal(subtotal: Option<real>)
      modifies this
      ensures this.subtotal == subtotal
      ensures cantidad == old(cantidad) && precioUnitario == old(precioUnitario)
      ensures id == old(id) && idCompra == old(idCompra) && orden == old(orden)
      ensures descripcion == old(descripcion) && codigo == old(codigo)
    {
      this.subtotal := subtotal;
    }

    /** `setDescripcion`: the subtotal and everything else are kept. */
    method SetDescripcion(descripcion: Option<string>)
      modifies this
      ensures this.descripcion == descripcion
      ensures subtotal == old(subtotal) && cantidad == old(cantidad) && precioUnitario == old(precioUnitario)
      ensures id == old(id) && idCompra == old(idCompra) && orden == old(orden) && codigo == old(codigo)
    {
      this.descripcion := descripcion;
    }

    /** `setCodigo`: the subtotal and everything else are kept. */
    method SetCodigo(codigo: Option<string>)
      modifies this
      ensures this.codigo == codigo
      ensures subtotal == old(subtotal) && cantidad == old(cantidad) && precioUnitario == old(precioUnitario)
      ensures id == old(id) && idCompra == old(idCompra) && orden == old(orden) && descripcion == old(descripcion)
    {
      this.codigo := codigo;
    }

    /** `setOrden`: the subtotal and everything else are kept. */
    method SetOrden(orden: int)
      modifies this
      ensures this.orden == orden
      ensures subtotal == old(subtotal) && cantidad == old(cantidad) && precioUnitario == old(precioUnitario)
      ensures id == old(id) && idCompra == old(idCompra) && descripcion == old(descripcion) && codigo == old(codigo)
    {
      this.orden := orden;
    }
  }
}
