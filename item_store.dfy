/** The `items_compra` table as the quantity cache and the batch query see it:
    a sequence of rows, each naming the purchase it belongs to and a quantity.
    `SumFor` is what `ItemCompraDAO.sumarCantidadesPorCompra` answers. */
module ItemStore {

  /** One row of `items_compra`, reduced to the two columns that are summed over. */
  datatype ItemRow = ItemRow(idCompra: int, cantidad: int)

  /** Purchase `id` has at least one item row. */
  predicate HasItems(rows: seq<ItemRow>, id: int)
  {
    exists i :: 0 <= i < |rows| && rows[i].idCompra == id
  }

  /** The total quantity of the item rows of purchase `id`; 0 when it has none. */
  function SumFor(rows: seq<ItemRow>, id: int): int
  {
    if rows == [] then 0
    else (if rows[0].idCompra == id then rows[0].cantidad else 0) + SumFor(rows[1..], id)
  }

  /** A purchase without item rows sums to 0: "absent" and "zero" agree. */
  lemma {:induction false} NoItemsSumZero(rows: seq<ItemRow>, id: int)
    requires !HasItems(rows, id)
    ensures SumFor(rows, id) == 0
  {
    if rows != [] {
      assert rows[0].idCompra != id;
      forall i | 0 <= i < |rows[1..]| ensures rows[1..][i].idCompra != id {
        assert rows[1..][i] == rows[i + 1];
      }
      NoItemsSumZero(rows[1..], id);
    }
  }

  /** Adding a row changes the total of its own purchase by its quantity and
      leaves every other purchase's total as it was. */
  lemma {:induction false} SumForAppend(rows: seq<ItemRow>, r: ItemRow, id: int)
    ensures SumFor(rows + [r], id) == SumFor(rows, id) + (if r.idCompra == id then r.cantidad else 0)
  {
    if rows != [] {
      assert (rows + [r])[1..] == rows[1..] + [r];
      SumForAppend(rows[1..], r, id);
    }
  }
}
