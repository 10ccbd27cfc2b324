/** `ItemCompraDAOMySQL.sumarCantidadesPorCompras`: one query that sums the item
    quantities of several purchases at once and returns them as a map. */
module BatchQuantities {
  import opened Common
  import opened ItemStore

  /** The purchase ids that occur as keys of a result set. */
  function KeysOf(rs: seq<(int, int)>): set<int>
  {
    set j | 0 <= j < |rs| :: rs[j].0
  }

  /** The rows `SELECT id_compra, SUM(cantidad) ... WHERE id_compra IN (ids)
      GROUP BY id_compra` yields: one row per distinct requested purchase that
      has items, carrying that purchase's total. SQL leaves the row order open;
      this one follows the last occurrence of each id, and the map built from
      the rows does not depend on it. */
  function ResultSet(rows: seq<ItemRow>, ids: seq<int>): (rs: seq<(int, int)>)
    ensures KeysOf(rs) == set k | k in ids && HasItems(rows, k)
    ensures forall j :: 0 <= j < |rs| ==> rs[j].1 == SumFor(rows, rs[j].0)
    ensures forall i, j :: 0 <= i < j < |rs| ==> rs[i].0 != rs[j].0
  {
    if ids == [] then []
    else
      var rest := ResultSet(rows, ids[1..]);
      assert forall k :: k in ids <==> k == ids[0] || k in ids[1..];
      if HasItems(rows, ids[0]) && ids[0] !in ids[1..] then
        var rs := [(ids[0], SumFor(rows, ids[0]))] + rest;
        assert forall j :: 1 <= j < |rs| ==> rs[j] == rest[j - 1];
        assert KeysOf(rs) == {ids[0]} + KeysOf(rest) by {
          assert rs[0].0 == ids[0];
          forall k | k in KeysOf(rest) ensures k in KeysOf(rs) {
            var j :| 0 <= j < |rest| && rest[j].0 == k;
            assert rs[j + 1].0 == k;
          }
        }
        rs
      else
        rest
  }

  /** The batch sum. `fallo` stands for the `SQLException` path: `Some(n)` means
      the driver fails after `n` result rows have been read (`n == 0`: the
      connection or the statement failed), and the rows read so far are kept.
      An empty id list returns at once, before any query. */
  method SumarCantidadesPorCompras(idsCompras: seq<int>, rows: seq<ItemRow>, fallo: Option<nat>)
    returns (resultado: map<int, int>)
    ensures |idsCompras| == 0 ==> resultado == map[]
    ensures forall k :: k in resultado ==> k in idsCompras && HasItems(rows, k)
    ensures forall k :: k in resultado ==> resultado[k] == SumFor(rows, k)
    ensures fallo.None? ==> forall k :: k in idsCompras && HasItems(rows, k) ==> k in resultado
  {
    resultado := map[];
    if |idsCompras| == 0 {
      return;
    }
    var rs := ResultSet(rows, idsCompras);
    var leidas := if fallo.Some? && fallo.value < |rs| then fallo.value else |rs|;
    var i := 0;
    while i < leidas
      invariant 0 <= i <= leidas <= |rs|
      invariant resultado.Keys == KeysOf(rs[..i])
      invariant forall k :: k in resultado ==> resultado[k] == SumFor(rows, k)
    {
      assert KeysOf(rs[..i + 1]) == KeysOf(rs[..i]) + {rs[i].0} by {
        assert forall j :: 0 <= j < i ==> rs[..i + 1][j] == rs[..i][j];
      }
      resultado := resultado[rs[i].0 := rs[i].1];
      i := i + 1;
    }
    assert KeysOf(rs[..i]) <= KeysOf(rs);
    if fallo.None? {
      assert rs[..i] == rs;
    }
  }
}
