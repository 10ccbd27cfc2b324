/** The purchase-quantity cache of `CompraService`: a `LinkedHashMap` in access
    order that keeps at most 100 entries, read through with `computeIfAbsent`,
    invalidated when a purchase is written and emptied at logout.

    The map's linked list is modelled as `orden`, the keys from least to most
    recently used; `valores` maps each key to its cached total. */
module QuantityCache {
  import opened Common
  import opened ItemStore

  /** `removeEldestEntry` answers `size() > 100`. */
  const Capacidad: nat := 100

  /** No key occurs twice. */
  predicate Distinct(s: seq<int>)
  {
    forall i, j :: 0 <= i < j < |s| ==> s[i] != s[j]
  }

  /** The contents of `cacheCantidades`. */
  datatype Lru = Lru(orden: seq<int>, valores: map<int, int>)

  /** What the `LinkedHashMap` keeps true: one list node per key, and no more
      than 100 of them once `removeEldestEntry` has run. */
  ghost predicate LruValid(c: Lru)
  {
    && Distinct(c.orden)
    && |c.orden| <= Capacidad
    && (forall k :: k in c.valores <==> k in c.orden)
  }

  /** `s` without `k`, the other keys in their order. */
  function Without(s: seq<int>, k: int): (r: seq<int>)
    ensures forall x :: x in r <==> x in s && x != k
    ensures Distinct(s) ==> Distinct(r)
    ensures Distinct(s) && k in s ==> |r| == |s| - 1
    ensures k !in s ==> r == s
  {
    if s == [] then []
    else
      var rest := Without(s[1..], k);
      assert Distinct(s) ==> Distinct(s[1..]) && s[0] !in s[1..];
      if s[0] == k then rest else [s[0]] + rest
  }

  /** The empty cache, as built and as left by `clear`. */
  function Empty(): (r: Lru)
    ensures LruValid(r) && r.valores == map[]
  {
    Lru([], map[])
  }

  /** A hit: the entry is kept and, the map being in access order, becomes the most recently used. */
  function AfterHit(c: Lru, id: int): (r: Lru)
    requires LruValid(c) && id in c.valores
    ensures LruValid(r)
    ensures r.valores == c.valores
    ensures r.orden != [] && r.orden[|r.orden| - 1] == id
    ensures r.orden[..|r.orden| - 1] == Without(c.orden, id)
  {
    Lru(Without(c.orden, id) + [id], c.valores)
  }

  /** A miss: the computed value enters as the most recently used entry; when the
      map then holds 101 entries, the least recently used one (the head of the
      access order) is evicted, and only that one. */
  function AfterMiss(c: Lru, id: int, v: int): (r: Lru)
    requires LruValid(c) && id !in c.valores
    ensures LruValid(r)
    ensures r.orden != [] && r.orden[|r.orden| - 1] == id
    ensures |c.orden| < Capacidad ==> r.valores == c.valores[id := v] && r.orden == c.orden + [id]
    ensures |c.orden| == Capacidad ==>
      r.valores == (c.valores - {c.orden[0]})[id := v] && r.orden == c.orden[1..] + [id]
  {
    assert id !in c.orden;
    var orden := c.orden + [id];
    var valores := c.valores[id := v];
    assert Distinct(orden) by {
      forall i, j | 0 <= i < j < |orden| ensures orden[i] != orden[j] {
        if j == |c.orden| {
          assert orden[i] in c.orden;
        }
      }
    }
    if |orden| > Capacidad then
      assert orden[1..] == c.orden[1..] + [id];
      Lru(orden[1..], valores - {orden[0]})
    else
      Lru(orden, valores)
  }

  /** `remove`: the entry of `id` is gone, every other entry and its recency are kept. */
  function AfterRemove(c: Lru, id: int): (r: Lru)
    requires LruValid(c)
    ensures LruValid(r)
    ensures r.valores == c.valores - {id}
    ensures r.orden == Without(c.orden, id)
  {
    Lru(Without(c.orden, id), c.valores - {id})
  }

  /** A list without repetitions has as many distinct keys as nodes. */
  lemma {:induction false} DistinctCard(s: seq<int>)
    requires Distinct(s)
    ensures |set x | x in s| == |s|
  {
    if s != [] {
      assert Distinct(s[1..]);
      DistinctCard(s[1..]);
      assert (set x | x in s) == {s[0]} + (set x | x in s[1..]);
    }
  }

  /** The cache never holds more than 100 entries. */
  lemma EntriesWithinCapacity(c: Lru)
    requires LruValid(c)
    ensures |c.valores| <= Capacidad
  {
    DistinctCard(c.orden);
    assert c.valores.Keys == set x | x in c.orden;
  }

  /** Recency promotion: a key read just before a miss is not the one that miss evicts. */
  lemma HitSurvivesNextMiss(c: Lru, a: int, b: int, v: int)
    requires LruValid(c) && a in c.valores && b !in c.valores
    ensures a in AfterMiss(AfterHit(c, a), b, v).valores
  {
    var h := AfterHit(c, a);
    if |h.orden| == Capacidad {
      assert h.orden[0] != a by {
        assert h.orden[Capacidad - 1] == a;
        assert Distinct(h.orden);
      }
    }
  }

  /** Every cached total agrees with the store. */
  ghost predicate Coherent(c: Lru, rows: seq<ItemRow>)
  {
    forall k :: k in c.valores ==> c.valores[k] == SumFor(rows, k)
  }

  /** Invalidation on write: when a row is added to purchase `r.idCompra` and that
      key is removed from the cache, the cache again agrees with the store. */
  lemma {:induction false} InvalidateAfterAddedRow(c: Lru, rows: seq<ItemRow>, r: ItemRow)
    requires LruValid(c) && Coherent(c, rows)
    ensures Coherent(AfterRemove(c, r.idCompra), rows + [r])
  {
    forall k | k in AfterRemove(c, r.idCompra).valores
      ensures AfterRemove(c, r.idCompra).valores[k] == SumFor(rows + [r], k)
    {
      SumForAppend(rows, r, k);
    }
  }

  /** Invalidation for any change confined to purchase `id`: totals of every
      other purchase are unchanged, so once `id` is removed the cache is coherent. */
  lemma InvalidateAfterWrite(c: Lru, rows: seq<ItemRow>, rows': seq<ItemRow>, id: int)
    requires LruValid(c) && Coherent(c, rows)
    requires forall k :: k != id ==> SumFor(rows', k) == SumFor(rows, k)
    ensures Coherent(AfterRemove(c, id), rows')
    ensures id !in AfterRemove(c, id).valores
  {
  }

  /** `CompraService` with its cache. The `ItemCompraDAO` is the row sequence the
      read-through is given. */
  class CompraService {
    var orden: seq<int>
    var valores: map<int, int>

    /** The `LinkedHashMap`'s invariant. */
    ghost predicate Valid()
      reads this
    {
      LruValid(Lru(orden, valores))
    }

    /** The cache as a value. */
    function Cache(): Lru
      reads this
    {
      Lru(orden, valores)
    }

    constructor ()
      ensures Valid() && Cache() == Empty()
    {
      orden := [];
      valores := map[];
    }

    /** `sumarCantidadesDeCompra`: `computeIfAbsent` over the cache. On a hit the
        stored total is returned without reading the store and the key becomes the
        most recently used; on a miss the store's total is stored and returned.
        When the cache agrees with the store the answer is the store's total either way. */
    method SumarCantidadesDeCompra(idCompra: int, rows: seq<ItemRow>) returns (total: int)
      requires Valid()
      modifies this
      ensures Valid()
      ensures idCompra in old(valores) ==>
        total == old(valores)[idCompra] && Cache() == AfterHit(old(Cache()), idCompra)
      ensures idCompra !in old(valores) ==>
        total == SumFor(rows, idCompra) && Cache() == AfterMiss(old(Cache()), idCompra, total)
      ensures Coherent(old(Cache()), rows) ==> total == SumFor(rows, idCompra) && Coherent(Cache(), rows)
    {
      if idCompra in valores {
        total := valores[idCompra];
        orden := Without(orden, idCompra) + [idCompra];
      } else {
        total := SumFor(rows, idCompra);
        var c := AfterMiss(Cache(), idCompra, total);
        orden, valores := c.orden, c.valores;
      }
    }

    /** The invalidation at the end of `actualizarCompraConItems`: the purchase's
        entry is removed and the update's own result message is passed back. */
    method ActualizarCompraConItems(idCompra: int, resultado: string) returns (r: string)
      requires Valid()
      modifies this
      ensures Valid()
      ensures r == resultado
      ensures Cache() == AfterRemove(old(Cache()), idCompra)
      ensures idCompra !in valores
    {
      var c := AfterRemove(Cache(), idCompra);
      orden, valores := c.orden, c.valores;
      r := resultado;
    }

    /** `registrarCompra`: a failed validation returns its message; a successful
        insertion removes the new purchase's id (`idCompra`, as the DAO assigned it)
        from the cache and reports it; a failed insertion reports the error. Only
        the success path touches the cache. */
    method RegistrarCompra(idCompra: int, validacion: Option<string>, exito: bool) returns (mensaje: string)
      requires Valid()
      modifies this
      ensures Valid()
      ensures validacion.Some? ==> mensaje == validacion.value && Cache() == old(Cache())
      ensures validacion.None? && exito ==>
        mensaje == "Compra registrada exitosamente con ID: " + IntToString(idCompra)
        && Cache() == AfterRemove(old(Cache()), idCompra)
      ensures validacion.None? && !exito ==>
        mensaje == "Error: No se pudo registrar la compra" && Cache() == old(Cache())
    {
      if validacion.Some? {
        return validacion.value;
      }
      if exito {
        var c := AfterRemove(Cache(), idCompra);
        orden, valores := c.orden, c.valores;
        mensaje := "Compra registrada exitosamente con ID: " + IntToString(idCompra);
      } else {
        mensaje := "Error: No se pudo registrar la compra";
      }
    }

    /** `limpiarCache`: the cache is left empty. */
    method LimpiarCache()
      requires Valid()
      modifies this
      ensures Valid() && Cache() == Empty()
    {
      orden, valores := [], map[];
    }
  }

  /** Read-your-writes through the service: after the invalidation of a write that
      only changed purchase `id`, reading `id` yields the new store total, not a stale one. */
  method InvalidateThenRead(s: CompraService, id: int, rows: seq<ItemRow>, rows': seq<ItemRow>)
    returns (total: int)
    requires s.Valid() && Coherent(s.Cache(), rows)
    requires forall k :: k != id ==> SumFor(rows', k) == SumFor(rows, k)
    modifies s
    ensures s.Valid() && Coherent(s.Cache(), rows')
    ensures total == SumFor(rows', id)
  {
    var _ := s.ActualizarCompraConItems(id, "");
    InvalidateAfterWrite(old(s.Cache()), rows, rows', id);
    total := s.SumarCantidadesDeCompra(id, rows');
  }
}
