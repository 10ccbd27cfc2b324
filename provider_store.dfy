/** `ProveedorDAOImpl`: the in-memory provider store behind the `ProveedorDAO`
    interface. It is a list of providers plus an id counter. Ids are handed out
    by incrementing the counter, so along the list they strictly increase, are
    never reused and never exceed the counter. */
module ProviderStore {
  import opened Common

  /** A supplier record (`modelo.Proveedor`). */
  datatype Proveedor = Proveedor(
    id: int,
    nombre: string,
    nit: string,
    direccion: string,
    telefono: string,
    email: string,
    personaContacto: string,
    activo: bool,
    tipo: Option<string>)

  /** `new Proveedor()` followed by the setters the sample data uses: the id is
      still 0 and no type is set. */
  function NuevoProveedor(nombre: string, nit: string, direccion: string, telefono: string,
                          email: string, personaContacto: string, activo: bool): (p: Proveedor)
    ensures p.id == 0 && p.tipo.None? && p.nombre == nombre && p.nit == nit && p.activo == activo
  {
    Proveedor(0, nombre, nit, direccion, telefono, email, personaContacto, activo, None)
  }

  const Muestra1 := NuevoProveedor("Distribuidora ABC", "900123456-1", "Calle 50 #30-25, Bogotá",
    "601-555-0100", "ventas@distribuidoraabc.com", "María García", true)
  const Muestra2 := NuevoProveedor("Suministros del Norte", "800987654-2", "Av. Libertador 150, Barranquilla",
    "605-555-0200", "contacto@suministrosnorte.com", "Carlos Rodríguez", true)
  const Muestra3 := NuevoProveedor("Importadora XYZ", "700555888-3", "Zona Franca, Cartagena",
    "605-555-0300", "info@importadoraxyz.com", "Ana Martínez", false)

  /** The conditions the store's lookups and filters test a provider against. */
  datatype Criterio =
    | ConId(id: int)               // `getId() == id`
    | OtroId(id: int)              // what `removeIf` keeps
    | ConNit(nit: string)          // `getNit().equals(nit)`
    | NombreContiene(texto: string) // lower-cased name contains the (already lower-cased) text
    | Activo                       // `isActivo()`

  predicate Cumple(p: Proveedor, c: Criterio)
  {
    match c
    case ConId(id) => p.id == id
    case OtroId(id) => p.id != id
    case ConNit(nit) => p.nit == nit
    case NombreContiene(texto) => Contains(ToLower(p.nombre), texto)
    case Activo => p.activo
  }

  /** The providers of `ps` that meet `c`, in list order. */
  function Filtrar(ps: seq<Proveedor>, c: Criterio): (r: seq<Proveedor>)
    ensures |r| <= |ps|
  {
    if ps == [] then []
    else (if Cumple(ps[0], c) then [ps[0]] else []) + Filtrar(ps[1..], c)
  }

  /** The filtered list holds exactly the providers of `ps` that meet `c`. */
  lemma {:induction false} FiltrarMiembros(ps: seq<Proveedor>, c: Criterio)
    ensures forall p :: p in Filtrar(ps, c) <==> p in ps && Cumple(p, c)
  {
    if ps != [] {
      FiltrarMiembros(ps[1..], c);
      assert ps == [ps[0]] + ps[1..];
    }
  }

  /** Filtering distributes over appending one provider: the order of the list is kept. */
  lemma {:induction false} FiltrarAppend(ps: seq<Proveedor>, p: Proveedor, c: Criterio)
    ensures Filtrar(ps + [p], c) == Filtrar(ps, c) + (if Cumple(p, c) then [p] else [])
  {
    if ps != [] {
      assert (ps + [p])[1..] == ps[1..] + [p];
      FiltrarAppend(ps[1..], p, c);
    }
  }

  /** The search is partial and ignores case: "distri" finds "Distribuidora ABC". */
  lemma NombreContieneEjemplo()
    ensures Cumple(Muestra1, NombreContiene(ToLower("distri")))
  {
    assert ToLower("distri") == "distri";
    assert ToLower(Muestra1.nombre) == "distribuidora abc";
    assert "distribuidora abc"[..|"distri"|] == "distri";
  }

  /** The first index whose provider meets `c`, if any. */
  function Primero(ps: seq<Proveedor>, c: Criterio): (r: Option<nat>)
    ensures r.None? <==> forall i :: 0 <= i < |ps| ==> !Cumple(ps[i], c)
    ensures r.Some? ==> r.value < |ps| && Cumple(ps[r.value], c)
    ensures r.Some? ==> forall j :: 0 <= j < r.value ==> !Cumple(ps[j], c)
  {
    if ps == [] then None
    else if Cumple(ps[0], c) then Some(0)
    else
      match Primero(ps[1..], c)
      case None => None
      case Some(k) => Some(k + 1)
  }

  /** The first provider meeting `c`, or `null`. */
  function Buscar(ps: seq<Proveedor>, c: Criterio): (r: Option<Proveedor>)
    ensures r.None? <==> forall p :: p in ps ==> !Cumple(p, c)
    ensures r.Some? ==> r.value in ps && Cumple(r.value, c)
  {
    match Primero(ps, c)
    case None => None
    case Some(i) => Some(ps[i])
  }

  /** The store's invariant: ids strictly increase along the list, start at 1 and
      never exceed the counter. */
  ghost predicate IdsOk(ps: seq<Proveedor>, contador: int)
  {
    && (forall i, j :: 0 <= i < j < |ps| ==> ps[i].id < ps[j].id)
    && (forall i :: 0 <= i < |ps| ==> 1 <= ps[i].id <= contador)
  }

  /** Ids are unique in a store that keeps its invariant, so the first provider
      with an id is the only one. */
  lemma IdsUnique(ps: seq<Proveedor>, contador: int, i: int, j: int)
    requires IdsOk(ps, contador) && 0 <= i < |ps| && 0 <= j < |ps| && ps[i].id == ps[j].id
    ensures i == j
  {
  }

  /** Filtering keeps every id within the bounds the list's ids were in. */
  lemma {:induction false} FiltrarAcotado(ps: seq<Proveedor>, c: Criterio, desde: int, hasta: int)
    requires forall i :: 0 <= i < |ps| ==> desde < ps[i].id <= hasta
    ensures forall i :: 0 <= i < |Filtrar(ps, c)| ==> desde < Filtrar(ps, c)[i].id <= hasta
  {
    if ps != [] {
      FiltrarAcotado(ps[1..], c, desde, hasta);
      var rest := Filtrar(ps[1..], c);
      var r := Filtrar(ps, c);
      assert r == (if Cumple(ps[0], c) then [ps[0]] else []) + rest;
      forall i | 0 <= i < |r| ensures desde < r[i].id <= hasta {
        if Cumple(ps[0], c) {
          if i > 0 {
            assert r[i] == rest[i - 1];
          } else {
            assert r[i] == ps[0];
          }
        } else {
          assert r[i] == rest[i];
        }
      }
    }
  }

  /** Removing providers keeps the ids strictly increasing and bounded. */
  lemma {:induction false} FiltrarKeepsIds(ps: seq<Proveedor>, contador: int, c: Criterio)
    requires IdsOk(ps, contador)
    ensures IdsOk(Filtrar(ps, c), contador)
  {
    if ps == [] {
      return;
    }
    var rest := Filtrar(ps[1..], c);
    FiltrarKeepsIds(ps[1..], contador, c);
    FiltrarAcotado(ps[1..], c, ps[0].id, contador);
    FiltrarAcotado(ps, c, 0, contador);
    var r := Filtrar(ps, c);
    if Cumple(ps[0], c) {
      assert r == [ps[0]] + rest;
      forall i, j | 0 <= i < j < |r| ensures r[i].id < r[j].id {
        assert r[j] == rest[j - 1];
        if i > 0 {
          assert r[i] == rest[i - 1];
        } else {
          assert r[i] == ps[0];
        }
      }
    } else {
      assert r == rest;
    }
  }

  /** `ps` with the provider at the first index whose id is `p.id` replaced by `p`. */
  function Reemplazar(ps: seq<Proveedor>, p: Proveedor): (r: seq<Proveedor>)
    ensures |r| == |ps|
    ensures Primero(ps, ConId(p.id)).None? ==> r == ps
    ensures Primero(ps, ConId(p.id)).Some? ==>
      var i := Primero(ps, ConId(p.id)).value;
      r[i] == p && forall j :: 0 <= j < |ps| && j != i ==> r[j] == ps[j]
  {
    match Primero(ps, ConId(p.id))
    case None => ps
    case Some(i) => ps[i := p]
  }

  /** Replacing a provider by one with the same id keeps the invariant. */
  lemma ReemplazarKeepsIds(ps: seq<Proveedor>, contador: int, p: Proveedor)
    requires IdsOk(ps, contador)
    ensures IdsOk(Reemplazar(ps, p), contador)
  {
  }

  /** The in-memory `ProveedorDAOImpl`. */
  class ProveedorDAOImpl {
    var proveedores: seq<Proveedor>
    var contadorId: int

    ghost predicate Valid()
      reads this
    {
      contadorId >= 0 && IdsOk(proveedores, contadorId)
    }

    /** The constructor seeds three sample providers through `insertar`: ids 1, 2
        and 3, the third one inactive, and the counter at 3. */
    constructor ()
      ensures Valid()
      ensures contadorId == 3
      ensures proveedores == [Muestra1.(id := 1), Muestra2.(id := 2), Muestra3.(id := 3)]
      ensures forall i :: 0 <= i < |proveedores| ==> (proveedores[i].activo <==> i < 2)
    {
      proveedores := [];
      contadorId := 0;
      new;
      var _ := Insertar(Some(Muestra1));
      var _ := Insertar(Some(Muestra2));
      var _ := Insertar(Some(Muestra3));
    }

    /** `insertar`: the counter is incremented first and becomes the new provider's
        id; the provider is appended and `true` returned. A `null` provider fails at
        `setId` after the increment, so the counter still moves and `false` is
        returned. The new id is larger than every id in the store. */
    method Insertar(proveedor: Option<Proveedor>) returns (ok: bool)
      requires Valid()
      modifies this
      ensures Valid()
      ensures contadorId == old(contadorId) + 1
      ensures ok <==> proveedor.Some?
      ensures ok ==> proveedores == old(proveedores) + [proveedor.value.(id := contadorId)]
      ensures !ok ==> proveedores == old(proveedores)
      ensures forall p :: p in old(proveedores) ==> p.id < contadorId
    {
      contadorId := contadorId + 1;
      if proveedor.None? {
        return false;
      }
      proveedores := proveedores + [proveedor.value.(id := contadorId)];
      ok := true;
    }

    /** `obtenerPorId`: the first provider with that id, or `null` when none has it. */
    method ObtenerPorId(id: int) returns (r: Option<Proveedor>)
      ensures r == Buscar(proveedores, ConId(id))
      ensures r.Some? ==> r.value in proveedores && r.value.id == id
      ensures r.None? <==> forall p :: p in proveedores ==> p.id != id
    {
      var i := 0;
      while i < |proveedores|
        invariant 0 <= i <= |proveedores|
        invariant forall j :: 0 <= j < i ==> proveedores[j].id != id
      {
        if proveedores[i].id == id {
          return Some(proveedores[i]);
        }
        i := i + 1;
      }
      return None;
    }

    /** `obtenerTodos`: a copy of the list, in order. */
    method ObtenerTodos() returns (todos: seq<Proveedor>)
      ensures todos == proveedores
    {
      todos := proveedores;
    }

    /** `actualizar`: the provider at the first index with the same id is replaced
        and `true` returned; with no such index (or a `null` provider) the list is
        unchanged and `false` returned. The length and every other position are kept. */
    method Actualizar(proveedor: Option<Proveedor>) returns (ok: bool)
      requires Valid()
      modifies this
      ensures Valid()
      ensures contadorId == old(contadorId)
      ensures ok <==> proveedor.Some? && exists p :: p in old(proveedores) && p.id == proveedor.value.id
      ensures ok ==> proveedores == Reemplazar(old(proveedores), proveedor.value)
      ensures !ok ==> proveedores == old(proveedores)
      ensures |proveedores| == |old(proveedores)|
    {
      if proveedor.None? {
        return false;
      }
      var p := proveedor.value;
      var i := 0;
      while i < |proveedores|
        invariant 0 <= i <= |proveedores|
        invariant forall j :: 0 <= j < i ==> proveedores[j].id != p.id
      {
        if proveedores[i].id == p.id {
          assert Primero(proveedores, ConId(p.id)) == Some(i);
          ReemplazarKeepsIds(proveedores, contadorId, p);
          proveedores := proveedores[i := p];
          return true;
        }
        i := i + 1;
      }
      return false;
    }

    /** `eliminar`: `removeIf` drops every provider with that id, keeping the others
        in order, and answers whether any was dropped. The counter is not touched,
        so a removed id is never handed out again. */
    method Eliminar(id: int) returns (ok: bool)
      requires Valid()
      modifies this
      ensures Valid()
      ensures contadorId == old(contadorId)
      ensures proveedores == Filtrar(old(proveedores), OtroId(id))
      ensures ok <==> exists p :: p in old(proveedores) && p.id == id
      ensures forall p :: p in proveedores ==> p.id != id
    {
      ok := Primero(proveedores, ConId(id)).Some?;
      FiltrarMiembros(proveedores, OtroId(id));
      FiltrarKeepsIds(proveedores, contadorId, OtroId(id));
      proveedores := Filtrar(proveedores, OtroId(id));
    }

    /** `buscarPorNombre`: in list order, exactly the providers whose lower-cased
        name contains the lower-cased text. */
    method BuscarPorNombre(nombre: string) returns (resultados: seq<Proveedor>)
      ensures resultados == Filtrar(proveedores, NombreContiene(ToLower(nombre)))
      ensures forall p :: p in resultados <==>
        p in proveedores && Contains(ToLower(p.nombre), ToLower(nombre))
    {
      var nombreBusqueda := ToLower(nombre);
      resultados := [];
      var i := 0;
      while i < |proveedores|
        invariant 0 <= i <= |proveedores|
        invariant resultados == Filtrar(proveedores[..i], NombreContiene(nombreBusqueda))
      {
        FiltrarAppend(proveedores[..i], proveedores[i], NombreContiene(nombreBusqueda));
        assert proveedores[..i + 1] == proveedores[..i] + [proveedores[i]];
        if Contains(ToLower(proveedores[i].nombre), nombreBusqueda) {
          resultados := resultados + [proveedores[i]];
        }
        i := i + 1;
      }
      assert proveedores[..i] == proveedores;
      FiltrarMiembros(proveedores, NombreContiene(nombreBusqueda));
    }

    /** `obtenerActivos`: in list order, exactly the active providers. */
    method ObtenerActivos() returns (activos: seq<Proveedor>)
      ensures activos == Filtrar(proveedores, Activo)
      ensures forall p :: p in activos <==> p in proveedores && p.activo
    {
      activos := [];
      var i := 0;
      while i < |proveedores|
        invariant 0 <= i <= |proveedores|
        invariant activos == Filtrar(proveedores[..i], Activo)
      {
        FiltrarAppend(proveedores[..i], proveedores[i], Activo);
        assert proveedores[..i + 1] == proveedores[..i] + [proveedores[i]];
        if proveedores[i].activo {
          activos := activos + [proveedores[i]];
        }
        i := i + 1;
      }
      assert proveedores[..i] == proveedores;
      FiltrarMiembros(proveedores, Activo);
    }

    /** `buscarPorNit`: the first provider with an equal NIT, or `null`. */
    method BuscarPorNit(nit: string) returns (r: Option<Proveedor>)
      ensures r == Buscar(proveedores, ConNit(nit))
      ensures r.Some? ==> r.value in proveedores && r.value.nit == nit
      ensures r.None? <==> forall p :: p in proveedores ==> p.nit != nit
    {
      var i := 0;
      while i < |proveedores|
        invariant 0 <= i <= |proveedores|
        invariant forall j :: 0 <= j < i ==> proveedores[j].nit != nit
      {
        if proveedores[i].nit == nit {
          return Some(proveedores[i]);
        }
        i := i + 1;
      }
      return None;
    }

    /** `contarProveedores`: the number of providers in the list. */
    method ContarProveedores() returns (n: nat)
      ensures n == |proveedores|
    {
      n := |proveedores|;
    }

    /** `existeNit`: whether `buscarPorNit` finds a provider. */
    method ExisteNit(nit: string) returns (existe: bool)
      ensures existe <==> Buscar(proveedores, ConNit(nit)).Some?
      ensures existe <==> exists p :: p in proveedores && p.nit == nit
    {
      var r := BuscarPorNit(nit);
      existe := r.Some?;
    }
  }
}
