/** The provider search box of `VentanaUnificada`: every document change calls
    `buscarConDebounce`, which stops the running search timer, if any, and arms
    a new one-shot 300 ms `javax.swing.Timer` whose action is
    `filtrarProveedores`. The clock is not modelled: a timer's delay elapsing
    is an explicit `Vence` event that may arrive at any moment. */
module SearchDebounce {
  import opened Common

  /** The delay passed to `new Timer(300, ...)`, in milliseconds. */
  const RetardoMs: nat := 300

  /** A Swing timer as far as the search uses it. */
  datatype Timer = Timer(retardo: nat, repite: bool, corriendo: bool)

  /** Every timer created so far, in creation order; `searchTimer` indexes the one
      the field refers to; `filtrados` lists, in order, the timers whose action
      ran `filtrarProveedores`. */
  datatype Estado = Estado(timers: seq<Timer>, searchTimer: Option<nat>, filtrados: seq<nat>)

  /** What `buscarConDebounce` keeps true: the field refers to the newest timer,
      only that one can be running, and every timer is a one-shot 300 ms timer. */
  ghost predicate Inv(s: Estado)
  {
    && (s.searchTimer.None? <==> s.timers == [])
    && (s.searchTimer.Some? ==> s.searchTimer.value == |s.timers| - 1)
    && (forall k :: 0 <= k < |s.timers| && s.timers[k].corriendo ==> s.searchTimer == Some(k))
    && (forall k :: 0 <= k < |s.timers| ==> s.timers[k].retardo == RetardoMs && !s.timers[k].repite)
  }

  /** Before the first keystroke there is no timer. */
  function Inicial(): (s: Estado)
    ensures s.timers == [] && s.searchTimer.None? && s.filtrados == []
    ensures Inv(s)
  {
    Estado([], None, [])
  }

  /** `buscarConDebounce`: a running `searchTimer` is stopped; a new timer with
      delay 300 and `setRepeats(false)` is created, started and stored in the field. */
  function Buscar(s: Estado): (r: Estado)
    requires s.searchTimer.Some? ==> s.searchTimer.value < |s.timers|
    ensures Inv(s) ==> Inv(r)
    ensures |r.timers| == |s.timers| + 1 && r.searchTimer == Some(|s.timers|)
    ensures r.timers[|s.timers|] == Timer(RetardoMs, false, true)
    ensures Inv(s) ==> forall k :: 0 <= k < |s.timers| ==> !r.timers[k].corriendo
    ensures r.filtrados == s.filtrados
  {
    var timers :=
      if s.searchTimer.Some? && s.timers[s.searchTimer.value].corriendo then
        s.timers[s.searchTimer.value := s.timers[s.searchTimer.value].(corriendo := false)]
      else s.timers;
    Estado(timers + [Timer(RetardoMs, false, true)], Some(|s.timers|), s.filtrados)
  }

  /** The delay of timer `k` elapses: a running timer fires its action, and a
      one-shot timer stops; a stopped timer does nothing. */
  function Vencer(s: Estado, k: nat): (r: Estado)
    ensures Inv(s) ==> Inv(r)
    ensures |r.timers| == |s.timers| && r.searchTimer == s.searchTimer
    ensures k < |s.timers| && s.timers[k].corriendo ==> r.filtrados == s.filtrados + [k]
    ensures !(k < |s.timers| && s.timers[k].corriendo) ==> r == s
  {
    if k < |s.timers| && s.timers[k].corriendo then
      Estado(s.timers[k := s.timers[k].(corriendo := s.timers[k].repite)], s.searchTimer, s.filtrados + [k])
    else s
  }

  /** An input event: a document change, or timer `k`'s delay elapsing. */
  datatype Evento = Tecla | Vence(k: nat)

  /** The state after a sequence of events. */
  function Correr(s: Estado, evs: seq<Evento>): (r: Estado)
    requires Inv(s)
    ensures Inv(r)
    decreases |evs|
  {
    if evs == [] then s
    else
      var t := if evs[0].Tecla? then Buscar(s) else Vencer(s, evs[0].k);
      Correr(t, evs[1..])
  }

  /** `n` document changes in a row. */
  function Rafaga(n: nat): (evs: seq<Evento>)
    ensures |evs| == n && forall i :: 0 <= i < n ==> evs[i] == Tecla
  {
    if n == 0 then [] else [Tecla] + Rafaga(n - 1)
  }

  /** Only the timer armed by the latest keystroke can fire: a stopped earlier timer
      never does. */
  lemma SoloDisparaElUltimo(s: Estado, k: nat)
    requires Inv(s) && k < |s.timers| && s.searchTimer != Some(k)
    ensures Vencer(s, k) == s
  {
  }

  /** Between one keystroke and the next, `filtrarProveedores` runs at most once,
      and only from the timer that keystroke armed, however the expiries arrive. */
  lemma {:induction false} UnDisparoPorPausa(s: Estado, evs: seq<Evento>)
    requires Inv(s)
    requires forall i :: 0 <= i < |evs| ==> evs[i].Vence?
    ensures var r := Correr(Buscar(s), evs);
      r.filtrados == s.filtrados || r.filtrados == s.filtrados + [|s.timers|]
  {
    SinTeclas(Buscar(s), evs, s.filtrados, |s.timers|);
  }

  /** The induction behind `UnDisparoPorPausa`: while no keystroke arrives, timer `m`
      is the only one that may run, and once it has fired it runs no more. */
  lemma {:induction false} SinTeclas(t: Estado, evs: seq<Evento>, base: seq<nat>, m: nat)
    requires Inv(t) && t.searchTimer == Some(m)
    requires forall i :: 0 <= i < |evs| ==> evs[i].Vence?
    requires t.filtrados == base || (t.filtrados == base + [m] && !t.timers[m].corriendo)
    ensures Correr(t, evs).filtrados == base || Correr(t, evs).filtrados == base + [m]
    decreases |evs|
  {
    if evs != [] {
      var u := Vencer(t, evs[0].k);
      assert Correr(t, evs) == Correr(u, evs[1..]);
      if evs[0].k < |t.timers| && t.timers[evs[0].k].corriendo {
        assert evs[0].k == m;
        assert !u.timers[m].corriendo;
      }
      SinTeclas(u, evs[1..], base, m);
    }
  }

  /** A burst of `n >= 1` keystrokes with no pause, followed by any expiries, runs
      `filtrarProveedores` at most once, from the timer the last keystroke armed. */
  lemma {:induction false} RafagaDisparaUnaVez(s: Estado, n: nat, evs: seq<Evento>)
    requires Inv(s) && n >= 1
    requires forall i :: 0 <= i < |evs| ==> evs[i].Vence?
    ensures var r := Correr(s, Rafaga(n) + evs);
      r.filtrados == s.filtrados || r.filtrados == s.filtrados + [|s.timers| + n - 1]
    decreases n
  {
    var b := Buscar(s);
    assert (Rafaga(n) + evs)[1..] == Rafaga(n - 1) + evs;
    assert Correr(s, Rafaga(n) + evs) == Correr(b, Rafaga(n - 1) + evs);
    if n == 1 {
      UnDisparoPorPausa(s, evs);
    } else {
      RafagaDisparaUnaVez(b, n - 1, evs);
    }
  }

  /** The window's search state, updated in place. */
  class BusquedaProveedores {
    var timers: seq<Timer>
    var searchTimer: Option<nat>
    var filtrados: seq<nat>

    /** The fields as a state of the machine. */
    function Actual(): Estado
      reads this
    {
      Estado(timers, searchTimer, filtrados)
    }

    ghost predicate Valid()
      reads this
    {
      Inv(Actual())
    }

    constructor ()
      ensures Valid() && Actual() == Inicial()
    {
      timers, searchTimer, filtrados := [], None, [];
    }

    /** `buscarConDebounce`. */
    method BuscarConDebounce()
      requires Valid()
      modifies this
      ensures Valid() && Actual() == Buscar(old(Actual()))
    {
      if searchTimer.Some? && timers[searchTimer.value].corriendo {
        timers := timers[searchTimer.value := timers[searchTimer.value].(corriendo := false)];
      }
      searchTimer := Some(|timers|);
      timers := timers + [Timer(RetardoMs, false, true)];
    }

    /** The delay of timer `k` elapses. */
    method AlVencer(k: nat)
      requires Valid()
      modifies this
      ensures Valid() && Actual() == Vencer(old(Actual()), k)
    {
      if k < |timers| && timers[k].corriendo {
        filtrados := filtrados + [k];
        timers := timers[k := timers[k].(corriendo := timers[k].repite)];
      }
    }
  }
}
