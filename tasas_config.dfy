/** The rate-table editor: edits rows, adds and deletes rows, validates the
    whole table and hands the table, sorted by `min`, to its `onSave`. */
module TasasConfig {
  import opened Common
  import opened TasasService

  /** The table the editor starts from: the one it is given, or the same
      five default ranges the service holds. */
  function TablaInicial(initialTasas: seq<Rango>): (t: seq<Rango>)
    ensures initialTasas != [] ==> t == initialTasas
    ensures initialTasas == [] ==> t == DefaultTasas
  {
    if |initialTasas| > 0 then initialTasas else DefaultTasas
  }

  // ---------------------------------------------------------------------------
  // handleInputChange

  /** An edit from one input of a row. Numeric inputs hold the text the
      number field shows: `None` when it is blank. */
  datatype Cambio =
    | CambioDescripcion(texto: string)
    | CambioMin(valor: Option<real>)
    | CambioMax(valor: Option<real>)
    | CambioTasa(valor: Option<real>)

  /** `Number(value)` for the content of a number input: blank is 0. */
  function NumberOf(v: Option<real>): real {
    match v
    case None => 0.0
    case Some(x) => x
  }

  function AplicarCambio(r: Rango, c: Cambio): (s: Rango)
    ensures s.id == r.id
    ensures s.descripcion == (if c.CambioDescripcion? then c.texto else r.descripcion)
    ensures s.min == (if c.CambioMin? then NumberOf(c.valor) else r.min)
    ensures s.max == (if c.CambioMax? then NumberOf(c.valor) else r.max)
    ensures s.tasa == (if c.CambioTasa? then NumberOf(c.valor) else r.tasa)
  {
    match c
    case CambioDescripcion(t) => r.(descripcion := t)
    case CambioMin(v) => r.(min := NumberOf(v))
    case CambioMax(v) => r.(max := NumberOf(v))
    case CambioTasa(v) => r.(tasa := NumberOf(v))
  }

  /** `tasas.map(t => t.id === id ? { ...t, [field]: value } : t)`. */
  function HandleInputChange(tasas: seq<Rango>, id: int, c: Cambio): (r: seq<Rango>)
    ensures |r| == |tasas|
    ensures forall i :: 0 <= i < |tasas| && tasas[i].id != id ==> r[i] == tasas[i]
    ensures forall i :: 0 <= i < |tasas| && tasas[i].id == id ==> r[i] == AplicarCambio(tasas[i], c)
  {
    seq(|tasas|, i requires 0 <= i < |tasas| =>
      if tasas[i].id == id then AplicarCambio(tasas[i], c) else tasas[i])
  }

  // ---------------------------------------------------------------------------
  // agregarRango, eliminarRango

  /** `Math.max(...ids, 0) + 1`: one above the largest of the ids and 0. */
  function NuevoId(tasas: seq<Rango>): (n: int)
    ensures n >= 1
    ensures forall i :: 0 <= i < |tasas| ==> tasas[i].id < n
    ensures n == 1 || exists i :: 0 <= i < |tasas| && tasas[i].id == n - 1
    ensures tasas == [] ==> n == 1
  {
    if tasas == [] then 1
    else
      var ids := Ids(tasas, (t: Rango) => t.id);
      var m := MaxOf(ids);
      assert forall i :: 0 <= i < |tasas| ==> ids[i] in ids;
      (if m > 0 then m else 0) + 1
  }

  function AgregarRango(tasas: seq<Rango>): (r: seq<Rango>)
    ensures |r| == |tasas| + 1 && r[..|tasas|] == tasas
    ensures forall i :: 0 <= i < |tasas| ==> tasas[i].id < r[|tasas|].id
    ensures r[|tasas|].id == NuevoId(tasas)
    ensures tasas == [] ==> r[0].id == 1
    ensures r[|tasas|].descripcion == "Nuevo rango " + NatToString(NuevoId(tasas))
    ensures r[|tasas|].min == 1.0 && r[|tasas|].max == 12.0 && r[|tasas|].tasa == 10.0
  {
    var id := NuevoId(tasas);
    tasas + [Rango(id, "Nuevo rango " + NatToString(id), 1.0, 12.0, 10.0)]
  }

  function EliminarRango(tasas: seq<Rango>, id: int): (r: seq<Rango>) {
    Filter(tasas, (t: Rango) => t.id != id)
  }

  /** Deleting keeps exactly the rows with another id, in their order. */
  lemma EliminarRangoExacto(tasas: seq<Rango>, id: int)
    ensures IsSubseq(EliminarRango(tasas, id), tasas)
    ensures forall t :: t in EliminarRango(tasas, id) <==> t in tasas && t.id != id
    ensures forall t :: multiset(EliminarRango(tasas, id))[t] == if t.id != id then multiset(tasas)[t] else 0
  {
    FilterEsFiltrado(tasas, (t: Rango) => t.id != id);
    FilterMembers(tasas, (t: Rango) => t.id != id);
  }

  // ---------------------------------------------------------------------------
  // validarConfiguracion

  predicate FilaValida(r: Rango) {
    r.min <= r.max && r.tasa >= 0.0
  }

  /** The editor's overlap test; the second disjunct mirrors the first. */
  predicate Superpuestos(a: Rango, b: Rango) {
    (a.min <= b.max && a.max >= b.min) || (b.min <= a.max && b.max >= a.min)
  }

  predicate SinSuperposicion(tasas: seq<Rango>) {
    forall i, j :: 0 <= i < j < |tasas| ==> !Superpuestos(tasas[i], tasas[j])
  }

  /** What `validarConfiguracion` accepts. */
  predicate TablaValida(tasas: seq<Rango>) {
    (forall i :: 0 <= i < |tasas| ==> FilaValida(tasas[i])) && SinSuperposicion(tasas)
  }

  function MensajeMinMax(r: Rango): string {
    "Error en el rango \"" + r.descripcion + "\": El mínimo no puede ser mayor que el máximo."
  }

  function MensajeTasa(r: Rango): string {
    "Error en el rango \"" + r.descripcion + "\": La tasa debe ser un valor positivo."
  }

  function MensajeSuperposicion(a: Rango, b: Rango): string {
    "Superposición detectada entre \"" + a.descripcion + "\" y \"" + b.descripcion
    + "\". Los rangos no deben solaparse."
  }

  /** `error` reports a fault of row `r` itself. */
  predicate ErrorDeFila(r: Rango, error: string) {
    (r.min > r.max && error == MensajeMinMax(r)) || (r.tasa < 0.0 && error == MensajeTasa(r))
  }

  /** `error` reports that `a` and `b` overlap. */
  predicate ErrorDePar(a: Rango, b: Rango, error: string) {
    Superpuestos(a, b) && error == MensajeSuperposicion(a, b)
  }

  /** The first overlap the inner scan meets for row `i`, looking at the
      rows from `j` on. */
  function PrimerSolape(tasas: seq<Rango>, i: int, j: int): (e: Option<string>)
    requires 0 <= i < |tasas| && i < j <= |tasas|
    ensures e.None? <==> forall m :: j <= m < |tasas| ==> !Superpuestos(tasas[i], tasas[m])
    ensures e.Some? ==> exists m :: j <= m < |tasas| && ErrorDePar(tasas[i], tasas[m], e.value)
    decreases |tasas| - j
  {
    if j == |tasas| then None
    else if Superpuestos(tasas[i], tasas[j]) then Some(MensajeSuperposicion(tasas[i], tasas[j]))
    else PrimerSolape(tasas, i, j + 1)
  }

  /** The message of the first fault the scan meets from row `i` on: for
      each row its bounds, then its rate, then its overlaps with the later
      rows; `None` when there is none. */
  function PrimerErrorDesde(tasas: seq<Rango>, i: int): Option<string>
    requires 0 <= i <= |tasas|
    decreases |tasas| - i
  {
    if i == |tasas| then None
    else if tasas[i].min > tasas[i].max then Some(MensajeMinMax(tasas[i]))
    else if tasas[i].tasa < 0.0 then Some(MensajeTasa(tasas[i]))
    else if PrimerSolape(tasas, i, i + 1).Some? then PrimerSolape(tasas, i, i + 1)
    else PrimerErrorDesde(tasas, i + 1)
  }

  function PrimerError(tasas: seq<Rango>): Option<string> {
    PrimerErrorDesde(tasas, 0)
  }

  /** From row `i` on, the scan finds nothing exactly when those rows are
      valid and none of them overlaps a later row. */
  lemma {:induction false} PrimerErrorDesdeNinguno(tasas: seq<Rango>, i: int)
    requires 0 <= i <= |tasas|
    ensures PrimerErrorDesde(tasas, i).None? <==>
              (forall k :: i <= k < |tasas| ==> FilaValida(tasas[k]))
              && (forall k, m :: i <= k < m < |tasas| ==> !Superpuestos(tasas[k], tasas[m]))
    decreases |tasas| - i
  {
    if i < |tasas| {
      PrimerErrorDesdeNinguno(tasas, i + 1);
    }
  }

  /** The scan reports nothing exactly on the tables validation accepts. */
  lemma PrimerErrorNinguno(tasas: seq<Rango>)
    ensures PrimerError(tasas).None? <==> TablaValida(tasas)
  {
    PrimerErrorDesdeNinguno(tasas, 0);
  }

  /** What the scan reports from row `i` on is a fault of a row from `i`
      on, or an overlap of such a row with a later one. */
  lemma {:induction false} PrimerErrorDesdeFalla(tasas: seq<Rango>, i: int)
    requires 0 <= i <= |tasas|
    ensures PrimerErrorDesde(tasas, i).Some? ==>
              (exists k :: i <= k < |tasas| && ErrorDeFila(tasas[k], PrimerErrorDesde(tasas, i).value))
              || (exists k, m :: i <= k < m < |tasas| && ErrorDePar(tasas[k], tasas[m], PrimerErrorDesde(tasas, i).value))
    decreases |tasas| - i
  {
    if i < |tasas| && FilaValida(tasas[i]) && PrimerSolape(tasas, i, i + 1).None? {
      PrimerErrorDesdeFalla(tasas, i + 1);
    }
  }

  /** The first row is reported by its crossed bounds before its rate or
      any overlap is looked at. */
  lemma PrimeraFilaCruzada(tasas: seq<Rango>)
    requires tasas != [] && tasas[0].min > tasas[0].max
    ensures PrimerError(tasas) == Some(MensajeMinMax(tasas[0]))
  {
  }

  /** The inner loop of `validarConfiguracion`: the rows after `i` are
      compared with row `i` in order, stopping at the first overlap. */
  method BuscarSolape(tasas: seq<Rango>, i: int) returns (e: Option<string>)
    requires 0 <= i < |tasas|
    ensures e == PrimerSolape(tasas, i, i + 1)
  {
    var rango1 := tasas[i];
    var j := i + 1;
    while j < |tasas|
      invariant i + 1 <= j <= |tasas|
      invariant PrimerSolape(tasas, i, i + 1) == PrimerSolape(tasas, i, j)
    {
      var rango2 := tasas[j];
      if (rango1.min <= rango2.max && rango1.max >= rango2.min)
         || (rango2.min <= rango1.max && rango2.max >= rango1.min) {
        return Some(MensajeSuperposicion(rango1, rango2));
      }
      j := j + 1;
    }
    return None;
  }

  /** `validarConfiguracion`: the nested scan with early returns. `error`
      is the message the component shows; empty when the table passes. */
  method ValidarConfiguracion(tasas: seq<Rango>) returns (ok: bool, error: string)
    ensures ok <==> TablaValida(tasas)
    ensures ok <==> error == ""
    ensures !ok ==> (exists i :: 0 <= i < |tasas| && ErrorDeFila(tasas[i], error))
                    || (exists i, j :: 0 <= i < j < |tasas| && ErrorDePar(tasas[i], tasas[j], error))
    ensures PrimerError(tasas) == if ok then None else Some(error)
  {
    PrimerErrorNinguno(tasas);
    PrimerErrorDesdeFalla(tasas, 0);
    var i := 0;
    while i < |tasas|
      invariant 0 <= i <= |tasas|
      invariant PrimerError(tasas) == PrimerErrorDesde(tasas, i)
    {
      var rango1 := tasas[i];
      if rango1.min > rango1.max {
        return false, MensajeMinMax(rango1);
      }
      if rango1.tasa < 0.0 {
        return false, MensajeTasa(rango1);
      }
      var solape := BuscarSolape(tasas, i);
      if solape.Some? {
        return false, solape.value;
      }
      i := i + 1;
    }
    return true, "";
  }

  /** Rows in strictly increasing, non-touching ranges: each ends before
      the next begins. */
  predicate Escalonada(tasas: seq<Rango>) {
    (forall i :: 0 <= i < |tasas| ==> tasas[i].min <= tasas[i].max)
    && forall i :: 0 <= i < |tasas| - 1 ==> tasas[i].max < tasas[i + 1].min
  }

  lemma {:induction false} EscalonadaCota(tasas: seq<Rango>, i: int, j: int)
    requires Escalonada(tasas) && 0 <= i < j < |tasas|
    ensures tasas[i].max < tasas[j].min
    decreases j - i
  {
    if j > i + 1 {
      EscalonadaCota(tasas, i + 1, j);
    }
  }

  /** A staircase table has no overlap and is sorted by `min`. */
  lemma EscalonadaSinSuperposicion(tasas: seq<Rango>)
    requires Escalonada(tasas)
    ensures SinSuperposicion(tasas) && OrdenadaPorMin(tasas)
  {
    forall i, j | 0 <= i < j < |tasas|
      ensures !Superpuestos(tasas[i], tasas[j]) && tasas[i].min <= tasas[j].min
    {
      EscalonadaCota(tasas, i, j);
    }
  }

  lemma DefaultTasasValidas()
    ensures TablaValida(DefaultTasas)
    ensures OrdenadaPorMin(DefaultTasas)
  {
    assert Escalonada(DefaultTasas);
    EscalonadaSinSuperposicion(DefaultTasas);
  }

  /** Ranges that only touch at a bound overlap: [1,3] and [3,5] fail. */
  lemma ContactoEsSuperposicion(a: Rango, b: Rango)
    requires a.min == 1.0 && a.max == 3.0 && b.min == 3.0 && b.max == 5.0
    ensures !TablaValida([a, b])
  {
    assert Superpuestos([a, b][0], [a, b][1]);
  }

  /** A row added to the default table starts as [1,12] and overlaps. */
  lemma AgregarAlDefaultNoValida()
    ensures !TablaValida(AgregarRango(DefaultTasas))
  {
    var t := AgregarRango(DefaultTasas);
    assert Superpuestos(t[0], t[5]);
  }

  /** A range 25..36 at 20% added to the defaults passes. */
  lemma AgregarVeinticincoValida(id: int, d: string)
    ensures TablaValida(DefaultTasas + [Rango(id, d, 25.0, 36.0, 20.0)])
  {
    var t := DefaultTasas + [Rango(id, d, 25.0, 36.0, 20.0)];
    assert Escalonada(t);
    EscalonadaSinSuperposicion(t);
  }

  // ---------------------------------------------------------------------------
  // guardarConfiguracion: `[...tasas].sort((a, b) => a.min - b.min)`

  predicate OrdenadaPorMin(s: seq<Rango>) {
    forall i, j :: 0 <= i < j < |s| ==> s[i].min <= s[j].min
  }

  /** A bound on `min` that holds for `init` and for `x` holds for any
      arrangement of their rows. */
  lemma CotaDePermutacion(r: seq<Rango>, init: seq<Rango>, x: Rango, cota: real)
    requires multiset(r) == multiset(init) + multiset{x}
    requires x.min <= cota
    requires forall k :: 0 <= k < |init| ==> init[k].min <= cota
    ensures forall k :: 0 <= k < |r| ==> r[k].min <= cota
  {
    forall k | 0 <= k < |r| ensures r[k].min <= cota {
      assert r[k] in multiset(r);
      if r[k] != x {
        assert r[k] in multiset(init);
        var m :| 0 <= m < |init| && init[m] == r[k];
      }
    }
  }

  /** Puts `x` after every row whose `min` is not larger (a stable insert). */
  function Insertar(s: seq<Rango>, x: Rango): (r: seq<Rango>)
    requires OrdenadaPorMin(s)
    ensures OrdenadaPorMin(r)
    ensures multiset(r) == multiset(s) + multiset{x}
  {
    if s == [] then [x]
    else if s[|s| - 1].min <= x.min then s + [x]
    else
      var init := s[..|s| - 1];
      var last := s[|s| - 1];
      assert s == init + [last];
      var r := Insertar(init, x);
      CotaDePermutacion(r, init, x, last.min);
      r + [last]
  }

  function OrdenarPorMin(s: seq<Rango>): (r: seq<Rango>)
    ensures OrdenadaPorMin(r)
    ensures multiset(r) == multiset(s)
  {
    if s == [] then []
    else
      assert s == s[..|s| - 1] + [s[|s| - 1]];
      Insertar(OrdenarPorMin(s[..|s| - 1]), s[|s| - 1])
  }

  /** `guardarConfiguracion`: the table reaches `onSave` only when it
      validates, and then sorted by `min` and with the same rows. */
  method GuardarConfiguracion(tasas: seq<Rango>) returns (guardadas: Option<seq<Rango>>, error: string)
    ensures guardadas.Some? <==> TablaValida(tasas)
    ensures guardadas.Some? ==> OrdenadaPorMin(guardadas.value)
                                && multiset(guardadas.value) == multiset(tasas)
    ensures guardadas.Some? <==> error == ""
  {
    var ok;
    ok, error := ValidarConfiguracion(tasas);
    if ok {
      guardadas := Some(OrdenarPorMin(tasas));
    } else {
      guardadas := None;
    }
  }
}
