/** The installment table of an operation: at most `maxCuotasVisibles` rows
    (6 unless told otherwise), a footer counting the rows left out, and a
    placeholder text when there is nothing to show. */
module DetalleCuotas {
  import opened Common

  /** The window size used when none is given. */
  const MaxCuotasVisiblesPorDefecto: int := 6

  /** What the component renders: the placeholder, or the rows shown and,
      when some are not, the count the footer reports. */
  datatype Vista<T> = Placeholder | Tabla(filas: seq<T>, restantes: Option<int>)

  /** Where `slice(0, fin)` stops on a list of `n` elements: a negative end
      counts from the back, and the end is clamped to `0..n`. */
  function FinDeSlice(n: nat, fin: int): (k: nat)
    ensures k <= n
    ensures 0 <= fin <= n ==> k == fin
    ensures fin >= n ==> k == n
    ensures fin < 0 <= n + fin ==> k - fin == n
    ensures n + fin <= 0 ==> k == 0
  {
    if fin >= 0 then (if fin < n then fin else n)
    else if n + fin > 0 then n + fin else 0
  }

  /** The component. `None` stands for a missing list. */
  function Render<T>(cuotas: Option<seq<T>>, maxCuotasVisibles: int): (v: Vista<T>)
    ensures v.Placeholder? <==> cuotas.None? || cuotas.value == []
    ensures v.Tabla? ==> v.filas == cuotas.value[..FinDeSlice(|cuotas.value|, maxCuotasVisibles)]
    ensures v.Tabla? ==> (v.restantes.Some? <==> |cuotas.value| > maxCuotasVisibles)
    ensures v.Tabla? && v.restantes.Some? ==> v.restantes.value == |cuotas.value| - maxCuotasVisibles
  {
    if cuotas.None? || |cuotas.value| == 0 then Placeholder
    else
      var filas := cuotas.value[..FinDeSlice(|cuotas.value|, maxCuotasVisibles)];
      var restantes := if |cuotas.value| > maxCuotasVisibles then Some(|cuotas.value| - maxCuotasVisibles) else None;
      Tabla(filas, restantes)
  }

  /** With a window of size `m >= 0`, the first `min(len, m)` installments
      are shown in their order, and those shown plus those the footer
      counts are all of them. */
  lemma VentanaCompleta<T>(cuotas: seq<T>, m: int)
    requires cuotas != [] && m >= 0
    ensures var v := Render(Some(cuotas), m);
            v.Tabla?
            && |v.filas| == (if |cuotas| < m then |cuotas| else m)
            && (forall i :: 0 <= i < |v.filas| ==> v.filas[i] == cuotas[i])
            && |v.filas| + (if v.restantes.Some? then v.restantes.value else 0) == |cuotas|
  {
  }

  /** With a negative window `-j`, the last `j` installments (all of them
      when there are fewer) are left out and the rest shown in order. */
  lemma VentanaNegativa<T>(cuotas: seq<T>, j: int)
    requires cuotas != [] && j > 0
    ensures var v := Render(Some(cuotas), -j);
            v.Tabla?
            && |cuotas| - |v.filas| == (if j < |cuotas| then j else |cuotas|)
            && v.filas + cuotas[|v.filas|..] == cuotas
  {
    var v := Render(Some(cuotas), -j);
    assert v.filas == cuotas[..|v.filas|];
  }

  /** Twelve installments with the default window: six rows, "6 más". */
  lemma DoceCuotas<T>(cuotas: seq<T>)
    requires |cuotas| == 12
    ensures Render(Some(cuotas), MaxCuotasVisiblesPorDefecto) == Tabla(cuotas[..6], Some(6))
  {
  }

  /** Up to the window size, every installment is shown and no footer. */
  lemma SinPie<T>(cuotas: seq<T>, m: int)
    requires cuotas != [] && |cuotas| <= m
    ensures Render(Some(cuotas), m) == Tabla(cuotas, None)
  {
  }
}
