/** The thousands-separator formatter of the amount inputs: keep the digits
    of the text, then put a `.` before every digit that is not the first and
    is followed by a whole number of groups of three digits (the global
    replacement of `\B(?=(\d{3})+(?!\d))` by `.`). */
module Miles {
  import opened Common

  /** `replace(/[^\d]/g, '')`. */
  function SoloDigitos(s: string): (r: string)
    ensures AllDigits(r)
    ensures IsSubseq(r, s)
    ensures forall c :: c in r <==> c in s && IsDigit(c)
    ensures forall c :: multiset(r)[c] == if IsDigit(c) then multiset(s)[c] else 0
  {
    FilterEsFiltrado(s, IsDigit);
    FilterMembers(s, IsDigit);
    var r := Filter(s, IsDigit);
    assert forall i :: 0 <= i < |r| ==> r[i] in r;
    r
  }

  /** A digit string keeps all its characters. */
  lemma SoloDigitosDeDigitos(t: string)
    requires AllDigits(t)
    ensures SoloDigitos(t) == t
  {
    forall x | x in t ensures IsDigit(x) {
      var i :| 0 <= i < |t| && t[i] == x;
    }
    FilterAll(t, IsDigit);
  }

  predicate NoPunto(c: char) {
    c != '.'
  }

  /** `replace(/\./g, '')`. */
  function SinPuntos(s: string): (r: string)
    ensures IsSubseq(r, s)
    ensures forall c :: c in r <==> c in s && c != '.'
    ensures forall c :: multiset(r)[c] == if c != '.' then multiset(s)[c] else 0
  {
    FilterEsFiltrado(s, NoPunto);
    FilterMembers(s, NoPunto);
    Filter(s, NoPunto)
  }

  /** `n` digits make one or more groups of three: `(\d{3})+`. */
  predicate GruposDeTres(n: int)
    decreases n
  {
    n >= 3 && (n == 3 || GruposDeTres(n - 3))
  }

  /** In a digit string, the regular expression matches (empty) just before
      position `p`: `\B` holds between two digits, and the lookahead needs
      the digits from `p` to the end to be whole groups of three with no
      digit after them. */
  predicate PuntoAntes(t: string, p: int) {
    0 < p < |t| && GruposDeTres(|t| - p)
  }

  /** The replacement applied to the first `q` characters of `t`. */
  function Reemplazo(t: string, q: nat): string
    requires q <= |t|
  {
    if q == 0 then []
    else Reemplazo(t, q - 1) + (if PuntoAntes(t, q - 1) then "." else "") + [t[q - 1]]
  }

  /** `formatCurrencyInput` (and the identical `formatCurrency` of the client
      form). */
  function FormatCurrencyInput(s: string): string {
    var t := SoloDigitos(s);
    Reemplazo(t, |t|)
  }

  /** The grouping spelled out from the right: the last three digits, a
      dot, and the grouping of what comes before them. */
  function Agrupar(t: string): (o: string)
    ensures t == [] ==> o == []
    ensures t != [] ==> |o| == |t| + (|t| - 1) / 3
    decreases |t|
  {
    if |t| <= 3 then t else Agrupar(t[..|t| - 3]) + "." + t[|t| - 3..]
  }

  /** A formatted amount: one to three digits, then groups of a dot and
      exactly three digits. */
  predicate BienAgrupado(o: string)
    decreases |o|
  {
    (1 <= |o| <= 3 && AllDigits(o))
    || (|o| > 4 && o[|o| - 4] == '.' && AllDigits(o[|o| - 3..]) && BienAgrupado(o[..|o| - 4]))
  }

  // ---------------------------------------------------------------------------
  // The replacement is the grouping.

  lemma {:induction false} ReemplazoCorto(t: string, q: nat)
    requires q <= |t| <= 3
    ensures Reemplazo(t, q) == t[..q]
  {
    if q > 0 {
      ReemplazoCorto(t, q - 1);
      assert t[..q] == t[..q - 1] + [t[q - 1]];
    }
  }

  /** Cutting a whole number of groups off the end does not move the dots
      before the cut. */
  lemma {:induction false} ReemplazoPrefijo(t: string, u: string, q: nat)
    requires q <= |u| && |t| == |u| + 3 && u == t[..|u|]
    ensures Reemplazo(t, q) == Reemplazo(u, q)
  {
    if q > 0 {
      ReemplazoPrefijo(t, u, q - 1);
      assert GruposDeTres(|t| - (q - 1)) == GruposDeTres(|u| - (q - 1));
      assert t[q - 1] == u[q - 1];
    }
  }

  /** The last three characters of a longer string get one dot before
      them and none between them. */
  lemma ReemplazoPaso(t: string, q: nat)
    requires 0 < q <= |t|
    ensures PuntoAntes(t, q - 1) ==> Reemplazo(t, q) == Reemplazo(t, q - 1) + "." + [t[q - 1]]
    ensures !PuntoAntes(t, q - 1) ==> Reemplazo(t, q) == Reemplazo(t, q - 1) + [t[q - 1]]
  {
  }

  lemma UltimoGrupo(t: string)
    requires |t| > 3
    ensures Reemplazo(t, |t|) == Reemplazo(t, |t| - 3) + "." + t[|t| - 3..]
  {
    var n := |t|;
    ReemplazoPaso(t, n);
    ReemplazoPaso(t, n - 1);
    ReemplazoPaso(t, n - 2);
    assert PuntoAntes(t, n - 3) && !PuntoAntes(t, n - 2) && !PuntoAntes(t, n - 1);
    TresUltimos(t, Reemplazo(t, n - 3) + ".");
  }

  lemma TresUltimos(t: string, p: string)
    requires |t| >= 3
    ensures p + [t[|t| - 3]] + [t[|t| - 2]] + [t[|t| - 1]] == p + t[|t| - 3..]
  {
    assert t[|t| - 3..] == [t[|t| - 3], t[|t| - 2], t[|t| - 1]];
  }

  lemma {:induction false} ReemplazoEsAgrupar(t: string)
    ensures Reemplazo(t, |t|) == Agrupar(t)
    decreases |t|
  {
    if |t| <= 3 {
      ReemplazoCorto(t, |t|);
    } else {
      var u := t[..|t| - 3];
      calc {
        Reemplazo(t, |t|);
        { UltimoGrupo(t); }
        Reemplazo(t, |u|) + "." + t[|t| - 3..];
        { ReemplazoPrefijo(t, u, |u|); }
        Reemplazo(u, |u|) + "." + t[|t| - 3..];
        { ReemplazoEsAgrupar(u); }
        Agrupar(u) + "." + t[|t| - 3..];
      }
    }
  }

  // ---------------------------------------------------------------------------
  // Properties of the grouping.

  lemma {:induction false} AgruparBienAgrupado(t: string)
    requires AllDigits(t) && t != []
    ensures BienAgrupado(Agrupar(t))
    decreases |t|
  {
    if |t| > 3 {
      var u := t[..|t| - 3];
      AgruparBienAgrupado(u);
      var o := Agrupar(t);
      assert o[..|o| - 4] == Agrupar(u);
      assert o[|o| - 3..] == t[|t| - 3..];
    }
  }

  lemma {:induction false} AgruparSinPuntos(t: string)
    requires AllDigits(t)
    ensures SinPuntos(Agrupar(t)) == t
    decreases |t|
  {
    if |t| <= 3 {
      FilterAll(t, NoPunto);
    } else {
      var u := t[..|t| - 3];
      var w := t[|t| - 3..];
      assert AllDigits(u) && AllDigits(w);
      calc {
        SinPuntos(Agrupar(t));
        Filter(Agrupar(u) + "." + w, NoPunto);
        { FilterConcat(Agrupar(u) + ".", w, NoPunto); }
        Filter(Agrupar(u) + ".", NoPunto) + Filter(w, NoPunto);
        { FilterConcat(Agrupar(u), ".", NoPunto); }
        Filter(Agrupar(u), NoPunto) + Filter(".", NoPunto) + Filter(w, NoPunto);
        { AgruparSinPuntos(u); FilterAll(w, NoPunto); assert Filter(".", NoPunto) == []; }
        u + [] + w;
        { assert u + w == t; }
        t;
      }
    }
  }

  // ---------------------------------------------------------------------------
  // Properties of the formatter.

  /** The formatted text is the input's digits, in order, with dots put in
      between groups of three counted from the right: deleting the dots
      gives the digits back, only digits and dots occur, and the grouping is
      well formed (empty exactly when the input has no digit). */
  lemma FormatoCorrecto(s: string)
    ensures SinPuntos(FormatCurrencyInput(s)) == SoloDigitos(s)
    ensures forall i :: 0 <= i < |FormatCurrencyInput(s)| ==>
              IsDigit(FormatCurrencyInput(s)[i]) || FormatCurrencyInput(s)[i] == '.'
    ensures SoloDigitos(s) == [] <==> FormatCurrencyInput(s) == []
    ensures SoloDigitos(s) != [] ==> BienAgrupado(FormatCurrencyInput(s))
  {
    var t := SoloDigitos(s);
    var o := FormatCurrencyInput(s);
    ReemplazoEsAgrupar(t);
    AgruparSinPuntos(t);
    if t != [] {
      AgruparBienAgrupado(t);
    }
    forall i | 0 <= i < |o|
      ensures IsDigit(o[i]) || o[i] == '.'
    {
      assert o[i] in o;
      if o[i] != '.' {
        assert o[i] in SinPuntos(o);
      }
    }
  }

  /** Formatting a formatted text changes nothing. */
  lemma FormatoIdempotente(s: string)
    ensures FormatCurrencyInput(FormatCurrencyInput(s)) == FormatCurrencyInput(s)
  {
    var o := FormatCurrencyInput(s);
    FormatoCorrecto(s);
    assert forall x :: x in o ==> IsDigit(x) == NoPunto(x);
    FilterSame(o, IsDigit, NoPunto);
    assert SoloDigitos(o) == SoloDigitos(s);
  }

  /** Deleting the dots first does not change the digits kept. */
  lemma SoloDigitosSinPuntos(s: string)
    ensures SoloDigitos(SinPuntos(s)) == SoloDigitos(s)
  {
    FilterFilter(s, NoPunto, IsDigit, IsDigit);
  }

  /** What the amount input shows and the number stored in the form. */
  datatype Entrada = Entrada(mostrado: string, valor: nat)

  /** `handleCurrencyInput`: the dots of the typed text are removed, the
      rest is formatted, and the form stores `parseInt` of the formatted
      text without its dots, or 0 when it is empty. The stored number is
      the value of the digits typed and the text shown is their grouping. */
  function HandleCurrencyInput(value: string): (e: Entrada)
    ensures e.mostrado == FormatCurrencyInput(value)
    ensures e.valor == DigitsValue(SoloDigitos(value))
    ensures SoloDigitos(value) != [] ==> BienAgrupado(e.mostrado)
  {
    var nuevo := FormatCurrencyInput(SinPuntos(value));
    SoloDigitosSinPuntos(value);
    FormatoCorrecto(value);
    Entrada(nuevo, if nuevo == [] then 0 else DigitsValue(SinPuntos(nuevo)))
  }

  /** The client form's default limit, 50000, is shown as `50.000`. */
  lemma CincuentaMil()
    ensures FormatCurrencyInput("50000") == "50.000"
  {
    var t := "50000";
    calc {
      FormatCurrencyInput(t);
      { assert AllDigits(t); SoloDigitosDeDigitos(t); }
      Reemplazo(t, |t|);
      { ReemplazoEsAgrupar(t); }
      Agrupar(t);
      { assert t[..2] == "50" && t[2..] == "000"; }
      Agrupar("50") + "." + "000";
      "50" + "." + "000";
      { assert "50" + "." + "000" == "50.000"; }
      "50.000";
    }
  }
}
