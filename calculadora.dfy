/** The loan calculator: an annuity ("French system") schedule for a
    principal plus fees, at a monthly rate over a number of installments. */
module Calculadora {
  import opened Common
  import opened TasasService

  /** A remaining balance below this is written as 0 (rounding guard). */
  const UmbralSaldo: real := 0.01

  datatype FilaFrancesa = FilaFrancesa(numero: int, cuota: real, interes: real, capital: real, saldo: real)

  datatype PlanFrances = PlanFrances(cuotaFija: real, totalPagado: real, totalInteres: real,
                                     detalleCuotas: seq<FilaFrancesa>)

  function Pow(x: real, n: nat): real {
    if n == 0 then 1.0 else x * Pow(x, n - 1)
  }

  /** The clamp applied to the balance after each payment. */
  function Recortar(x: real): real {
    if x < UmbralSaldo then 0.0 else x
  }

  /** The annuity formula `P * (r * q^n) / (q^n - 1)` with `q = 1 + r`. */
  function CuotaFrancesa(p: real, r: real, n: nat): real
    requires Pow(1.0 + r, n) != 1.0
  {
    p * (r * Pow(1.0 + r, n)) / (Pow(1.0 + r, n) - 1.0)
  }

  /** The balance after `k` payments in exact arithmetic, before any clamp. */
  function SaldoTeorico(p: real, r: real, cuota: real, k: nat): real {
    if k == 0 then p
    else
      var s := SaldoTeorico(p, r, cuota, k - 1);
      s - (cuota - s * r)
  }

  /** The balance before row `k`: the starting principal, or the last saldo. */
  function SaldoPrevio(s: seq<FilaFrancesa>, k: int, p: real): real
    requires 0 <= k <= |s|
  {
    if k == 0 then p else s[k - 1].saldo
  }

  /** One loop step from balance `previo`: interest on the balance, the rest
      of the installment to capital, and the clamped new balance. */
  predicate Paso(previo: real, interes: real, capital: real, saldo: real, r: real, cuota: real) {
    interes == previo * r && capital == cuota - interes && saldo == Recortar(previo - capital)
  }

  /** Row `k` is the step the loop takes from the balance before it. */
  predicate FilaCorrecta(s: seq<FilaFrancesa>, k: int, p: real, r: real, cuota: real)
    requires 0 <= k < |s|
  {
    s[k].numero == k + 1
    && s[k].cuota == cuota
    && Paso(SaldoPrevio(s, k, p), s[k].interes, s[k].capital, s[k].saldo, r, cuota)
  }

  predicate PlanCorrecto(s: seq<FilaFrancesa>, p: real, r: real, cuota: real) {
    forall k :: 0 <= k < |s| ==> FilaCorrecta(s, k, p, r, cuota)
  }

  /** Row `k` of a correct plan is determined by the rows before it. */
  lemma {:induction false} FilaUnica(s: seq<FilaFrancesa>, t: seq<FilaFrancesa>, p: real, r: real, cuota: real, k: nat)
    requires PlanCorrecto(s, p, r, cuota) && PlanCorrecto(t, p, r, cuota)
    requires k < |s| && k < |t|
    ensures s[k] == t[k]
  {
    if k > 0 {
      FilaUnica(s, t, p, r, cuota, k - 1);
    }
    assert FilaCorrecta(s, k, p, r, cuota) && FilaCorrecta(t, k, p, r, cuota);
  }

  /** The schedule is a function of principal, rate, installment and
      length: two correct plans of the same length are equal. */
  lemma PlanCorrectoUnico(s: seq<FilaFrancesa>, t: seq<FilaFrancesa>, p: real, r: real, cuota: real)
    requires PlanCorrecto(s, p, r, cuota) && PlanCorrecto(t, p, r, cuota)
    requires |s| == |t|
    ensures s == t
  {
    forall k | 0 <= k < |s| ensures s[k] == t[k] {
      FilaUnica(s, t, p, r, cuota, k);
    }
  }

  /** Appending the next step keeps a plan correct. */
  lemma PlanCorrectoExtendido(s: seq<FilaFrancesa>, fila: FilaFrancesa, p: real, r: real, cuota: real)
    requires PlanCorrecto(s, p, r, cuota)
    requires fila.numero == |s| + 1 && fila.cuota == cuota
    requires Paso(SaldoPrevio(s, |s|, p), fila.interes, fila.capital, fila.saldo, r, cuota)
    ensures PlanCorrecto(s + [fila], p, r, cuota)
  {
    var t := s + [fila];
    forall k | 0 <= k < |t|
      ensures FilaCorrecta(t, k, p, r, cuota)
    {
      assert SaldoPrevio(t, k, p) == SaldoPrevio(s, k, p);
      if k < |s| {
        assert FilaCorrecta(s, k, p, r, cuota);
        assert t[k] == s[k];
      }
    }
  }

  /** Every stored balance is 0 or at least the clamp threshold. */
  lemma SaldosAcotados(s: seq<FilaFrancesa>, p: real, r: real, cuota: real)
    requires PlanCorrecto(s, p, r, cuota)
    ensures forall k :: 0 <= k < |s| ==> s[k].saldo == 0.0 || s[k].saldo >= UmbralSaldo
  {
    forall k | 0 <= k < |s|
      ensures s[k].saldo == 0.0 || s[k].saldo >= UmbralSaldo
    {
      assert FilaCorrecta(s, k, p, r, cuota);
    }
  }

  // ---------------------------------------------------------------------------
  // Exact amortisation. The algebra is done on plain values (the lemmas
  // ending in `Valores`) and connected to the recursive definitions through
  // the predicates below.

  predicate PasoSaldo(s: real, s1: real, r: real, cuota: real) {
    s1 == s - (cuota - s * r)
  }

  predicate PasoPot(pk: real, pk1: real, q: real) {
    pk1 == q * pk
  }

  /** `s * r - cuota == pk * d0`. */
  predicate RelGeometrica(s: real, pk: real, r: real, cuota: real, d0: real) {
    s * r - cuota == pk * d0
  }

  /** The capital part of payment `k + 1`, `cuota - S_k * r`, is that of the
      first payment times `(1 + r)^k`. */
  predicate Geometrico(p: real, r: real, cuota: real, k: nat) {
    RelGeometrica(SaldoTeorico(p, r, cuota, k), Pow(1.0 + r, k), r, cuota, p * r - cuota)
  }

  lemma SaldoTeoricoPaso(p: real, r: real, cuota: real, k: nat)
    requires k > 0
    ensures PasoSaldo(SaldoTeorico(p, r, cuota, k - 1), SaldoTeorico(p, r, cuota, k), r, cuota)
  {
  }

  lemma PowPaso(x: real, k: nat)
    requires k > 0
    ensures PasoPot(Pow(x, k - 1), Pow(x, k), x)
  {
  }

  lemma GeometricoValores(s: real, s1: real, r: real, cuota: real, pk: real, pk1: real, d0: real)
    requires PasoSaldo(s, s1, r, cuota)
    requires PasoPot(pk, pk1, 1.0 + r)
    requires RelGeometrica(s, pk, r, cuota, d0)
    ensures RelGeometrica(s1, pk1, r, cuota, d0)
  {
    calc {
      s1 * r - cuota;
      (s - (cuota - s * r)) * r - cuota;
      (1.0 + r) * (s * r - cuota);
      (1.0 + r) * (pk * d0);
      ((1.0 + r) * pk) * d0;
    }
  }

  lemma GeometricoPaso(p: real, r: real, cuota: real, k: nat)
    requires k > 0
    requires Geometrico(p, r, cuota, k - 1)
    ensures Geometrico(p, r, cuota, k)
  {
    SaldoTeoricoPaso(p, r, cuota, k);
    PowPaso(1.0 + r, k);
    GeometricoValores(SaldoTeorico(p, r, cuota, k - 1), SaldoTeorico(p, r, cuota, k), r, cuota,
                      Pow(1.0 + r, k - 1), Pow(1.0 + r, k), p * r - cuota);
  }

  lemma {:induction false} SaldoGeometrico(p: real, r: real, cuota: real, k: nat)
    ensures Geometrico(p, r, cuota, k)
  {
    if k > 0 {
      SaldoGeometrico(p, r, cuota, k - 1);
      GeometricoPaso(p, r, cuota, k);
    }
  }

  /** With a zero rate the formula's denominator `1^n - 1` is zero. */
  lemma {:induction false} PowUno(n: nat)
    ensures Pow(1.0, n) == 1.0
  {
    if n > 0 {
      PowUno(n - 1);
    }
  }

  lemma {:induction false} PowMayorQueUno(x: real, n: nat)
    requires x > 1.0 && n >= 1
    ensures Pow(x, n) > 1.0
  {
    if n > 1 {
      PowMayorQueUno(x, n - 1);
      assert x * Pow(x, n - 1) > x * 1.0;
    }
  }

  predicate CuotaDe(cuota: real, p: real, r: real, bigQ: real) {
    cuota * (bigQ - 1.0) == p * (r * bigQ)
  }

  lemma DivisionValores(c: real, x: real, d: real)
    requires d != 0.0 && c == x / d
    ensures c * d == x
  {
  }

  lemma CuotaFrancesaDe(p: real, r: real, n: nat)
    requires Pow(1.0 + r, n) != 1.0
    ensures CuotaDe(CuotaFrancesa(p, r, n), p, r, Pow(1.0 + r, n))
  {
    DivisionValores(CuotaFrancesa(p, r, n), p * (r * Pow(1.0 + r, n)), Pow(1.0 + r, n) - 1.0);
  }

  lemma AmortizaValores(sn: real, p: real, r: real, cuota: real, bigQ: real)
    requires r != 0.0
    requires CuotaDe(cuota, p, r, bigQ)
    requires RelGeometrica(sn, bigQ, r, cuota, p * r - cuota)
    ensures sn == 0.0
  {
    calc {
      sn * r;
      cuota + bigQ * (p * r - cuota);
      p * (r * bigQ) - cuota * (bigQ - 1.0);
      0.0;
    }
  }

  /** The annuity installment pays the loan off exactly: after `n` exact
      payments the balance is 0, for every rate the formula is defined for. */
  lemma CuotaFrancesaAmortiza(p: real, r: real, n: nat)
    requires Pow(1.0 + r, n) != 1.0
    ensures SaldoTeorico(p, r, CuotaFrancesa(p, r, n), n) == 0.0
  {
    if r == 0.0 {
      PowUno(n);
      assert false;
    }
    var cuota := CuotaFrancesa(p, r, n);
    CuotaFrancesaDe(p, r, n);
    SaldoGeometrico(p, r, cuota, n);
    AmortizaValores(SaldoTeorico(p, r, cuota, n), p, r, cuota, Pow(1.0 + r, n));
  }

  /** With a positive rate and a non-negative principal the installment is
      non-negative. */
  lemma CuotaNoNegativa(p: real, r: real, n: nat)
    requires r > 0.0 && n >= 1 && p >= 0.0
    ensures Pow(1.0 + r, n) > 1.0
    ensures CuotaFrancesa(p, r, n) >= 0.0
  {
    PowMayorQueUno(1.0 + r, n);
    var bigQ := Pow(1.0 + r, n);
    var x := p * (r * bigQ);
    assert r * bigQ > 0.0;
    assert x >= 0.0;
    var d := bigQ - 1.0;
    assert d > 0.0;
    assert x / d >= 0.0;
  }

  /** A clamped step from a balance that is 0 or the exact one leads to 0 or
      the next exact balance, as long as the installment is non-negative. */
  lemma PasoRecortadoValores(previo: real, interes: real, capital: real, saldo: real, r: real, cuota: real,
                             sk: real, sk1: real)
    requires cuota >= 0.0
    requires Paso(previo, interes, capital, saldo, r, cuota)
    requires previo == 0.0 || previo == sk
    requires PasoSaldo(sk, sk1, r, cuota)
    ensures saldo == 0.0 || saldo == sk1
  {
  }

  /** In a plan the loop produced, every balance is 0 or the exact balance. */
  lemma {:induction false} SaldosDelPlan(s: seq<FilaFrancesa>, p: real, r: real, cuota: real, k: nat)
    requires PlanCorrecto(s, p, r, cuota) && cuota >= 0.0 && k < |s|
    ensures s[k].saldo == 0.0 || s[k].saldo == SaldoTeorico(p, r, cuota, k + 1)
  {
    if k > 0 {
      SaldosDelPlan(s, p, r, cuota, k - 1);
    }
    assert FilaCorrecta(s, k, p, r, cuota);
    SaldoTeoricoPaso(p, r, cuota, k + 1);
    PasoRecortadoValores(SaldoPrevio(s, k, p), s[k].interes, s[k].capital, s[k].saldo, r, cuota,
                         SaldoTeorico(p, r, cuota, k), SaldoTeorico(p, r, cuota, k + 1));
  }

  /** With a positive rate and a non-negative principal, the schedule ends
      at a zero balance, and every balance is 0 or the exact one. */
  lemma PlanAmortiza(s: seq<FilaFrancesa>, p: real, r: real, n: nat)
    requires r > 0.0 && p >= 0.0 && n >= 1 && |s| == n
    requires Pow(1.0 + r, n) != 1.0
    requires PlanCorrecto(s, p, r, CuotaFrancesa(p, r, n))
    ensures forall k :: 0 <= k < n ==>
              s[k].saldo == 0.0 || s[k].saldo == SaldoTeorico(p, r, CuotaFrancesa(p, r, n), k + 1)
    ensures s[n - 1].saldo == 0.0
  {
    CuotaNoNegativa(p, r, n);
    forall k | 0 <= k < n
      ensures s[k].saldo == 0.0 || s[k].saldo == SaldoTeorico(p, r, CuotaFrancesa(p, r, n), k + 1)
    {
      SaldosDelPlan(s, p, r, CuotaFrancesa(p, r, n), k);
    }
    CuotaFrancesaAmortiza(p, r, n);
  }

  /** `calculateFrenchSystem`. The rate is a monthly percentage. The formula
      divides by `(1 + r)^n - 1`, so that must not be zero. */
  method CalculateFrenchSystem(principal: real, interestRate: real, numPayments: nat, additionalFees: real)
    returns (plan: PlanFrances)
    requires Pow(1.0 + interestRate / 100.0, numPayments) != 1.0
    ensures plan.cuotaFija == CuotaFrancesa(principal + additionalFees, interestRate / 100.0, numPayments)
    ensures |plan.detalleCuotas| == numPayments
    ensures PlanCorrecto(plan.detalleCuotas, principal + additionalFees, interestRate / 100.0, plan.cuotaFija)
    ensures plan.totalPagado == plan.cuotaFija * numPayments as real
    ensures plan.totalInteres == plan.totalPagado - (principal + additionalFees)
    ensures forall k :: 0 <= k < |plan.detalleCuotas| ==>
              plan.detalleCuotas[k].saldo == 0.0 || plan.detalleCuotas[k].saldo >= UmbralSaldo
    ensures interestRate > 0.0 && principal + additionalFees >= 0.0 && numPayments >= 1
            ==> plan.detalleCuotas[numPayments - 1].saldo == 0.0
  {
    var r := interestRate / 100.0;
    var totalPrincipal := principal + additionalFees;
    var cuota := CuotaFrancesa(totalPrincipal, r, numPayments);
    var schedule: seq<FilaFrancesa> := [];
    var remaining := totalPrincipal;
    var i := 1;
    while i <= numPayments
      invariant 1 <= i <= numPayments + 1
      invariant |schedule| == i - 1
      invariant remaining == SaldoPrevio(schedule, i - 1, totalPrincipal)
      invariant PlanCorrecto(schedule, totalPrincipal, r, cuota)
    {
      var interest := remaining * r;
      var capital := cuota - interest;
      remaining := remaining - capital;
      if remaining < UmbralSaldo {
        remaining := 0.0;
      }
      var fila := FilaFrancesa(i, cuota, interest, capital, remaining);
      PlanCorrectoExtendido(schedule, fila, totalPrincipal, r, cuota);
      schedule := schedule + [fila];
      i := i + 1;
    }
    SaldosAcotados(schedule, totalPrincipal, r, cuota);
    if interestRate > 0.0 && totalPrincipal >= 0.0 && numPayments >= 1 {
      PlanAmortiza(schedule, totalPrincipal, r, numPayments);
    }
    var totalPagado := cuota * numPayments as real;
    var totalInteres := totalPagado - totalPrincipal;
    plan := PlanFrances(cuota, totalPagado, totalInteres, schedule);
  }

  // ---------------------------------------------------------------------------
  // The calculator form.

  /** The installment count comes from a select of positive counts. */
  datatype FormCalculadora = FormCalculadora(monto: Campo, cuotas: nat, tasaInteres: Campo, gastosAdicionales: Campo)

  const FormInicial: FormCalculadora := FormCalculadora(Fijado(100000.0), 12, Fijado(8.0), Fijado(0.0))

  /** What pressing "calcular" leads to: the alert, a result JavaScript
      prints as NaN or Infinity, or a schedule. */
  datatype Calculo = Alerta | NoFinito | Calculado(plan: PlanFrances)

  /** The effect on `cuotas`: the rate field takes the configured rate. */
  method ActualizarTasa(store: ConfigStore, f: FormCalculadora) returns (g: FormCalculadora)
    ensures f.cuotas != 0 ==> g == f.(tasaInteres := Fijado(TasaPara(store.Actual(), f.cuotas as real)))
    ensures f.cuotas == 0 ==> g == f
  {
    g := f;
    if f.cuotas != 0 {
      var tasa := store.GetTasaForCuotas(f.cuotas);
      g := f.(tasaInteres := Fijado(tasa));
    }
  }

  /** `handleCalcular`. */
  method HandleCalcular(f: FormCalculadora) returns (res: Calculo)
    ensures res.Alerta? <==> !CampoVerdadero(f.monto) || f.cuotas == 0 || !CampoVerdadero(f.tasaInteres)
    ensures res.NoFinito? <==>
              !res.Alerta?
              && (f.gastosAdicionales.Vacio? || Pow(1.0 + ParseFloat(f.tasaInteres).value / 100.0, f.cuotas) == 1.0)
    ensures res.Calculado? ==>
              var p := ParseFloat(f.monto).value + ParseFloat(f.gastosAdicionales).value;
              var r := ParseFloat(f.tasaInteres).value / 100.0;
              |res.plan.detalleCuotas| == f.cuotas
              && res.plan.cuotaFija == CuotaFrancesa(p, r, f.cuotas)
              && PlanCorrecto(res.plan.detalleCuotas, p, r, res.plan.cuotaFija)
              && res.plan.totalPagado == res.plan.cuotaFija * f.cuotas as real
              && res.plan.totalInteres == res.plan.totalPagado - p
              && (r > 0.0 && p >= 0.0 ==> res.plan.detalleCuotas[f.cuotas - 1].saldo == 0.0)
  {
    if !CampoVerdadero(f.monto) || f.cuotas == 0 || !CampoVerdadero(f.tasaInteres) {
      return Alerta;
    }
    var monto := ParseFloat(f.monto).value;
    var tasa := ParseFloat(f.tasaInteres).value;
    if f.gastosAdicionales.Vacio? || Pow(1.0 + tasa / 100.0, f.cuotas) == 1.0 {
      return NoFinito;
    }
    var gastos := ParseFloat(f.gastosAdicionales).value;
    var plan := CalculateFrenchSystem(monto, tasa, f.cuotas, gastos);
    return Calculado(plan);
  }
}
