/** The new-operation page: a flat-interest financing plan (interest
    charged on the whole amount for every month), the rate taken from the
    rate table, and the required-field check on submit. */
module OperacionForm {
  import opened Common
  import opened TasasService

  /** The form as the page holds it. Text inputs that are blank are `None`;
      `cuotas` is the value of the installment select; a cleared date
      input is `None`. */
  datatype FormOperacion = FormOperacion(
    clienteId: string,
    monto: Option<real>,
    cuotas: Option<int>,
    interesMensual: Option<real>,
    gastosAdicionales: Option<real>,
    fechaInicio: Option<Fecha>)

  /** A blank form with 12 installments, no fees and today as start date. */
  function FormInicial(hoy: Fecha): (f: FormOperacion)
    ensures f.cuotas == Some(12) && f.gastosAdicionales == Some(0.0) && f.fechaInicio == Some(hoy)
    ensures f.clienteId == "" && f.monto.None? && f.interesMensual.None?
  {
    FormOperacion("", None, Some(12), None, Some(0.0), Some(hoy))
  }

  /** The inputs `calcularFinanciamiento` receives, already read with
      `parseFloat` / `parseInt` (`None` for NaN). */
  datatype Datos = Datos(monto: Option<real>, cuotas: Option<int>, interesMensual: Option<real>,
                         gastosAdicionales: Option<real>)

  /** The fields `handleCalcular` passes on. */
  function DatosDe(f: FormOperacion): Datos {
    Datos(f.monto, f.cuotas, f.interesMensual, f.gastosAdicionales)
  }

  datatype CuotaPlan = CuotaPlan(numero: int, fechaVencimiento: Fecha, monto: real, saldoPendiente: real)

  datatype Resultados = Resultados(valorCuota: real, montoTotal: real, detalleCuotas: seq<CuotaPlan>)

  /** What the page holds as results: numbers, or values JavaScript prints
      as NaN or Infinity (blank fees, zero installments). */
  datatype EstadoResultados = Calculados(res: Resultados) | NoFinitos

  const MensajeNoNumerico: string := "Por favor ingrese valores numéricos válidos"
  const MensajeObligatorios: string := "Todos los campos marcados con * son obligatorios"

  /** Installment `k` (0-based) of a plan built from `total` and `valor`. */
  predicate CuotaCorrecta(c: CuotaPlan, k: int, inicio: Fecha, valor: real, total: real) {
    c.numero == k + 1
    && c.fechaVencimiento == AddMonths(inicio, k + 1)
    && c.monto == valor
    && c.saldoPendiente == total - (k + 1) as real * valor
  }

  /** The flat-interest plan in closed form: interest `i` on the whole of
      `p` for each of the `n` months, `n` equal installments, the `k`-th one
      due `k` months after the start and leaving `k` installments paid. A
      negative count gives no rows, and no row reads the start date. */
  function PlanPlano(p: real, i: real, n: int, inicio: Option<Fecha>): Resultados
    requires n != 0 && (n < 0 || inicio.Some?)
  {
    var total := p * (1.0 + i * n as real);
    var valor := total / n as real;
    Resultados(valor, total,
      if n < 0 then []
      else seq(n, k requires 0 <= k < n =>
                 CuotaPlan(k + 1, AddMonths(inicio.value, k + 1), valor, total - (k + 1) as real * valor)))
  }

  /** The loop of `calcularFinanciamiento`. With `n <= 0` it makes no rows
      and never reads the start date. */
  method GenerarPlan(montoConGastos: real, interes: real, n: int, inicio: Option<Fecha>) returns (r: Resultados)
    requires n != 0 && (n < 0 || inicio.Some?)
    ensures r == PlanPlano(montoConGastos, interes, n, inicio)
    ensures r.montoTotal == montoConGastos * (1.0 + interes * n as real)
    ensures r.valorCuota == r.montoTotal / n as real
    ensures |r.detalleCuotas| == if n > 0 then n else 0
    ensures forall k :: 0 <= k < |r.detalleCuotas| ==>
              CuotaCorrecta(r.detalleCuotas[k], k, inicio.value, r.valorCuota, r.montoTotal)
  {
    var interesTotal := montoConGastos * interes * n as real;
    var montoTotal := montoConGastos + interesTotal;
    var valorCuota := montoTotal / n as real;
    var detalle: seq<CuotaPlan> := [];
    var fechaVencimiento := inicio;
    var saldoPendiente := montoTotal;
    var i := 1;
    while i <= n
      invariant 1 <= i && (n > 0 ==> i <= n + 1) && (n <= 0 ==> i == 1)
      invariant |detalle| == i - 1
      invariant n > 0 ==> fechaVencimiento == Some(AddMonths(inicio.value, i - 1))
      invariant saldoPendiente == montoTotal - (i - 1) as real * valorCuota
      invariant forall k :: 0 <= k < |detalle| ==>
                  CuotaCorrecta(detalle[k], k, inicio.value, valorCuota, montoTotal)
    {
      fechaVencimiento := Some(AddMonths(fechaVencimiento.value, 1));
      detalle := detalle + [CuotaPlan(i, fechaVencimiento.value, valorCuota, saldoPendiente - valorCuota)];
      saldoPendiente := saldoPendiente - valorCuota;
      i := i + 1;
    }
    r := Resultados(valorCuota, montoTotal, detalle);
    assert montoTotal == montoConGastos * (1.0 + interes * n as real);
    var esperado := PlanPlano(montoConGastos, interes, n, inicio).detalleCuotas;
    assert |detalle| == |esperado|;
    forall k | 0 <= k < |detalle| ensures detalle[k] == esperado[k] {
      assert CuotaCorrecta(detalle[k], k, inicio.value, valorCuota, montoTotal);
    }
  }

  lemma ProductoCreciente(a: real, b: real, c: real)
    requires a < b && c > 0.0
    ensures a * c < b * c
  {
    assert (b - a) * c > 0.0;
  }

  lemma CuotaPositiva(p: real, i: real, n: int)
    requires p > 0.0 && i >= 0.0 && n >= 1
    ensures p * (1.0 + i * n as real) / n as real > 0.0
  {
    assert i * n as real >= 0.0;
    assert p * (1.0 + i * n as real) > 0.0;
  }

  /** The due dates of the plan strictly increase. */
  lemma VencimientosCrecientes(p: real, i: real, n: int, inicio: Fecha)
    requires n >= 1
    ensures var c := PlanPlano(p, i, n, Some(inicio)).detalleCuotas;
            forall j, k :: 0 <= j < k < n ==> FechaLt(c[j].fechaVencimiento, c[k].fechaVencimiento)
  {
    var c := PlanPlano(p, i, n, Some(inicio)).detalleCuotas;
    forall j, k | 0 <= j < k < n
      ensures FechaLt(c[j].fechaVencimiento, c[k].fechaVencimiento)
    {
      assert c[j].fechaVencimiento == AddMonths(inicio, j + 1);
      assert c[k].fechaVencimiento == AddMonths(inicio, k + 1);
    }
  }

  /** With a positive installment every payment lowers the balance. */
  lemma SaldosDecrecientes(p: real, i: real, n: int, inicio: Fecha)
    requires n >= 1
    ensures var r := PlanPlano(p, i, n, Some(inicio));
            r.valorCuota > 0.0 ==>
              forall j, k :: 0 <= j < k < n ==> r.detalleCuotas[k].saldoPendiente < r.detalleCuotas[j].saldoPendiente
  {
    var r := PlanPlano(p, i, n, Some(inicio));
    if r.valorCuota > 0.0 {
      forall j, k | 0 <= j < k < n
        ensures r.detalleCuotas[k].saldoPendiente < r.detalleCuotas[j].saldoPendiente
      {
        ProductoCreciente((j + 1) as real, (k + 1) as real, r.valorCuota);
      }
    }
  }

  /** The plan pays off exactly: the last balance is 0; the due dates are
      strictly increasing, one month apart; with a positive installment, as
      a positive amount at a non-negative rate gives, every installment
      strictly lowers the balance. */
  lemma PlanSaldaDeuda(p: real, i: real, n: int, inicio: Fecha)
    requires n >= 1
    ensures PlanPlano(p, i, n, Some(inicio)).detalleCuotas[n - 1].saldoPendiente == 0.0
    ensures var c := PlanPlano(p, i, n, Some(inicio)).detalleCuotas;
            forall j, k :: 0 <= j < k < n ==> FechaLt(c[j].fechaVencimiento, c[k].fechaVencimiento)
    ensures p > 0.0 && i >= 0.0 ==> PlanPlano(p, i, n, Some(inicio)).valorCuota > 0.0
    ensures var r := PlanPlano(p, i, n, Some(inicio));
            r.valorCuota > 0.0 ==>
              forall j, k :: 0 <= j < k < n ==> r.detalleCuotas[k].saldoPendiente < r.detalleCuotas[j].saldoPendiente
  {
    var r := PlanPlano(p, i, n, Some(inicio));
    assert n as real * (r.montoTotal / n as real) == r.montoTotal;
    assert r.detalleCuotas[n - 1].saldoPendiente == r.montoTotal - n as real * r.valorCuota;
    if p > 0.0 && i >= 0.0 {
      CuotaPositiva(p, i, n);
    }
    VencimientosCrecientes(p, i, n, inicio);
    SaldosDecrecientes(p, i, n, inicio);
  }

  /** The amount, the count and the rate all read as numbers. */
  predicate Legible(d: Datos) {
    d.monto.Some? && d.cuotas.Some? && d.interesMensual.Some?
  }

  /** The loop runs at least once on a cleared start date: `new Date('')`
      is invalid and its `toISOString` throws. */
  predicate Lanza(d: Datos, inicio: Option<Fecha>) {
    Legible(d) && d.cuotas.value >= 1 && inicio.None?
  }

  /** The results of readable input that does not throw: non-finite with
      blank fees or no installments, else the plan on amount plus fees at
      the monthly rate as a fraction. */
  function Esperado(d: Datos, inicio: Option<Fecha>): EstadoResultados
    requires Legible(d) && !Lanza(d, inicio)
  {
    if d.gastosAdicionales.None? || d.cuotas.value == 0 then NoFinitos
    else Calculados(PlanPlano(d.monto.value + d.gastosAdicionales.value, d.interesMensual.value / 100.0,
                              d.cuotas.value, inicio))
  }

  /** How a call of `calcularFinanciamiento` ends: with the message, with
      results, or with the exception of the date conversion. */
  datatype Salida = Rechazo(mensaje: string) | Resultado(res: EstadoResultados) | Excepcion

  /** `calcularFinanciamiento` on already-parsed inputs. */
  method Financiar(d: Datos, inicio: Option<Fecha>) returns (s: Salida)
    ensures s.Rechazo? <==> !Legible(d)
    ensures s.Rechazo? ==> s.mensaje == MensajeNoNumerico
    ensures s.Excepcion? <==> Lanza(d, inicio)
    ensures s.Resultado? ==> Legible(d) && !Lanza(d, inicio) && s.res == Esperado(d, inicio)
  {
    if d.monto.None? || d.cuotas.None? || d.interesMensual.None? {
      return Rechazo(MensajeNoNumerico);
    }
    if d.cuotas.value >= 1 && inicio.None? {
      return Excepcion;
    }
    if d.gastosAdicionales.None? || d.cuotas.value == 0 {
      return Resultado(NoFinitos);
    }
    var r := GenerarPlan(d.monto.value + d.gastosAdicionales.value, d.interesMensual.value / 100.0,
                         d.cuotas.value, inicio);
    s := Resultado(Calculados(r));
  }

  /** An edit `handleChange` applies to one input. */
  datatype Cambio =
    | CambioCliente(s: string) | CambioMonto(v: Option<real>) | CambioCuotas(n: Option<int>)
    | CambioInteres(v: Option<real>) | CambioGastos(v: Option<real>) | CambioFecha(d: Option<Fecha>)

  /** The page's state: the form, the last results, the error shown and
      whether a calculation is in progress. */
  class FormularioOperacion {
    var formData: FormOperacion
    var resultados: EstadoResultados
    var error: Option<string>
    var calculando: bool

    constructor (hoy: Fecha)
      ensures formData == FormInicial(hoy)
      ensures resultados == Calculados(Resultados(0.0, 0.0, []))
      ensures error.None? && !calculando
    {
      formData := FormInicial(hoy);
      resultados := Calculados(Resultados(0.0, 0.0, []));
      error := None;
      calculando := false;
    }

    /** `handleChange`: the input's field takes the value; nothing else
        changes. */
    method HandleChange(c: Cambio)
      modifies this
      ensures formData == match c
        case CambioCliente(s) => old(formData).(clienteId := s)
        case CambioMonto(v) => old(formData).(monto := v)
        case CambioCuotas(n) => old(formData).(cuotas := n)
        case CambioInteres(v) => old(formData).(interesMensual := v)
        case CambioGastos(v) => old(formData).(gastosAdicionales := v)
        case CambioFecha(d) => old(formData).(fechaInicio := d)
      ensures resultados == old(resultados) && error == old(error) && calculando == old(calculando)
    {
      match c {
        case CambioCliente(s) => formData := formData.(clienteId := s);
        case CambioMonto(v) => formData := formData.(monto := v);
        case CambioCuotas(n) => formData := formData.(cuotas := n);
        case CambioInteres(v) => formData := formData.(interesMensual := v);
        case CambioGastos(v) => formData := formData.(gastosAdicionales := v);
        case CambioFecha(d) => formData := formData.(fechaInicio := d);
      }
    }

    /** The effects on `cuotas`: the monthly rate becomes the configured one. */
    method ActualizarInteres(store: ConfigStore)
      modifies this
      ensures old(formData).cuotas.Some? ==>
                formData == old(formData).(interesMensual := Some(TasaPara(store.Actual(), old(formData).cuotas.value as real)))
      ensures old(formData).cuotas.None? ==> formData == old(formData)
      ensures resultados == old(resultados) && error == old(error) && calculando == old(calculando)
    {
      if formData.cuotas.Some? {
        var tasa := store.GetTasaForCuotas(formData.cuotas.value);
        formData := formData.(interesMensual := Some(tasa));
      }
    }

    /** `calcularFinanciamiento` with the form's start date: on unreadable
        input it sets the error and keeps the previous results; when the
        date conversion throws, nothing changes and `excepcion` reports
        it; otherwise the results become `Esperado`'s. */
    method CalcularFinanciamiento(d: Datos) returns (excepcion: bool)
      modifies this
      ensures formData == old(formData) && calculando == old(calculando)
      ensures excepcion <==> Lanza(d, formData.fechaInicio)
      ensures !Legible(d) ==> error == Some(MensajeNoNumerico) && resultados == old(resultados)
      ensures excepcion ==> error == old(error) && resultados == old(resultados)
      ensures Legible(d) && !excepcion ==>
                error == old(error) && resultados == Esperado(d, formData.fechaInicio)
    {
      var s := Financiar(d, formData.fechaInicio);
      excepcion := false;
      match s {
        case Rechazo(m) => error := Some(m);
        case Excepcion => excepcion := true;
        case Resultado(r) => resultados := r;
      }
    }

    /** `handleCalcular`: clears the error, marks the calculation in
        progress and computes from the form's fields. The exception of a
        cleared date escapes the timer callback, so the page stays
        "calculating" with the old results. */
    method HandleCalcular()
      modifies this
      ensures formData == old(formData)
      ensures var d := DatosDe(formData);
              if !Legible(d) then
                error == Some(MensajeNoNumerico) && resultados == old(resultados) && !calculando
              else if Lanza(d, formData.fechaInicio) then
                error.None? && resultados == old(resultados) && calculando
              else
                error.None? && resultados == Esperado(d, formData.fechaInicio) && !calculando
    {
      error := None;
      calculando := true;
      var excepcion := CalcularFinanciamiento(DatosDe(formData));
      if !excepcion {
        calculando := false;
      }
    }

    /** `handleSubmit`: rejected with a message when a required field is
        blank. */
    method HandleSubmit() returns (aceptado: bool)
      modifies this
      ensures aceptado <==> old(formData).clienteId != [] && old(formData).monto.Some? && old(formData).cuotas.Some?
      ensures !aceptado ==> error == Some(MensajeObligatorios)
      ensures aceptado ==> error.None?
      ensures formData == old(formData) && resultados == old(resultados) && calculando == old(calculando)
    {
      if formData.clienteId == [] || formData.monto.None? || formData.cuotas.None? {
        error := Some(MensajeObligatorios);
        return false;
      }
      error := None;
      return true;
    }
  }
}
