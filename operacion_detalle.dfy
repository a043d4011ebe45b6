/** The operation detail page: the operation looked up by the route id, an
    illustrative installment schedule whose first installments are marked
    as paid, and the payments recorded against the operation. */
module OperacionDetalle {
  import opened Common

  datatype Operacion = Operacion(
    id: int,
    clienteId: int,
    clienteNombre: string,
    monto: real,
    fechaInicio: Fecha,
    fechaVencimiento: Fecha,
    plazo: string,
    cuotas: int,
    tasaInteres: real,
    montoCuota: real,
    estado: string,
    observaciones: string)

  const OperacionesMuestra: seq<Operacion> := [
    Operacion(1, 1, "Juan Pérez", 50000.0, FechaDe(2025, 4, 1), FechaDe(2026, 4, 1), "12 meses", 12, 45.0, 5500.0,
              "Activa", "Préstamo personal para refacción de vivienda."),
    Operacion(2, 2, "María González", 80000.0, FechaDe(2025, 3, 15), FechaDe(2027, 3, 15), "24 meses", 24, 42.0, 4800.0,
              "Activa", "Préstamo para compra de equipamiento de oficina."),
    Operacion(3, 3, "Carlos Rodríguez", 20000.0, FechaDe(2025, 4, 10), FechaDe(2025, 10, 10), "6 meses", 6, 50.0, 4200.0,
              "Activa", "Préstamo de corto plazo para gastos inmediatos."),
    Operacion(4, 1, "Juan Pérez", 30000.0, FechaDe(2025, 2, 20), FechaDe(2026, 2, 20), "12 meses", 12, 48.0, 3400.0,
              "Cancelada", "Operación cancelada anticipadamente en el tercer mes.")
  ]

  datatype Pago = Pago(
    id: int,
    numeroComprobante: string,
    clienteId: int,
    operacionId: int,
    monto: real,
    fecha: Fecha,
    metodoPago: string,
    estado: string)

  const PagosMuestra: seq<Pago> := [
    Pago(1, "COB-0001", 1, 1, 10000.0, FechaDe(2025, 4, 25), "Efectivo", "Confirmado"),
    Pago(2, "COB-0002", 2, 2, 15000.0, FechaDe(2025, 5, 1), "Transferencia", "Confirmado"),
    Pago(3, "COB-0003", 3, 3, 5000.0, FechaDe(2025, 5, 4), "Efectivo", "Pendiente"),
    Pago(4, "COB-0004", 1, 4, 8000.0, FechaDe(2025, 4, 28), "Cheque", "Rechazado")
  ]

  datatype EstadoCuota = Pendiente | Pagada

  datatype Cuota = Cuota(numero: int, monto: real, fechaVencimiento: Fecha, estado: EstadoCuota,
                         fechaPago: Option<Fecha>)

  /** Installment `k` (0-based) of the sample schedule of `op`: due `k + 1`
      months after the start, for the operation's installment amount. An
      active operation has paid its first two installments, five days
      early; a cancelled one has paid all of them, three days early;
      every other installment is pending and has no payment date. */
  predicate CuotaEjemplo(op: Operacion, k: int, c: Cuota) {
    c.numero == k + 1
    && c.monto == op.montoCuota
    && c.fechaVencimiento == AddMonths(op.fechaInicio, k + 1)
    && (c.estado == Pagada <==> op.estado == "Cancelada" || (op.estado == "Activa" && k < 2))
    && (c.estado == Pendiente ==> c.fechaPago.None?)
    && (c.estado == Pagada && op.estado == "Cancelada" ==> c.fechaPago == Some(AddDays(c.fechaVencimiento, -3)))
    && (c.estado == Pagada && op.estado == "Activa" ==> c.fechaPago == Some(AddDays(c.fechaVencimiento, -5)))
  }

  /** `generarCuotasEjemplo`. */
  method GenerarCuotasEjemplo(op: Operacion) returns (cuotas: seq<Cuota>)
    ensures |cuotas| == if op.cuotas > 0 then op.cuotas else 0
    ensures forall k :: 0 <= k < |cuotas| ==> CuotaEjemplo(op, k, cuotas[k])
  {
    cuotas := [];
    var i := 0;
    while i < op.cuotas
      invariant 0 <= i && (op.cuotas > 0 ==> i <= op.cuotas) && (op.cuotas <= 0 ==> i == 0)
      invariant |cuotas| == i
      invariant forall k :: 0 <= k < i ==> CuotaEjemplo(op, k, cuotas[k])
    {
      var fechaVencimiento := AddMonths(op.fechaInicio, i + 1);
      var estado := Pendiente;
      var fechaPago: Option<Fecha> := None;
      if op.estado == "Activa" && i < 2 {
        estado := Pagada;
        fechaPago := Some(AddDays(fechaVencimiento, -5));
      }
      if op.estado == "Cancelada" {
        estado := Pagada;
        fechaPago := Some(AddDays(fechaVencimiento, -3));
      }
      cuotas := cuotas + [Cuota(i + 1, op.montoCuota, fechaVencimiento, estado, fechaPago)];
      i := i + 1;
    }
  }

  /** A paid installment carries a payment date before its due date, and
      due dates strictly increase along the schedule. */
  lemma PagoAntesDelVencimiento(op: Operacion, cuotas: seq<Cuota>)
    requires forall k :: 0 <= k < |cuotas| ==> CuotaEjemplo(op, k, cuotas[k])
    ensures forall k :: 0 <= k < |cuotas| && cuotas[k].estado == Pagada ==>
              cuotas[k].fechaPago.Some? && FechaLt(cuotas[k].fechaPago.value, cuotas[k].fechaVencimiento)
    ensures forall j, k :: 0 <= j < k < |cuotas| ==>
              FechaLt(cuotas[j].fechaVencimiento, cuotas[k].fechaVencimiento)
  {
    forall k | 0 <= k < |cuotas| && cuotas[k].estado == Pagada
      ensures cuotas[k].fechaPago.Some? && FechaLt(cuotas[k].fechaPago.value, cuotas[k].fechaVencimiento)
    {
      assert CuotaEjemplo(op, k, cuotas[k]);
    }
    forall j, k | 0 <= j < k < |cuotas|
      ensures FechaLt(cuotas[j].fechaVencimiento, cuotas[k].fechaVencimiento)
    {
      assert CuotaEjemplo(op, j, cuotas[j]) && CuotaEjemplo(op, k, cuotas[k]);
    }
  }

  /** What the page ends up showing. */
  datatype Detalle =
    | NoEncontrada(error: string)
    | Cargada(operacion: Operacion, cuotas: seq<Cuota>, pagos: seq<Pago>)

  const MensajeNoEncontrada: string := "Operación no encontrada"

  predicate DeOperacion(id: int, p: Pago) {
    p.operacionId == id
  }

  /** `fetchOperacionData` for the route id `id` (`None` when `parseInt`
      gives NaN). */
  method FetchOperacionData(id: Option<int>) returns (d: Detalle)
    ensures d.NoEncontrada? <==> id.None? || forall i :: 0 <= i < |OperacionesMuestra| ==> OperacionesMuestra[i].id != id.value
    ensures d.NoEncontrada? ==> d.error == MensajeNoEncontrada
    ensures d.Cargada? ==> id.Some? && d.operacion in OperacionesMuestra && d.operacion.id == id.value
    ensures d.Cargada? ==> |d.cuotas| == (if d.operacion.cuotas > 0 then d.operacion.cuotas else 0)
                           && forall k :: 0 <= k < |d.cuotas| ==> CuotaEjemplo(d.operacion, k, d.cuotas[k])
    ensures d.Cargada? ==> IsSubseq(d.pagos, PagosMuestra)
                           && forall p :: p in d.pagos <==> p in PagosMuestra && p.operacionId == d.operacion.id
  {
    if id.None? {
      return NoEncontrada(MensajeNoEncontrada);
    }
    var encontrada := Find(OperacionesMuestra, (op: Operacion) => op.id == id.value);
    if encontrada.None? {
      return NoEncontrada(MensajeNoEncontrada);
    }
    var op := encontrada.value;
    var cuotas := GenerarCuotasEjemplo(op);
    var pagos := Filter(PagosMuestra, (p: Pago) => DeOperacion(op.id, p));
    FilterIsSubseq(PagosMuestra, (p: Pago) => DeOperacion(op.id, p));
    FilterMembers(PagosMuestra, (p: Pago) => DeOperacion(op.id, p));
    d := Cargada(op, cuotas, pagos);
  }
}
