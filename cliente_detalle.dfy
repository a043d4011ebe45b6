/** The client detail page: the client looked up by the route's id, with
    that client's operations and payments from the sample data. */
module ClienteDetalle {
  import opened Common

  datatype Cliente = Cliente(
    id: int,
    nombre: string,
    documento: string,
    email: string,
    telefono: string,
    direccion: string,
    fechaAlta: Fecha,
    limite: real,
    estado: string,
    observaciones: string)

  datatype Operacion = Operacion(
    id: int, clienteId: int, monto: real, fechaInicio: Fecha, plazo: string, cuotas: int, estado: string)

  datatype Pago = Pago(
    id: int, numeroComprobante: string, clienteId: int, operacionId: int, monto: real, fecha: Fecha,
    metodoPago: string, estado: string)

  const ClientesMuestra: seq<Cliente> := [
    Cliente(1, "Juan Pérez", "25.123.456", "juan.perez@email.com", "11-2345-6789", "Av. Corrientes 1234, CABA",
            FechaDe(2025, 1, 15), 100000.0, "Activo", "Cliente preferencial con buen historial crediticio."),
    Cliente(2, "María González", "27.987.654", "maria.gonzalez@email.com", "11-8765-4321", "Calle Lavalle 567, CABA",
            FechaDe(2025, 2, 20), 150000.0, "Activo", "Cliente recomendado por Juan Pérez."),
    Cliente(3, "Carlos Rodríguez", "20.456.789", "carlos.rodriguez@email.com", "11-5678-1234", "Av. Santa Fe 890, CABA",
            FechaDe(2025, 3, 10), 200000.0, "Activo", ""),
    Cliente(4, "Laura Fernández", "30.789.123", "laura.fernandez@email.com", "11-9012-3456", "Calle Florida 432, CABA",
            FechaDe(2025, 3, 25), 120000.0, "Inactivo", "Cliente temporalmente inactivo por cambio de domicilio.")
  ]

  const OperacionesMuestra: seq<Operacion> := [
    Operacion(1, 1, 50000.0, FechaDe(2025, 4, 1), "12 meses", 12, "Activa"),
    Operacion(2, 2, 80000.0, FechaDe(2025, 3, 15), "24 meses", 24, "Activa"),
    Operacion(3, 3, 20000.0, FechaDe(2025, 4, 10), "6 meses", 6, "Activa"),
    Operacion(4, 1, 30000.0, FechaDe(2025, 2, 20), "12 meses", 12, "Cancelada")
  ]

  const PagosMuestra: seq<Pago> := [
    Pago(1, "COB-0001", 1, 1, 10000.0, FechaDe(2025, 4, 25), "Efectivo", "Confirmado"),
    Pago(2, "COB-0002", 2, 2, 15000.0, FechaDe(2025, 5, 1), "Transferencia", "Confirmado"),
    Pago(3, "COB-0003", 3, 3, 5000.0, FechaDe(2025, 5, 4), "Efectivo", "Pendiente"),
    Pago(4, "COB-0004", 1, 4, 8000.0, FechaDe(2025, 4, 28), "Cheque", "Rechazado")
  ]

  const MensajeNoEncontrado: string := "Cliente no encontrado"

  datatype Detalle =
    | NoEncontrado(error: string)
    | Cargado(cliente: Cliente, operaciones: seq<Operacion>, pagos: seq<Pago>)

  function ConId(id: Option<int>): Cliente -> bool {
    (c: Cliente) => id == Some(c.id)
  }

  function OperacionDe(id: int): Operacion -> bool {
    (op: Operacion) => op.clienteId == id
  }

  function PagoDe(id: int): Pago -> bool {
    (p: Pago) => p.clienteId == id
  }

  /** `fetchClienteData` for the route's id: an unknown id (or NaN) gives
      the error and nothing else; a known one gives the first client with
      that id, and exactly its operations and payments in dataset order. */
  function FetchClienteData(ruta: string): (d: Detalle)
    ensures d.NoEncontrado? <==> forall c :: c in ClientesMuestra ==> ParseInt(ruta) != Some(c.id)
    ensures d.NoEncontrado? ==> d.error == MensajeNoEncontrado
    ensures d.Cargado? ==> d.cliente in ClientesMuestra && ParseInt(ruta) == Some(d.cliente.id)
    ensures d.Cargado? ==> IsSubseq(d.operaciones, OperacionesMuestra)
                           && forall op :: op in d.operaciones <==> op in OperacionesMuestra && op.clienteId == d.cliente.id
    ensures d.Cargado? ==> IsSubseq(d.pagos, PagosMuestra)
                           && forall p :: p in d.pagos <==> p in PagosMuestra && p.clienteId == d.cliente.id
  {
    match Find(ClientesMuestra, ConId(ParseInt(ruta)))
    case None => NoEncontrado(MensajeNoEncontrado)
    case Some(c) =>
      FilterIsSubseq(OperacionesMuestra, OperacionDe(c.id));
      FilterMembers(OperacionesMuestra, OperacionDe(c.id));
      FilterIsSubseq(PagosMuestra, PagoDe(c.id));
      FilterMembers(PagosMuestra, PagoDe(c.id));
      Cargado(c, Filter(OperacionesMuestra, OperacionDe(c.id)), Filter(PagosMuestra, PagoDe(c.id)))
  }

  /** Client 1 has operations 1 and 4 and payments 1 and 4. */
  lemma ClienteUno()
    ensures FetchClienteData("1").Cargado?
    ensures FetchClienteData("1").operaciones == [OperacionesMuestra[0], OperacionesMuestra[3]]
    ensures FetchClienteData("1").pagos == [PagosMuestra[0], PagosMuestra[3]]
  {
    assert ParseInt("1") == Some(1) by { assert AllDigits("1"); }
    assert ConId(Some(1))(ClientesMuestra[0]);
    PrimeroYCuarto(OperacionesMuestra[0], OperacionesMuestra[1], OperacionesMuestra[2], OperacionesMuestra[3],
                   OperacionDe(1));
    PrimeroYCuarto(PagosMuestra[0], PagosMuestra[1], PagosMuestra[2], PagosMuestra[3], PagoDe(1));
  }

  /** An id no client has is not found. */
  lemma ClienteDesconocido()
    ensures FetchClienteData("7") == NoEncontrado(MensajeNoEncontrado)
  {
    assert ParseInt("7") == Some(7) by { assert AllDigits("7"); }
    assert forall c :: c in ClientesMuestra ==> c.id != 7;
  }

  /** A route that is not a number (NaN) finds no client. */
  lemma RutaNoNumerica()
    ensures FetchClienteData("x") == NoEncontrado(MensajeNoEncontrado)
  {
    assert ParseInt("x") == None by { assert !IsDigit("x"[0]); }
  }

  lemma PrimeroYCuarto<T>(a: T, b: T, c: T, d: T, q: T -> bool)
    requires q(a) && !q(b) && !q(c) && q(d)
    ensures Filter([a, b, c, d], q) == [a, d]
  {
    assert [a, b, c, d][1..] == [b, c, d];
    assert [b, c, d][1..] == [c, d];
    assert [c, d][1..] == [d];
    assert [d][1..] == [];
    assert Filter([d], q) == [d] + Filter([], q) == [d];
    assert Filter([c, d], q) == [] + Filter([d], q) == [d];
    assert Filter([b, c, d], q) == [] + Filter([c, d], q) == [d];
    assert Filter([a, b, c, d], q) == [a] + Filter([b, c, d], q);
  }
}
