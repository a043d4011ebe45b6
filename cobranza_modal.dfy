/** The payment-registration dialog: the client and operation selects, the
    operations offered for the chosen client, the required-field check and
    the record handed to `onSave`. Select values are the text of the chosen
    option (`""` for the placeholder) and are read back with `parseInt`. */
module CobranzaModal {
  import opened Common

  /** The form. `monto` is the number input (`None` while blank) and `fecha`
      the date input (`None` once cleared). */
  datatype Cobranza = Cobranza(
    clienteId: string,
    operacionId: string,
    monto: Option<real>,
    fecha: Option<Fecha>,
    metodoPago: string,
    numeroRecibo: string,
    observaciones: string)

  /** The blank form: nothing chosen, today's date and cash as method. */
  function CobranzaInicial(hoy: Fecha): (c: Cobranza)
    ensures c.clienteId == "" && c.operacionId == "" && c.monto.None?
    ensures c.fecha == Some(hoy) && c.metodoPago == "Efectivo"
    ensures c.numeroRecibo == "" && c.observaciones == ""
  {
    Cobranza("", "", None, Some(hoy), "Efectivo", "", "")
  }

  // ---------------------------------------------------------------------------
  // The effects that follow the selects.

  /** `op.clienteId === parseInt(clienteId)`: never true for NaN. */
  function DelClienteId(n: Option<int>): OperacionOpcion -> bool {
    (op: OperacionOpcion) => n == Some(op.clienteId)
  }

  /** The operations offered: those of the client whose id the select holds,
      none while no client is chosen. */
  function OperacionesDelCliente(operaciones: seq<OperacionOpcion>, clienteId: string): (r: seq<OperacionOpcion>)
    ensures clienteId == "" ==> r == []
    ensures IsSubseq(r, operaciones)
    ensures forall op :: op in r <==> clienteId != "" && op in operaciones && ParseInt(clienteId) == Some(op.clienteId)
    ensures clienteId != "" ==>
              forall op :: multiset(r)[op] == if ParseInt(clienteId) == Some(op.clienteId) then multiset(operaciones)[op] else 0
  {
    if clienteId == "" then []
    else
      FilterEsFiltrado(operaciones, DelClienteId(ParseInt(clienteId)));
      FilterMembers(operaciones, DelClienteId(ParseInt(clienteId)));
      Filter(operaciones, DelClienteId(ParseInt(clienteId)))
  }

  /** `c.id === parseInt(clienteId)`. */
  function ClienteConId(n: Option<int>): ClienteOpcion -> bool {
    (c: ClienteOpcion) => n == Some(c.id)
  }

  /** `op.id === parseInt(operacionId)`. */
  function OperacionConId(n: Option<int>): OperacionOpcion -> bool {
    (op: OperacionOpcion) => n == Some(op.id)
  }

  /** The client shown for the select: the first with that id. */
  function ClienteElegido(clientes: seq<ClienteOpcion>, clienteId: string): (r: Option<ClienteOpcion>)
    ensures clienteId == "" ==> r.None?
    ensures r.Some? ==> r.value in clientes && ParseInt(clienteId) == Some(r.value.id)
    ensures r.Some? ==> exists i :: PrimeroQue(clientes, ClienteConId(ParseInt(clienteId)), i) && clientes[i] == r.value
    ensures clienteId != "" && r.None? ==> forall c :: c in clientes ==> ParseInt(clienteId) != Some(c.id)
  {
    if clienteId == "" then None
    else Find(clientes, ClienteConId(ParseInt(clienteId)))
  }

  /** The operation shown for the select, looked up among ALL operations,
      not only the offered ones. */
  function OperacionElegida(operaciones: seq<OperacionOpcion>, operacionId: string): (r: Option<OperacionOpcion>)
    ensures operacionId == "" ==> r.None?
    ensures r.Some? ==> r.value in operaciones && ParseInt(operacionId) == Some(r.value.id)
    ensures r.Some? ==>
              exists i :: PrimeroQue(operaciones, OperacionConId(ParseInt(operacionId)), i) && operaciones[i] == r.value
    ensures operacionId != "" && r.None? ==> forall op :: op in operaciones ==> ParseInt(operacionId) != Some(op.id)
  {
    if operacionId == "" then None
    else Find(operaciones, OperacionConId(ParseInt(operacionId)))
  }

  // ---------------------------------------------------------------------------
  // validateForm

  datatype Mensaje =
    | SeleccioneCliente | SeleccioneOperacion | MontoInvalido | SeleccioneFecha
    | SeleccioneMetodo | IngreseRecibo

  function Texto(m: Mensaje): string {
    match m
    case SeleccioneCliente => "Seleccione un cliente"
    case SeleccioneOperacion => "Seleccione una operación"
    case MontoInvalido => "Ingrese un monto válido"
    case SeleccioneFecha => "Seleccione una fecha"
    case SeleccioneMetodo => "Seleccione un método de pago"
    case IngreseRecibo => "Ingrese un número de recibo"
  }

  datatype Errores = Errores(
    clienteId: Option<Mensaje>,
    operacionId: Option<Mensaje>,
    monto: Option<Mensaje>,
    fecha: Option<Mensaje>,
    metodoPago: Option<Mensaje>,
    numeroRecibo: Option<Mensaje>)

  const SinErrores: Errores := Errores(None, None, None, None, None, None)

  /** What the dialog accepts: a client and an operation chosen, a positive
      amount, a date, a method and a receipt number. */
  predicate FormValido(c: Cobranza) {
    c.clienteId != "" && c.operacionId != "" && c.monto.Some? && c.monto.value > 0.0
    && c.fecha.Some? && c.metodoPago != "" && c.numeroRecibo != ""
  }

  /** The message each field gets from `validateForm`. */
  predicate MensajesDe(c: Cobranza, errores: Errores) {
    errores.clienteId == (if c.clienteId == "" then Some(SeleccioneCliente) else None)
    && errores.operacionId == (if c.operacionId == "" then Some(SeleccioneOperacion) else None)
    && errores.monto == (if c.monto.None? || c.monto.value <= 0.0 then Some(MontoInvalido) else None)
    && errores.fecha == (if c.fecha.None? then Some(SeleccioneFecha) else None)
    && errores.metodoPago == (if c.metodoPago == "" then Some(SeleccioneMetodo) else None)
    && errores.numeroRecibo == (if c.numeroRecibo == "" then Some(IngreseRecibo) else None)
  }

  /** `validateForm`: one message per faulty field, `ok` when there is none. */
  method ValidateForm(c: Cobranza) returns (errores: Errores, ok: bool)
    ensures ok <==> errores == SinErrores
    ensures ok <==> FormValido(c)
    ensures MensajesDe(c, errores)
  {
    var errCliente, errOperacion, errMonto, errFecha, errMetodo, errRecibo: Option<Mensaje> :=
      None, None, None, None, None, None;
    if c.clienteId == "" {
      errCliente := Some(SeleccioneCliente);
    }
    if c.operacionId == "" {
      errOperacion := Some(SeleccioneOperacion);
    }
    if c.monto.None? || c.monto.value <= 0.0 {
      errMonto := Some(MontoInvalido);
    }
    if c.fecha.None? {
      errFecha := Some(SeleccioneFecha);
    }
    if c.metodoPago == "" {
      errMetodo := Some(SeleccioneMetodo);
    }
    if c.numeroRecibo == "" {
      errRecibo := Some(IngreseRecibo);
    }
    errores := Errores(errCliente, errOperacion, errMonto, errFecha, errMetodo, errRecibo);
    ok := errores == SinErrores;
  }

  /** The blank form is rejected: no client, no operation, no amount, no
      receipt; the date and the method are already filled in. */
  lemma InicialRechazado(hoy: Fecha)
    ensures !FormValido(CobranzaInicial(hoy))
    ensures CobranzaInicial(hoy).fecha.Some? && CobranzaInicial(hoy).metodoPago != ""
  {
  }

  // ---------------------------------------------------------------------------
  // handleSubmit

  /** What `onSave` receives: the form with the amount as a number, the
      names of the client and operation for display, and a pending state. */
  datatype Registro = Registro(
    clienteId: string,
    operacionId: string,
    monto: real,
    fecha: Fecha,
    metodoPago: string,
    numeroRecibo: string,
    observaciones: string,
    cliente: string,
    operacion: string,
    estado: string)

  /** `OP-${id}`. */
  function Etiqueta(id: int): string {
    "OP-" + IntToString(id)
  }

  /** The operation label reads back as the operation's id. */
  lemma EtiquetaLegible(id: nat)
    ensures |Etiqueta(id)| > 3 && Etiqueta(id)[..3] == "OP-"
    ensures ParseInt(Etiqueta(id)[3..]) == Some(id)
  {
    NatToStringValue(id);
    assert Etiqueta(id)[3..] == NatToString(id);
  }

  /** The record built from a valid form and the current selections. */
  function RegistroDe(c: Cobranza, cliente: Option<ClienteOpcion>, operacion: Option<OperacionOpcion>): (r: Registro)
    requires FormValido(c)
    ensures r.estado == "Pendiente" && r.monto > 0.0 && Some(r.monto) == c.monto && Some(r.fecha) == c.fecha
    ensures r.clienteId == c.clienteId && r.operacionId == c.operacionId && r.metodoPago == c.metodoPago
            && r.numeroRecibo == c.numeroRecibo && r.observaciones == c.observaciones
    ensures cliente.None? ==> r.cliente == ""
    ensures cliente.Some? ==> r.cliente == cliente.value.nombre
    ensures operacion.None? ==> r.operacion == ""
    ensures operacion.Some? && operacion.value.id >= 0 ==>
              |r.operacion| > 3 && r.operacion[..3] == "OP-" && ParseInt(r.operacion[3..]) == Some(operacion.value.id)
  {
    assert operacion.Some? && operacion.value.id >= 0 ==>
             var e := Etiqueta(operacion.value.id); |e| > 3 && e[..3] == "OP-" && ParseInt(e[3..]) == Some(operacion.value.id) by {
      if operacion.Some? && operacion.value.id >= 0 { EtiquetaLegible(operacion.value.id); }
    }
    Registro(c.clienteId, c.operacionId, c.monto.value, c.fecha.value, c.metodoPago, c.numeroRecibo,
             c.observaciones,
             if cliente.Some? then cliente.value.nombre else "",
             if operacion.Some? then Etiqueta(operacion.value.id) else "",
             "Pendiente")
  }

  // ---------------------------------------------------------------------------
  // The dialog's state.

  /** An edit from one input (`handleChange`); the selects send the text of
      the option chosen. */
  datatype Cambio =
    | CambioCliente(v: string) | CambioOperacion(v: string) | CambioMonto(m: Option<real>)
    | CambioFecha(f: Option<Fecha>) | CambioMetodo(v: string) | CambioRecibo(v: string)
    | CambioObservaciones(v: string)

  class DialogoCobranza {
    const clientes: seq<ClienteOpcion>
    const operaciones: seq<OperacionOpcion>
    var cobranza: Cobranza
    var errores: Errores
    var operacionesFiltradas: seq<OperacionOpcion>
    var clienteSeleccionado: Option<ClienteOpcion>
    var operacionSeleccionada: Option<OperacionOpcion>

    /** The derived selections agree with the form, as the effects leave
        them after every render. */
    ghost predicate Sincronizado()
      reads this
    {
      operacionesFiltradas == OperacionesDelCliente(operaciones, cobranza.clienteId)
      && clienteSeleccionado == ClienteElegido(clientes, cobranza.clienteId)
      && operacionSeleccionada == OperacionElegida(operaciones, cobranza.operacionId)
    }

    constructor (clientes0: seq<ClienteOpcion>, operaciones0: seq<OperacionOpcion>, hoy: Fecha)
      ensures clientes == clientes0 && operaciones == operaciones0
      ensures cobranza == CobranzaInicial(hoy) && errores == SinErrores
      ensures operacionesFiltradas == [] && clienteSeleccionado.None? && operacionSeleccionada.None?
      ensures Sincronizado()
    {
      clientes, operaciones := clientes0, operaciones0;
      cobranza := CobranzaInicial(hoy);
      errores := SinErrores;
      operacionesFiltradas, clienteSeleccionado, operacionSeleccionada := [], None, None;
    }

    /** The effects on `clienteId` and `operacionId`. */
    method Sincronizar()
      modifies this
      ensures cobranza == old(cobranza) && errores == old(errores)
      ensures Sincronizado()
    {
      if cobranza.clienteId != "" {
        operacionesFiltradas := OperacionesDelCliente(operaciones, cobranza.clienteId);
        clienteSeleccionado := ClienteElegido(clientes, cobranza.clienteId);
      } else {
        operacionesFiltradas := [];
        clienteSeleccionado := None;
      }
      if cobranza.operacionId != "" {
        operacionSeleccionada := OperacionElegida(operaciones, cobranza.operacionId);
      } else {
        operacionSeleccionada := None;
      }
    }

    /** The effect on `isOpen`: opening the dialog brings the blank form back
        and clears every message. */
    method Abrir(hoy: Fecha)
      modifies this
      ensures cobranza == CobranzaInicial(hoy) && errores == SinErrores
      ensures operacionesFiltradas == [] && clienteSeleccionado.None? && operacionSeleccionada.None?
      ensures Sincronizado()
    {
      cobranza := CobranzaInicial(hoy);
      errores := SinErrores;
      Sincronizar();
    }

    /** `handleChange`, then the effects: the field takes the value and its
        message, if any, is cleared. Choosing another client leaves the
        chosen operation as it was. */
    method HandleChange(c: Cambio)
      modifies this
      ensures cobranza == match c
        case CambioCliente(v) => old(cobranza).(clienteId := v)
        case CambioOperacion(v) => old(cobranza).(operacionId := v)
        case CambioMonto(m) => old(cobranza).(monto := m)
        case CambioFecha(f) => old(cobranza).(fecha := f)
        case CambioMetodo(v) => old(cobranza).(metodoPago := v)
        case CambioRecibo(v) => old(cobranza).(numeroRecibo := v)
        case CambioObservaciones(v) => old(cobranza).(observaciones := v)
      ensures errores == match c
        case CambioCliente(_) => old(errores).(clienteId := None)
        case CambioOperacion(_) => old(errores).(operacionId := None)
        case CambioMonto(_) => old(errores).(monto := None)
        case CambioFecha(_) => old(errores).(fecha := None)
        case CambioMetodo(_) => old(errores).(metodoPago := None)
        case CambioRecibo(_) => old(errores).(numeroRecibo := None)
        case CambioObservaciones(_) => old(errores)
      ensures Sincronizado()
      ensures c.CambioCliente? ==> operacionSeleccionada == OperacionElegida(operaciones, old(cobranza).operacionId)
      ensures forall op :: op in operacionesFiltradas ==> op in operaciones && ParseInt(cobranza.clienteId) == Some(op.clienteId)
    {
      match c {
        case CambioCliente(v) =>
          cobranza := cobranza.(clienteId := v);
          errores := errores.(clienteId := None);
        case CambioOperacion(v) =>
          cobranza := cobranza.(operacionId := v);
          errores := errores.(operacionId := None);
        case CambioMonto(m) =>
          cobranza := cobranza.(monto := m);
          errores := errores.(monto := None);
        case CambioFecha(f) =>
          cobranza := cobranza.(fecha := f);
          errores := errores.(fecha := None);
        case CambioMetodo(v) =>
          cobranza := cobranza.(metodoPago := v);
          errores := errores.(metodoPago := None);
        case CambioRecibo(v) =>
          cobranza := cobranza.(numeroRecibo := v);
          errores := errores.(numeroRecibo := None);
        case CambioObservaciones(v) =>
          cobranza := cobranza.(observaciones := v);
      }
      Sincronizar();
    }

    /** `handleSubmit`: the messages are replaced by those of the check, and
        `onSave` receives a record only when the form passes. */
    method HandleSubmit() returns (guardado: Option<Registro>)
      requires Sincronizado()
      modifies this
      ensures MensajesDe(cobranza, errores)
      ensures cobranza == old(cobranza) && Sincronizado()
      ensures guardado.Some? <==> FormValido(cobranza)
      ensures guardado.Some? <==> errores == SinErrores
      ensures guardado.Some? ==>
                guardado.value == RegistroDe(cobranza, clienteSeleccionado, operacionSeleccionada)
                && guardado.value.estado == "Pendiente" && guardado.value.monto > 0.0
    {
      var e, ok := ValidateForm(cobranza);
      errores := e;
      if !ok {
        return None;
      }
      guardado := Some(RegistroDe(cobranza, clienteSeleccionado, operacionSeleccionada));
    }
  }

  // ---------------------------------------------------------------------------
  // Examples.

  const ClientesEjemplo: seq<ClienteOpcion> := [ClienteOpcion(1, "Juan Pérez"), ClienteOpcion(2, "María López")]

  /** Operations 1 and 3 belong to client 1, operation 2 to client 2. */
  function OperacionesEjemplo(m1: real, m2: real, m3: real): seq<OperacionOpcion> {
    [OperacionOpcion(1, 1, m1), OperacionOpcion(2, 2, m2), OperacionOpcion(3, 1, m3)]
  }

  /** The filter behind `OfrecidasAlClienteUno`, with the id already read. */
  lemma FiltroClienteUno(m1: real, m2: real, m3: real)
    ensures Filter(OperacionesEjemplo(m1, m2, m3), DelClienteId(Some(1)))
            == [OperacionOpcion(1, 1, m1), OperacionOpcion(3, 1, m3)]
  {
    var ops := OperacionesEjemplo(m1, m2, m3);
    var q := DelClienteId(Some(1));
    assert Filter(ops[2..], q) == [ops[2]] + Filter([], q);
    assert Filter(ops[1..], q) == Filter(ops[2..], q);
  }

  /** Choosing client 1 offers its two operations, in their order. */
  lemma OfrecidasAlClienteUno(m1: real, m2: real, m3: real)
    ensures OperacionesDelCliente(OperacionesEjemplo(m1, m2, m3), "1")
            == [OperacionOpcion(1, 1, m1), OperacionOpcion(3, 1, m3)]
  {
    assert ParseInt("1") == Some(1) by { assert AllDigits("1"); }
    FiltroClienteUno(m1, m2, m3);
  }

  /** After client 1 and its operation 1 were chosen, switching to client 2
      keeps operation 1 as the selected operation although it is not among
      those now offered. */
  lemma OperacionDeOtroCliente(m1: real, m2: real, m3: real)
    ensures OperacionElegida(OperacionesEjemplo(m1, m2, m3), "1") == Some(OperacionOpcion(1, 1, m1))
    ensures OperacionOpcion(1, 1, m1) !in OperacionesDelCliente(OperacionesEjemplo(m1, m2, m3), "2")
  {
    assert ParseInt("1") == Some(1);
    assert ParseInt("2") == Some(2);
  }
}
