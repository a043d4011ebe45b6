/** The payment form: choosing a client clears the operation, the client's
    first operation is then chosen for it, the operation select lists only
    that client's operations, and the form reaches `onSubmit` only when the
    required fields are filled in. Ids are read from the selects with
    `parseInt`; `None` stands for `''`, `null`, `undefined` and NaN alike. */
module FormularioPago {
  import opened Common

  datatype FormPago = FormPago(
    cliente: Option<int>,
    operacion: Option<int>,
    monto: Option<real>,
    fecha: Option<Fecha>,
    metodoPago: string,
    numeroComprobante: string,
    estado: string,
    observaciones: string,
    clienteId: Option<int>,
    operacionId: Option<int>)

  /** The form a new payment starts from: nothing chosen, today's date,
      cash and a pending state. */
  function FormInicial(hoy: Fecha): (f: FormPago)
    ensures f.cliente.None? && f.operacion.None? && f.clienteId.None? && f.operacionId.None?
    ensures f.monto.None? && f.fecha == Some(hoy) && f.metodoPago == "Efectivo"
    ensures f.numeroComprobante == "" && f.estado == "Pendiente" && f.observaciones == ""
  {
    FormPago(None, None, None, Some(hoy), "Efectivo", "", "Pendiente", "", None, None)
  }

  // ---------------------------------------------------------------------------
  // Lookups.

  /** `c.id === id`: never true for NaN. */
  function ConId(id: Option<int>): ClienteOpcion -> bool {
    (c: ClienteOpcion) => id == Some(c.id)
  }

  function OperacionConId(id: Option<int>): OperacionOpcion -> bool {
    (o: OperacionOpcion) => id == Some(o.id)
  }

  function DelCliente(c: ClienteOpcion): OperacionOpcion -> bool {
    (op: OperacionOpcion) => op.clienteId == c.id
  }

  /** The operations of client `c`, in dataset order. */
  function OperacionesDe(operaciones: seq<OperacionOpcion>, c: ClienteOpcion): (r: seq<OperacionOpcion>)
    ensures IsSubseq(r, operaciones)
    ensures forall op :: op in r <==> op in operaciones && op.clienteId == c.id
    ensures forall op :: multiset(r)[op] == if op.clienteId == c.id then multiset(operaciones)[op] else 0
    ensures r == [] <==> Find(operaciones, DelCliente(c)).None?
    ensures r != [] ==> Find(operaciones, DelCliente(c)) == Some(r[0])
  {
    FilterEsFiltrado(operaciones, DelCliente(c));
    FilterMembers(operaciones, DelCliente(c));
    FindEsPrimeroDelFiltro(operaciones, DelCliente(c));
    Filter(operaciones, DelCliente(c))
  }

  /** The options of the operation select: every operation while no client
      is chosen (the select is then disabled), else the client's. */
  function OperacionesOfrecidas(operaciones: seq<OperacionOpcion>, sel: Option<ClienteOpcion>): (r: seq<OperacionOpcion>)
    ensures sel.None? ==> r == operaciones
    ensures sel.Some? ==> IsSubseq(r, operaciones)
    ensures sel.Some? ==> forall op :: op in r <==> op in operaciones && op.clienteId == sel.value.id
    ensures sel.Some? ==>
              forall op :: multiset(r)[op] == if op.clienteId == sel.value.id then multiset(operaciones)[op] else 0
  {
    if sel.None? then operaciones else OperacionesDe(operaciones, sel.value)
  }

  // ---------------------------------------------------------------------------
  // validateForm

  datatype Mensaje =
    | ClienteObligatorio | OperacionObligatoria | MontoNoPositivo | FechaObligatoria
    | MetodoObligatorio | ComprobanteObligatorio

  function Texto(m: Mensaje): string {
    match m
    case ClienteObligatorio => "Debe seleccionar un cliente"
    case OperacionObligatoria => "Debe seleccionar una operación"
    case MontoNoPositivo => "El monto debe ser mayor a 0"
    case FechaObligatoria => "La fecha es obligatoria"
    case MetodoObligatorio => "Debe seleccionar un método de pago"
    case ComprobanteObligatorio => "El número de comprobante es obligatorio"
  }

  datatype Errores = Errores(
    cliente: Option<Mensaje>,
    operacion: Option<Mensaje>,
    monto: Option<Mensaje>,
    fecha: Option<Mensaje>,
    metodoPago: Option<Mensaje>,
    numeroComprobante: Option<Mensaje>)

  const SinErrores: Errores := Errores(None, None, None, None, None, None)

  /** What the form accepts: a client and an operation (a 0 id is falsy), a
      positive amount, a date, a method and a receipt number. */
  predicate FormValido(f: FormPago) {
    Truthy(f.clienteId) && Truthy(f.operacionId) && f.monto.Some? && f.monto.value > 0.0
    && f.fecha.Some? && f.metodoPago != "" && f.numeroComprobante != ""
  }

  /** The message each field gets from `validateForm`. */
  predicate MensajesDe(f: FormPago, errores: Errores) {
    errores.cliente == (if !Truthy(f.clienteId) then Some(ClienteObligatorio) else None)
    && errores.operacion == (if !Truthy(f.operacionId) then Some(OperacionObligatoria) else None)
    && errores.monto == (if f.monto.None? || f.monto.value <= 0.0 then Some(MontoNoPositivo) else None)
    && errores.fecha == (if f.fecha.None? then Some(FechaObligatoria) else None)
    && errores.metodoPago == (if f.metodoPago == "" then Some(MetodoObligatorio) else None)
    && errores.numeroComprobante == (if f.numeroComprobante == "" then Some(ComprobanteObligatorio) else None)
  }

  /** `validateForm`: one message per faulty field, `ok` when there is none. */
  method ValidateForm(f: FormPago) returns (errores: Errores, ok: bool)
    ensures ok <==> errores == SinErrores
    ensures ok <==> FormValido(f)
    ensures MensajesDe(f, errores)
  {
    var errCliente, errOperacion, errMonto, errFecha, errMetodo, errComprobante: Option<Mensaje> :=
      None, None, None, None, None, None;
    if !Truthy(f.clienteId) {
      errCliente := Some(ClienteObligatorio);
    }
    if !Truthy(f.operacionId) {
      errOperacion := Some(OperacionObligatoria);
    }
    if f.monto.None? || f.monto.value <= 0.0 {
      errMonto := Some(MontoNoPositivo);
    }
    if f.fecha.None? {
      errFecha := Some(FechaObligatoria);
    }
    if f.metodoPago == "" {
      errMetodo := Some(MetodoObligatorio);
    }
    if f.numeroComprobante == "" {
      errComprobante := Some(ComprobanteObligatorio);
    }
    errores := Errores(errCliente, errOperacion, errMonto, errFecha, errMetodo, errComprobante);
    ok := errores == SinErrores;
  }

  /** Choosing the placeholder of the client select reads NaN, which fails
      the check as a missing client. */
  lemma PlaceholderSinCliente(f: FormPago)
    requires f.clienteId == ParseInt("")
    ensures !FormValido(f)
  {
  }

  // ---------------------------------------------------------------------------
  // The form's state.

  /** An edit from one of the plain inputs (`handleChange`). */
  datatype Cambio =
    | CambioMonto(m: Option<real>) | CambioFecha(d: Option<Fecha>) | CambioMetodo(v: string)
    | CambioComprobante(v: string) | CambioEstado(v: string) | CambioObservaciones(v: string)

  class FormularioPagoEstado {
    const clientes: seq<ClienteOpcion>
    const operaciones: seq<OperacionOpcion>
    var formData: FormPago
    var clienteSeleccionado: Option<ClienteOpcion>
    var operacionSeleccionada: Option<OperacionOpcion>
    var errores: Errores

    /** The selections are always entries of the lists the form was given. */
    ghost predicate Valid()
      reads this
    {
      (clienteSeleccionado.Some? ==> clienteSeleccionado.value in clientes)
      && (operacionSeleccionada.Some? ==> operacionSeleccionada.value in operaciones)
    }

    constructor (clientes0: seq<ClienteOpcion>, operaciones0: seq<OperacionOpcion>, hoy: Fecha)
      ensures clientes == clientes0 && operaciones == operaciones0
      ensures formData == FormInicial(hoy) && errores == SinErrores
      ensures clienteSeleccionado.None? && operacionSeleccionada.None?
      ensures Valid()
    {
      clientes, operaciones := clientes0, operaciones0;
      formData := FormInicial(hoy);
      clienteSeleccionado, operacionSeleccionada := None, None;
      errores := SinErrores;
    }

    /** `handleChange`: the field takes the value and its message, if any,
        is cleared. */
    method HandleChange(c: Cambio)
      modifies this
      ensures formData == match c
        case CambioMonto(m) => old(formData).(monto := m)
        case CambioFecha(d) => old(formData).(fecha := d)
        case CambioMetodo(v) => old(formData).(metodoPago := v)
        case CambioComprobante(v) => old(formData).(numeroComprobante := v)
        case CambioEstado(v) => old(formData).(estado := v)
        case CambioObservaciones(v) => old(formData).(observaciones := v)
      ensures errores == match c
        case CambioMonto(_) => old(errores).(monto := None)
        case CambioFecha(_) => old(errores).(fecha := None)
        case CambioMetodo(_) => old(errores).(metodoPago := None)
        case CambioComprobante(_) => old(errores).(numeroComprobante := None)
        case _ => old(errores)
      ensures clienteSeleccionado == old(clienteSeleccionado) && operacionSeleccionada == old(operacionSeleccionada)
    {
      match c {
        case CambioMonto(m) =>
          formData := formData.(monto := m);
          errores := errores.(monto := None);
        case CambioFecha(d) =>
          formData := formData.(fecha := d);
          errores := errores.(fecha := None);
        case CambioMetodo(v) =>
          formData := formData.(metodoPago := v);
          errores := errores.(metodoPago := None);
        case CambioComprobante(v) =>
          formData := formData.(numeroComprobante := v);
          errores := errores.(numeroComprobante := None);
        case CambioEstado(v) =>
          formData := formData.(estado := v);
        case CambioObservaciones(v) =>
          formData := formData.(observaciones := v);
      }
    }

    /** `handleClienteChange`: the client is looked up by the id read from
        the select, and the operation is cleared. */
    method HandleClienteChange(valor: string)
      requires Valid()
      modifies this
      ensures formData == old(formData).(cliente := ParseInt(valor), clienteId := ParseInt(valor),
                                         operacion := None, operacionId := None)
      ensures clienteSeleccionado == Find(clientes, ConId(ParseInt(valor)))
      ensures operacionSeleccionada.None?
      ensures errores == old(errores) && Valid()
    {
      var clienteId := ParseInt(valor);
      clienteSeleccionado := Find(clientes, ConId(clienteId));
      operacionSeleccionada := None;
      formData := formData.(cliente := clienteId, clienteId := clienteId, operacion := None, operacionId := None);
    }

    /** `handleOperacionChange`: the operation is looked up by the id read
        from the select. */
    method HandleOperacionChange(valor: string)
      requires Valid()
      modifies this
      ensures formData == old(formData).(operacion := ParseInt(valor), operacionId := ParseInt(valor))
      ensures operacionSeleccionada == Find(operaciones, OperacionConId(ParseInt(valor)))
      ensures clienteSeleccionado == old(clienteSeleccionado) && errores == old(errores) && Valid()
    {
      var operacionId := ParseInt(valor);
      operacionSeleccionada := Find(operaciones, OperacionConId(operacionId));
      formData := formData.(operacion := operacionId, operacionId := operacionId);
    }

    /** The effect on the selections: with a client and no operation, the
        client's first operation in dataset order is chosen, if it has one. */
    method AutoSeleccion()
      requires Valid()
      modifies this
      ensures clienteSeleccionado == old(clienteSeleccionado) && errores == old(errores) && Valid()
      ensures old(clienteSeleccionado).Some? && old(operacionSeleccionada).None?
              && OperacionesDe(operaciones, old(clienteSeleccionado).value) != [] ==>
                var c := old(clienteSeleccionado).value;
                var op := OperacionesDe(operaciones, c)[0];
                operacionSeleccionada == Some(op) == Find(operaciones, DelCliente(c))
                && op.clienteId == c.id
                && formData == old(formData).(operacion := Some(op.id), clienteId := Some(c.id),
                                              operacionId := Some(op.id))
      ensures !(old(clienteSeleccionado).Some? && old(operacionSeleccionada).None?
                && OperacionesDe(operaciones, old(clienteSeleccionado).value) != []) ==>
                operacionSeleccionada == old(operacionSeleccionada) && formData == old(formData)
    {
      if clienteSeleccionado.Some? {
        var operacionesCliente := OperacionesDe(operaciones, clienteSeleccionado.value);
        if |operacionesCliente| > 0 && operacionSeleccionada.None? {
          operacionSeleccionada := Some(operacionesCliente[0]);
          formData := formData.(operacion := Some(operacionesCliente[0].id),
                                clienteId := Some(clienteSeleccionado.value.id),
                                operacionId := Some(operacionesCliente[0].id));
        }
      }
    }

    /** Choosing a client, then the effect: a client with operations ends
        with its first operation chosen; otherwise no operation is. */
    method ElegirCliente(valor: string)
      requires Valid()
      modifies this
      ensures clienteSeleccionado == Find(clientes, ConId(ParseInt(valor))) && Valid()
      ensures clienteSeleccionado.Some? && OperacionesDe(operaciones, clienteSeleccionado.value) != [] ==>
                operacionSeleccionada == Find(operaciones, DelCliente(clienteSeleccionado.value))
                && operacionSeleccionada.Some?
                && operacionSeleccionada.value.clienteId == clienteSeleccionado.value.id
                && formData.operacionId == Some(operacionSeleccionada.value.id)
      ensures !(clienteSeleccionado.Some? && OperacionesDe(operaciones, clienteSeleccionado.value) != []) ==>
                operacionSeleccionada.None? && formData.operacionId.None?
      ensures errores == old(errores)
    {
      HandleClienteChange(valor);
      AutoSeleccion();
    }

    /** `handleSubmit`: the messages are replaced by those of the check, and
        `onSubmit` receives the form only when it passes. */
    method HandleSubmit() returns (enviado: Option<FormPago>)
      modifies this
      ensures MensajesDe(formData, errores)
      ensures formData == old(formData)
      ensures clienteSeleccionado == old(clienteSeleccionado) && operacionSeleccionada == old(operacionSeleccionada)
      ensures enviado.Some? <==> FormValido(formData)
      ensures enviado.Some? <==> errores == SinErrores
      ensures enviado.Some? ==> enviado.value == formData
    {
      var e, ok := ValidateForm(formData);
      errores := e;
      if ok {
        enviado := Some(formData);
      } else {
        enviado := None;
      }
    }
  }

  // ---------------------------------------------------------------------------
  // Examples.

  /** Operations 1 and 3 belong to client 1, operation 2 to client 2. */
  function OperacionesEjemplo(m1: real, m2: real, m3: real): seq<OperacionOpcion> {
    [OperacionOpcion(1, 1, m1), OperacionOpcion(2, 2, m2), OperacionOpcion(3, 1, m3)]
  }

  /** Client 2's first (and only) operation is operation 2, though it is not
      the first in the list. */
  lemma PrimeraDelClienteDos(m1: real, m2: real, m3: real, nombre: string)
    ensures OperacionesDe(OperacionesEjemplo(m1, m2, m3), ClienteOpcion(2, nombre))[0] == OperacionOpcion(2, 2, m2)
  {
    var ops := OperacionesEjemplo(m1, m2, m3);
    var q := DelCliente(ClienteOpcion(2, nombre));
    assert Filter(ops[1..], q) == [ops[1]] + Filter(ops[2..], q);
    assert Filter(ops, q) == Filter(ops[1..], q);
  }
}
