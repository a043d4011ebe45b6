/** The new-operation dialog: simple interest on the amount, an installment
    rounded to a whole number, field-by-field validation against the chosen
    client, and the record handed to `onSave`. */
module OperacionModal {
  import opened Common
  import opened Miles

  datatype Cliente = Cliente(id: int, nombre: string, documento: string, limite: real, estado: string)

  /** The dialog's sample clients. */
  const ClientesMuestra: seq<Cliente> := [
    Cliente(1, "Juan Pérez", "25.123.456", 100000.0, "Activo"),
    Cliente(2, "María González", "27.987.654", 150000.0, "Activo"),
    Cliente(3, "Carlos Rodríguez", "20.456.789", 200000.0, "Activo"),
    Cliente(4, "Laura Fernández", "30.789.123", 120000.0, "Inactivo")
  ]

  /** The test `c => c.id === id` of the dialog's lookup. */
  function TieneId(id: int): Cliente -> bool {
    (c: Cliente) => c.id == id
  }

  /** `clientes.find(c => c.id === id)`: the first client with that id. */
  function BuscarCliente(clientes: seq<Cliente>, id: int): (c: Option<Cliente>)
    ensures c.Some? ==> c.value in clientes && c.value.id == id
    ensures c.Some? ==> exists i :: PrimeroQue(clientes, TieneId(id), i) && clientes[i] == c.value
    ensures c.None? <==> forall i :: 0 <= i < |clientes| ==> clientes[i].id != id
  {
    Find(clientes, TieneId(id))
  }

  /** The dialog's form. `clienteId` is `None` while no client is chosen;
      `monto` is the number the amount input stored (0 also stands for the
      blank initial value: both are falsy); `cuotas` comes from a select;
      `fechaInicio` is `None` when the date input is cleared. */
  datatype FormModal = FormModal(
    clienteId: Option<int>,
    monto: nat,
    cuotas: int,
    tasaInteres: Campo,
    fechaInicio: Option<Fecha>,
    observaciones: string)

  /** `initialForm`: the preselected client if any, 12 installments, 45%. */
  function FormInicial(preseleccionado: Option<int>, hoy: Fecha): (f: FormModal)
    ensures f.clienteId == preseleccionado && f.monto == 0 && f.cuotas == 12
    ensures f.tasaInteres == Fijado(45.0) && f.fechaInicio == Some(hoy) && f.observaciones == ""
  {
    FormModal(preseleccionado, 0, 12, Fijado(45.0), Some(hoy), "")
  }

  // ---------------------------------------------------------------------------
  // calcularOperacion

  /** `Math.round`: the nearest integer, halves rounded up. */
  function Redondear(x: real): (n: int)
    ensures n as real - 0.5 <= x < n as real + 0.5
  {
    (x + 0.5).Floor
  }

  datatype CalculoOperacion = CalculoOperacion(montoCuota: int, totalAPagar: real, fechaVencimiento: Option<Fecha>)

  const CalculoInicial: CalculoOperacion := CalculoOperacion(0, 0.0, None)

  /** Simple interest: the rate is charged once on the amount, the total is
      split into `cuotas` installments rounded to whole units, and the
      operation ends `cuotas` months after it starts. */
  function CalcularOperacion(monto: real, cuotas: int, tasa: real, inicio: Fecha): (c: CalculoOperacion)
    requires cuotas != 0
    ensures c.totalAPagar == monto * (1.0 + tasa / 100.0)
    ensures c.montoCuota as real - 0.5 <= c.totalAPagar / cuotas as real < c.montoCuota as real + 0.5
    ensures c.fechaVencimiento == Some(AddMonths(inicio, cuotas))
  {
    var interesTotal := monto * (tasa / 100.0);
    var totalAPagar := monto + interesTotal;
    CalculoOperacion(Redondear(totalAPagar / cuotas as real), totalAPagar, Some(AddMonths(inicio, cuotas)))
  }

  lemma RedondeoValores(m: real, t: real, n: real)
    requires n > 0.0 && m - 0.5 <= t / n < m + 0.5
    ensures -n / 2.0 < m * n - t <= n / 2.0
  {
    var q := t / n;
    var d := m - q;
    assert t == q * n;
    assert m * n - t == d * n;
    assert -0.5 < d <= 0.5;
    assert (d + 0.5) * n > 0.0;
    assert (0.5 - d) * n >= 0.0;
  }

  /** The installments add up to the total up to half a unit per
      installment. */
  lemma CuotasCubrenTotal(monto: real, cuotas: int, tasa: real, inicio: Fecha)
    requires cuotas > 0
    ensures var c := CalcularOperacion(monto, cuotas, tasa, inicio);
            -(cuotas as real) / 2.0 < c.montoCuota as real * cuotas as real - c.totalAPagar <= cuotas as real / 2.0
  {
    var c := CalcularOperacion(monto, cuotas, tasa, inicio);
    RedondeoValores(c.montoCuota as real, c.totalAPagar, cuotas as real);
  }

  /** The recalculation effect: it runs `calcularOperacion` when amount,
      installments and rate are truthy. A cleared start date makes the
      date conversion throw, and the exception leaves the last result. */
  function Recalcular(f: FormModal, ultimo: CalculoOperacion): (c: CalculoOperacion)
    ensures !(f.monto != 0 && f.cuotas != 0 && CampoVerdadero(f.tasaInteres)) ==> c == ultimo
    ensures f.fechaInicio.None? ==> c == ultimo
    ensures f.monto != 0 && f.cuotas != 0 && CampoVerdadero(f.tasaInteres) && f.fechaInicio.Some? ==>
              c == CalcularOperacion(f.monto as real, f.cuotas, ParseFloat(f.tasaInteres).value, f.fechaInicio.value)
  {
    if f.monto != 0 && f.cuotas != 0 && CampoVerdadero(f.tasaInteres) then
      match f.fechaInicio
      case None => ultimo
      case Some(inicio) => CalcularOperacion(f.monto as real, f.cuotas, ParseFloat(f.tasaInteres).value, inicio)
    else ultimo
  }

  // ---------------------------------------------------------------------------
  // validateForm

  /** The messages of the dialog's validation. */
  datatype Mensaje =
    | SinCliente | ClienteNoActivo
    | MontoObligatorio | MontoNoPositivo | MontoExcedeLimite(limiteTexto: string)
    | CuotasObligatorias | CuotasNoPositivas
    | TasaObligatoria | TasaNoPositiva
    | FechaObligatoria

  /** The text shown for each message; `limiteTexto` is the limit as the
      currency formatter prints it. */
  function Texto(m: Mensaje): string {
    match m
    case SinCliente => "Debe seleccionar un cliente"
    case ClienteNoActivo => "El cliente seleccionado no está activo"
    case MontoObligatorio => "El monto es obligatorio"
    case MontoNoPositivo => "El monto debe ser un número mayor a cero"
    case MontoExcedeLimite(limiteTexto) =>
      "El monto excede el límite de crédito del cliente (" + limiteTexto + ")"
    case CuotasObligatorias => "El número de cuotas es obligatorio"
    case CuotasNoPositivas => "El número de cuotas debe ser mayor a cero"
    case TasaObligatoria => "La tasa de interés es obligatoria"
    case TasaNoPositiva => "La tasa de interés debe ser mayor a cero"
    case FechaObligatoria => "La fecha de inicio es obligatoria"
  }

  /** The chosen id names a client of the list who is not active. An id the
      list does not know is not rejected. */
  predicate ClienteInactivo(clientes: seq<Cliente>, id: int) {
    var c := BuscarCliente(clientes, id);
    c.Some? && c.value.estado != "Activo"
  }

  predicate ExcedeLimite(f: FormModal, seleccionado: Option<Cliente>) {
    seleccionado.Some? && f.monto as real > seleccionado.value.limite
  }

  /** What the dialog accepts. */
  predicate FormValido(f: FormModal, clientes: seq<Cliente>, seleccionado: Option<Cliente>) {
    f.clienteId.Some? && !ClienteInactivo(clientes, f.clienteId.value)
    && f.monto > 0 && !ExcedeLimite(f, seleccionado)
    && f.cuotas > 0
    && CampoVerdadero(f.tasaInteres) && ParseFloat(f.tasaInteres).value > 0.0
    && f.fechaInicio.Some?
  }

  /** The error object `validateForm` fills: one optional message per
      field (a field without a message is a key the object does not have). */
  datatype Errores = Errores(
    clienteId: Option<Mensaje>,
    monto: Option<Mensaje>,
    cuotas: Option<Mensaje>,
    tasaInteres: Option<Mensaje>,
    fechaInicio: Option<Mensaje>)

  const SinErrores: Errores := Errores(None, None, None, None, None)

  /** The message each field gets: no client or an inactive one; a missing
      amount or one above the selected client's limit (printed by
      `moneda`); missing or negative installments; a missing or
      non-positive rate; a missing start date. */
  predicate MensajesDe(f: FormModal, clientes: seq<Cliente>, seleccionado: Option<Cliente>, moneda: real -> string,
                       errores: Errores)
  {
    errores.clienteId == (if f.clienteId.None? then Some(SinCliente)
                          else if ClienteInactivo(clientes, f.clienteId.value) then Some(ClienteNoActivo)
                          else None)
    && errores.monto == (if f.monto == 0 then Some(MontoObligatorio)
                         else if ExcedeLimite(f, seleccionado) then Some(MontoExcedeLimite(moneda(seleccionado.value.limite)))
                         else None)
    && errores.cuotas == (if f.cuotas == 0 then Some(CuotasObligatorias)
                          else if f.cuotas < 0 then Some(CuotasNoPositivas)
                          else None)
    && errores.tasaInteres == (if !CampoVerdadero(f.tasaInteres) then Some(TasaObligatoria)
                               else if ParseFloat(f.tasaInteres).value <= 0.0 then Some(TasaNoPositiva)
                               else None)
    && errores.fechaInicio == (if f.fechaInicio.None? then Some(FechaObligatoria) else None)
  }

  /** `validateForm`: decides each field's message in turn, then the object
      of messages; the form passes when it has none. `seleccionado`
      is the client the dialog last selected, which the limit check uses;
      `moneda` is the currency formatter. */
  method ValidateForm(f: FormModal, clientes: seq<Cliente>, seleccionado: Option<Cliente>, moneda: real -> string)
    returns (errores: Errores, ok: bool)
    ensures ok <==> errores == SinErrores
    ensures ok <==> FormValido(f, clientes, seleccionado)
    ensures MensajesDe(f, clientes, seleccionado, moneda, errores)
  {
    var errCliente, errMonto, errCuotas, errTasa, errFecha: Option<Mensaje> := None, None, None, None, None;
    if f.clienteId.None? {
      errCliente := Some(SinCliente);
    } else if ClienteInactivo(clientes, f.clienteId.value) {
      errCliente := Some(ClienteNoActivo);
    }
    if f.monto == 0 {
      errMonto := Some(MontoObligatorio);
    } else {
      var montoNumerico := f.monto as real;
      if montoNumerico <= 0.0 {
        errMonto := Some(MontoNoPositivo);
      } else if seleccionado.Some? && montoNumerico > seleccionado.value.limite {
        errMonto := Some(MontoExcedeLimite(moneda(seleccionado.value.limite)));
      }
    }
    if f.cuotas == 0 {
      errCuotas := Some(CuotasObligatorias);
    } else if f.cuotas <= 0 {
      errCuotas := Some(CuotasNoPositivas);
    }
    if !CampoVerdadero(f.tasaInteres) {
      errTasa := Some(TasaObligatoria);
    } else if ParseFloat(f.tasaInteres).value <= 0.0 {
      errTasa := Some(TasaNoPositiva);
    }
    if f.fechaInicio.None? {
      errFecha := Some(FechaObligatoria);
    }
    errores := Errores(errCliente, errMonto, errCuotas, errTasa, errFecha);
    ok := errores == SinErrores;
  }

  /** Choosing client 4 of the sample list, who is inactive, fails. */
  lemma InactivoRechazado()
    ensures ClienteInactivo(ClientesMuestra, 4)
    ensures !ClienteInactivo(ClientesMuestra, 1)
  {
    var c := BuscarCliente(ClientesMuestra, 4);
    assert ClientesMuestra[3].id == 4;
    assert c.value.id == 4;
    assert c.value == ClientesMuestra[3];
    var d := BuscarCliente(ClientesMuestra, 1);
    assert ClientesMuestra[0].id == 1;
    assert d.value == ClientesMuestra[0];
  }

  // ---------------------------------------------------------------------------
  // The dialog's state and its handlers.

  /** The operation `handleSubmit` hands to `onSave`; `id` is the clock
      reading `Date.now()`. */
  datatype Operacion = Operacion(
    id: int,
    clienteId: Option<int>,
    monto: real,
    cuotas: int,
    tasaInteres: Campo,
    fechaInicio: Option<Fecha>,
    observaciones: string,
    cliente: string,
    montoCuota: int,
    total: real,
    fechaVencimiento: Option<Fecha>,
    estado: string)

  /** The record built from the form, the clock reading `ahora`, the
      selected client and the last calculation. */
  function NuevaOperacion(f: FormModal, ahora: int, seleccionado: Option<Cliente>, ultimo: CalculoOperacion): (o: Operacion)
    ensures o.id == ahora
    ensures o.estado == "Activa"
    ensures o.monto == f.monto as real
    ensures o.montoCuota == ultimo.montoCuota && o.total == ultimo.totalAPagar
    ensures o.fechaVencimiento == ultimo.fechaVencimiento
    ensures seleccionado.Some? ==> o.cliente == seleccionado.value.nombre
    ensures seleccionado.None? ==> o.cliente == "Cliente"
    ensures o.clienteId == f.clienteId && o.cuotas == f.cuotas && o.tasaInteres == f.tasaInteres
    ensures o.fechaInicio == f.fechaInicio && o.observaciones == f.observaciones
  {
    Operacion(ahora, f.clienteId, f.monto as real, f.cuotas, f.tasaInteres, f.fechaInicio, f.observaciones,
              if seleccionado.Some? then seleccionado.value.nombre else "Cliente",
              ultimo.montoCuota, ultimo.totalAPagar, ultimo.fechaVencimiento, "Activa")
  }

  /** An edit `handleChange` applies to an input other than the client
      select. */
  datatype Cambio =
    | CambioCuotas(n: int) | CambioTasa(t: Campo) | CambioFecha(d: Option<Fecha>) | CambioObservaciones(s: string)

  class DialogoOperacion {
    const preseleccionado: Option<int>
    const hoy: Fecha
    var formData: FormModal
    var errores: Errores
    var clienteSeleccionado: Option<Cliente>
    var calculo: CalculoOperacion

    /** Opening the dialog: the initial form, then the mount effect, which
        selects the preselected client when the sample list has it. */
    constructor (pre: Option<int>, fecha: Fecha)
      ensures preseleccionado == pre && hoy == fecha && errores == SinErrores && calculo == CalculoInicial
      ensures pre.Some? && BuscarCliente(ClientesMuestra, pre.value).Some? ==>
                clienteSeleccionado == BuscarCliente(ClientesMuestra, pre.value)
                && formData == FormInicial(pre, fecha).(clienteId := Some(clienteSeleccionado.value.id))
      ensures !(pre.Some? && BuscarCliente(ClientesMuestra, pre.value).Some?) ==>
                clienteSeleccionado.None? && formData == FormInicial(pre, fecha)
    {
      preseleccionado := pre;
      hoy := fecha;
      var form := FormInicial(pre, fecha);
      var seleccionado := None;
      if pre.Some? {
        var cliente := BuscarCliente(ClientesMuestra, pre.value);
        if cliente.Some? {
          seleccionado := cliente;
          form := form.(clienteId := Some(cliente.value.id));
        }
      }
      formData := form;
      clienteSeleccionado := seleccionado;
      errores := SinErrores;
      calculo := CalculoInicial;
    }

    /** `handleChange` on the client select: a non-empty choice also
        updates the selected client (to nothing when the id is unknown);
        the field's error is cleared. */
    method CambiarCliente(valor: Option<int>)
      modifies this
      ensures formData == old(formData).(clienteId := valor)
      ensures valor.Some? ==> clienteSeleccionado == BuscarCliente(ClientesMuestra, valor.value)
      ensures valor.None? ==> clienteSeleccionado == old(clienteSeleccionado)
      ensures errores == old(errores).(clienteId := None)
      ensures calculo == old(calculo)
    {
      formData := formData.(clienteId := valor);
      if valor.Some? {
        clienteSeleccionado := BuscarCliente(ClientesMuestra, valor.value);
      }
      errores := errores.(clienteId := None);
    }

    /** `handleCurrencyInput`, then the recalculation effect. */
    method IngresarMonto(texto: string) returns (mostrado: string)
      modifies this
      ensures mostrado == FormatCurrencyInput(texto)
      ensures formData == old(formData).(monto := DigitsValue(SoloDigitos(texto)))
      ensures calculo == Recalcular(formData, old(calculo))
      ensures errores == old(errores) && clienteSeleccionado == old(clienteSeleccionado)
    {
      var e := HandleCurrencyInput(texto);
      formData := formData.(monto := e.valor);
      calculo := Recalcular(formData, calculo);
      mostrado := e.mostrado;
    }

    /** `handleChange` on one of the other inputs: the field takes the value
        and only its own message is cleared. A change of installments, rate
        or date then runs the recalculation effect; the notes are not among
        the effect's dependencies. */
    method HandleChange(c: Cambio)
      modifies this
      ensures formData == match c
        case CambioCuotas(n) => old(formData).(cuotas := n)
        case CambioTasa(t) => old(formData).(tasaInteres := t)
        case CambioFecha(d) => old(formData).(fechaInicio := d)
        case CambioObservaciones(s) => old(formData).(observaciones := s)
      ensures errores == match c
        case CambioCuotas(_) => old(errores).(cuotas := None)
        case CambioTasa(_) => old(errores).(tasaInteres := None)
        case CambioFecha(_) => old(errores).(fechaInicio := None)
        case CambioObservaciones(_) => old(errores)
      ensures !c.CambioObservaciones? ==> calculo == Recalcular(formData, old(calculo))
      ensures c.CambioObservaciones? ==> calculo == old(calculo)
      ensures clienteSeleccionado == old(clienteSeleccionado)
    {
      match c {
        case CambioCuotas(n) =>
          formData := formData.(cuotas := n);
          errores := errores.(cuotas := None);
        case CambioTasa(t) =>
          formData := formData.(tasaInteres := t);
          errores := errores.(tasaInteres := None);
        case CambioFecha(d) =>
          formData := formData.(fechaInicio := d);
          errores := errores.(fechaInicio := None);
        case CambioObservaciones(s) =>
          formData := formData.(observaciones := s);
      }
      if !c.CambioObservaciones? {
        calculo := Recalcular(formData, calculo);
      }
    }

    /** `handleSubmit`: on a valid form the operation, with the clock
        reading `ahora` as its id, goes to `onSave` and the form is reset;
        otherwise the errors are shown and nothing is saved. */
    method HandleSubmit(ahora: int, moneda: real -> string) returns (guardada: Option<Operacion>)
      modifies this
      ensures guardada.Some? <==> FormValido(old(formData), ClientesMuestra, old(clienteSeleccionado))
      ensures guardada.Some? ==> guardada.value == NuevaOperacion(old(formData), ahora, old(clienteSeleccionado), old(calculo))
                                 && formData == FormInicial(preseleccionado, hoy)
                                 && errores == SinErrores
      ensures guardada.None? ==> formData == old(formData) && errores != SinErrores
      ensures MensajesDe(old(formData), ClientesMuestra, old(clienteSeleccionado), moneda, errores)
      ensures clienteSeleccionado == old(clienteSeleccionado) && calculo == old(calculo)
    {
      var ok;
      errores, ok := ValidateForm(formData, ClientesMuestra, clienteSeleccionado, moneda);
      if !ok {
        return None;
      }
      guardada := Some(NuevaOperacion(formData, ahora, clienteSeleccionado, calculo));
      formData := FormInicial(preseleccionado, hoy);
    }
  }
}
