/** The credit-analysis dialog: the form it opens with, the required-field
    check (where the "must be positive" message replaces the "required"
    one), and the record handed to `onSave` with the client's name and
    the score resolved. */
module AnalisisModal {
  import opened Common
  import opened NombreCliente

  /** The form. `clienteId` is the text of the select (or of the client id
      the dialog was opened for); `limiteCredito` the number input (`None`
      while blank); `puntaje` the text of the score input. */
  datatype FormAnalisis = FormAnalisis(
    clienteId: string,
    fechaAnalisis: Option<Fecha>,
    analistaResponsable: string,
    resultado: string,
    limiteCredito: Option<real>,
    puntaje: string,
    observaciones: string)

  /** The form the dialog opens with: the given client, today, no analyst,
      "under review", no limit, no score. */
  function FormInicial(clienteIdProp: Option<nat>, hoy: Fecha): (f: FormAnalisis)
    ensures f.clienteId == ClienteInicial(clienteIdProp) && f.fechaAnalisis == Some(hoy)
    ensures f.analistaResponsable == "" && f.resultado == "En revisión"
    ensures f.limiteCredito.None? && f.puntaje == "" && f.observaciones == ""
  {
    FormAnalisis(ClienteInicial(clienteIdProp), Some(hoy), "", "En revisión", None, "", "")
  }

  // ---------------------------------------------------------------------------
  // validateForm

  datatype Mensaje = SeleccioneCliente | AnalistaObligatorio | LimiteObligatorio | LimiteNoPositivo

  function Texto(m: Mensaje): string {
    match m
    case SeleccioneCliente => "Seleccione un cliente"
    case AnalistaObligatorio => "Ingrese el nombre del analista"
    case LimiteObligatorio => "Ingrese el límite de crédito"
    case LimiteNoPositivo => "El límite debe ser mayor a 0"
  }

  datatype Errores = Errores(
    clienteId: Option<Mensaje>,
    analistaResponsable: Option<Mensaje>,
    limiteCredito: Option<Mensaje>)

  const SinErrores: Errores := Errores(None, None, None)

  /** What the dialog accepts: a client, an analyst and a positive limit. */
  predicate FormValido(f: FormAnalisis) {
    f.clienteId != "" && f.analistaResponsable != "" && f.limiteCredito.Some? && f.limiteCredito.value > 0.0
  }

  /** The message each field gets from `validateForm`. */
  predicate MensajesDe(f: FormAnalisis, errores: Errores) {
    errores.clienteId == (if f.clienteId == "" then Some(SeleccioneCliente) else None)
    && errores.analistaResponsable == (if f.analistaResponsable == "" then Some(AnalistaObligatorio) else None)
    && errores.limiteCredito == (if f.limiteCredito.None? || f.limiteCredito.value <= 0.0
                                 then Some(LimiteNoPositivo) else None)
  }

  /** `validateForm`. A blank limit is also `<= 0` (blank reads as 0), so
      the second check overwrites the "required" message: every faulty
      limit ends with `LimiteNoPositivo`. */
  method ValidateForm(f: FormAnalisis) returns (errores: Errores, ok: bool)
    ensures ok <==> errores == SinErrores
    ensures ok <==> FormValido(f)
    ensures MensajesDe(f, errores)
    ensures errores.limiteCredito != Some(LimiteObligatorio)
  {
    var errCliente, errAnalista, errLimite: Option<Mensaje> := None, None, None;
    if f.clienteId == "" {
      errCliente := Some(SeleccioneCliente);
    }
    if f.analistaResponsable == "" {
      errAnalista := Some(AnalistaObligatorio);
    }
    if f.limiteCredito.None? {
      errLimite := Some(LimiteObligatorio);
    }
    // `'' <= 0` holds in JavaScript: the blank limit reads as 0 here.
    var limite := if f.limiteCredito.None? then 0.0 else f.limiteCredito.value;
    if limite <= 0.0 {
      errLimite := Some(LimiteNoPositivo);
    }
    errores := Errores(errCliente, errAnalista, errLimite);
    ok := errores == SinErrores;
  }

  // ---------------------------------------------------------------------------
  // handleSubmit

  /** The score saved: `null` for a blank input, else `parseInt` of its text
      (a leading sign, then the leading digits), NaN when there are none. */
  datatype Puntaje = SinPuntaje | ConPuntaje(n: int) | PuntajeIlegible

  /** `parseInt` of the text of a number input, which may carry a sign. */
  function ParseEntero(s: string): (n: Option<int>)
    ensures s != [] && s[0] != '-' && s[0] != '+' ==> n == ParseInt(s)
    ensures |s| > 1 && s[0] == '-' && ParseInt(s[1..]).Some? ==> n == Some(-ParseInt(s[1..]).value)
    ensures s != [] && s[0] == '+' ==> n == ParseInt(s[1..])
    ensures n.None? <==> (s != [] && (s[0] == '-' || s[0] == '+') && ParseInt(s[1..]).None?)
                         || (ParseInt(s).None? && (s == [] || (s[0] != '-' && s[0] != '+')))
  {
    if s != [] && s[0] == '-' then
      match ParseInt(s[1..])
      case None => None
      case Some(v) => Some(-v)
    else if s != [] && s[0] == '+' then ParseInt(s[1..])
    else ParseInt(s)
  }

  function PuntajeDe(texto: string): (p: Puntaje)
    ensures p.SinPuntaje? <==> texto == ""
    ensures p.ConPuntaje? ==> Some(p.n) == ParseEntero(texto)
    ensures texto != "" && ParseEntero(texto).Some? ==> p == ConPuntaje(ParseEntero(texto).value)
    ensures p.PuntajeIlegible? <==> texto != "" && ParseEntero(texto).None?
    ensures AllDigits(texto) && texto != "" ==> p == ConPuntaje(DigitsValue(texto))
  {
    if texto == "" then SinPuntaje
    else match ParseEntero(texto)
      case None => PuntajeIlegible
      case Some(n) => ConPuntaje(n)
  }

  /** What `onSave` receives: the form with the limit as a number, the score
      resolved and the client's name. */
  datatype AnalisisGuardado = AnalisisGuardado(
    clienteId: string,
    fechaAnalisis: Option<Fecha>,
    analistaResponsable: string,
    resultado: string,
    limiteCredito: real,
    puntaje: Puntaje,
    observaciones: string,
    clienteNombre: string)

  function AnalisisDe(f: FormAnalisis, clienteNombreProp: string): (r: AnalisisGuardado)
    requires FormValido(f)
    ensures r.limiteCredito > 0.0 && Some(r.limiteCredito) == f.limiteCredito
    ensures r.clienteId == f.clienteId && r.fechaAnalisis == f.fechaAnalisis && r.resultado == f.resultado
            && r.analistaResponsable == f.analistaResponsable && r.observaciones == f.observaciones
    ensures r.puntaje == PuntajeDe(f.puntaje)
    ensures r.clienteNombre == NombreResuelto(clienteNombreProp, ClientesMuestra, f.clienteId)
  {
    AnalisisGuardado(f.clienteId, f.fechaAnalisis, f.analistaResponsable, f.resultado, f.limiteCredito.value,
                     PuntajeDe(f.puntaje), f.observaciones,
                     NombreResuelto(clienteNombreProp, ClientesMuestra, f.clienteId))
  }

  /** A score typed as `750` is saved as 750, one typed as `7.5` as 7. */
  lemma PuntajesLeidos()
    ensures PuntajeDe("750") == ConPuntaje(750)
    ensures PuntajeDe("7.5") == ConPuntaje(7)
  {
    assert AllDigits("750");
    assert "750"[..2] == "75" && "75"[..1] == "7" && "7"[..0] == "";
    assert DigitsValue("750") == 750;
    assert PrefijoDigitos("7.5") == "7";
  }

  // ---------------------------------------------------------------------------
  // The dialog's state.

  /** An edit from one input (`handleChange`). */
  datatype Cambio =
    | CambioCliente(v: string) | CambioFecha(d: Option<Fecha>) | CambioAnalista(v: string)
    | CambioResultado(v: string) | CambioLimite(m: Option<real>) | CambioPuntaje(v: string)
    | CambioObservaciones(v: string)

  class DialogoAnalisis {
    /** The client the dialog was opened for, and its name (`""` for none). */
    const clienteIdProp: Option<nat>
    const clienteNombreProp: string
    var analisis: FormAnalisis
    var errores: Errores

    constructor (clienteIdProp0: Option<nat>, clienteNombreProp0: string, hoy: Fecha)
      ensures clienteIdProp == clienteIdProp0 && clienteNombreProp == clienteNombreProp0
      ensures analisis == FormInicial(clienteIdProp0, hoy) && errores == SinErrores
    {
      clienteIdProp, clienteNombreProp := clienteIdProp0, clienteNombreProp0;
      analisis := FormInicial(clienteIdProp0, hoy);
      errores := SinErrores;
    }

    /** The effect on `isOpen`: opening the dialog brings the initial form
        back and clears every message. */
    method Abrir(hoy: Fecha)
      modifies this
      ensures analisis == FormInicial(clienteIdProp, hoy) && analisis.resultado == "En revisión"
      ensures errores == SinErrores
    {
      analisis := FormInicial(clienteIdProp, hoy);
      errores := SinErrores;
    }

    /** `handleChange`: the field takes the value and its message, if any,
        is cleared. */
    method HandleChange(c: Cambio)
      modifies this
      ensures analisis == match c
        case CambioCliente(v) => old(analisis).(clienteId := v)
        case CambioFecha(d) => old(analisis).(fechaAnalisis := d)
        case CambioAnalista(v) => old(analisis).(analistaResponsable := v)
        case CambioResultado(v) => old(analisis).(resultado := v)
        case CambioLimite(m) => old(analisis).(limiteCredito := m)
        case CambioPuntaje(v) => old(analisis).(puntaje := v)
        case CambioObservaciones(v) => old(analisis).(observaciones := v)
      ensures errores == match c
        case CambioCliente(_) => old(errores).(clienteId := None)
        case CambioAnalista(_) => old(errores).(analistaResponsable := None)
        case CambioLimite(_) => old(errores).(limiteCredito := None)
        case _ => old(errores)
    {
      match c {
        case CambioCliente(v) =>
          analisis := analisis.(clienteId := v);
          errores := errores.(clienteId := None);
        case CambioFecha(d) =>
          analisis := analisis.(fechaAnalisis := d);
        case CambioAnalista(v) =>
          analisis := analisis.(analistaResponsable := v);
          errores := errores.(analistaResponsable := None);
        case CambioResultado(v) =>
          analisis := analisis.(resultado := v);
        case CambioLimite(m) =>
          analisis := analisis.(limiteCredito := m);
          errores := errores.(limiteCredito := None);
        case CambioPuntaje(v) =>
          analisis := analisis.(puntaje := v);
        case CambioObservaciones(v) =>
          analisis := analisis.(observaciones := v);
      }
    }

    /** `handleSubmit`: the messages are replaced by those of the check, and
        `onSave` receives the record only when the form passes. */
    method HandleSubmit() returns (guardado: Option<AnalisisGuardado>)
      modifies this
      ensures MensajesDe(analisis, errores)
      ensures analisis == old(analisis)
      ensures guardado.Some? <==> FormValido(analisis)
      ensures guardado.Some? <==> errores == SinErrores
      ensures guardado.Some? ==> guardado.value == AnalisisDe(analisis, clienteNombreProp)
    {
      var e, ok := ValidateForm(analisis);
      errores := e;
      if ok {
        guardado := Some(AnalisisDe(analisis, clienteNombreProp));
      } else {
        guardado := None;
      }
    }
  }

  /** Opened for a client, the form already holds that client's id; opened
      without one, it is rejected until a client is chosen. */
  lemma AbiertoParaCliente(n: nat, hoy: Fecha)
    requires n != 0
    ensures ParseInt(FormInicial(Some(n), hoy).clienteId) == Some(n)
    ensures !FormValido(FormInicial(None, hoy))
  {
  }
}
