/** The new-client dialog: required fields checked after trimming, the
    e-mail pattern, the credit limit typed with thousands separators, and
    the reset after a successful save. */
module ClienteModal {
  import opened Common
  import opened Miles

  datatype FormCliente = FormCliente(
    nombre: string,
    documento: string,
    email: string,
    telefono: string,
    direccion: string,
    limite: int,
    estado: string,
    observaciones: string)

  /** `initialForm`: empty texts, a limit of 50000 and an active client. */
  const FormInicial: FormCliente := FormCliente("", "", "", "", "", 50000, "Activo", "")

  // ---------------------------------------------------------------------------
  // The e-mail pattern `\S+@\S+\.\S+`, searched anywhere in the text.

  /** The characters `s[i..j]` are all non-blank. */
  predicate SinBlancos(s: string, i: int, j: int) {
    0 <= i <= j <= |s| && forall k :: i <= k < j ==> !IsSpace(s[k])
  }

  /** The pattern matches with its `@` at `a` and its `.` at `b`: one
      non-blank before the `@`, at least one between, and one after the dot. */
  predicate EmailEn(s: string, a: int, b: int) {
    1 <= a && a + 2 <= b && b + 2 <= |s| && s[a] == '@' && s[b] == '.' && SinBlancos(s, a - 1, b + 2)
  }

  predicate EmailValido(s: string) {
    exists a, b :: 0 <= a < |s| && 0 <= b < |s| && EmailEn(s, a, b)
  }

  lemma EmailEjemplo()
    ensures EmailValido("juan@example.com")
  {
    assert EmailEn("juan@example.com", 4, 12);
  }

  /** Without a dot after the `@` part, or with nothing between the `@` and
      the dot, the pattern does not match. */
  lemma EmailsInvalidos()
    ensures !EmailValido("juan@example")
    ensures !EmailValido("a@.b")
  {
  }

  // ---------------------------------------------------------------------------
  // validateForm

  datatype Mensaje =
    | NombreObligatorio | DocumentoObligatorio | EmailObligatorio | EmailInvalido
    | TelefonoObligatorio | DireccionObligatoria | LimiteObligatorio | LimiteNoPositivo

  function Texto(m: Mensaje): string {
    match m
    case NombreObligatorio => "El nombre es obligatorio"
    case DocumentoObligatorio => "El documento es obligatorio"
    case EmailObligatorio => "El email es obligatorio"
    case EmailInvalido => "El formato del email no es válido"
    case TelefonoObligatorio => "El teléfono es obligatorio"
    case DireccionObligatoria => "La dirección es obligatoria"
    case LimiteObligatorio => "El límite de crédito es obligatorio"
    case LimiteNoPositivo => "El límite debe ser un número mayor a cero"
  }

  datatype Errores = Errores(
    nombre: Option<Mensaje>,
    documento: Option<Mensaje>,
    email: Option<Mensaje>,
    telefono: Option<Mensaje>,
    direccion: Option<Mensaje>,
    limite: Option<Mensaje>)

  const SinErrores: Errores := Errores(None, None, None, None, None, None)

  /** What the dialog accepts: no required text is blank, the e-mail fits
      the pattern and the limit is positive. */
  predicate FormValido(f: FormCliente) {
    !AllSpace(f.nombre) && !AllSpace(f.documento) && !AllSpace(f.email) && EmailValido(f.email)
    && !AllSpace(f.telefono) && !AllSpace(f.direccion) && f.limite > 0
  }

  /** The message each field gets for the form `f`: a blank text is
      missing, the e-mail must fit the pattern, and the limit is missing when
      0 and wrong when negative. */
  predicate MensajesDe(f: FormCliente, errores: Errores) {
    errores.nombre == (if AllSpace(f.nombre) then Some(NombreObligatorio) else None)
    && errores.documento == (if AllSpace(f.documento) then Some(DocumentoObligatorio) else None)
    && errores.email == (if AllSpace(f.email) then Some(EmailObligatorio)
                         else if !EmailValido(f.email) then Some(EmailInvalido) else None)
    && errores.telefono == (if AllSpace(f.telefono) then Some(TelefonoObligatorio) else None)
    && errores.direccion == (if AllSpace(f.direccion) then Some(DireccionObligatoria) else None)
    && errores.limite == (if f.limite == 0 then Some(LimiteObligatorio)
                          else if f.limite < 0 then Some(LimiteNoPositivo) else None)
  }

  /** `validateForm`: one message per faulty field, `ok` when there is none. */
  method ValidateForm(f: FormCliente) returns (errores: Errores, ok: bool)
    ensures ok <==> errores == SinErrores
    ensures ok <==> FormValido(f)
    ensures MensajesDe(f, errores)
  {
    TrimEmptyIffBlank(f.nombre);
    TrimEmptyIffBlank(f.documento);
    TrimEmptyIffBlank(f.email);
    TrimEmptyIffBlank(f.telefono);
    TrimEmptyIffBlank(f.direccion);
    var errNombre, errDocumento, errEmail, errTelefono, errDireccion, errLimite: Option<Mensaje> :=
      None, None, None, None, None, None;
    if Trim(f.nombre) == "" {
      errNombre := Some(NombreObligatorio);
    }
    if Trim(f.documento) == "" {
      errDocumento := Some(DocumentoObligatorio);
    }
    if Trim(f.email) == "" {
      errEmail := Some(EmailObligatorio);
    } else if !EmailValido(f.email) {
      errEmail := Some(EmailInvalido);
    }
    if Trim(f.telefono) == "" {
      errTelefono := Some(TelefonoObligatorio);
    }
    if Trim(f.direccion) == "" {
      errDireccion := Some(DireccionObligatoria);
    }
    if f.limite == 0 {
      errLimite := Some(LimiteObligatorio);
    } else if f.limite <= 0 {
      errLimite := Some(LimiteNoPositivo);
    }
    errores := Errores(errNombre, errDocumento, errEmail, errTelefono, errDireccion, errLimite);
    ok := errores == SinErrores;
  }

  /** A name made of blanks only is rejected as missing. */
  lemma NombreEnBlanco(f: FormCliente)
    requires f.nombre == "   "
    ensures !FormValido(f)
  {
    assert AllSpace(f.nombre);
  }

  /** A limit typed without any digit is stored as 0, which fails as a
      missing limit. */
  lemma LimiteSinDigitos(texto: string, f: FormCliente)
    requires SoloDigitos(texto) == []
    ensures HandleCurrencyInput(texto).valor == 0
    ensures !FormValido(f.(limite := HandleCurrencyInput(texto).valor))
  {
  }

  // ---------------------------------------------------------------------------
  // The dialog's state.

  /** An edit from one of the plain inputs (`handleChange`). */
  datatype Cambio =
    | CambioNombre(v: string) | CambioDocumento(v: string) | CambioEmail(v: string)
    | CambioTelefono(v: string) | CambioDireccion(v: string) | CambioEstado(v: string)
    | CambioObservaciones(v: string)

  /** The client handed to `onSave`: the form, an id taken from the clock
      and today's date. */
  datatype ClienteNuevo = ClienteNuevo(datos: FormCliente, id: int, fechaAlta: Fecha)

  class DialogoCliente {
    var formData: FormCliente
    var errores: Errores

    constructor ()
      ensures formData == FormInicial && errores == SinErrores
    {
      formData := FormInicial;
      errores := SinErrores;
    }

    /** `handleChange`: the field takes the value and its message, if any,
        is cleared. */
    method HandleChange(c: Cambio)
      modifies this
      ensures formData == match c
        case CambioNombre(v) => old(formData).(nombre := v)
        case CambioDocumento(v) => old(formData).(documento := v)
        case CambioEmail(v) => old(formData).(email := v)
        case CambioTelefono(v) => old(formData).(telefono := v)
        case CambioDireccion(v) => old(formData).(direccion := v)
        case CambioEstado(v) => old(formData).(estado := v)
        case CambioObservaciones(v) => old(formData).(observaciones := v)
      ensures errores == match c
        case CambioNombre(_) => old(errores).(nombre := None)
        case CambioDocumento(_) => old(errores).(documento := None)
        case CambioEmail(_) => old(errores).(email := None)
        case CambioTelefono(_) => old(errores).(telefono := None)
        case CambioDireccion(_) => old(errores).(direccion := None)
        case _ => old(errores)
    {
      match c {
        case CambioNombre(v) =>
          formData := formData.(nombre := v);
          errores := errores.(nombre := None);
        case CambioDocumento(v) =>
          formData := formData.(documento := v);
          errores := errores.(documento := None);
        case CambioEmail(v) =>
          formData := formData.(email := v);
          errores := errores.(email := None);
        case CambioTelefono(v) =>
          formData := formData.(telefono := v);
          errores := errores.(telefono := None);
        case CambioDireccion(v) =>
          formData := formData.(direccion := v);
          errores := errores.(direccion := None);
        case CambioEstado(v) =>
          formData := formData.(estado := v);
        case CambioObservaciones(v) =>
          formData := formData.(observaciones := v);
      }
    }

    /** `handleCurrencyInput`: the limit input is reformatted, the digits
        it holds become the limit (0 when there are none) and the limit's
        message, if any, is cleared. */
    method HandleCurrencyInput(value: string) returns (mostrado: string)
      modifies this
      ensures mostrado == FormatCurrencyInput(value)
      ensures formData == old(formData).(limite := DigitsValue(SoloDigitos(value)))
      ensures errores == old(errores).(limite := None)
    {
      var e := Miles.HandleCurrencyInput(value);
      mostrado := e.mostrado;
      formData := formData.(limite := e.valor);
      if errores.limite.Some? {
        errores := errores.(limite := None);
      }
    }

    /** `handleSubmit`: an invalid form only shows its messages; a valid one
        is handed over with the clock's id and today's date, and the form
        goes back to its initial values. */
    method HandleSubmit(ahora: int, hoy: Fecha) returns (guardado: Option<ClienteNuevo>)
      modifies this
      ensures guardado.Some? <==> FormValido(old(formData))
      ensures guardado.Some? ==> guardado.value == ClienteNuevo(old(formData), ahora, hoy)
                                 && formData == FormInicial && errores == SinErrores
      ensures guardado.None? ==> formData == old(formData) && errores != SinErrores
      ensures MensajesDe(old(formData), errores)
    {
      var e, ok := ValidateForm(formData);
      errores := e;
      if !ok {
        return None;
      }
      guardado := Some(ClienteNuevo(formData, ahora, hoy));
      formData := FormInicial;
    }
  }

  /** The initial limit is shown as `50.000`. */
  lemma LimiteInicialMostrado()
    ensures FormatCurrencyInput(NatToString(FormInicial.limite)) == "50.000"
  {
    NatToStringValue(50000);
    assert NatToString(50000) == "50000";
    CincuentaMil();
  }
}
