/** The document-upload dialog: the form it opens with, the file picker
    that fills in the file name, the required-field check and the record
    handed to `onSave` with the client's name resolved. */
module DocumentoModal {
  import opened Common
  import opened NombreCliente

  /** A file chosen in the picker; only its name is used. */
  datatype Archivo = Archivo(nombre: string)

  datatype FormDocumento = FormDocumento(
    clienteId: string,
    tipoDocumento: string,
    nombreArchivo: string,
    archivo: Option<Archivo>,
    observaciones: string,
    estado: string)

  /** The form the dialog opens with: the given client, no type, no file and
      a pending state. */
  function FormInicial(clienteIdProp: Option<nat>): (f: FormDocumento)
    ensures f.clienteId == ClienteInicial(clienteIdProp)
    ensures f.tipoDocumento == "" && f.nombreArchivo == "" && f.archivo.None?
    ensures f.observaciones == "" && f.estado == "Pendiente"
  {
    FormDocumento(ClienteInicial(clienteIdProp), "", "", None, "", "Pendiente")
  }

  // ---------------------------------------------------------------------------
  // validateForm

  datatype Mensaje = SeleccioneCliente | SeleccioneTipo | SeleccioneArchivo

  function Texto(m: Mensaje): string {
    match m
    case SeleccioneCliente => "Seleccione un cliente"
    case SeleccioneTipo => "Seleccione un tipo de documento"
    case SeleccioneArchivo => "Seleccione un archivo"
  }

  /** The messages by field; the missing file is reported under `archivo`. */
  datatype Errores = Errores(
    clienteId: Option<Mensaje>,
    tipoDocumento: Option<Mensaje>,
    archivo: Option<Mensaje>)

  const SinErrores: Errores := Errores(None, None, None)

  /** What the dialog accepts: a client, a document type and a file name. */
  predicate FormValido(f: FormDocumento) {
    f.clienteId != "" && f.tipoDocumento != "" && f.nombreArchivo != ""
  }

  /** The message each field gets from `validateForm`. */
  predicate MensajesDe(f: FormDocumento, errores: Errores) {
    errores.clienteId == (if f.clienteId == "" then Some(SeleccioneCliente) else None)
    && errores.tipoDocumento == (if f.tipoDocumento == "" then Some(SeleccioneTipo) else None)
    && errores.archivo == (if f.nombreArchivo == "" then Some(SeleccioneArchivo) else None)
  }

  /** `validateForm`: one message per faulty field, `ok` when there is none. */
  method ValidateForm(f: FormDocumento) returns (errores: Errores, ok: bool)
    ensures ok <==> errores == SinErrores
    ensures ok <==> FormValido(f)
    ensures MensajesDe(f, errores)
  {
    var errCliente, errTipo, errArchivo: Option<Mensaje> := None, None, None;
    if f.clienteId == "" {
      errCliente := Some(SeleccioneCliente);
    }
    if f.tipoDocumento == "" {
      errTipo := Some(SeleccioneTipo);
    }
    if f.nombreArchivo == "" {
      errArchivo := Some(SeleccioneArchivo);
    }
    errores := Errores(errCliente, errTipo, errArchivo);
    ok := errores == SinErrores;
  }

  /** The form the dialog opens with is rejected for want of a type and a
      file, whatever client it was opened for. */
  lemma InicialSinArchivo(clienteIdProp: Option<nat>)
    ensures !FormValido(FormInicial(clienteIdProp))
    ensures FormInicial(clienteIdProp).clienteId == "" <==> !Truthy(clienteIdProp)
  {
  }

  // ---------------------------------------------------------------------------
  // handleSubmit

  /** What `onSave` receives: the form and the client's name. */
  datatype DocumentoGuardado = DocumentoGuardado(datos: FormDocumento, clienteNombre: string)

  function DocumentoDe(f: FormDocumento, clienteNombreProp: string): (r: DocumentoGuardado)
    requires FormValido(f)
    ensures r.datos == f && r.datos.nombreArchivo != ""
    ensures r.clienteNombre == NombreResuelto(clienteNombreProp, ClientesMuestra, f.clienteId)
    ensures clienteNombreProp != "" ==> r.clienteNombre == clienteNombreProp
  {
    DocumentoGuardado(f, NombreResuelto(clienteNombreProp, ClientesMuestra, f.clienteId))
  }

  // ---------------------------------------------------------------------------
  // The dialog's state.

  /** An edit from one of the inputs other than the file picker. */
  datatype Cambio =
    | CambioCliente(v: string) | CambioTipo(v: string) | CambioObservaciones(v: string)
    | CambioEstado(v: string)

  class DialogoDocumento {
    /** The client the dialog was opened for, and its name (`""` for none). */
    const clienteIdProp: Option<nat>
    const clienteNombreProp: string
    var documento: FormDocumento
    var selectedFile: Option<Archivo>
    var errores: Errores

    /** The file kept aside is the one the form holds. */
    ghost predicate Valid()
      reads this
    {
      selectedFile == documento.archivo
      && (selectedFile.Some? ==> documento.nombreArchivo == selectedFile.value.nombre)
    }

    constructor (clienteIdProp0: Option<nat>, clienteNombreProp0: string)
      ensures clienteIdProp == clienteIdProp0 && clienteNombreProp == clienteNombreProp0
      ensures documento == FormInicial(clienteIdProp0) && selectedFile.None? && errores == SinErrores
      ensures Valid()
    {
      clienteIdProp, clienteNombreProp := clienteIdProp0, clienteNombreProp0;
      documento := FormInicial(clienteIdProp0);
      selectedFile := None;
      errores := SinErrores;
    }

    /** The effect on `isOpen`: opening the dialog brings the initial form
        back, with no file and no messages. */
    method Abrir()
      modifies this
      ensures documento == FormInicial(clienteIdProp) && documento.estado == "Pendiente"
      ensures selectedFile.None? && errores == SinErrores
      ensures Valid()
    {
      documento := FormInicial(clienteIdProp);
      selectedFile := None;
      errores := SinErrores;
    }

    /** `handleChange`: the field takes the value and its message, if any,
        is cleared. */
    method HandleChange(c: Cambio)
      requires Valid()
      modifies this
      ensures documento == match c
        case CambioCliente(v) => old(documento).(clienteId := v)
        case CambioTipo(v) => old(documento).(tipoDocumento := v)
        case CambioObservaciones(v) => old(documento).(observaciones := v)
        case CambioEstado(v) => old(documento).(estado := v)
      ensures errores == match c
        case CambioCliente(_) => old(errores).(clienteId := None)
        case CambioTipo(_) => old(errores).(tipoDocumento := None)
        case _ => old(errores)
      ensures selectedFile == old(selectedFile) && Valid()
    {
      match c {
        case CambioCliente(v) =>
          documento := documento.(clienteId := v);
          errores := errores.(clienteId := None);
        case CambioTipo(v) =>
          documento := documento.(tipoDocumento := v);
          errores := errores.(tipoDocumento := None);
        case CambioObservaciones(v) =>
          documento := documento.(observaciones := v);
        case CambioEstado(v) =>
          documento := documento.(estado := v);
      }
    }

    /** `handleFileChange`: the first file picked becomes the document's
        file and gives it its name, and the file message is cleared; an
        empty pick changes nothing. */
    method HandleFileChange(files: seq<Archivo>)
      requires Valid()
      modifies this
      ensures files != [] ==>
                selectedFile == Some(files[0])
                && documento == old(documento).(nombreArchivo := files[0].nombre, archivo := Some(files[0]))
                && errores == old(errores).(archivo := None)
      ensures files == [] ==>
                selectedFile == old(selectedFile) && documento == old(documento) && errores == old(errores)
      ensures Valid()
    {
      if files != [] {
        var file := files[0];
        selectedFile := Some(file);
        documento := documento.(nombreArchivo := file.nombre, archivo := Some(file));
        errores := errores.(archivo := None);
      }
    }

    /** `handleSubmit`: the messages are replaced by those of the check, and
        `onSave` receives the record only when the form passes. */
    method HandleSubmit() returns (guardado: Option<DocumentoGuardado>)
      modifies this
      ensures MensajesDe(documento, errores)
      ensures documento == old(documento) && selectedFile == old(selectedFile)
      ensures guardado.Some? <==> FormValido(documento)
      ensures guardado.Some? <==> errores == SinErrores
      ensures guardado.Some? ==> guardado.value == DocumentoDe(documento, clienteNombreProp)
    {
      var e, ok := ValidateForm(documento);
      errores := e;
      if ok {
        guardado := Some(DocumentoDe(documento, clienteNombreProp));
      } else {
        guardado := None;
      }
    }
  }
}
