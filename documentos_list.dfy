/** The document list page: the sample documents, optionally narrowed to
    the client in the route, the chain of filters of its filter panel,
    deletion and the insertion of a newly uploaded document. */
module DocumentosList {
  import opened Common

  datatype Documento = Documento(
    id: int,
    clienteId: int,
    clienteNombre: string,
    tipoDocumento: string,
    nombreArchivo: string,
    fechaCarga: Fecha,
    estado: string,
    observaciones: string)

  const DocumentosMuestra: seq<Documento> := [
    Documento(1, 1, "Juan Pérez", "DNI", "dni_frente_juan_perez.jpg", FechaDe(2025, 4, 15), "Aprobado",
              "Documento válido y vigente"),
    Documento(2, 1, "Juan Pérez", "Comprobante de domicilio", "factura_luz_abril.pdf", FechaDe(2025, 4, 16),
              "Pendiente", "Pendiente de verificación"),
    Documento(3, 2, "María González", "Recibo de sueldo", "recibo_sueldo_marzo.pdf", FechaDe(2025, 4, 10),
              "Aprobado", "Sueldo verificado")
  ]

  // ---------------------------------------------------------------------------
  // The list the page starts from.

  function DelCliente(id: Option<int>): Documento -> bool {
    (d: Documento) => id == Some(d.clienteId)
  }

  /** Every sample document when the route has no client id (`""`),
      otherwise those of the client `parseInt` reads, in order. */
  function Base(ruta: string): seq<Documento> {
    if ruta == "" then DocumentosMuestra else Filter(DocumentosMuestra, DelCliente(ParseInt(ruta)))
  }

  /** The client name a document carries. */
  function NombreDe(d: Documento): string {
    d.clienteNombre
  }

  /** With a client in the route, exactly that client's documents are listed. */
  lemma BaseDelCliente(ruta: string)
    requires ruta != ""
    ensures forall d :: d in Base(ruta) <==> d in DocumentosMuestra && ParseInt(ruta) == Some(d.clienteId)
    ensures IsSubseq(Base(ruta), DocumentosMuestra)
  {
    FilterMembers(DocumentosMuestra, DelCliente(ParseInt(ruta)));
    FilterIsSubseq(DocumentosMuestra, DelCliente(ParseInt(ruta)));
  }

  // ---------------------------------------------------------------------------
  // handleFilterChange

  /** The filter panel; text fields are `""` when empty. */
  datatype FiltrosDocumento = FiltrosDocumento(
    busqueda: string,
    tipoDocumento: string,
    estado: string,
    fechaDesde: Bound<Fecha>,
    fechaHasta: Bound<Fecha>)

  const SinFiltros: FiltrosDocumento := FiltrosDocumento("", "", "", Unset, Unset)

  /** The general search: the lowercased query within the lowercased file
      name or the lowercased document type. */
  predicate PorBusqueda(q: string, d: Documento) {
    Contains(Lower(d.nombreArchivo), Lower(q)) || Contains(Lower(d.tipoDocumento), Lower(q))
  }

  /** The three text filters. */
  predicate PorTexto(f: FiltrosDocumento, d: Documento) {
    (f.busqueda == "" || PorBusqueda(f.busqueda, d))
    && (f.tipoDocumento == "" || d.tipoDocumento == f.tipoDocumento)
    && (f.estado == "" || d.estado == f.estado)
  }

  /** A document shown under `f`: it passes every active filter; the date
      range is inclusive. */
  predicate Pasa(f: FiltrosDocumento, d: Documento) {
    PorTexto(f, d) && FromDate(f.fechaDesde, d.fechaCarga) && UntilDate(f.fechaHasta, d.fechaCarga)
  }

  function Seleccion(f: FiltrosDocumento): Documento -> bool {
    (d: Documento) => Pasa(f, d)
  }

  /** The body of `handleFilterChange` on the base list: one guarded
      `filter` per non-empty field. The ghost predicates `hasta0` to
      `hasta4` are the conjunction of the filters applied so far. */
  method Filtrar(base: seq<Documento>, f: FiltrosDocumento) returns (r: seq<Documento>)
    ensures r == Filter(base, Seleccion(f))
  {
    r := base;
    ghost var hasta0: Documento -> bool := (d: Documento) => true;
    FilterAll(base, hasta0);

    var porBusqueda: Documento -> bool := (d: Documento) => PorBusqueda(f.busqueda, d);
    if f.busqueda != "" {
      r := Filter(r, porBusqueda);
    }
    ghost var hasta1: Documento -> bool := (d: Documento) => f.busqueda == "" || PorBusqueda(f.busqueda, d);
    PasoDeFiltro(base, hasta0, porBusqueda, hasta1, f.busqueda != "");

    var porTipo: Documento -> bool := (d: Documento) => d.tipoDocumento == f.tipoDocumento;
    if f.tipoDocumento != "" {
      r := Filter(r, porTipo);
    }
    ghost var hasta2: Documento -> bool := (d: Documento) =>
      (f.busqueda == "" || PorBusqueda(f.busqueda, d)) && (f.tipoDocumento == "" || d.tipoDocumento == f.tipoDocumento);
    PasoDeFiltro(base, hasta1, porTipo, hasta2, f.tipoDocumento != "");

    var porEstado: Documento -> bool := (d: Documento) => d.estado == f.estado;
    if f.estado != "" {
      r := Filter(r, porEstado);
    }
    ghost var hasta3: Documento -> bool := (d: Documento) => PorTexto(f, d);
    PasoDeFiltro(base, hasta2, porEstado, hasta3, f.estado != "");

    var desde: Documento -> bool := (d: Documento) => FromDate(f.fechaDesde, d.fechaCarga);
    if !f.fechaDesde.Unset? {
      r := Filter(r, desde);
    }
    ghost var hasta4: Documento -> bool := (d: Documento) => PorTexto(f, d) && FromDate(f.fechaDesde, d.fechaCarga);
    PasoDeFiltro(base, hasta3, desde, hasta4, !f.fechaDesde.Unset?);

    var hastaFecha: Documento -> bool := (d: Documento) => UntilDate(f.fechaHasta, d.fechaCarga);
    if !f.fechaHasta.Unset? {
      r := Filter(r, hastaFecha);
    }
    PasoDeFiltro(base, hasta4, hastaFecha, Seleccion(f), !f.fechaHasta.Unset?);
  }

  /** The filtered list keeps exactly the base documents that pass every
      active filter, in their order; with no filter set it is the base list. */
  lemma FiltrarExacto(base: seq<Documento>, f: FiltrosDocumento)
    ensures IsSubseq(Filter(base, Seleccion(f)), base)
    ensures forall d :: d in Filter(base, Seleccion(f)) <==> d in base && Pasa(f, d)
    ensures Filter(base, Seleccion(SinFiltros)) == base
  {
    FilterIsSubseq(base, Seleccion(f));
    FilterMembers(base, Seleccion(f));
    FilterAll(base, Seleccion(SinFiltros));
  }

  /** Searching "dni" finds the DNI whatever the case; an estado filter
      drops the pending receipt, and a one-day range keeps it. */
  lemma BuscarDni()
    ensures Pasa(SinFiltros.(busqueda := "dni"), DocumentosMuestra[0])
    ensures !Pasa(SinFiltros.(estado := "Aprobado"), DocumentosMuestra[1])
    ensures Pasa(SinFiltros.(fechaDesde := At(FechaDe(2025, 4, 16)), fechaHasta := At(FechaDe(2025, 4, 16))),
                 DocumentosMuestra[1])
  {
    assert Lower(DocumentosMuestra[0].tipoDocumento) == "dni";
    assert IsPrefix(Lower("dni"), Lower(DocumentosMuestra[0].tipoDocumento));
  }

  // ---------------------------------------------------------------------------
  // handleDelete, handleSaveDocumento

  function OtroId(id: int): Documento -> bool {
    (d: Documento) => d.id != id
  }

  /** `documentos.filter(doc => doc.id !== id)`: exactly the documents with
      another id are kept, in their order. */
  function Eliminar(s: seq<Documento>, id: int): (r: seq<Documento>)
    ensures IsSubseq(r, s)
    ensures forall d :: d in r <==> d in s && d.id != id
    ensures forall d :: multiset(r)[d] == if d.id != id then multiset(s)[d] else 0
  {
    FilterEsFiltrado(s, OtroId(id));
    FilterMembers(s, OtroId(id));
    Filter(s, OtroId(id))
  }

  /** The saved document gets an id above every id listed (1 on an empty
      list) and today's upload date, and goes first; the others follow
      unchanged. */
  function Agregar(s: seq<Documento>, nuevo: Documento, hoy: Fecha): (r: seq<Documento>)
    ensures |r| == |s| + 1 && r[1..] == s
    ensures r[0] == nuevo.(id := r[0].id, fechaCarga := hoy)
    ensures forall d :: d in s ==> d.id < r[0].id
    ensures s == [] ==> r[0].id == 1
    ensures s != [] ==> exists d :: d in s && r[0].id == d.id + 1
  {
    var ids := Ids(s, (d: Documento) => d.id);
    var id := NextId(ids);
    assert forall d :: d in s ==> d.id in ids by {
      forall d | d in s ensures d.id in ids {
        var i :| 0 <= i < |s| && s[i] == d;
        assert ids[i] == d.id;
      }
    }
    assert s != [] ==> exists d :: d in s && id == d.id + 1 by {
      if s != [] {
        var i :| 0 <= i < |ids| && ids[i] == id - 1;
        assert s[i] in s;
      }
    }
    [nuevo.(id := id, fechaCarga := hoy)] + s
  }

  /** The page's state: the route's client, the list shown and the filters. */
  class PaginaDocumentos {
    const ruta: string
    var documentos: seq<Documento>
    var filtros: FiltrosDocumento
    var cliente: Option<ClienteRuta>

    /** The load effect. */
    constructor (ruta0: string)
      ensures ruta == ruta0 && documentos == Base(ruta0) && cliente == ClienteDeRuta(ruta0, Base(ruta0), NombreDe)
      ensures filtros == SinFiltros
    {
      ruta := ruta0;
      documentos := Base(ruta0);
      cliente := ClienteDeRuta(ruta0, Base(ruta0), NombreDe);
      filtros := SinFiltros;
    }

    /** `handleFilterChange`: recomputed from the base list. */
    method HandleFilterChange(nuevos: FiltrosDocumento)
      modifies this
      ensures filtros == nuevos
      ensures documentos == Filter(Base(ruta), Seleccion(nuevos))
      ensures cliente == old(cliente)
    {
      filtros := nuevos;
      documentos := Filtrar(Base(ruta), nuevos);
    }

    method HandleDelete(id: int)
      modifies this
      ensures documentos == Eliminar(old(documentos), id)
      ensures filtros == old(filtros) && cliente == old(cliente)
    {
      documentos := Eliminar(documentos, id);
    }

    /** `handleSaveDocumento`; `hoy` is the date part of the current time. */
    method HandleSaveDocumento(nuevo: Documento, hoy: Fecha)
      modifies this
      ensures documentos == Agregar(old(documentos), nuevo, hoy)
      ensures filtros == old(filtros) && cliente == old(cliente)
    {
      documentos := Agregar(documentos, nuevo, hoy);
    }
  }
}
