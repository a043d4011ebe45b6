/** The risk-analysis list page: the sample analyses, optionally narrowed to
    the client in the route, the chain of filters of its filter panel,
    deletion and the insertion of a newly saved analysis. */
module AnalisisList {
  import opened Common

  datatype Analisis = Analisis(
    id: int,
    clienteId: int,
    clienteNombre: string,
    fechaAnalisis: Fecha,
    analistaResponsable: string,
    resultado: string,
    limiteCredito: real,
    puntaje: Option<int>,
    observaciones: string)

  const AnalisisMuestra: seq<Analisis> := [
    Analisis(1, 1, "Juan Pérez", FechaDe(2025, 4, 20), "Ana Martínez", "Aprobado", 100000.0, Some(750),
             "Cliente con buen historial crediticio y documentación completa."),
    Analisis(2, 2, "María González", FechaDe(2025, 4, 15), "Juan Fernández", "Aprobado", 80000.0, Some(680),
             "Se aprueba con un límite reducido debido a compromisos financieros existentes."),
    Analisis(3, 3, "Carlos Rodríguez", FechaDe(2025, 4, 10), "Luis Gómez", "En revisión", 50000.0, Some(600),
             "Pendiente de verificación de ingresos adicionales."),
    Analisis(4, 1, "Juan Pérez", FechaDe(2025, 3, 5), "Ana Martínez", "Rechazado", 0.0, Some(450),
             "Historial crediticio negativo en aquel momento. Se realizó nuevo análisis (ID: 1) con resultado favorable.")
  ]

  // ---------------------------------------------------------------------------
  // The list the page starts from.

  /** The analyses of the client whose id `parseInt` reads from the route;
      NaN matches no analysis. */
  function DelCliente(id: Option<int>): Analisis -> bool {
    (a: Analisis) => id == Some(a.clienteId)
  }

  /** The list before any filter: every sample analysis when the route has
      no client id (`""`), otherwise those of that client, in order. */
  function Base(ruta: string): seq<Analisis> {
    if ruta == "" then AnalisisMuestra else Filter(AnalisisMuestra, DelCliente(ParseInt(ruta)))
  }

  /** The client name an analysis carries. */
  function NombreDe(a: Analisis): string {
    a.clienteNombre
  }

  /** With a client in the route, every analysis shown is one of that
      client's, and all of that client's sample analyses are shown. */
  lemma BaseDelCliente(ruta: string)
    requires ruta != ""
    ensures forall a :: a in Base(ruta) ==> ParseInt(ruta) == Some(a.clienteId)
    ensures forall a :: a in AnalisisMuestra && ParseInt(ruta) == Some(a.clienteId) ==> a in Base(ruta)
    ensures IsSubseq(Base(ruta), AnalisisMuestra)
  {
    FilterMembers(AnalisisMuestra, DelCliente(ParseInt(ruta)));
    FilterIsSubseq(AnalisisMuestra, DelCliente(ParseInt(ruta)));
  }

  /** Client 1 has the analyses 1 and 4, and the heading shows its name. */
  lemma ClienteUno()
    ensures Base("1") == [AnalisisMuestra[0], AnalisisMuestra[3]]
    ensures ClienteDeRuta("1", Base("1"), NombreDe) == Some(ClienteRuta(Some(1), "Juan Pérez"))
  {
    var uno := DelCliente(Some(1));
    assert ParseInt("1") == Some(1) by { assert AllDigits("1"); }
    calc {
      Filter(AnalisisMuestra, uno);
      [AnalisisMuestra[0]] + Filter(AnalisisMuestra[1..], uno);
      { assert AnalisisMuestra[1..][1..] == AnalisisMuestra[2..]; }
      [AnalisisMuestra[0]] + Filter(AnalisisMuestra[2..], uno);
      { assert AnalisisMuestra[2..][1..] == AnalisisMuestra[3..]; }
      [AnalisisMuestra[0]] + Filter(AnalisisMuestra[3..], uno);
      { assert AnalisisMuestra[3..][1..] == []; }
      [AnalisisMuestra[0]] + [AnalisisMuestra[3]];
    }
  }

  // ---------------------------------------------------------------------------
  // handleFilterChange

  /** The filter panel. Text fields are `""` when empty; dates and limits
      are bounds (empty, a value, or text that cannot be read). */
  datatype FiltrosAnalisis = FiltrosAnalisis(
    busqueda: string,
    resultado: string,
    analistaResponsable: string,
    fechaDesde: Bound<Fecha>,
    fechaHasta: Bound<Fecha>,
    limiteMin: Bound<real>,
    limiteMax: Bound<real>)

  const SinFiltros: FiltrosAnalisis := FiltrosAnalisis("", "", "", Unset, Unset, Unset, Unset)

  /** The general search: the lowercased query within the lowercased client
      name or the lowercased analyst name. */
  predicate PorBusqueda(q: string, a: Analisis) {
    Contains(Lower(a.clienteNombre), Lower(q)) || Contains(Lower(a.analistaResponsable), Lower(q))
  }

  predicate PorAnalista(q: string, a: Analisis) {
    Contains(Lower(a.analistaResponsable), Lower(q))
  }

  /** The three text filters. */
  predicate PorTexto(f: FiltrosAnalisis, a: Analisis) {
    (f.busqueda == "" || PorBusqueda(f.busqueda, a))
    && (f.resultado == "" || a.resultado == f.resultado)
    && (f.analistaResponsable == "" || PorAnalista(f.analistaResponsable, a))
  }

  /** An analysis shown under `f`: it passes every active filter. Date and
      limit bounds are inclusive. */
  predicate Pasa(f: FiltrosAnalisis, a: Analisis) {
    PorTexto(f, a)
    && FromDate(f.fechaDesde, a.fechaAnalisis)
    && UntilDate(f.fechaHasta, a.fechaAnalisis)
    && AtLeast(f.limiteMin, a.limiteCredito)
    && AtMost(f.limiteMax, a.limiteCredito)
  }

  function Seleccion(f: FiltrosAnalisis): Analisis -> bool {
    (a: Analisis) => Pasa(f, a)
  }

  /** The body of `handleFilterChange` on the base list: one guarded
      `filter` per non-empty field. The ghost predicates `hasta1` to
      `hasta7` are the conjunction of the filters applied so far. */
  method Filtrar(base: seq<Analisis>, f: FiltrosAnalisis) returns (r: seq<Analisis>)
    ensures r == Filter(base, Seleccion(f))
  {
    r := base;
    ghost var hasta0: Analisis -> bool := (a: Analisis) => true;
    FilterAll(base, hasta0);

    var porBusqueda: Analisis -> bool := (a: Analisis) => PorBusqueda(f.busqueda, a);
    if f.busqueda != "" {
      r := Filter(r, porBusqueda);
    }
    ghost var hasta1: Analisis -> bool := (a: Analisis) => f.busqueda == "" || PorBusqueda(f.busqueda, a);
    PasoDeFiltro(base, hasta0, porBusqueda, hasta1, f.busqueda != "");

    var porResultado: Analisis -> bool := (a: Analisis) => a.resultado == f.resultado;
    if f.resultado != "" {
      r := Filter(r, porResultado);
    }
    ghost var hasta2: Analisis -> bool := (a: Analisis) =>
      (f.busqueda == "" || PorBusqueda(f.busqueda, a)) && (f.resultado == "" || a.resultado == f.resultado);
    PasoDeFiltro(base, hasta1, porResultado, hasta2, f.resultado != "");

    var porAnalista: Analisis -> bool := (a: Analisis) => PorAnalista(f.analistaResponsable, a);
    if f.analistaResponsable != "" {
      r := Filter(r, porAnalista);
    }
    ghost var hasta3: Analisis -> bool := (a: Analisis) => PorTexto(f, a);
    PasoDeFiltro(base, hasta2, porAnalista, hasta3, f.analistaResponsable != "");

    var desde: Analisis -> bool := (a: Analisis) => FromDate(f.fechaDesde, a.fechaAnalisis);
    if !f.fechaDesde.Unset? {
      r := Filter(r, desde);
    }
    ghost var hasta4: Analisis -> bool := (a: Analisis) => PorTexto(f, a) && FromDate(f.fechaDesde, a.fechaAnalisis);
    PasoDeFiltro(base, hasta3, desde, hasta4, !f.fechaDesde.Unset?);

    var hastaFecha: Analisis -> bool := (a: Analisis) => UntilDate(f.fechaHasta, a.fechaAnalisis);
    if !f.fechaHasta.Unset? {
      r := Filter(r, hastaFecha);
    }
    ghost var hasta5: Analisis -> bool := (a: Analisis) =>
      PorTexto(f, a) && FromDate(f.fechaDesde, a.fechaAnalisis) && UntilDate(f.fechaHasta, a.fechaAnalisis);
    PasoDeFiltro(base, hasta4, hastaFecha, hasta5, !f.fechaHasta.Unset?);

    var minimo: Analisis -> bool := (a: Analisis) => AtLeast(f.limiteMin, a.limiteCredito);
    if !f.limiteMin.Unset? {
      r := Filter(r, minimo);
    }
    ghost var hasta6: Analisis -> bool := (a: Analisis) =>
      PorTexto(f, a) && FromDate(f.fechaDesde, a.fechaAnalisis) && UntilDate(f.fechaHasta, a.fechaAnalisis)
      && AtLeast(f.limiteMin, a.limiteCredito);
    PasoDeFiltro(base, hasta5, minimo, hasta6, !f.limiteMin.Unset?);

    var maximo: Analisis -> bool := (a: Analisis) => AtMost(f.limiteMax, a.limiteCredito);
    if !f.limiteMax.Unset? {
      r := Filter(r, maximo);
    }
    PasoDeFiltro(base, hasta6, maximo, Seleccion(f), !f.limiteMax.Unset?);
  }

  /** The filtered list is the base list with exactly the analyses that
      pass every active filter, in their order; with no filter set it is
      the base list itself. */
  lemma FiltrarExacto(base: seq<Analisis>, f: FiltrosAnalisis)
    ensures IsSubseq(Filter(base, Seleccion(f)), base)
    ensures forall a :: a in Filter(base, Seleccion(f)) <==> a in base && Pasa(f, a)
    ensures Filter(base, Seleccion(SinFiltros)) == base
  {
    FilterIsSubseq(base, Seleccion(f));
    FilterMembers(base, Seleccion(f));
    FilterAll(base, Seleccion(SinFiltros));
  }

  /** With a client in the route, every analysis the filters leave is one
      of that client's. */
  lemma FiltradoDelCliente(ruta: string, f: FiltrosAnalisis)
    requires ruta != ""
    ensures forall a :: a in Filter(Base(ruta), Seleccion(f)) ==> ParseInt(ruta) == Some(a.clienteId)
  {
    BaseDelCliente(ruta);
    FiltrarExacto(Base(ruta), f);
  }

  /** Analyses 1 and 4 name Ana Martínez as analyst. */
  lemma AnaEnAnalista()
    ensures Lower("ana") == "ana"
    ensures PorBusqueda("ana", AnalisisMuestra[0]) && PorBusqueda("ana", AnalisisMuestra[3])
  {
    var nombre := Lower(AnalisisMuestra[0].analistaResponsable);
    assert nombre[..3] == "ana";
    assert IsPrefix(Lower("ana"), nombre);
  }

  // The helpers from here to `FiltroUnoYCuatro` serve only the sample
  // search `BuscarAna` below; the general result is `FiltrarExacto`.

  /** "ana" does not occur in the lowercased text `t` of `s`. */
  lemma SinAna(s: string, t: string)
    requires Lower(s) == t
    requires forall i :: 0 <= i <= |t| - 3 ==> t[i] != 'a' || t[i + 1] != 'n' || t[i + 2] != 'a'
    ensures !Contains(Lower(s), Lower("ana"))
  {
    AnaEnAnalista();
    NoContieneTres(t, "ana");
  }

  // One lemma per name: the case folding of several literals at once is
  // beyond the solver's budget.

  lemma AnaNoEnMaria() ensures !Contains(Lower("María González"), Lower("ana")) {
    SinAna("María González", "maría gonzález");
  }

  lemma AnaNoEnJuan() ensures !Contains(Lower("Juan Fernández"), Lower("ana")) {
    SinAna("Juan Fernández", "juan fernández");
  }

  lemma AnaNoEnCarlos() ensures !Contains(Lower("Carlos Rodríguez"), Lower("ana")) {
    SinAna("Carlos Rodríguez", "carlos rodríguez");
  }

  lemma AnaNoEnLuis() ensures !Contains(Lower("Luis Gómez"), Lower("ana")) {
    SinAna("Luis Gómez", "luis gómez");
  }

  lemma AnaPasaUnoYCuatro()
    ensures Seleccion(SinFiltros.(busqueda := "ana"))(AnalisisMuestra[0])
    ensures Seleccion(SinFiltros.(busqueda := "ana"))(AnalisisMuestra[3])
  {
    AnaEnAnalista();
  }

  lemma AnaNoPasaDos()
    ensures !Seleccion(SinFiltros.(busqueda := "ana"))(AnalisisMuestra[1])
  {
    AnaNoEnMaria();
    AnaNoEnJuan();
  }

  lemma AnaNoPasaTres()
    ensures !Seleccion(SinFiltros.(busqueda := "ana"))(AnalisisMuestra[2])
  {
    AnaNoEnCarlos();
    AnaNoEnLuis();
  }

  /** A filter that keeps analyses 1 and 4 of the sample and drops 2 and 3. */
  lemma FiltroUnoYCuatro(p: Analisis -> bool)
    requires p(AnalisisMuestra[0]) && !p(AnalisisMuestra[1]) && !p(AnalisisMuestra[2]) && p(AnalisisMuestra[3])
    ensures Filter(AnalisisMuestra, p) == [AnalisisMuestra[0], AnalisisMuestra[3]]
  {
    assert AnalisisMuestra[1..][1..] == AnalisisMuestra[2..];
    assert AnalisisMuestra[2..][1..] == AnalisisMuestra[3..];
    assert AnalisisMuestra[3..][1..] == [];
  }

  /** Searching "ana" leaves exactly Ana Martínez's analyses 1 and 4; the
      result filter compares whole values; the limit bounds are inclusive. */
  lemma BuscarAna()
    ensures Filter(AnalisisMuestra, Seleccion(SinFiltros.(busqueda := "ana"))) == [AnalisisMuestra[0], AnalisisMuestra[3]]
    ensures !Pasa(SinFiltros.(resultado := "Aprobado"), AnalisisMuestra[2])
    ensures Pasa(SinFiltros.(limiteMin := At(50000.0), limiteMax := At(50000.0)), AnalisisMuestra[2])
  {
    AnaPasaUnoYCuatro();
    AnaNoPasaDos();
    AnaNoPasaTres();
    FiltroUnoYCuatro(Seleccion(SinFiltros.(busqueda := "ana")));
  }

  // ---------------------------------------------------------------------------
  // handleDelete, handleSaveAnalisis

  function OtroId(id: int): Analisis -> bool {
    (a: Analisis) => a.id != id
  }

  /** `analisis.filter(a => a.id !== id)`: exactly the analyses with another
      id are kept, in their order. */
  function Eliminar(s: seq<Analisis>, id: int): (r: seq<Analisis>)
    ensures IsSubseq(r, s)
    ensures forall a :: a in r <==> a in s && a.id != id
    ensures forall a :: multiset(r)[a] == if a.id != id then multiset(s)[a] else 0
  {
    FilterEsFiltrado(s, OtroId(id));
    FilterMembers(s, OtroId(id));
    Filter(s, OtroId(id))
  }

  /** The saved analysis gets an id above every id listed (1 on an empty
      list) and goes first; the others follow unchanged. */
  function Agregar(s: seq<Analisis>, nuevo: Analisis): (r: seq<Analisis>)
    ensures |r| == |s| + 1 && r[1..] == s
    ensures r[0] == nuevo.(id := r[0].id)
    ensures forall a :: a in s ==> a.id < r[0].id
    ensures s == [] ==> r[0].id == 1
    ensures s != [] ==> exists a :: a in s && r[0].id == a.id + 1
  {
    var ids := Ids(s, (a: Analisis) => a.id);
    var id := NextId(ids);
    assert forall a :: a in s ==> a.id in ids by {
      forall a | a in s ensures a.id in ids {
        var i :| 0 <= i < |s| && s[i] == a;
        assert ids[i] == a.id;
      }
    }
    assert s != [] ==> exists a :: a in s && id == a.id + 1 by {
      if s != [] {
        var i :| 0 <= i < |ids| && ids[i] == id - 1;
        assert s[i] in s;
      }
    }
    [nuevo.(id := id)] + s
  }

  /** The page's state: the route's client, the list shown and the filters. */
  class PaginaAnalisis {
    const ruta: string
    var analisis: seq<Analisis>
    var filtros: FiltrosAnalisis
    var cliente: Option<ClienteRuta>

    /** The load effect. */
    constructor (ruta0: string)
      ensures ruta == ruta0 && analisis == Base(ruta0) && cliente == ClienteDeRuta(ruta0, Base(ruta0), NombreDe)
      ensures filtros == SinFiltros
    {
      ruta := ruta0;
      analisis := Base(ruta0);
      cliente := ClienteDeRuta(ruta0, Base(ruta0), NombreDe);
      filtros := SinFiltros;
    }

    /** `handleFilterChange`: recomputed from the base list, so deletions
        and insertions made before are lost. */
    method HandleFilterChange(nuevos: FiltrosAnalisis)
      modifies this
      ensures filtros == nuevos
      ensures analisis == Filter(Base(ruta), Seleccion(nuevos))
      ensures cliente == old(cliente)
    {
      filtros := nuevos;
      analisis := Filtrar(Base(ruta), nuevos);
    }

    method HandleDelete(id: int)
      modifies this
      ensures analisis == Eliminar(old(analisis), id)
      ensures filtros == old(filtros) && cliente == old(cliente)
    {
      analisis := Eliminar(analisis, id);
    }

    method HandleSaveAnalisis(nuevo: Analisis)
      modifies this
      ensures analisis == Agregar(old(analisis), nuevo)
      ensures filtros == old(filtros) && cliente == old(cliente)
    {
      analisis := Agregar(analisis, nuevo);
    }
  }
}
