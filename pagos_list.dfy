/** The payment list page: the sample payments, the chain of filters of its
    filter panel, deletion, and the total of the payments shown. */
module PagosList {
  import opened Common

  datatype Pago = Pago(
    id: int,
    numeroComprobante: string,
    cliente: string,
    operacion: string,
    monto: nat,
    fecha: Fecha,
    metodoPago: string,
    estado: string,
    clienteId: int,
    operacionId: int,
    operacionMonto: nat,
    saldoRestante: nat)

  const PagosMuestra: seq<Pago> := [
    Pago(1, "PAG-0001", "Juan Pérez", "OP-001", 10000, FechaDe(2025, 4, 25), "Efectivo", "Confirmado",
         1, 1, 50000, 40000),
    Pago(2, "PAG-0002", "María González", "OP-002", 15000, FechaDe(2025, 5, 1), "Transferencia", "Confirmado",
         2, 2, 80000, 65000),
    Pago(3, "PAG-0003", "Carlos Rodríguez", "OP-003", 5000, FechaDe(2025, 5, 4), "Efectivo", "Pendiente",
         3, 3, 20000, 15000),
    Pago(4, "PAG-0004", "Juan Pérez", "OP-004", 8000, FechaDe(2025, 4, 28), "Cheque", "Rechazado",
         1, 4, 30000, 30000),
    Pago(5, "PAG-0005", "Laura Fernández", "OP-005", 12000, FechaDe(2025, 5, 3), "Tarjeta", "Confirmado",
         4, 5, 60000, 48000)
  ]

  // ---------------------------------------------------------------------------
  // handleFilterChange

  /** The filter panel; text fields are `""` when empty, dates and amounts
      are bounds. */
  datatype FiltrosPago = FiltrosPago(
    busqueda: string,
    fechaDesde: Bound<Fecha>,
    fechaHasta: Bound<Fecha>,
    estado: string,
    metodoPago: string,
    montoMin: Bound<real>,
    montoMax: Bound<real>)

  const SinFiltros: FiltrosPago := FiltrosPago("", Unset, Unset, "", "", Unset, Unset)

  /** The general search: the lowercased query within the lowercased
      receipt number, client or operation, or within the amount written in
      decimal. */
  predicate PorBusqueda(q: string, p: Pago) {
    Contains(Lower(p.numeroComprobante), Lower(q))
    || Contains(Lower(p.cliente), Lower(q))
    || Contains(Lower(p.operacion), Lower(q))
    || Contains(NatToString(p.monto), Lower(q))
  }

  /** The search and the (inclusive) date range. */
  predicate PorBusquedaYFecha(f: FiltrosPago, p: Pago) {
    (f.busqueda == "" || PorBusqueda(f.busqueda, p))
    && FromDate(f.fechaDesde, p.fecha) && UntilDate(f.fechaHasta, p.fecha)
  }

  /** A payment shown under `f`: it passes every active filter; the amount
      range is inclusive. */
  predicate Pasa(f: FiltrosPago, p: Pago) {
    PorBusquedaYFecha(f, p)
    && (f.estado == "" || p.estado == f.estado)
    && (f.metodoPago == "" || p.metodoPago == f.metodoPago)
    && AtLeast(f.montoMin, p.monto as real)
    && AtMost(f.montoMax, p.monto as real)
  }

  function Seleccion(f: FiltrosPago): Pago -> bool {
    (p: Pago) => Pasa(f, p)
  }

  /** The first three guarded filters of `handleFilterChange`: the search
      and the two dates. The ghost predicates `hasta0` to `hasta2` are the
      conjunction of the filters applied so far. */
  method FiltrarPorBusquedaYFecha(base: seq<Pago>, f: FiltrosPago) returns (r: seq<Pago>)
    ensures r == Filter(base, (p: Pago) => PorBusquedaYFecha(f, p))
  {
    r := base;
    ghost var hasta0: Pago -> bool := (p: Pago) => true;
    FilterAll(base, hasta0);

    var porBusqueda: Pago -> bool := (p: Pago) => PorBusqueda(f.busqueda, p);
    if f.busqueda != "" {
      r := Filter(r, porBusqueda);
    }
    ghost var hasta1: Pago -> bool := (p: Pago) => f.busqueda == "" || PorBusqueda(f.busqueda, p);
    PasoDeFiltro(base, hasta0, porBusqueda, hasta1, f.busqueda != "");

    var desde: Pago -> bool := (p: Pago) => FromDate(f.fechaDesde, p.fecha);
    if !f.fechaDesde.Unset? {
      r := Filter(r, desde);
    }
    ghost var hasta2: Pago -> bool := (p: Pago) =>
      (f.busqueda == "" || PorBusqueda(f.busqueda, p)) && FromDate(f.fechaDesde, p.fecha);
    PasoDeFiltro(base, hasta1, desde, hasta2, !f.fechaDesde.Unset?);

    var hastaFecha: Pago -> bool := (p: Pago) => UntilDate(f.fechaHasta, p.fecha);
    if !f.fechaHasta.Unset? {
      r := Filter(r, hastaFecha);
    }
    PasoDeFiltro(base, hasta2, hastaFecha, (p: Pago) => PorBusquedaYFecha(f, p), !f.fechaHasta.Unset?);
  }

  /** The body of `handleFilterChange` on the list it copies (the sample
      list): one guarded `filter` per non-empty field. The ghost predicates
      `hasta3` to `hasta6` are the conjunction of the filters applied so far. */
  method Filtrar(base: seq<Pago>, f: FiltrosPago) returns (r: seq<Pago>)
    ensures r == Filter(base, Seleccion(f))
  {
    r := FiltrarPorBusquedaYFecha(base, f);
    ghost var hasta3: Pago -> bool := (p: Pago) => PorBusquedaYFecha(f, p);

    var porEstado: Pago -> bool := (p: Pago) => p.estado == f.estado;
    if f.estado != "" {
      r := Filter(r, porEstado);
    }
    ghost var hasta4: Pago -> bool := (p: Pago) =>
      PorBusquedaYFecha(f, p) && (f.estado == "" || p.estado == f.estado);
    PasoDeFiltro(base, hasta3, porEstado, hasta4, f.estado != "");

    var porMetodo: Pago -> bool := (p: Pago) => p.metodoPago == f.metodoPago;
    if f.metodoPago != "" {
      r := Filter(r, porMetodo);
    }
    ghost var hasta5: Pago -> bool := (p: Pago) =>
      PorBusquedaYFecha(f, p) && (f.estado == "" || p.estado == f.estado)
      && (f.metodoPago == "" || p.metodoPago == f.metodoPago);
    PasoDeFiltro(base, hasta4, porMetodo, hasta5, f.metodoPago != "");

    var minimo: Pago -> bool := (p: Pago) => AtLeast(f.montoMin, p.monto as real);
    if !f.montoMin.Unset? {
      r := Filter(r, minimo);
    }
    ghost var hasta6: Pago -> bool := (p: Pago) =>
      PorBusquedaYFecha(f, p) && (f.estado == "" || p.estado == f.estado)
      && (f.metodoPago == "" || p.metodoPago == f.metodoPago) && AtLeast(f.montoMin, p.monto as real);
    PasoDeFiltro(base, hasta5, minimo, hasta6, !f.montoMin.Unset?);

    var maximo: Pago -> bool := (p: Pago) => AtMost(f.montoMax, p.monto as real);
    if !f.montoMax.Unset? {
      r := Filter(r, maximo);
    }
    PasoDeFiltro(base, hasta6, maximo, Seleccion(f), !f.montoMax.Unset?);
  }

  /** The filtered list keeps exactly the payments of `base` that pass
      every active filter, in their order; with no filter set it is `base`. */
  lemma FiltrarExacto(base: seq<Pago>, f: FiltrosPago)
    ensures IsSubseq(Filter(base, Seleccion(f)), base)
    ensures forall p :: p in Filter(base, Seleccion(f)) <==> p in base && Pasa(f, p)
    ensures Filter(base, Seleccion(SinFiltros)) == base
  {
    FilterIsSubseq(base, Seleccion(f));
    FilterMembers(base, Seleccion(f));
    FilterAll(base, Seleccion(SinFiltros));
  }

  /** Searching "5000" finds payment 3 by its amount; a range of 5000 to
      5000 keeps it too. */
  lemma BuscarPorMonto()
    ensures Pasa(SinFiltros.(busqueda := "5000"), PagosMuestra[2])
    ensures Pasa(SinFiltros.(montoMin := At(5000.0), montoMax := At(5000.0)), PagosMuestra[2])
    ensures !Pasa(SinFiltros.(metodoPago := "Cheque"), PagosMuestra[2])
  {
    NatToStringValue(5000);
    assert NatToString(5000) == "5000";
    assert Lower("5000") == "5000";
  }

  // ---------------------------------------------------------------------------
  // calcularTotalPagos, handleDelete

  /** `pagos.reduce((total, pago) => total + pago.monto, 0)`. */
  function Total(s: seq<Pago>): nat {
    if s == [] then 0 else s[0].monto + Total(s[1..])
  }

  /** The total of a concatenation is the sum of the totals. */
  lemma {:induction false} TotalConcat(a: seq<Pago>, b: seq<Pago>)
    ensures Total(a + b) == Total(a) + Total(b)
  {
    if a == [] {
      assert a + b == b;
    } else {
      assert (a + b)[1..] == a[1..] + b;
      TotalConcat(a[1..], b);
    }
  }

  lemma TotalCons(x: Pago, s: seq<Pago>)
    ensures Total([x] + s) == x.monto + Total(s)
  {
    assert ([x] + s)[1..] == s;
  }

  /** Splitting a list by a predicate splits its total. */
  lemma {:induction false} TotalParticion(s: seq<Pago>, q: Pago -> bool)
    ensures Total(s) == Total(Filter(s, q)) + Total(Filter(s, (p: Pago) => !q(p)))
  {
    if s != [] {
      var noQ := (p: Pago) => !q(p);
      TotalParticion(s[1..], q);
      if q(s[0]) {
        assert Filter(s, q) == [s[0]] + Filter(s[1..], q);
        assert Filter(s, noQ) == Filter(s[1..], noQ);
        TotalCons(s[0], Filter(s[1..], q));
      } else {
        assert Filter(s, q) == Filter(s[1..], q);
        assert Filter(s, noQ) == [s[0]] + Filter(s[1..], noQ);
        TotalCons(s[0], Filter(s[1..], noQ));
      }
    }
  }

  function OtroId(id: int): Pago -> bool {
    (p: Pago) => p.id != id
  }

  /** `pagos.filter(pago => pago.id !== id)`: exactly the payments with
      another id are kept, in their order. */
  function Eliminar(s: seq<Pago>, id: int): (r: seq<Pago>)
    ensures IsSubseq(r, s)
    ensures forall p :: p in r <==> p in s && p.id != id
    ensures forall p :: multiset(r)[p] == if p.id != id then multiset(s)[p] else 0
  {
    FilterEsFiltrado(s, OtroId(id));
    FilterMembers(s, OtroId(id));
    Filter(s, OtroId(id))
  }

  /** Deleting lowers the total by the amounts of the payments removed. */
  lemma TotalEliminar(s: seq<Pago>, id: int)
    ensures Total(s) == Total(Eliminar(s, id)) + Total(Filter(s, (p: Pago) => p.id == id))
    ensures Total(Eliminar(s, id)) <= Total(s)
  {
    TotalParticion(s, (p: Pago) => p.id == id);
    FilterSame(s, (p: Pago) => !((p: Pago) => p.id == id)(p), OtroId(id));
  }

  /** The five sample payments add up to 50000. */
  lemma TotalMuestra()
    ensures Total(PagosMuestra) == 50000
  {
    assert PagosMuestra[1..][1..] == PagosMuestra[2..];
    assert PagosMuestra[2..][1..] == PagosMuestra[3..];
    assert PagosMuestra[3..][1..] == PagosMuestra[4..];
    assert PagosMuestra[4..][1..] == [];
  }

  /** The page's state: the payments shown and the filters. */
  class PaginaPagos {
    var pagos: seq<Pago>
    var filtros: FiltrosPago

    /** The load effect: every sample payment. */
    constructor ()
      ensures pagos == PagosMuestra && filtros == SinFiltros
    {
      pagos := PagosMuestra;
      filtros := SinFiltros;
    }

    /** `calcularTotalPagos`. */
    function TotalPagos(): nat
      reads this
    {
      Total(pagos)
    }

    /** `handleFilterChange`: recomputed from the sample list. */
    method HandleFilterChange(nuevos: FiltrosPago)
      modifies this
      ensures filtros == nuevos
      ensures pagos == Filter(PagosMuestra, Seleccion(nuevos))
    {
      filtros := nuevos;
      pagos := Filtrar(PagosMuestra, nuevos);
    }

    /** `handleDelete`: the total drops by the amounts removed. */
    method HandleDelete(id: int)
      modifies this
      ensures pagos == Eliminar(old(pagos), id)
      ensures filtros == old(filtros)
      ensures TotalPagos() == old(TotalPagos()) - Total(Filter(old(pagos), (p: Pago) => p.id == id))
    {
      TotalEliminar(pagos, id);
      pagos := Eliminar(pagos, id);
    }
  }
}
