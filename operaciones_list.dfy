/** The operations list page: the sample operations and a case-insensitive
    search by client name. */
module OperacionesList {
  import opened Common

  datatype Operacion = Operacion(
    id: int,
    cliente: string,
    monto: real,
    cuotas: int,
    valorCuota: real,
    interes: real,
    total: real,
    fechaInicio: string)

  const OperacionesMuestra: seq<Operacion> := [
    Operacion(1, "Juan Pérez", 50000.0, 12, 6766.67, 5.2, 72800.0, "31/3/2023"),
    Operacion(2, "Carlos Rodríguez", 80000.0, 24, 7173.33, 4.8, 132000.0, "14/4/2023"),
    Operacion(3, "Juan Pérez", 20000.0, 6, 4433.33, 5.5, 26600.0, "9/3/2023"),
    Operacion(4, "María López", 100000.0, 36, 5361.11, 4.2, 193000.0, "22/5/2023"),
    Operacion(5, "Laura Fernández", 30000.0, 12, 3250.0, 5.0, 39000.0, "5/2/2023")
  ]

  /** The lowercased query within the lowercased client name. */
  predicate DelCliente(q: string, op: Operacion) {
    Contains(Lower(op.cliente), Lower(q))
  }

  function DelClienteCon(q: string): Operacion -> bool {
    (op: Operacion) => DelCliente(q, op)
  }

  /** `handleBusqueda`: every sample operation for an empty query, otherwise
      exactly the matching ones, in order; never more than the sample holds
      ("Mostrando n de 5"). */
  function HandleBusqueda(valor: string): (r: seq<Operacion>)
    ensures valor == "" ==> r == OperacionesMuestra
    ensures IsSubseq(r, OperacionesMuestra)
    ensures valor != "" ==> forall op :: op in r <==> op in OperacionesMuestra && DelCliente(valor, op)
    ensures |r| <= |OperacionesMuestra|
  {
    FilterIsSubseq(OperacionesMuestra, DelClienteCon(valor));
    FilterMembers(OperacionesMuestra, DelClienteCon(valor));
    if valor == "" then OperacionesMuestra else Filter(OperacionesMuestra, DelClienteCon(valor))
  }

  /** Queries that differ only in letter case give the same list. */
  lemma MayusculasIndiferentes(q1: string, q2: string)
    requires Lower(q1) == Lower(q2)
    ensures HandleBusqueda(q1) == HandleBusqueda(q2)
  {
    if q1 != "" {
      assert |q2| == |Lower(q2)| == |Lower(q1)| == |q1|;
      FilterSame(OperacionesMuestra, DelClienteCon(q1), DelClienteCon(q2));
    }
  }

  /** In particular the lowercased query gives the same list as the query. */
  lemma BusquedaEnMinusculas(q: string)
    ensures HandleBusqueda(Lower(q)) == HandleBusqueda(q)
  {
    LowerIdempotent(q);
    MayusculasIndiferentes(Lower(q), q);
  }
}
