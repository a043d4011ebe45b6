/** The client list page: a fixed list of three clients, a search by name
    or document that always starts again from that list, and deletion. */
module ClientesList {
  import opened Common

  datatype Cliente = Cliente(
    id: int,
    nombre: string,
    documento: string,
    telefono: string,
    email: string,
    limiteCredito: real,
    creditoDisponible: real,
    estado: string)

  /** The literal the page loads and every search starts from. */
  const ClientesDummy: seq<Cliente> := [
    Cliente(1, "Juan Pérez", "12345678", "11-1234-5678", "juan@example.com", 100000.0, 85000.0, "Activo"),
    Cliente(2, "María González", "87654321", "11-8765-4321", "maria@example.com", 150000.0, 150000.0, "Activo"),
    Cliente(3, "Carlos Rodríguez", "23456789", "11-2345-6789", "carlos@example.com", 200000.0, 120000.0, "Activo")
  ]

  /** The search test: the lowercased query within the lowercased name, or
      the query as typed within the document number. */
  predicate Coincide(q: string, c: Cliente) {
    Contains(Lower(c.nombre), Lower(q)) || Contains(c.documento, q)
  }

  function CoincideCon(q: string): Cliente -> bool {
    (c: Cliente) => Coincide(q, c)
  }

  /** `handleBusqueda`: the whole fixed list for an empty query, otherwise
      the clients of that list that match, in order. Clients deleted before
      are back, since the list is the literal again. */
  function HandleBusqueda(valor: string): (r: seq<Cliente>)
    ensures valor == "" ==> r == ClientesDummy
    ensures IsSubseq(r, ClientesDummy)
    ensures forall c :: c in r <==> c in ClientesDummy && Coincide(valor, c)
  {
    FilterIsSubseq(ClientesDummy, CoincideCon(valor));
    FilterMembers(ClientesDummy, CoincideCon(valor));
    EmptyPrefix(valor);
    if valor == "" then ClientesDummy else Filter(ClientesDummy, CoincideCon(valor))
  }

  /** The empty query matches every client (every text contains `""`), so
      the special case for it gives what the filter would. */
  lemma BusquedaVaciaEsFiltro()
    ensures HandleBusqueda("") == Filter(ClientesDummy, CoincideCon(""))
  {
    EmptyPrefix("");
    FilterAll(ClientesDummy, CoincideCon(""));
  }

  /** Searching part of a document number finds that client only. */
  lemma BuscarDocumento()
    ensures HandleBusqueda("8765") == [ClientesDummy[1]]
  {
    FiltroDocumento();
  }

  lemma FiltroDocumento()
    ensures Filter(ClientesDummy, CoincideCon("8765")) == [ClientesDummy[1]]
  {
    assert IsPrefix("8765", ClientesDummy[1].documento);
    NoCoincide(ClientesDummy[0]);
    NoCoincide(ClientesDummy[2]);
    SoloElSegundo(ClientesDummy[0], ClientesDummy[1], ClientesDummy[2], CoincideCon("8765"));
  }

  lemma SoloElSegundo(a: Cliente, b: Cliente, c: Cliente, q: Cliente -> bool)
    requires !q(a) && q(b) && !q(c)
    ensures Filter([a, b, c], q) == [b]
  {
    assert [a, b, c][1..] == [b, c];
    assert [b, c][1..] == [c];
    assert [c][1..] == [];
    assert Filter([c], q) == [] + Filter([], q) == [];
    assert Filter([b, c], q) == [b] + Filter([c], q) == [b];
    assert Filter([a, b, c], q) == [] + Filter([b, c], q);
  }

  lemma NoCoincide(c: Cliente)
    requires c == ClientesDummy[0] || c == ClientesDummy[2]
    ensures !Coincide("8765", c)
  {
    assert Lower("8765") == "8765";
    var nombre := Lower(c.nombre);
    assert forall i :: 0 <= i < |nombre| ==> nombre[i] != '8';
    NoContiene(nombre, "8765");
    NoContiene(c.documento, "8765");
  }

  /** No occurrence when no position where `sub` would fit starts with its
      first character. */
  lemma NoContiene(s: string, sub: string)
    requires sub != [] && forall i :: 0 <= i <= |s| - |sub| ==> s[i] != sub[0]
    ensures !Contains(s, sub)
  {
    ContainsAt(s, sub);
  }

  /** The empty text is contained in every text. */
  lemma EmptyPrefix(s: string)
    ensures forall t: string :: Contains(t, s) || s != ""
  {
    forall t: string | s == "" ensures Contains(t, s) {
      assert IsPrefix(s, t);
    }
  }

  function OtroId(id: int): Cliente -> bool {
    (c: Cliente) => c.id != id
  }

  /** `handleDelete` on the clients shown: exactly those with another id
      remain, in their order. */
  function HandleDelete(clientes: seq<Cliente>, id: int): (r: seq<Cliente>)
    ensures IsSubseq(r, clientes)
    ensures forall c :: c in r <==> c in clientes && c.id != id
    ensures forall c :: multiset(r)[c] == if c.id != id then multiset(clientes)[c] else 0
  {
    FilterEsFiltrado(clientes, OtroId(id));
    FilterMembers(clientes, OtroId(id));
    Filter(clientes, OtroId(id))
  }

  /** A client deleted from the list shows up again after an empty search. */
  lemma BorradoReaparece(clientes: seq<Cliente>, c: Cliente)
    requires c in ClientesDummy
    ensures c !in HandleDelete(clientes, c.id)
    ensures c in HandleBusqueda("")
  {
  }
}
