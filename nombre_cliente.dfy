/** What the analysis and document dialogs share about the client: the
    clients they offer, the client id they open with, and the name they
    save, resolved from the name they were given or by the id chosen. */
module NombreCliente {
  import opened Common

  /** The clients both dialogs offer in their select. */
  const ClientesMuestra: seq<ClienteOpcion> := [
    ClienteOpcion(1, "Juan Pérez"),
    ClienteOpcion(2, "María González"),
    ClienteOpcion(3, "Carlos Rodríguez"),
    ClienteOpcion(4, "Laura Fernández")
  ]

  const ClienteDesconocido: string := "Cliente desconocido"

  /** `clienteId || ''` for the client id prop (`null` and 0 are falsy). */
  function ClienteInicial(clienteIdProp: Option<nat>): (s: string)
    ensures s == "" <==> !Truthy(clienteIdProp)
    ensures Truthy(clienteIdProp) ==> ParseInt(s) == clienteIdProp
  {
    if Truthy(clienteIdProp) then
      NatToStringValue(clienteIdProp.value);
      NatToString(clienteIdProp.value)
    else ""
  }

  /** `clienteNombre || clientes.find(...)?.nombre || 'Cliente desconocido'`:
      the name given to the dialog, else that of the client with the chosen
      id, else the fallback; an empty name counts as none. */
  function NombreResuelto(clienteNombreProp: string, clientes: seq<ClienteOpcion>, clienteId: string): (n: string)
    ensures clienteNombreProp != "" ==> n == clienteNombreProp
    ensures clienteNombreProp == "" ==>
              var c := Find(clientes, (c: ClienteOpcion) => Some(c.id) == ParseInt(clienteId));
              (c.Some? && c.value.nombre != "" ==> n == c.value.nombre)
              && (c.None? || c.value.nombre == "" ==> n == ClienteDesconocido)
    ensures n != ""
  {
    if clienteNombreProp != "" then clienteNombreProp
    else
      match Find(clientes, (c: ClienteOpcion) => Some(c.id) == ParseInt(clienteId))
      case Some(c) => if c.nombre != "" then c.nombre else ClienteDesconocido
      case None => ClienteDesconocido
  }

  /** Without a name given, client 2 is saved under its own name and an
      unknown id under the fallback. */
  lemma NombresResueltos()
    ensures NombreResuelto("", ClientesMuestra, "2") == "María González"
    ensures NombreResuelto("", ClientesMuestra, "9") == ClienteDesconocido
    ensures NombreResuelto("Otro", ClientesMuestra, "2") == "Otro"
  {
    assert ParseInt("2") == Some(2);
    assert ParseInt("9") == Some(9);
  }
}
