/** Shapes shared by the pages: an optional value, the client record the API
    returns, and the outcome of one awaited API call. */
module Common {

  datatype Option<T> = None | Some(value: T)

  /** A client: the six scalar fields the pages read from `GET /clientes`
      (the entity's list of tasks is not part of this record). */
  datatype Cliente = Cliente(id: int, nome: string, telefone: string, endereco: string, email: string, notas: string)

  /** How an awaited API call ended: it resolved, or it rejected with
      `err.response?.status` (None when there was no response at all). */
  datatype Outcome = Succeeded | Rejected(status: Option<int>)

  /** The banner text a page shows for a rejection: the forbidden text for
      HTTP 403 and only for it; any other status, or no response at all,
      gives the general text. */
  function MessageFor(status: Option<int>, forbidden: string, otherwise: string): (m: string)
    ensures status == Some(403) ==> m == forbidden
    ensures status != Some(403) ==> m == otherwise
  {
    if status == Some(403) then forbidden else otherwise
  }
}
