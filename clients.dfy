/** The clients page: the name filter over the loaded list and the
    create/edit form, with the browser's validity gate before any request
    and the server's per-field errors after a rejected one. */
module Clients {
  import opened Common
  import opened Text
  import opened Seqs

  // ================================================================ name filter

  function NameIncludes(search: string): Cliente -> bool
  {
    (c: Cliente) => Includes(Lower(c.nome), Lower(search))
  }

  /** `filtered`: the clients whose lower-cased name contains the lower-cased
      search text, in the order they were loaded. */
  function FilteredClients(clientes: seq<Cliente>, search: string): (r: seq<Cliente>)
    ensures forall c :: c in r <==> c in clientes && Includes(Lower(c.nome), Lower(search))
  {
    FilterMembers(NameIncludes(search), clientes);
    Filter(NameIncludes(search), clientes)
  }

  /** The filtered table keeps the loaded order and drops the non-matching rows. */
  lemma FilteredClientsIsSubseq(clientes: seq<Cliente>, search: string)
    ensures IsSubseq(FilteredClients(clientes, search), clientes)
  {
    FilterIsSubseq(NameIncludes(search), clientes);
  }

  /** An empty search box shows every client. */
  lemma EmptySearchShowsAll(clientes: seq<Cliente>)
    ensures FilteredClients(clientes, "") == clientes
  {
    forall i | 0 <= i < |clientes| ensures NameIncludes("")(clientes[i]) {
      IncludesEmpty(Lower(clientes[i].nome));
    }
    FilterKeepsAll(NameIncludes(""), clientes);
  }

  // ================================================================ form

  /** The form state. `id` is present only when the form was copied from an
      existing client (`{ ...cliente }`); the request body is this record. */
  datatype ClientForm = ClientForm(id: Option<int>, nome: string, telefone: string,
                                   endereco: string, email: string, notas: string)

  /** The five empty fields of a new client. */
  function EmptyForm(): (f: ClientForm)
    ensures f.id.None? && f.nome == "" && f.telefone == "" && f.endereco == "" && f.email == "" && f.notas == ""
  {
    ClientForm(None, "", "", "", "", "")
  }

  /** `{ ...cliente }`: every field of the client, its id included. */
  function FormFromClient(c: Cliente): (f: ClientForm)
    ensures f.id == Some(c.id)
    ensures f.nome == c.nome && f.telefone == c.telefone && f.endereco == c.endereco
    ensures f.email == c.email && f.notas == c.notas
  {
    ClientForm(Some(c.id), c.nome, c.telefone, c.endereco, c.email, c.notas)
  }

  // ---------------------------------------------------------------- the validity gate

  predicate IsAsciiLetter(c: char)
  {
    'a' <= c <= 'z' || 'A' <= c <= 'Z'
  }

  predicate IsLetDig(c: char)
  {
    IsAsciiLetter(c) || IsDigit(c)
  }

  /** A character the HTML standard allows before the `@` of an e-mail address. */
  predicate IsLocalChar(c: char)
  {
    IsLetDig(c) || c in "!#$%&'*+-/=?^_`{|}~."
  }

  /** A domain label: letters, digits and hyphens, 1 to 63 of them, starting
      and ending with a letter or digit. */
  predicate IsLabel(s: string)
  {
    1 <= |s| <= 63 && IsLetDig(s[0]) && IsLetDig(s[|s| - 1])
    && forall i :: 0 <= i < |s| ==> IsLetDig(s[i]) || s[i] == '-'
  }

  /** `s` cut at every occurrence of `sep`; the pieces never contain `sep`. */
  function Split(s: string, sep: char): (r: seq<string>)
    ensures |r| >= 1
    ensures forall k :: 0 <= k < |r| ==> sep !in r[k]
    decreases |s|
  {
    if s == [] then [""]
    else
      var rest := Split(s[1..], sep);
      if s[0] == sep then [""] + rest else [[s[0]] + rest[0]] + rest[1..]
  }

  /** The index of the first occurrence of `c`. */
  function IndexOf(s: string, c: char): (r: Option<nat>)
    ensures r.None? <==> c !in s
    ensures r.Some? ==> r.value < |s| && s[r.value] == c && c !in s[..r.value]
  {
    if s == [] then None
    else if s[0] == c then Some(0)
    else
      var r := IndexOf(s[1..], c);
      if r.None? then None
      else
        assert s[..r.value + 1] == [s[0]] + s[1..][..r.value];
        Some(r.value + 1)
  }

  /** A valid e-mail address in the sense of the HTML standard (the rule an
      `<input type="email">` checks): a non-empty local part of allowed
      characters, one `@`, and dot-separated labels. Such an address holds
      exactly one `@`, with something before it and something after it. */
  function ValidEmail(s: string): (ok: bool)
    ensures ok ==> exists at :: 0 < at < |s| - 1 && s[at] == '@'
                                && '@' !in s[..at] && '@' !in s[at + 1..]
  {
    match IndexOf(s, '@')
    case None => false
    case Some(at) =>
      if at > 0
         && (forall i :: 0 <= i < at ==> IsLocalChar(s[i]))
         && DomainValid(s[at + 1..])
      then
        OneAtFromParts(s, at);
        true
      else false
  }

  /** The part after the `@`: every dot-separated label is well formed. */
  predicate DomainValid(d: string)
  {
    forall k :: 0 <= k < |Split(d, '.')| ==> IsLabel(Split(d, '.')[k])
  }

  /** The address part of the rule: when the first `@` is not at the start
      and every label after it is well formed, it is the only `@` and the
      domain is not empty. */
  lemma OneAtFromParts(s: string, at: nat)
    requires IndexOf(s, '@') == Some(at) && at > 0
    requires DomainValid(s[at + 1..])
    ensures 0 < at < |s| - 1 && s[at] == '@' && '@' !in s[..at] && '@' !in s[at + 1..]
  {
    DomainHasNoAt(s[at + 1..]);
  }

  /** A valid domain is not empty and holds no `@`. */
  lemma DomainHasNoAt(d: string)
    requires DomainValid(d)
    ensures d != [] && '@' !in d
  {
    var labels := Split(d, '.');
    forall k | 0 <= k < |labels| ensures '@' !in labels[k] {
      assert IsLabel(labels[k]);
    }
    SplitDropsNothing(d, '.', '@');
    assert IsLabel(labels[0]);
    assert Split("", '.') == [""];
  }

  /** A character other than the separator that no piece holds is not in the text. */
  lemma SplitDropsNothing(s: string, sep: char, c: char)
    requires c != sep
    requires forall k :: 0 <= k < |Split(s, sep)| ==> c !in Split(s, sep)[k]
    ensures c !in s
  {
    forall j | 0 <= j < |s| ensures s[j] != c {
      if s[j] != sep {
        SplitPieceHolds(s, sep, j);
      }
    }
  }

  /** Every character other than the separator lands in some piece. */
  lemma {:induction false} SplitPieceHolds(s: string, sep: char, j: int)
    requires 0 <= j < |s| && s[j] != sep
    ensures exists k :: 0 <= k < |Split(s, sep)| && s[j] in Split(s, sep)[k]
    decreases |s|
  {
    var r := Split(s, sep);
    var rest := Split(s[1..], sep);
    if j == 0 {
      assert r[0] == [s[0]] + rest[0];
      assert s[0] in r[0];
    } else {
      SplitPieceHolds(s[1..], sep, j - 1);
      var k :| 0 <= k < |rest| && s[1..][j - 1] in rest[k];
      if s[0] == sep {
        assert r[k + 1] == rest[k];
      } else if k == 0 {
        assert r[0] == [s[0]] + rest[0];
        assert s[j] in r[0];
      } else {
        assert r[k] == rest[k];
      }
    }
  }

  /** `formEl.checkValidity()`: the three `required` fields are not empty and
      the `type="email"` field is empty or a valid address. So a form that
      passes names, reaches and locates the client, and any address it
      carries has a single `@`; the empty form of a new client never passes. */
  function FormValid(f: ClientForm): (ok: bool)
    ensures ok ==> f.nome != "" && f.telefone != "" && f.endereco != ""
    ensures ok && f.email != "" ==>
              exists at :: 0 < at < |f.email| - 1 && f.email[at] == '@'
                           && '@' !in f.email[..at] && '@' !in f.email[at + 1..]
  {
    f.nome != "" && f.telefone != "" && f.endereco != "" && (f.email == "" || ValidEmail(f.email))
  }

  // ================================================================ requests

  /** The write a submit sends: PUT to an existing client's id, or POST. */
  datatype ClientRequest = PutCliente(id: int, body: ClientForm) | PostCliente(body: ClientForm)

  /** A rejected call: `err.response?.status` and `err.response.data`. */
  datatype Failure = Failure(status: Option<int>, body: map<string, string>)

  /** The reload after a successful write. */
  datatype Reload = Reloaded(list: seq<Cliente>) | ReloadFailed(failure: Failure)

  /** The write a valid form sends, given the client being edited. */
  function SubmitRequest(current: Option<Cliente>, f: ClientForm): (r: ClientRequest)
    ensures r.body == f
    ensures r.PutCliente? <==> current.Some?
    ensures r.PutCliente? ==> r.id == current.value.id
  {
    match current
    case Some(c) => PutCliente(c.id, f)
    case None => PostCliente(f)
  }

  /** Editing a client and saving it unchanged writes that client back to
      its own id, every field as it was. */
  lemma EditUnchangedWritesBack(c: Cliente)
    ensures SubmitRequest(Some(c), FormFromClient(c)) == PutCliente(c.id, FormFromClient(c))
    ensures var b := SubmitRequest(Some(c), FormFromClient(c)).body;
            Cliente(b.id.value, b.nome, b.telefone, b.endereco, b.email, b.notas) == c
  {
  }

  // ================================================================ page state

  /** The state of the clients page that the form handlers step. */
  class ClientScreen {
    var clientes: seq<Cliente>
    var search: string
    var showCreateEdit: bool
    var current: Option<Cliente>
    var form: ClientForm
    var validated: bool
    var fieldErrors: map<string, string>

    constructor ()
      ensures clientes == [] && search == "" && !showCreateEdit && current.None?
      ensures form == EmptyForm() && !validated && fieldErrors == map[]
    {
      clientes, search, showCreateEdit := [], "", false;
      current, form := None, EmptyForm();
      validated, fieldErrors := false, map[];
    }

    /** The rows the table shows: the loaded clients whose name matches the
        search, in loaded order. */
    function Visible(): (r: seq<Cliente>)
      reads this
      ensures forall c :: c in r <==> c in clientes && Includes(Lower(c.nome), Lower(search))
      ensures IsSubseq(r, clientes)
    {
      FilteredClientsIsSubseq(clientes, search);
      FilteredClients(clientes, search)
    }

    /** `onEditOrNew`: an existing client is copied into the form, no client
        gives the empty form; either way the errors and the `validated` flag
        are cleared and the modal opens. */
    method OnEditOrNew(cliente: Option<Cliente>)
      modifies this`current, this`form, this`fieldErrors, this`validated, this`showCreateEdit
      ensures current == cliente
      ensures form == (if cliente.Some? then FormFromClient(cliente.value) else EmptyForm())
      ensures fieldErrors == map[] && !validated && showCreateEdit
    {
      if cliente.Some? {
        current := cliente;
        form := FormFromClient(cliente.value);
      } else {
        current := None;
        form := EmptyForm();
      }
      fieldErrors := map[];
      validated := false;
      showCreateEdit := true;
    }

    /** `handleSubmit`. An invalid form only sets `validated` and sends
        nothing. A valid one sends PUT or POST (`write` is how that call
        ended, None when it resolved); after a successful write the modal
        closes and the list is reloaded. A rejection with status 400, from
        either call, puts the response body in `fieldErrors` and sets
        `validated`; any other rejection changes nothing more. */
    method HandleSubmit(write: Option<Failure>, reload: Reload) returns (req: Option<ClientRequest>)
      modifies this`validated, this`showCreateEdit, this`clientes, this`fieldErrors
      ensures !FormValid(form) ==>
                req.None? && validated && showCreateEdit == old(showCreateEdit)
                && clientes == old(clientes) && fieldErrors == old(fieldErrors)
      ensures FormValid(form) ==> req == Some(SubmitRequest(current, form))
      ensures FormValid(form) && write.Some? ==>
                showCreateEdit == old(showCreateEdit) && clientes == old(clientes)
                && (if write.value.status == Some(400) then fieldErrors == write.value.body && validated
                    else fieldErrors == old(fieldErrors) && validated == old(validated))
      ensures FormValid(form) && write.None? ==> !showCreateEdit
      ensures FormValid(form) && write.None? && reload.Reloaded? ==>
                clientes == reload.list && fieldErrors == old(fieldErrors) && validated == old(validated)
      ensures FormValid(form) && write.None? && reload.ReloadFailed? ==>
                clientes == old(clientes)
                && (if reload.failure.status == Some(400) then fieldErrors == reload.failure.body && validated
                    else fieldErrors == old(fieldErrors) && validated == old(validated))
    {
      if !FormValid(form) {
        validated := true;
        return None;
      }
      req := Some(SubmitRequest(current, form));
      var failure: Option<Failure> := write;
      if write.None? {
        showCreateEdit := false;
        match reload
        case Reloaded(list) => clientes := list;
        case ReloadFailed(f) => failure := Some(f);
      }
      if failure.Some? && failure.value.status == Some(400) {
        fieldErrors := failure.value.body;
        validated := true;
      }
    }
  }
}
