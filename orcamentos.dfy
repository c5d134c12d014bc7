/** The quote builder page: the selected services, the equipment list, the
    client looked up from the search box, and the chain of validation steps that must
    all pass before a PDF is generated. */
module Orcamentos {
  import opened Common
  import opened Text
  import opened Seqs

  /** An entry of `tarefasSelecionadas`: a task id, or the literal 'outros'. */
  datatype Service = TaskService(id: int) | Outros

  /** An equipment row: two free text fields. */
  datatype Equipamento = Equipamento(nome: string, valor: string)

  /** The field named by `campo`. */
  datatype Campo = Nome | Valor

  // ================================================================ selected services

  function IsNot(s: Service): Service -> bool
  {
    (x: Service) => x != s
  }

  /** `toggleTarefa`: an absent service is appended; a present one is removed
      everywhere it occurs, the others keeping their order. */
  function Toggle(selected: seq<Service>, s: Service): (r: seq<Service>)
    ensures s !in selected ==> r == selected + [s]
    ensures s in selected ==> s !in r && IsSubseq(r, selected)
    ensures forall x :: x != s ==> (x in r <==> x in selected)
  {
    if s in selected then
      FilterIsSubseq(IsNot(s), selected);
      FilterMembers(IsNot(s), selected);
      Filter(IsNot(s), selected)
    else selected + [s]
  }

  /** Toggling twice restores membership; starting from an absent service it
      restores the selection exactly. */
  lemma ToggleTwice(selected: seq<Service>, s: Service)
    ensures forall x :: x in Toggle(Toggle(selected, s), s) <==> x in selected
    ensures s !in selected ==> Toggle(Toggle(selected, s), s) == selected
  {
    var once := Toggle(selected, s);
    if s !in selected {
      assert once == selected + [s];
      assert s in once;
      forall i | 0 <= i < |selected| ensures IsNot(s)(selected[i]) {
        assert selected[i] in selected;
      }
      FilterKeepsAll(IsNot(s), selected);
      FilterAppend(IsNot(s), selected, [s]);
      FilterCons(IsNot(s), s, []);
    }
  }

  /** Toggling a present service off removes all of its copies and keeps
      every copy of every other service. */
  lemma ToggleOffCounts(selected: seq<Service>, s: Service, x: Service)
    requires s in selected
    ensures multiset(Toggle(selected, s))[s] == 0
    ensures x != s ==> multiset(Toggle(selected, s))[x] == multiset(selected)[x]
  {
    FilterCount(IsNot(s), selected, s);
    FilterCount(IsNot(s), selected, x);
  }

  // ================================================================ equipment

  /** `adicionarEquipamento`: one empty row at the end. */
  function AddEquipamento(eqs: seq<Equipamento>): (r: seq<Equipamento>)
    ensures |r| == |eqs| + 1 && r[..|eqs|] == eqs && r[|eqs|] == Equipamento("", "")
  {
    eqs + [Equipamento("", "")]
  }

  /** `{ ...item, [campo]: valor }`: the named field takes the new text and
      the other field keeps its own. */
  function SetCampo(e: Equipamento, campo: Campo, v: string): (r: Equipamento)
    ensures campo == Nome ==> r.nome == v && r.valor == e.valor
    ensures campo == Valor ==> r.valor == v && r.nome == e.nome
  {
    match campo
    case Nome => e.(nome := v)
    case Valor => e.(valor := v)
  }

  /** `removerEquipamento(index)`: `filter((_, i) => i !== index)`, written as
      the same walk over the indices. */
  function RemoveAt<T>(s: seq<T>, index: int): (r: seq<T>)
    ensures 0 <= index < |s| ==> |r| == |s| - 1
    ensures 0 <= index < |s| ==> forall j :: 0 <= j < index ==> r[j] == s[j]
    ensures 0 <= index < |s| ==> forall j :: index <= j < |r| ==> r[j] == s[j + 1]
    ensures !(0 <= index < |s|) ==> r == s
    decreases |s|
  {
    if s == [] then []
    else if index == 0 then s[1..]
    else [s[0]] + RemoveAt(s[1..], index - 1)
  }

  // ================================================================ client lookup

  /** The text a client's option shows: "nome - telefone". */
  function OptionLabel(c: Cliente): string
  {
    c.nome + " - " + c.telefone
  }

  function LabelIs(busca: string): Cliente -> bool
  {
    (c: Cliente) => OptionLabel(c) == busca
  }

  /** The effect on `clienteBusca`: the id (as text) of the first client whose
      label is exactly the search text, or '' when none is. */
  function SelectedClient(clientes: seq<Cliente>, busca: string): (r: string)
    ensures r == "" <==> forall i :: 0 <= i < |clientes| ==> OptionLabel(clientes[i]) != busca
    ensures r != "" ==> exists i :: 0 <= i < |clientes| && OptionLabel(clientes[i]) == busca
                                    && r == IntToString(clientes[i].id)
                                    && forall j :: 0 <= j < i ==> OptionLabel(clientes[j]) != busca
  {
    match Find(LabelIs(busca), clientes)
    case None => ""
    case Some(c) => IntToString(c.id)
  }

  // ================================================================ validation

  /** `v === '' || isNaN(parseFloat(v))`. */
  predicate InvalidValue(v: string)
  {
    v == "" || !ParsesAsNumber(v)
  }

  /** A selected task whose value is missing (`undefined`, which `parseFloat`
      turns into NaN) or invalid; 'outros' is checked separately. */
  predicate ServiceValueMissing(valores: map<int, string>, s: Service)
  {
    s.TaskService? && (s.id !in valores || InvalidValue(valores[s.id]))
  }

  /** The state `handleGerarPDF` reads. */
  datatype Quote = Quote(clienteSelecionado: string, tarefasSelecionadas: seq<Service>,
                         valoresTarefas: map<int, string>, outrosTexto: string, outrosValor: string,
                         equipamentos: seq<Equipamento>)

  /** The reasons `handleGerarPDF` stops, in the order it checks them. */
  datatype QuoteError =
    | NoClient
    | NoService
    | MissingServiceValue
    | BlankOutrosTexto
    | InvalidOutrosValor
    | InvalidEquipamento(nome: string)

  /** The banner text of each reason: never empty, and for an equipment row
      it ends with the row's name, or "sem nome" when the name is blank. */
  function ErrorMessage(e: QuoteError): (m: string)
    ensures m != ""
    ensures e.InvalidEquipamento? ==>
              var shown := if e.nome == "" then "sem nome" else e.nome;
              |shown| <= |m| && m[|m| - |shown|..] == shown
  {
    match e
    case NoClient => "Selecione um cliente antes de gerar o PDF."
    case NoService => "Selecione pelo menos um serviço."
    case MissingServiceValue => "Informe o valor de todas as tarefas selecionadas."
    case BlankOutrosTexto => "Descreva o problema em \"Outros\"."
    case InvalidOutrosValor => "Informe um valor válido para \"Outros\"."
    case InvalidEquipamento(nome) =>
      "Informe um valor válido para o equipamento: " + (if nome == "" then "sem nome" else nome)
  }

  function InvalidRow(): Equipamento -> bool
  {
    (e: Equipamento) => InvalidValue(e.valor)
  }

  /** The position of each reason in the chain of checks. */
  function Step(e: QuoteError): nat
  {
    match e
    case NoClient => 0
    case NoService => 1
    case MissingServiceValue => 2
    case BlankOutrosTexto => 3
    case InvalidOutrosValor => 4
    case InvalidEquipamento(_) => 5
  }

  /** Step `k` of the chain, taken on its own, rejects the quote. */
  predicate StepFails(q: Quote, k: nat)
  {
    var sel := q.tarefasSelecionadas;
    if k == 0 then q.clienteSelecionado == ""
    else if k == 1 then |sel| == 0
    else if k == 2 then exists i :: 0 <= i < |sel| && ServiceValueMissing(q.valoresTarefas, sel[i])
    else if k == 3 then Outros in sel && Trim(q.outrosTexto) == ""
    else if k == 4 then Outros in sel && InvalidValue(q.outrosValor)
    else if k == 5 then exists i :: 0 <= i < |q.equipamentos| && InvalidValue(q.equipamentos[i].valor)
    else false
  }

  /** The first failing step, or None when the PDF may be generated: the
      reason returned is one whose step fails while every earlier step
      passes, and None means that no step fails. */
  function FirstFailure(q: Quote): (r: Option<QuoteError>)
    ensures r.Some? ==> StepFails(q, Step(r.value))
    ensures r.Some? ==> forall k :: 0 <= k < Step(r.value) ==> !StepFails(q, k)
    ensures r.None? ==> forall k :: 0 <= k < 6 ==> !StepFails(q, k)
  {
    if q.clienteSelecionado == "" then Some(NoClient)
    else if |q.tarefasSelecionadas| == 0 then Some(NoService)
    else if exists i :: 0 <= i < |q.tarefasSelecionadas| && ServiceValueMissing(q.valoresTarefas, q.tarefasSelecionadas[i])
    then Some(MissingServiceValue)
    else if Outros in q.tarefasSelecionadas && Trim(q.outrosTexto) == "" then Some(BlankOutrosTexto)
    else if Outros in q.tarefasSelecionadas && InvalidValue(q.outrosValor) then Some(InvalidOutrosValor)
    else match Find(InvalidRow(), q.equipamentos)
      case None => None
      case Some(e) => Some(InvalidEquipamento(e.nome))
  }

  /** Every selected task has a value that parses as a number. */
  predicate ServicesPriced(valores: map<int, string>, sel: seq<Service>)
  {
    forall i :: 0 <= i < |sel| && sel[i].TaskService? ==> sel[i].id in valores && !InvalidValue(valores[sel[i].id])
  }

  /** `s` holds some character that is not white space. */
  predicate HasVisibleText(s: string)
  {
    exists k :: 0 <= k < |s| && !IsJsSpace(s[k])
  }

  /** Every equipment row has a value that parses as a number. */
  predicate RowsPriced(eqs: seq<Equipamento>)
  {
    forall i :: 0 <= i < |eqs| ==> !InvalidValue(eqs[i].valor)
  }

  /** Every step passes. */
  predicate Ready(q: Quote)
  {
    q.clienteSelecionado != ""
    && |q.tarefasSelecionadas| > 0
    && ServicesPriced(q.valoresTarefas, q.tarefasSelecionadas)
    && (Outros in q.tarefasSelecionadas ==> HasVisibleText(q.outrosTexto) && !InvalidValue(q.outrosValor))
    && RowsPriced(q.equipamentos)
  }

  /** No step fails exactly when the quote is ready: a PDF is generated for
      every ready quote and for no other. */
  lemma NoFailureIffReady(q: Quote)
    ensures FirstFailure(q) == None <==> Ready(q)
  {
    var sel := q.tarefasSelecionadas;
    var servicesFail := exists i :: 0 <= i < |sel| && ServiceValueMissing(q.valoresTarefas, sel[i]);
    assert servicesFail == !ServicesPriced(q.valoresTarefas, sel);
    assert (Trim(q.outrosTexto) == "") == !HasVisibleText(q.outrosTexto) by {
      TrimEmptyIff(q.outrosTexto);
    }
    assert Find(InvalidRow(), q.equipamentos).None? == RowsPriced(q.equipamentos);
  }

  /** When the failure is an equipment row, every earlier step passed and the
      row named is the first whose value is invalid. */
  lemma EquipmentFailureIsFirstBadRow(q: Quote, nome: string)
    requires FirstFailure(q) == Some(InvalidEquipamento(nome))
    ensures q.clienteSelecionado != "" && |q.tarefasSelecionadas| > 0
    ensures forall i :: 0 <= i < |q.tarefasSelecionadas| ==> !ServiceValueMissing(q.valoresTarefas, q.tarefasSelecionadas[i])
    ensures exists i :: 0 <= i < |q.equipamentos| && q.equipamentos[i].nome == nome && InvalidValue(q.equipamentos[i].valor)
                        && forall j :: 0 <= j < i ==> !InvalidValue(q.equipamentos[j].valor)
  {
    var r := Find(InvalidRow(), q.equipamentos);
    assert r.Some?;
  }

  /** The loop over the selected services: true at the first selected task
      whose value is missing or invalid. */
  method AnyServiceUnpriced(valores: map<int, string>, sel: seq<Service>) returns (missing: bool)
    ensures missing <==> exists i :: 0 <= i < |sel| && ServiceValueMissing(valores, sel[i])
  {
    for k := 0 to |sel|
      invariant forall j :: 0 <= j < k ==> !ServiceValueMissing(valores, sel[j])
    {
      var s := sel[k];
      if s != Outros && (s.id !in valores || InvalidValue(valores[s.id])) {
        return true;
      }
    }
    return false;
  }

  /** The loop over the equipment rows: the first row whose value is invalid. */
  method FirstUnpricedRow(eqs: seq<Equipamento>) returns (bad: Option<Equipamento>)
    ensures bad == Find(InvalidRow(), eqs)
  {
    for i := 0 to |eqs|
      invariant forall j :: 0 <= j < i ==> !InvalidRow()(eqs[j])
    {
      if InvalidValue(eqs[i].valor) {
        FindAt(InvalidRow(), eqs, i);
        return Some(eqs[i]);
      }
    }
    return None;
  }

  /** `handleGerarPDF` up to the PDF: each step in turn, the loops returning
      at the first selected task and the first equipment row that fail. */
  method CheckQuote(q: Quote) returns (failure: Option<QuoteError>)
    ensures failure == FirstFailure(q)
  {
    if q.clienteSelecionado == "" {
      return Some(NoClient);
    }
    if |q.tarefasSelecionadas| == 0 {
      return Some(NoService);
    }
    var missing := AnyServiceUnpriced(q.valoresTarefas, q.tarefasSelecionadas);
    if missing {
      return Some(MissingServiceValue);
    }
    if Outros in q.tarefasSelecionadas {
      if Trim(q.outrosTexto) == "" {
        return Some(BlankOutrosTexto);
      }
      if InvalidValue(q.outrosValor) {
        return Some(InvalidOutrosValor);
      }
    }
    var bad := FirstUnpricedRow(q.equipamentos);
    if bad.Some? {
      return Some(InvalidEquipamento(bad.value.nome));
    }
    return None;
  }

  // ================================================================ page state

  /** The state of the quote builder page. */
  class QuoteBuilder {
    var clientes: seq<Cliente>
    var clienteBusca: string
    var clienteSelecionado: string
    var tarefasSelecionadas: seq<Service>
    var valoresTarefas: map<int, string>
    var equipamentos: seq<Equipamento>
    var outrosTexto: string
    var outrosValor: string
    var mensagemErro: string

    constructor ()
      ensures clientes == [] && clienteBusca == "" && clienteSelecionado == ""
      ensures tarefasSelecionadas == [] && valoresTarefas == map[] && equipamentos == []
      ensures outrosTexto == "" && outrosValor == "" && mensagemErro == ""
    {
      clientes, clienteBusca, clienteSelecionado := [], "", "";
      tarefasSelecionadas, valoresTarefas, equipamentos := [], map[], [];
      outrosTexto, outrosValor, mensagemErro := "", "", "";
    }

    /** The fields `handleGerarPDF` reads, as one value. */
    function Snapshot(): Quote
      reads this
    {
      Quote(clienteSelecionado, tarefasSelecionadas, valoresTarefas, outrosTexto, outrosValor, equipamentos)
    }

    /** A successful client load; the lookup effect then runs on the new list. */
    method ClientesLoaded(loaded: seq<Cliente>)
      modifies this`clientes, this`clienteSelecionado
      ensures clientes == loaded && clienteSelecionado == SelectedClient(loaded, clienteBusca)
    {
      clientes := loaded;
      clienteSelecionado := SelectedClient(clientes, clienteBusca);
    }

    /** Typing in the client search box; the lookup effect runs on the new text. */
    method SetClienteBusca(busca: string)
      modifies this`clienteBusca, this`clienteSelecionado
      ensures clienteBusca == busca && clienteSelecionado == SelectedClient(clientes, busca)
    {
      clienteBusca := busca;
      clienteSelecionado := SelectedClient(clientes, busca);
    }

    /** `toggleTarefa` (and the 'outros' checkbox, which does the same). */
    method ToggleTarefa(s: Service)
      modifies this`tarefasSelecionadas
      ensures tarefasSelecionadas == Toggle(old(tarefasSelecionadas), s)
    {
      tarefasSelecionadas := Toggle(tarefasSelecionadas, s);
    }

    /** `atualizarValorTarefa`. */
    method AtualizarValorTarefa(id: int, valor: string)
      modifies this`valoresTarefas
      ensures valoresTarefas == old(valoresTarefas)[id := valor]
    {
      valoresTarefas := valoresTarefas[id := valor];
    }

    /** `adicionarEquipamento`. */
    method AdicionarEquipamento()
      modifies this`equipamentos
      ensures equipamentos == AddEquipamento(old(equipamentos))
    {
      equipamentos := AddEquipamento(equipamentos);
    }

    /** `atualizarEquipamento(index, campo, valor)`: row `index` gets the new
        field value; the length and every other row stay as they were. */
    method AtualizarEquipamento(index: int, campo: Campo, valor: string)
      requires 0 <= index < |equipamentos|
      modifies this`equipamentos
      ensures |equipamentos| == |old(equipamentos)|
      ensures equipamentos[index] == SetCampo(old(equipamentos)[index], campo, valor)
      ensures forall j :: 0 <= j < |equipamentos| && j != index ==> equipamentos[j] == old(equipamentos)[j]
    {
      equipamentos := equipamentos[index := SetCampo(equipamentos[index], campo, valor)];
    }

    /** `removerEquipamento`. */
    method RemoverEquipamento(index: int)
      modifies this`equipamentos
      ensures equipamentos == RemoveAt(old(equipamentos), index)
    {
      equipamentos := RemoveAt(equipamentos, index);
    }

    /** `handleGerarPDF`: the first failing step sets the banner and no PDF
        is generated; when every step passes the PDF is generated. */
    method HandleGerarPDF() returns (generate: bool)
      modifies this`mensagemErro
      ensures generate <==> FirstFailure(old(Snapshot())) == None
      ensures !generate ==> mensagemErro == ErrorMessage(FirstFailure(old(Snapshot())).value)
      ensures generate ==> mensagemErro == old(mensagemErro)
    {
      var failure := CheckQuote(Snapshot());
      if failure.Some? {
        mensagemErro := ErrorMessage(failure.value);
        return false;
      }
      return true;
    }
  }
}
