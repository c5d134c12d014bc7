/** The task board page: the filter and column pipeline that every render
    recomputes from the task list, and the page state that its handlers
    (load, edit, save, delete, drag-end) replace. */
module Agenda {
  import opened Common
  import opened Text
  import opened Seqs

  /** A task as this page reads it: `cliente` is an embedded client object or
      null (Agenda.jsx reads `tarefa.cliente?.id`). */
  datatype Task = Task(id: int, titulo: string, descricao: string, prioridade: int, status: string, cliente: Option<Cliente>)

  /** The three column keys, in display order. */
  const Aberto: string := "ABERTO"
  const Andamento: string := "ANDAMENTO"
  const Concluido: string := "CONCLUIDO"
  const StatusKeys: seq<string> := [Aberto, Andamento, Concluido]

  /** No two tasks share an id (the server assigns them). */
  predicate UniqueIds(tasks: seq<Task>)
  {
    forall i, j :: 0 <= i < j < |tasks| ==> tasks[i].id != tasks[j].id
  }

  // ================================================================ filter pipeline

  /** The title, lower-cased, contains the search text, lower-cased. */
  predicate MatchesSearch(search: string, t: Task)
  {
    Includes(Lower(t.titulo), Lower(search))
  }

  /** The priority select: None is the empty option ("Todas"), `Some(p)` the
      numeric value of a chosen option. */
  predicate MatchesPriority(filtro: Option<int>, t: Task)
  {
    filtro.None? || t.prioridade == filtro.value
  }

  function SearchFilter(search: string): Task -> bool
  {
    (t: Task) => MatchesSearch(search, t)
  }

  function PriorityFilter(filtro: Option<int>): Task -> bool
  {
    (t: Task) => MatchesPriority(filtro, t)
  }

  /** `tarefasFiltradas`: the search filter, then the priority filter. */
  function Filtered(tasks: seq<Task>, search: string, filtro: Option<int>): (r: seq<Task>)
    ensures forall t :: t in r <==> t in tasks && MatchesSearch(search, t) && MatchesPriority(filtro, t)
  {
    var bySearch := Filter(SearchFilter(search), tasks);
    FilterMembers(SearchFilter(search), tasks);
    FilterMembers(PriorityFilter(filtro), bySearch);
    Filter(PriorityFilter(filtro), bySearch)
  }

  /** The filtered list keeps the surviving tasks in their original order. */
  lemma FilteredIsSubseq(tasks: seq<Task>, search: string, filtro: Option<int>)
    ensures IsSubseq(Filtered(tasks, search, filtro), tasks)
  {
    var both := (t: Task) => MatchesSearch(search, t) && MatchesPriority(filtro, t);
    FilterFilter(SearchFilter(search), PriorityFilter(filtro), both, tasks);
    FilterIsSubseq(both, tasks);
  }

  /** With an empty search text and no priority chosen, every task is shown, in order. */
  lemma NoFilterKeepsAll(tasks: seq<Task>)
    ensures Filtered(tasks, "", None) == tasks
  {
    assert Lower("") == "";
    forall i | 0 <= i < |tasks| ensures MatchesSearch("", tasks[i]) {
      IncludesEmpty(Lower(tasks[i].titulo));
    }
    FilterKeepsAll(SearchFilter(""), tasks);
    FilterKeepsAll(PriorityFilter(None), tasks);
  }

  // ================================================================ columns

  function Priority(t: Task): int
  {
    t.prioridade
  }

  function StatusIs(key: string): Task -> bool
  {
    (t: Task) => t.status == key
  }

  /** The cards of column `key`: the filtered tasks with that status, sorted by
      ascending priority. */
  function Column(filtered: seq<Task>, key: string): (r: seq<Task>)
    ensures forall t :: t in r <==> t in filtered && t.status == key
    ensures SortedBy(Priority, r)
    ensures multiset(r) == multiset(Filter(StatusIs(key), filtered))
  {
    var mine := Filter(StatusIs(key), filtered);
    FilterMembers(StatusIs(key), filtered);
    var r := SortBy(Priority, mine);
    SameMultisetSameMembers(r, mine);
    r
  }

  lemma SameMultisetSameMembers(a: seq<Task>, b: seq<Task>)
    requires multiset(a) == multiset(b)
    ensures forall t :: t in a <==> t in b
  {
    forall t ensures t in a <==> t in b {
      assert t in a <==> t in multiset(a);
      assert t in b <==> t in multiset(b);
    }
  }

  /** The count badge above column `key` counts the cards in that column. */
  function BadgeCount(filtered: seq<Task>, key: string): (n: nat)
    ensures n == |Column(filtered, key)|
  {
    var c := Column(filtered, key);
    assert |multiset(c)| == |c|;
    |Filter(StatusIs(key), filtered)|
  }

  /** Sorting a column is stable: tasks of equal priority keep the order they
      have in the filtered list. */
  lemma ColumnStable(filtered: seq<Task>, key: string, p: int)
    ensures Filter(HasKey(Priority, p), Column(filtered, key))
         == Filter(HasKey(Priority, p), Filter(StatusIs(key), filtered))
  {
    SortByStable(Priority, Filter(StatusIs(key), filtered), p);
  }

  /** When every status is a column key, the three columns together hold each
      filtered task exactly once. */
  lemma {:induction false} ColumnsPartition(filtered: seq<Task>)
    requires forall t :: t in filtered ==> t.status in StatusKeys
    ensures multiset(Column(filtered, Aberto)) + multiset(Column(filtered, Andamento))
            + multiset(Column(filtered, Concluido)) == multiset(filtered)
  {
    StatusSplit(filtered);
  }

  lemma {:induction false} StatusSplit(s: seq<Task>)
    requires forall t :: t in s ==> t.status in StatusKeys
    ensures multiset(Filter(StatusIs(Aberto), s)) + multiset(Filter(StatusIs(Andamento), s))
            + multiset(Filter(StatusIs(Concluido), s)) == multiset(s)
  {
    if s != [] {
      var x, rest := s[0], s[1..];
      assert s == [x] + rest;
      assert x in s;
      StatusSplit(rest);
      var a, b, c := StatusIs(Aberto), StatusIs(Andamento), StatusIs(Concluido);
      FilterConsMultiset(a, x, rest);
      FilterConsMultiset(b, x, rest);
      FilterConsMultiset(c, x, rest);
      assert |Aberto| == 6 && |Andamento| == 9 && |Concluido| == 9 && Andamento[0] != Concluido[0];
      OneOfThree(x, a(x), b(x), c(x), multiset(Filter(a, rest)), multiset(Filter(b, rest)), multiset(Filter(c, rest)));
    }
  }

  lemma OneOfThree(x: Task, pa: bool, pb: bool, pc: bool, ma: multiset<Task>, mb: multiset<Task>, mc: multiset<Task>)
    requires (pa && !pb && !pc) || (!pa && pb && !pc) || (!pa && !pb && pc)
    ensures ((if pa then multiset{x} else multiset{}) + ma) + ((if pb then multiset{x} else multiset{}) + mb)
            + ((if pc then multiset{x} else multiset{}) + mc) == multiset{x} + (ma + mb + mc)
  {
  }

  lemma FilterConsMultiset(p: Task -> bool, x: Task, rest: seq<Task>)
    ensures multiset(Filter(p, [x] + rest)) == (if p(x) then multiset{x} else multiset{}) + multiset(Filter(p, rest))
  {
    FilterCons(p, x, rest);
  }

  // ================================================================ drag-end

  /** A card's draggable id: `String(tarefa.id)`. */
  function CardId(t: Task): string
  {
    IntToString(t.id)
  }

  function IdIs(id: int): Task -> bool
  {
    (t: Task) => t.id == id
  }

  /** The task `handleDragEnd` writes back, or None when it returns early: no
      droppable under the pointer, the dragged id equal to the droppable id, or
      no task whose id is `+active.id`. */
  function DraggedUpdate(tasks: seq<Task>, activeId: string, overId: Option<string>): (r: Option<Task>)
    ensures r.Some? ==> overId.Some? && overId.value != activeId && r.value.status == overId.value
    ensures r.Some? ==> exists i :: 0 <= i < |tasks| && r.value == tasks[i].(status := overId.value)
                                    && DecimalValue(activeId) == Some(tasks[i].id)
    ensures r.None? && overId.Some? && overId.value != activeId && DecimalValue(activeId).Some? ==>
              forall t :: t in tasks ==> t.id != DecimalValue(activeId).value
  {
    if overId.None? || activeId == overId.value then None
    else match DecimalValue(activeId)
      case None => None
      case Some(n) =>
        match Find(IdIs(n), tasks)
        case None => None
        case Some(t) => Some(t.(status := overId.value))
  }

  /** `prev.map(t => t.id === u.id ? u : t)`. */
  function ReplaceById(tasks: seq<Task>, u: Task): (r: seq<Task>)
    ensures |r| == |tasks|
    ensures forall i :: 0 <= i < |tasks| ==> r[i] == if tasks[i].id == u.id then u else tasks[i]
  {
    if tasks == [] then []
    else [if tasks[0].id == u.id then u else tasks[0]] + ReplaceById(tasks[1..], u)
  }

  /** The card id never equals a column key, so the early return meant for a
      drop on the card's own column never fires. */
  lemma CardIdIsNoColumnKey(t: Task, key: string)
    requires key in StatusKeys
    ensures CardId(t) != key
  {
    var c := CardId(t);
    assert IsDigit(c[0]) || c[0] == '-';
    assert key[0] == 'A' || key[0] == 'C';
  }

  /** Dropping the card of task `i` on column `key` (with unique ids) rewrites
      exactly that task's status: the list keeps its length, its order and
      every other task. */
  lemma DropSetsOneStatus(tasks: seq<Task>, i: int, key: string)
    requires UniqueIds(tasks) && 0 <= i < |tasks| && key in StatusKeys
    ensures DraggedUpdate(tasks, CardId(tasks[i]), Some(key)) == Some(tasks[i].(status := key))
    ensures ReplaceById(tasks, tasks[i].(status := key)) == tasks[i := tasks[i].(status := key)]
  {
    DropFindsTask(tasks, i, key);
    ReplaceUniqueId(tasks, i, tasks[i].(status := key));
  }

  lemma DropFindsTask(tasks: seq<Task>, i: int, key: string)
    requires UniqueIds(tasks) && 0 <= i < |tasks| && key in StatusKeys
    ensures DraggedUpdate(tasks, CardId(tasks[i]), Some(key)) == Some(tasks[i].(status := key))
  {
    var id := tasks[i].id;
    CardIdIsNoColumnKey(tasks[i], key);
    DecimalRoundTrip(id);
    assert forall j :: 0 <= j < i ==> !IdIs(id)(tasks[j]);
    FindAt(IdIs(id), tasks, i);
  }

  /** With unique ids, replacing by the id of task `i` touches position `i` only. */
  lemma ReplaceUniqueId(tasks: seq<Task>, i: int, u: Task)
    requires UniqueIds(tasks) && 0 <= i < |tasks| && u.id == tasks[i].id
    ensures ReplaceById(tasks, u) == tasks[i := u]
  {
    var r := ReplaceById(tasks, u);
    forall j | 0 <= j < |tasks| ensures r[j] == tasks[i := u][j] {
      if j != i {
        assert tasks[j].id != u.id;
      }
    }
  }

  /** The drop the early return was meant to catch: a card dropped on the
      column it is already in leaves the list as it was, yet a status update
      is still sent. */
  lemma SameColumnDropStillUpdates(tasks: seq<Task>, i: int)
    requires UniqueIds(tasks) && 0 <= i < |tasks| && tasks[i].status in StatusKeys
    ensures DraggedUpdate(tasks, CardId(tasks[i]), Some(tasks[i].status)) == Some(tasks[i])
    ensures ReplaceById(tasks, tasks[i]) == tasks
  {
    DropSetsOneStatus(tasks, i, tasks[i].status);
    assert tasks[i].(status := tasks[i].status) == tasks[i];
    assert tasks[i := tasks[i]] == tasks;
  }

  /** After a drop on column `key`, the moved task is rendered in that column
      whenever it passes the search and priority filters. */
  lemma DroppedTaskInTargetColumn(tasks: seq<Task>, i: int, key: string, search: string, filtro: Option<int>)
    requires UniqueIds(tasks) && 0 <= i < |tasks| && key in StatusKeys
    requires MatchesSearch(search, tasks[i]) && MatchesPriority(filtro, tasks[i])
    ensures tasks[i].(status := key) in Column(Filtered(ReplaceById(tasks, tasks[i].(status := key)), search, filtro), key)
  {
    var u := tasks[i].(status := key);
    DropSetsOneStatus(tasks, i, key);
    var after := ReplaceById(tasks, u);
    assert after[i] == u;
    assert MatchesSearch(search, u) && MatchesPriority(filtro, u);
  }

  // ================================================================ delete

  function IdIsNot(id: int): Task -> bool
  {
    (t: Task) => t.id != id
  }

  /** `prev.filter(t => t.id !== id)`. */
  function RemoveById(tasks: seq<Task>, id: int): (r: seq<Task>)
    ensures forall t :: t in r <==> t in tasks && t.id != id
  {
    FilterMembers(IdIsNot(id), tasks);
    Filter(IdIsNot(id), tasks)
  }

  /** Deleting an id no task has leaves the list as it was. */
  lemma RemoveAbsentId(tasks: seq<Task>, id: int)
    requires forall t :: t in tasks ==> t.id != id
    ensures RemoveById(tasks, id) == tasks
  {
    FilterKeepsAll(IdIsNot(id), tasks);
  }

  /** With unique ids, deleting the id of task `i` removes exactly that entry
      and keeps the others in order. */
  lemma RemoveUniqueId(tasks: seq<Task>, i: int)
    requires UniqueIds(tasks) && 0 <= i < |tasks|
    ensures RemoveById(tasks, tasks[i].id) == tasks[..i] + tasks[i + 1..]
  {
    var id := tasks[i].id;
    var p := IdIsNot(id);
    assert tasks == tasks[..i] + ([tasks[i]] + tasks[i + 1..]);
    FilterAppend(p, tasks[..i], [tasks[i]] + tasks[i + 1..]);
    FilterCons(p, tasks[i], tasks[i + 1..]);
    var pre, post := tasks[..i], tasks[i + 1..];
    forall j | 0 <= j < |pre| ensures p(pre[j]) {
      assert pre[j] == tasks[j];
    }
    FilterKeepsAll(p, pre);
    forall j | 0 <= j < |post| ensures p(post[j]) {
      assert post[j] == tasks[i + 1 + j];
    }
    FilterKeepsAll(p, post);
    assert Filter(p, [tasks[i]] + tasks[i + 1..]) == tasks[i + 1..];
  }

  // ================================================================ form and save

  /** The client select: '' or a client id (a number after `handleEdit`, its
      string after a selection; unary plus makes both the number). */
  datatype ClientChoice = NoClient | ClientId(id: int)

  /** The create/edit form state. */
  datatype TaskForm = TaskForm(id: Option<int>, titulo: string, descricao: string, prioridade: int, clienteId: ClientChoice, status: string)

  /** The form of "Nova Tarefa" (also the initial form). */
  function NewTaskForm(): (f: TaskForm)
    ensures f.id.None? && f.titulo == "" && f.descricao == "" && f.clienteId.NoClient?
    ensures f.prioridade == 2 && f.status == Aberto
  {
    TaskForm(None, "", "", 2, NoClient, Aberto)
  }

  /** `handleEdit`: the task's fields, and its client's id or '' (`cliente?.id || ''`,
      so a client id 0 also reads as ''). */
  function FormFromTask(t: Task): (f: TaskForm)
    ensures f.id == Some(t.id) && f.titulo == t.titulo && f.descricao == t.descricao
    ensures f.prioridade == t.prioridade && f.status == t.status
    ensures f.clienteId.ClientId? <==> t.cliente.Some? && t.cliente.value.id != 0
    ensures f.clienteId.ClientId? ==> f.clienteId.id == t.cliente.value.id
  {
    var choice := match t.cliente
      case Some(c) => if c.id != 0 then ClientId(c.id) else NoClient
      case None => NoClient;
    TaskForm(Some(t.id), t.titulo, t.descricao, t.prioridade, choice, t.status)
  }

  /** `+form.clienteId`: '' converts to 0. */
  function ChoiceNumber(c: ClientChoice): int
  {
    match c
    case NoClient => 0
    case ClientId(k) => k
  }

  function ClientIdIs(id: int): Cliente -> bool
  {
    (c: Cliente) => c.id == id
  }

  /** The body `handleSalvar` sends: the form, with the numeric priority and the
      client found by id in the loaded client list (null if none). */
  datatype TaskPayload = TaskPayload(id: Option<int>, titulo: string, descricao: string, prioridade: int,
                                     clienteId: ClientChoice, status: string, cliente: Option<Cliente>)

  function Payload(f: TaskForm, clientes: seq<Cliente>): (r: TaskPayload)
    ensures r.id == f.id && r.titulo == f.titulo && r.descricao == f.descricao
    ensures r.prioridade == f.prioridade && r.clienteId == f.clienteId && r.status == f.status
    ensures r.cliente.None? <==> forall i :: 0 <= i < |clientes| ==> clientes[i].id != ChoiceNumber(f.clienteId)
    ensures r.cliente.Some? ==> r.cliente.value.id == ChoiceNumber(f.clienteId)
    ensures r.cliente.Some? ==> exists i :: 0 <= i < |clientes| && clientes[i] == r.cliente.value
                                            && forall j :: 0 <= j < i ==> clientes[j].id != ChoiceNumber(f.clienteId)
  {
    TaskPayload(f.id, f.titulo, f.descricao, f.prioridade, f.clienteId, f.status,
                Find(ClientIdIs(ChoiceNumber(f.clienteId)), clientes))
  }

  /** The requests the page sends to the task endpoints. */
  datatype Request =
    | PutStatus(id: int, task: Task)          // drag-end: `PUT /tarefas/{id}` with the moved task
    | PutTask(id: int, body: TaskPayload)     // save of an existing task
    | PostTask(body: TaskPayload)             // save of a new task
    | DeleteTask(id: int)                     // `DELETE /tarefas/{id}`

  /** `form.id ? put : post`: a PUT to the form's id when that id is truthy (set
      and not 0), a POST otherwise. */
  function SaveRequest(f: TaskForm, clientes: seq<Cliente>): (r: Request)
    ensures r.PutTask? || r.PostTask?
    ensures r.PutTask? <==> f.id.Some? && f.id.value != 0
    ensures r.PutTask? ==> r.id == f.id.value
    ensures r.body == Payload(f, clientes)
  {
    if f.id.Some? && f.id.value != 0 then PutTask(f.id.value, Payload(f, clientes))
    else PostTask(Payload(f, clientes))
  }

  /** Opening a task for edit and saving it unchanged sends that task back: a
      PUT to its id with the same fields and the same client, provided the
      client list has that client under its id. */
  lemma EditThenSaveSendsTask(t: Task, clientes: seq<Cliente>, k: int)
    requires t.id != 0 && t.cliente.Some? && t.cliente.value.id != 0
    requires 0 <= k < |clientes| && clientes[k] == t.cliente.value
    requires forall j :: 0 <= j < k ==> clientes[j].id != t.cliente.value.id
    ensures var r := SaveRequest(FormFromTask(t), clientes);
            r == PutTask(t.id, r.body) && r.body.id == Some(t.id)
            && r.body.titulo == t.titulo && r.body.descricao == t.descricao
            && r.body.prioridade == t.prioridade && r.body.status == t.status
            && r.body.cliente == t.cliente
  {
    FindAt(ClientIdIs(t.cliente.value.id), clientes, k);
  }

  // ================================================================ page state

  /** How the combined `Promise.all` load of tasks and clients ended. */
  datatype LoadResult = Loaded(tarefas: seq<Task>, clientes: seq<Cliente>) | LoadFailed(status: Option<int>)

  const LoadForbidden := "Sem permissão (403)"
  const LoadError := "Erro ao carregar dados"
  const Forbidden := "Não autorizado (403)"
  const DeleteError := "Erro ao deletar"
  const SaveError := "Erro ao salvar"
  const StatusError := "Erro ao atualizar status"

  /** The state of the Agenda page. */
  class Board {
    var tarefas: seq<Task>
    var clientes: seq<Cliente>
    var loading: bool
    var error: Option<string>
    var showModal: bool
    var showView: bool
    var current: Option<Task>
    var form: TaskForm
    var search: string
    var filtroPrioridade: Option<int>

    constructor ()
      ensures tarefas == [] && clientes == [] && loading && error == None
      ensures !showModal && !showView && current == None && form == NewTaskForm()
      ensures search == "" && filtroPrioridade == None
    {
      tarefas, clientes, loading, error := [], [], true, None;
      showModal, showView, current := false, false, None;
      form := NewTaskForm();
      search, filtroPrioridade := "", None;
    }

    /** Column `key` as the current render shows it: the loaded tasks of
        that status that pass both filters, by ascending priority. */
    function VisibleColumn(key: string): (r: seq<Task>)
      reads this
      ensures forall t :: t in r <==> t in tarefas && t.status == key
                                      && MatchesSearch(search, t) && MatchesPriority(filtroPrioridade, t)
      ensures SortedBy(Priority, r)
    {
      Column(Filtered(tarefas, search, filtroPrioridade), key)
    }

    /** `fetchData`: a successful load replaces both lists and clears the
        error; a failed one keeps both lists and shows the load error. */
    method FetchData(result: LoadResult)
      modifies this`tarefas, this`clientes, this`loading, this`error
      ensures !loading
      ensures result.Loaded? ==> tarefas == result.tarefas && clientes == result.clientes && error == None
      ensures result.LoadFailed? ==> tarefas == old(tarefas) && clientes == old(clientes)
                                     && error == Some(MessageFor(result.status, LoadForbidden, LoadError))
    {
      loading := true;
      match result {
        case Loaded(ts, cs) =>
          tarefas, clientes, error := ts, cs, None;
        case LoadFailed(status) =>
          error := Some(MessageFor(status, LoadForbidden, LoadError));
      }
      loading := false;
    }

    /** `handleView`. */
    method HandleView(t: Task)
      modifies this`current, this`showView
      ensures current == Some(t) && showView
    {
      current, showView := Some(t), true;
    }

    /** `handleEdit`: the form takes the task's fields and the modal opens. */
    method HandleEdit(t: Task)
      modifies this`form, this`showModal
      ensures form == FormFromTask(t) && showModal
    {
      form, showModal := FormFromTask(t), true;
    }

    /** The "Nova Tarefa" button: the form is reset and the modal opens. */
    method OpenNewTask()
      modifies this`form, this`showModal
      ensures form == NewTaskForm() && showModal
    {
      form, showModal := NewTaskForm(), true;
    }

    /** `handleDelete`: nothing happens unless the user confirms; then one
        DELETE is sent, and the list loses the id only when it succeeds. */
    method HandleDelete(id: int, confirmed: bool, outcome: Outcome) returns (req: Option<Request>)
      modifies this`tarefas, this`error
      ensures !confirmed ==> req == None && tarefas == old(tarefas) && error == old(error)
      ensures confirmed ==> req == Some(DeleteTask(id))
      ensures confirmed && outcome.Succeeded? ==> tarefas == RemoveById(old(tarefas), id) && error == None
      ensures confirmed && outcome.Rejected? ==>
                tarefas == old(tarefas) && error == Some(MessageFor(outcome.status, Forbidden, DeleteError))
    {
      if !confirmed {
        return None;
      }
      req := Some(DeleteTask(id));
      match outcome {
        case Succeeded =>
          tarefas, error := RemoveById(tarefas, id), None;
        case Rejected(status) =>
          error := Some(MessageFor(status, Forbidden, DeleteError));
      }
    }

    /** `handleSalvar`: one PUT or POST of the form; on success the modal
        closes, the error clears and a reload runs (whose result `reload` is);
        on failure the form stays open and the save error is shown. */
    method HandleSalvar(outcome: Outcome, reload: LoadResult) returns (req: Request)
      modifies this`tarefas, this`clientes, this`loading, this`error, this`showModal
      ensures req == SaveRequest(old(form), old(clientes))
      ensures outcome.Succeeded? ==> !showModal && !loading
      ensures outcome.Succeeded? && reload.Loaded? ==>
                tarefas == reload.tarefas && clientes == reload.clientes && error == None
      ensures outcome.Succeeded? && reload.LoadFailed? ==>
                tarefas == old(tarefas) && clientes == old(clientes)
                && error == Some(MessageFor(reload.status, LoadForbidden, LoadError))
      ensures outcome.Rejected? ==>
                tarefas == old(tarefas) && clientes == old(clientes) && showModal == old(showModal)
                && loading == old(loading) && error == Some(MessageFor(outcome.status, Forbidden, SaveError))
    {
      req := SaveRequest(form, clientes);
      match outcome {
        case Succeeded =>
          showModal, error := false, None;
          FetchData(reload);
        case Rejected(status) =>
          error := Some(MessageFor(status, Forbidden, SaveError));
      }
    }

    /** `handleDragEnd`: on an early return nothing changes and nothing is
        sent; otherwise the moved task replaces every entry with its id at
        once, one PUT carries it, and a failed PUT only sets the error, leaving
        the optimistic change in place. The moved task then shows in the
        column it was dropped on whenever it passes the filters. */
    method HandleDragEnd(activeId: string, overId: Option<string>, putOutcome: Outcome) returns (req: Option<Request>)
      modifies this`tarefas, this`error
      ensures DraggedUpdate(old(tarefas), activeId, overId).None? ==>
                req == None && tarefas == old(tarefas) && error == old(error)
      ensures DraggedUpdate(old(tarefas), activeId, overId).Some? ==>
                var u := DraggedUpdate(old(tarefas), activeId, overId).value;
                tarefas == ReplaceById(old(tarefas), u) && req == Some(PutStatus(u.id, u))
                && error == (if putOutcome.Succeeded? then old(error) else Some(StatusError))
      ensures DraggedUpdate(old(tarefas), activeId, overId).Some? ==>
                var u := DraggedUpdate(old(tarefas), activeId, overId).value;
                MatchesSearch(search, u) && MatchesPriority(filtroPrioridade, u) ==> u in VisibleColumn(overId.value)
    {
      var update := DraggedUpdate(tarefas, activeId, overId);
      if update.None? {
        return None;
      }
      var u := update.value;
      ghost var i :| 0 <= i < |tarefas| && u == tarefas[i].(status := overId.value);
      tarefas := ReplaceById(tarefas, u);
      assert tarefas[i] == u;
      req := Some(PutStatus(u.id, u));
      if putOutcome.Rejected? {
        error := Some(StatusError);
      }
    }
  }
}
