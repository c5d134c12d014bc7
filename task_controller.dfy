/** The backend's task endpoints: the conversions between the stored task
    and the DTO the API exchanges, and the create, update and delete rules
    over a repository seen as a map from id to task. */
module TaskController {
  import opened Common

  /** A stored task. `id` is absent until the repository saves it. */
  datatype TaskEntity = TaskEntity(id: Option<int>, titulo: string, descricao: string, status: string,
                                   prioridade: int, cliente: Option<Cliente>)

  /** The DTO as the controller builds and reads it: the client flattened
      into its id, name and address, each absent when there is no client. */
  datatype TaskDTO = TaskDTO(id: Option<int>, titulo: string, descricao: string, status: string,
                             prioridade: int, clienteId: Option<int>, clienteNome: Option<string>,
                             clienteEndereco: Option<string>)

  /** `clienteRepository.findById`: the registered clients by id. */
  type ClientTable = map<int, Cliente>

  /** `toDTO`: the task's own fields copied, and the client's id, name and
      address taken from the client, all three absent exactly when the task
      has none. */
  function ToDTO(t: TaskEntity): (d: TaskDTO)
    ensures d.id == t.id && d.titulo == t.titulo && d.descricao == t.descricao
    ensures d.status == t.status && d.prioridade == t.prioridade
    ensures d.clienteId.None? <==> t.cliente.None?
    ensures d.clienteNome.None? <==> t.cliente.None?
    ensures d.clienteEndereco.None? <==> t.cliente.None?
    ensures t.cliente.Some? ==> d.clienteId == Some(t.cliente.value.id)
                                && d.clienteNome == Some(t.cliente.value.nome)
                                && d.clienteEndereco == Some(t.cliente.value.endereco)
  {
    match t.cliente
    case None => TaskDTO(t.id, t.titulo, t.descricao, t.status, t.prioridade, None, None, None)
    case Some(c) => TaskDTO(t.id, t.titulo, t.descricao, t.status, t.prioridade, Some(c.id), Some(c.nome), Some(c.endereco))
  }

  /** The client a DTO names, when the id is given and registered. */
  function LookUp(clientes: ClientTable, clienteId: Option<int>): (r: Option<Cliente>)
    ensures r.Some? <==> clienteId.Some? && clienteId.value in clientes
    ensures r.Some? ==> r.value == clientes[clienteId.value]
  {
    if clienteId.Some? && clienteId.value in clientes then Some(clientes[clienteId.value]) else None
  }

  /** `toEntity`: a new, unsaved task with the DTO's fields; the DTO's own id
      is ignored, and the client is set only when its id is given and found. */
  function ToEntity(dto: TaskDTO, clientes: ClientTable): (t: TaskEntity)
    ensures t.id.None?
    ensures t.titulo == dto.titulo && t.descricao == dto.descricao
    ensures t.status == dto.status && t.prioridade == dto.prioridade
    ensures t.cliente.Some? <==> dto.clienteId.Some? && dto.clienteId.value in clientes
    ensures t.cliente.Some? ==> t.cliente.value == clientes[dto.clienteId.value]
  {
    TaskEntity(None, dto.titulo, dto.descricao, dto.status, dto.prioridade, LookUp(clientes, dto.clienteId))
  }

  /** A client as the repository holds it under its own id. */
  predicate Registered(clientes: ClientTable, c: Option<Cliente>)
  {
    c.Some? ==> c.value.id in clientes && clientes[c.value.id] == c.value
  }

  /** Converting a task to its DTO and back gives the same task, unsaved,
      whenever its client (if any) is the one registered under that id. */
  lemma EntityRoundTrip(t: TaskEntity, clientes: ClientTable)
    requires Registered(clientes, t.cliente)
    ensures ToEntity(ToDTO(t), clientes) == t.(id := None)
  {
  }

  /** The body of `atualizar` on a found task: the four fields are
      overwritten; an absent `clienteId` clears the client, a registered one
      sets it, and an unknown one leaves the previous client in place. */
  function ApplyUpdate(t: TaskEntity, dados: TaskDTO, clientes: ClientTable): (u: TaskEntity)
    ensures u.id == t.id
    ensures u.titulo == dados.titulo && u.descricao == dados.descricao
    ensures u.status == dados.status && u.prioridade == dados.prioridade
    ensures dados.clienteId.None? ==> u.cliente.None?
    ensures dados.clienteId.Some? && dados.clienteId.value in clientes ==> u.cliente == Some(clientes[dados.clienteId.value])
    ensures dados.clienteId.Some? && dados.clienteId.value !in clientes ==> u.cliente == t.cliente
  {
    var cliente :=
      if dados.clienteId.None? then None
      else if dados.clienteId.value in clientes then Some(clientes[dados.clienteId.value])
      else t.cliente;
    t.(titulo := dados.titulo, descricao := dados.descricao, status := dados.status,
       prioridade := dados.prioridade, cliente := cliente)
  }

  /** Update and create agree on every field except the id, unless the DTO
      names a client id that is not registered: then create leaves the task
      without a client while update keeps the old one. */
  lemma UpdateAgreesWithCreate(t: TaskEntity, dados: TaskDTO, clientes: ClientTable)
    ensures dados.clienteId.None? || dados.clienteId.value in clientes ==>
              ApplyUpdate(t, dados, clientes) == ToEntity(dados, clientes).(id := t.id)
    ensures dados.clienteId.Some? && dados.clienteId.value !in clientes ==>
              ApplyUpdate(t, dados, clientes) == ToEntity(dados, clientes).(id := t.id, cliente := t.cliente)
  {
  }

  /** Sending the same update twice has the effect of sending it once. */
  lemma UpdateIdempotent(t: TaskEntity, dados: TaskDTO, clientes: ClientTable)
    ensures ApplyUpdate(ApplyUpdate(t, dados, clientes), dados, clientes) == ApplyUpdate(t, dados, clientes)
  {
  }

  /** The task repository and the client repository the controller reads. */
  class TaskStore {
    var tasks: map<int, TaskEntity>
    var clientes: ClientTable
    var nextId: int

    /** Every stored task carries the id it is stored under, and every id
        is below the next one the repository will generate. */
    predicate Valid()
      reads this
    {
      forall k :: k in tasks ==> tasks[k].id == Some(k) && k < nextId
    }

    constructor (registered: ClientTable)
      ensures Valid() && tasks == map[] && clientes == registered
    {
      tasks := map[];
      clientes := registered;
      nextId := 1;
    }

    /** `criar`: the DTO becomes a new task under a freshly generated id,
        with no existing task replaced, and the saved task is returned as a DTO. */
    method Criar(dto: TaskDTO) returns (r: TaskDTO)
      requires Valid()
      modifies this`tasks, this`nextId
      ensures Valid()
      ensures old(nextId) !in old(tasks)
      ensures tasks == old(tasks)[old(nextId) := ToEntity(dto, clientes).(id := Some(old(nextId)))]
      ensures r == ToDTO(tasks[old(nextId)]) && r.id == Some(old(nextId))
    {
      var id := nextId;
      var salvo := ToEntity(dto, clientes).(id := Some(id));
      tasks := tasks[id := salvo];
      nextId := nextId + 1;
      r := ToDTO(salvo);
    }

    /** `atualizar`: None (404) and nothing changed for a missing id;
        otherwise the task under `id` is updated and returned, and every
        other task stays as it was. */
    method Atualizar(id: int, dados: TaskDTO) returns (r: Option<TaskDTO>)
      requires Valid()
      modifies this`tasks
      ensures Valid()
      ensures id !in old(tasks) ==> r.None? && tasks == old(tasks)
      ensures id in old(tasks) ==>
                tasks == old(tasks)[id := ApplyUpdate(old(tasks)[id], dados, clientes)]
                && r == Some(ToDTO(tasks[id])) && r.value.id == Some(id)
    {
      if id !in tasks {
        return None;
      }
      var atualizado := ApplyUpdate(tasks[id], dados, clientes);
      tasks := tasks[id := atualizado];
      r := Some(ToDTO(atualizado));
    }

    /** `deletar`: 404 and nothing removed for a missing id; otherwise that
        task alone is removed and the answer is 204. */
    method Deletar(id: int) returns (status: int)
      requires Valid()
      modifies this`tasks
      ensures Valid()
      ensures id !in old(tasks) ==> status == 404 && tasks == old(tasks)
      ensures id in old(tasks) ==> status == 204 && tasks == old(tasks) - {id}
    {
      if id !in tasks {
        return 404;
      }
      tasks := tasks - {id};
      return 204;
    }
  }
}
