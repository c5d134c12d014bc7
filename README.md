# cse-manager core, modelled in Dafny

cse-manager is a small service-management application for a refrigeration
business. A React front end has three pages:

- a task board (Agenda) with three status columns, a search box and a
  priority filter, drag-and-drop between columns, and a create/edit/delete
  modal;
- a quote builder (Orcamentos) that checks a quote before rendering it as a PDF;
- a client list (Clients) with a create/edit form.

A Spring Boot back end serves the tasks (`TaskController`).

This project models the logic of those four files and proves what it promises:

- `common.dfy`, module `Common`: the client record, `Option`, and how an
  awaited API call ended (`Outcome`: resolved, or rejected with an optional
  HTTP status).
- `text.dfy`, module `Text`: the JavaScript string operations the pages rely
  on. These are `toLowerCase` (ASCII and Latin-1 capitals), `includes`,
  `trim`, `isNaN(parseFloat(_))`, `String(n)`, and unary `+` on what
  `String(n)` produces.
- `seqs.dfy`, module `Seqs`: `filter`, `find`, and the stable sort by an
  integer key that `Array.prototype.sort` performs.
- `agenda.dfy`, module `Agenda`: the filter/column pipeline as functions. The
  page state is the class `Board`, whose methods are the page's handlers.
- `orcamentos.dfy`, module `Orcamentos`: service toggling, the equipment
  list and the client lookup. It also has the validation chain of
  `handleGerarPDF`: a function `FirstFailure` that defines it, and a
  loop-based method `CheckQuote` proved equal to that function. The page state is the
  class `QuoteBuilder`.
- `clients.dfy`, module `Clients`: the name filter. The browser's validity
  gate is written out (required fields, and the HTML standard's valid e-mail
  address rule). The submit/edit state machine is the class `ClientScreen`.
- `task_controller.dfy`, module `TaskController`: the entity/DTO
  conversions. The update rule for the client link is a function. The
  repository is the class `TaskStore`, whose map is keyed by id.

Asynchronous results are parameters of the handlers:

- the outcome of a PUT/POST/DELETE;
- the combined result of the `Promise.all` reload;
- the user's answer to `window.confirm`.

Each handler's `ensures` states the new page state for every combination.

The model follows the code as written, including these behaviours of it:

- **Same-column drop.** The guard `active.id === over.id`
  (frontend/src/pages/Agenda.jsx:195) compares a card's id, which is
  `String(tarefa.id)` and so only digits (Agenda.jsx:228), with a column key
  such as `ABERTO`. The guard therefore never fires for a drop on a column. A
  drop on the card's own column rewrites the status to the value it already
  had and still sends a PUT (Agenda.jsx:197-200;
  `Agenda.CardIdIsNoColumnKey`, `Agenda.SameColumnDropStillUpdates`).
- **Save reloads.** A successful save does not patch the local list: it calls
  `fetchData()` and reloads both lists (Agenda.jsx:188-189;
  `Agenda.Board.HandleSalvar`).
- **Delete failures.** A rejected delete keeps the list. It shows
  "Não autorizado (403)" for HTTP 403 and "Erro ao deletar" for every other
  rejection, a 404 included (Agenda.jsx:180-181; `Agenda.Board.HandleDelete`).
- **Save errors on the Agenda page.** A rejected save shows
  "Não autorizado (403)" for HTTP 403 and the generic "Erro ao salvar"
  otherwise, a 400 included (Agenda.jsx:190-191). That page keeps no
  per-field error map; only the Clients page does (Clients.jsx:73-77).
- **Required fields on the Agenda form.** The only checks are the `required`
  attributes on the title and client fields (Agenda.jsx:256, 259), which the
  browser applies; no handler checks them, and the model leaves them out.
- **The task DTO.** `TaskDTO.java` declares a nested `ClienteDTO cliente`
  field and a six-argument constructor
  (backend/src/main/java/com/csemanager/dto/TaskDTO.java:22, 26). The
  controller instead calls an eight-argument constructor with the client's
  id, name and address (TaskController.java:29-38) and reads
  `getClienteId()` (TaskController.java:48, 88). The model follows the
  controller: a flat DTO with `clienteId`, `clienteNome` and
  `clienteEndereco`.
- **Priority and status ranges.** No code restricts the priority to 1-3 or
  the status to the three column keys; the selects only offer those values
  (Agenda.jsx:257-258). The model does not assume either.
  `Agenda.ColumnsPartition` takes the status restriction as a precondition.
- **Task ids.** The drag and delete handlers match tasks by id
  (Agenda.jsx:196, 199, 180) and rely on the server's ids being unique. The
  model states this as the predicate `Agenda.UniqueIds`, a precondition of
  `Agenda.DropSetsOneStatus` and `Agenda.RemoveUniqueId`. It is not an
  invariant of `Agenda.Board`, since the page takes whatever list the server
  returns.

## Model

| member | source | states |
|---|---|---|
| Text.Lower | frontend/src/pages/Agenda.jsx:204 | for the ASCII and Latin-1 capitals it covers, `toLowerCase` keeps the length and lowers each character on its own |
| Text.LowerIdempotent | frontend/src/pages/Agenda.jsx:204 | lowering an already lowered text changes nothing |
| Text.IncludesIff | frontend/src/pages/Agenda.jsx:204 | `includes` holds exactly when the text occurs at some index |
| Text.TrimEmptyIff | frontend/src/pages/Orcamentos.jsx:83 | `trim()` gives '' exactly when every character is white space |
| Text.DecimalRoundTrip | frontend/src/pages/Agenda.jsx:196 | `+String(id)` is `id` for every integer id (in JavaScript, for every id below 2^53), so a card's id leads back to its task |
| Text.DecimalValue | frontend/src/pages/Agenda.jsx:196 | unary `+` gives 0 for the empty string, a non-negative value for a string of digits, and a negative value only after a minus sign |
| Text.ParsesAsNumber | frontend/src/pages/Orcamentos.jsx:78 | `parseFloat` never accepts the empty string, always accepts a string of digits, and accepts only strings holding a digit or the `I` of `Infinity` |
| Common.MessageFor | frontend/src/pages/Agenda.jsx:159 | a rejection shows the forbidden text for HTTP 403 and only for it; any other status, or no response, shows the general text |
| Seqs.Filter | frontend/src/pages/Agenda.jsx:204-205 | `filter` keeps exactly the elements satisfying the predicate and never grows the list |
| Seqs.FilterCount | frontend/src/pages/Agenda.jsx:204-205 | `filter` keeps every copy of each surviving element and no copy of the others |
| Seqs.FilterIsSubseq | frontend/src/pages/Agenda.jsx:203-205 | `filter` keeps the survivors in their original order |
| Seqs.Find | frontend/src/pages/Agenda.jsx:196 | `find` is `undefined` exactly when no element matches; otherwise it returns the first match |
| Seqs.SortBy | frontend/src/pages/Agenda.jsx:227 | the sort is a permutation of its input, ascending by key |
| Seqs.SortByStable | frontend/src/pages/Agenda.jsx:227 | elements with equal keys keep their relative order |
| Agenda.Filtered | frontend/src/pages/Agenda.jsx:203-205 | a task is shown iff it is loaded, its lower-cased title includes the lower-cased search text, and the priority filter is empty or equal to its priority |
| Agenda.FilteredIsSubseq | frontend/src/pages/Agenda.jsx:203-205 | the filtered tasks keep their loaded order |
| Agenda.NoFilterKeepsAll | frontend/src/pages/Agenda.jsx:203-205 | no search text and no priority show every task in order |
| Agenda.Column | frontend/src/pages/Agenda.jsx:227 | a column holds exactly the filtered tasks of its status, each as often as there, sorted by ascending priority |
| Agenda.BadgeCount | frontend/src/pages/Agenda.jsx:225 | the badge counts exactly the cards of its column |
| Agenda.ColumnStable | frontend/src/pages/Agenda.jsx:227 | within a column, tasks of equal priority keep their filtered order |
| Agenda.ColumnsPartition | frontend/src/pages/Agenda.jsx:223-227 | when every status is a column key, the three columns hold each filtered task exactly once |
| Agenda.DraggedUpdate | frontend/src/pages/Agenda.jsx:194-198 | a drop yields the task whose id is `+active.id` with status `over.id`, or nothing when there is no target, the ids are equal or no task has that id |
| Agenda.ReplaceById | frontend/src/pages/Agenda.jsx:199 | every entry with the moved task's id becomes the moved task; the others and the length stay |
| Agenda.CardIdIsNoColumnKey | frontend/src/pages/Agenda.jsx:195 | a card id never equals a column key, so the equality guard never stops a drop on a column |
| Agenda.DropSetsOneStatus | frontend/src/pages/Agenda.jsx:194-199 | with unique ids, dropping task i on a column changes that task's status and nothing else |
| Agenda.SameColumnDropStillUpdates | frontend/src/pages/Agenda.jsx:194-200 | a drop on the card's own column leaves the list as it was yet still produces the update |
| Agenda.DroppedTaskInTargetColumn | frontend/src/pages/Agenda.jsx:194-227 | after a drop, the moved task is rendered in the target column if it passes the filters |
| Agenda.RemoveById | frontend/src/pages/Agenda.jsx:180 | after a delete, the list holds exactly the tasks with another id |
| Agenda.RemoveAbsentId | frontend/src/pages/Agenda.jsx:180 | deleting an id no task has leaves the list unchanged |
| Agenda.RemoveUniqueId | frontend/src/pages/Agenda.jsx:180 | with unique ids, deleting task i's id removes exactly entry i and keeps the order |
| Agenda.NewTaskForm | frontend/src/pages/Agenda.jsx:214 | "Nova Tarefa" resets to no id, empty texts, priority 2, status ABERTO and no client |
| Agenda.FormFromTask | frontend/src/pages/Agenda.jsx:167-175 | editing copies the task's fields; the client select is set iff the task has a client whose id is not 0 |
| Agenda.Payload | frontend/src/pages/Agenda.jsx:185-186 | the body copies the form and carries the first loaded client whose id is `+form.clienteId`, or none when no client has it |
| Agenda.SaveRequest | frontend/src/pages/Agenda.jsx:185-188 | a save is a PUT to the form's id iff that id is set and nonzero, otherwise a POST, carrying the form with the looked-up client |
| Agenda.EditThenSaveSendsTask | frontend/src/pages/Agenda.jsx:167-188 | editing a task and saving it unchanged PUTs the same fields and client to the same id |
| Agenda.Board.constructor | frontend/src/pages/Agenda.jsx:137-146 | the page starts loading with empty lists, no error, closed modals and the new-task form |
| Agenda.Board.VisibleColumn | frontend/src/pages/Agenda.jsx:223-229 | a rendered column holds exactly the loaded tasks of its status that pass both filters, by ascending priority |
| Agenda.Board.FetchData | frontend/src/pages/Agenda.jsx:149-163 | a load replaces both lists and clears the error, or keeps both lists and shows the 403 or generic load error; loading ends |
| Agenda.Board.HandleView | frontend/src/pages/Agenda.jsx:166 | the viewed task becomes current and the view opens |
| Agenda.Board.HandleEdit | frontend/src/pages/Agenda.jsx:167-177 | the form takes the task and the modal opens |
| Agenda.Board.OpenNewTask | frontend/src/pages/Agenda.jsx:214 | the form is reset and the modal opens |
| Agenda.Board.HandleDelete | frontend/src/pages/Agenda.jsx:178-182 | nothing without confirmation; otherwise one DELETE, and the id leaves the list only on success; a failure sets the 403 or generic delete error |
| Agenda.Board.HandleSalvar | frontend/src/pages/Agenda.jsx:183-193 | one PUT/POST; success closes the modal and reloads; failure keeps the form open and sets the 403 or generic save error |
| Agenda.Board.HandleDragEnd | frontend/src/pages/Agenda.jsx:194-201 | an early return changes nothing; otherwise the list is updated at once, one PUT is sent, and a failed PUT only sets the status error; a moved task that passes the filters shows in the column it was dropped on |
| Orcamentos.Toggle | frontend/src/pages/Orcamentos.jsx:45-49 | an absent service is appended; a present one is removed everywhere, the rest kept in order; other services keep their membership |
| Orcamentos.ToggleOffCounts | frontend/src/pages/Orcamentos.jsx:46-47 | toggling a present service off removes all of its copies and keeps every copy of every other service |
| Orcamentos.ToggleTwice | frontend/src/pages/Orcamentos.jsx:45-49 | toggling twice restores membership, and restores the selection exactly when the service was absent |
| Orcamentos.AddEquipamento | frontend/src/pages/Orcamentos.jsx:55-57 | one empty row is appended and the others stay |
| Orcamentos.SetCampo | frontend/src/pages/Orcamentos.jsx:61 | editing a row sets the named field and keeps the other |
| Orcamentos.RemoveAt | frontend/src/pages/Orcamentos.jsx:65-67 | removing a valid index drops exactly that row and shifts the rest; an invalid index changes nothing |
| Orcamentos.SelectedClient | frontend/src/pages/Orcamentos.jsx:40-43 | the selection is '' iff no client's "nome - telefone" equals the search text, else the id of the first one that does |
| Orcamentos.ErrorMessage | frontend/src/pages/Orcamentos.jsx:75-91 | every reason has a banner text, and an equipment row's text ends with the row's name or "sem nome" |
| Orcamentos.FirstFailure | frontend/src/pages/Orcamentos.jsx:74-93 | the reason returned is a step that fails while every earlier step of the chain passes; none is returned only when no step fails |
| Orcamentos.NoFailureIffReady | frontend/src/pages/Orcamentos.jsx:74-93 | no validation step fails exactly when a client is selected, a service is chosen, every task is priced, "Outros" has text and a value, and every equipment row is priced |
| Orcamentos.EquipmentFailureIsFirstBadRow | frontend/src/pages/Orcamentos.jsx:88-92 | an equipment failure names the first row whose value is invalid, after all earlier steps passed |
| Orcamentos.AnyServiceUnpriced | frontend/src/pages/Orcamentos.jsx:77-81 | the loop stops with true iff some selected task (not 'outros') has no value or one `parseFloat` rejects |
| Orcamentos.FirstUnpricedRow | frontend/src/pages/Orcamentos.jsx:88-93 | the loop stops at the first equipment row whose value is '' or not a number, or finds none |
| Orcamentos.CheckQuote | frontend/src/pages/Orcamentos.jsx:74-93 | the loops with early return produce the first failing check of the chain |
| Orcamentos.QuoteBuilder.constructor | frontend/src/pages/Orcamentos.jsx:7-16 | the page starts with empty lists, texts and selection |
| Orcamentos.QuoteBuilder.ClientesLoaded | frontend/src/pages/Orcamentos.jsx:31-43 | a loaded client list re-runs the lookup against the search text |
| Orcamentos.QuoteBuilder.SetClienteBusca | frontend/src/pages/Orcamentos.jsx:40-43 | a new search text re-runs the lookup |
| Orcamentos.QuoteBuilder.ToggleTarefa | frontend/src/pages/Orcamentos.jsx:45-49 | the selection becomes its toggle |
| Orcamentos.QuoteBuilder.AtualizarValorTarefa | frontend/src/pages/Orcamentos.jsx:51-53 | that task's value is set, the others stay |
| Orcamentos.QuoteBuilder.AdicionarEquipamento | frontend/src/pages/Orcamentos.jsx:55-57 | an empty row is appended |
| Orcamentos.QuoteBuilder.AtualizarEquipamento | frontend/src/pages/Orcamentos.jsx:59-63 | row `index` gets the new field value; the length and every other row stay |
| Orcamentos.QuoteBuilder.RemoverEquipamento | frontend/src/pages/Orcamentos.jsx:65-67 | the row at `index` is removed |
| Orcamentos.QuoteBuilder.HandleGerarPDF | frontend/src/pages/Orcamentos.jsx:69-93 | the PDF is generated iff no validation step fails; otherwise the banner shows the first failing step's message |
| Clients.FilteredClients | frontend/src/pages/Clients.jsx:29-31 | a client is listed iff it is loaded and its lower-cased name includes the lower-cased search text |
| Clients.FilteredClientsIsSubseq | frontend/src/pages/Clients.jsx:29-31 | the listed clients keep their loaded order |
| Clients.EmptySearchShowsAll | frontend/src/pages/Clients.jsx:29-31 | an empty search lists every client in order |
| Clients.EmptyForm | frontend/src/pages/Clients.jsx:49 | "new" gives five empty fields and no id |
| Clients.FormFromClient | frontend/src/pages/Clients.jsx:46 | "edit" copies every field of the client, its id included |
| Clients.ValidEmail | frontend/src/pages/Clients.jsx:223 | an address the e-mail field accepts holds exactly one `@`, with text before and after it |
| Clients.FormValid | frontend/src/pages/Clients.jsx:60 | a form passes only with name, phone and address filled, and any e-mail it carries has a single `@` |
| Clients.SubmitRequest | frontend/src/pages/Clients.jsx:65-69 | a valid form is PUT to the edited client's id, or POSTed when there is none; the body is the form |
| Clients.EditUnchangedWritesBack | frontend/src/pages/Clients.jsx:43-69 | editing a client and submitting unchanged writes the same client back to its id |
| Clients.ClientScreen.constructor | frontend/src/pages/Clients.jsx:8-18 | the page starts with an empty list and form, no errors, modal closed |
| Clients.ClientScreen.Visible | frontend/src/pages/Clients.jsx:29-31 | the table lists exactly the loaded clients whose name matches the search, in loaded order |
| Clients.ClientScreen.OnEditOrNew | frontend/src/pages/Clients.jsx:43-54 | edit copies the client, new resets the form; both clear the errors and `validated` and open the modal |
| Clients.ClientScreen.HandleSubmit | frontend/src/pages/Clients.jsx:57-79 | an invalid form only sets `validated`; a valid one sends PUT/POST; success closes the modal and reloads; a 400 from either call sets the field errors and `validated`; other errors change nothing more |
| TaskController.ToDTO | backend/src/main/java/com/csemanager/controller/TaskController.java:27-38 | the task's fields are copied; the client id, name and address are absent exactly when there is no client |
| TaskController.ToEntity | backend/src/main/java/com/csemanager/controller/TaskController.java:42-53 | the DTO's id is ignored; the client is set iff its id is given and registered |
| TaskController.EntityRoundTrip | backend/src/main/java/com/csemanager/controller/TaskController.java:27-53 | converting a task to its DTO and back gives the task without id, when its client is registered |
| TaskController.ApplyUpdate | backend/src/main/java/com/csemanager/controller/TaskController.java:84-93 | update overwrites the four fields and keeps the id; a null client id clears the client, a known one sets it, an unknown one keeps the old client |
| TaskController.UpdateAgreesWithCreate | backend/src/main/java/com/csemanager/controller/TaskController.java:42-93 | update equals create with the old id, except that an unknown client id keeps the old client |
| TaskController.UpdateIdempotent | backend/src/main/java/com/csemanager/controller/TaskController.java:84-94 | applying the same update twice equals applying it once |
| TaskController.TaskStore.constructor | backend/src/main/java/com/csemanager/controller/TaskController.java:20-24 | an empty repository over the registered clients, keyed consistently |
| TaskController.TaskStore.Criar | backend/src/main/java/com/csemanager/controller/TaskController.java:72-77 | the DTO is stored under a fresh id, no task is replaced, and the saved task is returned |
| TaskController.TaskStore.Atualizar | backend/src/main/java/com/csemanager/controller/TaskController.java:80-98 | a missing id gives 404 and no change; otherwise only that task is updated and returned |
| TaskController.TaskStore.Deletar | backend/src/main/java/com/csemanager/controller/TaskController.java:101-109 | a missing id gives 404 and no change; otherwise exactly that task is removed and the answer is 204 |

## Left out

- PDF rendering in `handleGerarPDF` is left out: jsPDF, the logo's `onload`, the random quote number and the date. It is a foreign library, and the output is nondeterministic.
- The quote totals are left out. They use `parseFloat` and `toFixed`, which is floating point. Only the validity of each value (`isNaN(parseFloat(v))`) is modelled.
- `Text.ParsesAsNumber`: decides `isNaN(parseFloat(v))` by the first characters after white space and a sign. This is exact for `parseFloat`, but the value it would read is not computed.
- `Text.DecimalValue`: models unary `+` only on the empty string (0) and on `[-]digits`, the strings `String(id)` produces. Other spellings JavaScript accepts (white space, exponents, hex, `Infinity`) give None here. Values are unbounded integers, not doubles: digits beyond 2^53 are not rounded as a JavaScript number would round them.
- `Text.DecimalRoundTrip`: holds for all integers in the model; in JavaScript it holds only for ids below 2^53, which covers every id a `Long` sequence reaches in practice.
- `Text.LowerChar`: lowers ASCII and Latin-1 capitals only. Other Unicode case mappings are not modelled, including those that change the length (U+0130 lowers to two characters) or depend on context (a final capital sigma).
- `setTimeout` clearing the quote banner after four seconds is left out. It is a timer.
- The dnd-kit sensors, collision detection and styling are left out. Only the `{active, over}` result given to `handleDragEnd` is modelled.
- JSX rendering, modals and styling are left out, as are the other pages, the layout, the router and local storage. The search and filter `onChange` setters are plain assignments of the public fields.
- The `required` attributes on the Agenda task form are left out. The browser checks them and no handler does.
- The Agenda model takes each loaded task to carry an embedded `cliente` object, as the page reads it (Agenda.jsx:129, 173, 244). The controller as written returns the flat `clienteId`, `clienteNome` and `clienteEndereco` instead (TaskController.java:29-38). Against that controller `tarefa.cliente` is undefined, so editing shows no client (`Agenda.FormFromTask` gives `NoClient`) and a drag-end PUT sends back the flat fields. The front-end and back-end models are separate and are not composed.
- The Agenda page's requests are modelled by the page's own payload. The JSON mapping of that payload onto the backend DTO (`clienteId: ''` and so on) is not part of this model.
- `Orcamentos.QuoteBuilder.AtualizarEquipamento`: requires a valid index. The page only offers existing rows, and an invalid index throws in the source. The in-place write into the shared row object (aliasing between the old and new array) is modelled as a value update.
- The quote page's task list (`tarefas`) is left out. It renders the service checkboxes and their value inputs (Orcamentos.jsx:239-258), which are where the ids given to `toggleTarefa` and `atualizarValorTarefa` come from, and the PDF reads it. The model lets `Orcamentos.QuoteBuilder.ToggleTarefa` and `Orcamentos.QuoteBuilder.AtualizarValorTarefa` take any task id, not only one of a loaded task.
- Of the quote page's `Promise.all` load (Orcamentos.jsx:24-38), the client half is modelled by `Orcamentos.QuoteBuilder.ClientesLoaded`; the task half is left out with the list. A failed load only logs, so it changes no modelled state.
- The Clients page's view and delete handlers (`onView`, `onDelete`, `doDelete`) and its initial load are left out. They are plain assignments and a request without error handling.
- `Clients.FormValid`: e-mail value sanitisation by the browser (stripping newlines and surrounding white space) is not modelled.
- `Clients.FormValid`: a field made only of spaces counts as filled, as it does for `required`.
- `TaskController.TaskStore`: `listar` and `buscar` are left out. They map `toDTO` over `findAll` (whose order is unspecified) and over `findById`.
- `TaskController.TaskStore`: the JPA column constraints (`nullable = false` on title, status and client) and bean validation (not triggered, since no `@Valid` is present) are left out. Null strings and a null priority are not modelled: texts are strings and priority is an integer.
- `ClienteController.java` is not part of this model.
- Concurrency is not modelled: interleaved requests and responses arriving out of order. Each handler runs to completion with its async results given as parameters.
