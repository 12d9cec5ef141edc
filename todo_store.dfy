/**
 * The to-do store of lib/store/useTodoStore.ts. Every `set` call merges a
 * partial state and notifies subscribers; the store records each state it
 * published, which is how the loading/error protocol of the actions is
 * stated. Ids and creation times are inputs.
 */
module TodoStore {
  import opened Wrappers
  import opened TodoTypes
  import opened Sequences

  /** `INITIAL_TODOS`. */
  const InitialTodos: seq<Todo> := [
    Todo("1", "Setup Zustand Store", "Create and configure the Zustand store for state management",
         true, 1763596800000, Some(1763769600000), High),
    Todo("2", "Create Modal Components", "Build Add, Edit, and View modal components",
         true, 1763683200000, Some(1763942400000), High),
    Todo("3", "Implement API Integration", "Integrate Axios for API calls",
         false, 1763769600000, Some(1764028800000), Medium),
    Todo("4", "Add Styling with Tailwind", "Style components using Tailwind CSS",
         false, 1763856000000, Some(1764288000000), Medium),
    Todo("5", "Write Unit Tests", "Create comprehensive unit tests for the application",
         false, 1763856000000, Some(1764460800000), Low)
  ]

  /** `{ ...newTodo, id, createdAt }`. */
  function Created(t: NewTodo, id: string, createdAt: Date): Todo
  {
    Todo(id, t.title, t.description, t.completed, createdAt, t.dueDate, t.priority)
  }

  /** `{ ...todo, ...updatedData }`. */
  function PatchTodo(t: Todo, p: TodoPatch): Todo
  {
    Todo(
      if p.id.Some? then p.id.value else t.id,
      if p.title.Some? then p.title.value else t.title,
      if p.description.Some? then p.description.value else t.description,
      if p.completed.Some? then p.completed.value else t.completed,
      if p.createdAt.Some? then p.createdAt.value else t.createdAt,
      if p.dueDate.Some? then p.dueDate.value else t.dueDate,
      if p.priority.Some? then p.priority.value else t.priority)
  }

  /** The list `updateTodo` sets: `todos.map(todo => todo.id === id ? { ...todo, ...updatedData } : todo)`. */
  function UpdateById(todos: seq<Todo>, id: string, p: TodoPatch): (r: seq<Todo>)
    ensures |r| == |todos|
    ensures forall i :: 0 <= i < |todos| && todos[i].id == id ==> r[i] == PatchTodo(todos[i], p)
    ensures forall i :: 0 <= i < |todos| && todos[i].id != id ==> r[i] == todos[i]
  {
    seq(|todos|, i requires 0 <= i < |todos| => if todos[i].id == id then PatchTodo(todos[i], p) else todos[i])
  }

  /** The list `toggleTodo` sets: the matching todos with `completed` flipped. */
  function ToggleById(todos: seq<Todo>, id: string): (r: seq<Todo>)
    ensures |r| == |todos|
    ensures forall i :: 0 <= i < |todos| && todos[i].id == id ==> r[i] == todos[i].(completed := !todos[i].completed)
    ensures forall i :: 0 <= i < |todos| && todos[i].id != id ==> r[i] == todos[i]
  {
    seq(|todos|, i requires 0 <= i < |todos| =>
      if todos[i].id == id then todos[i].(completed := !todos[i].completed) else todos[i])
  }

  /** The list `deleteTodo` sets: `todos.filter(todo => todo.id !== id)`. */
  function RemoveById(todos: seq<Todo>, id: string): (r: seq<Todo>)
    ensures forall t :: t in r <==> t in todos && t.id != id
    ensures IsSubsequence(r, todos)
  {
    var keep := (t: Todo) => t.id != id;
    FilterSpec(todos, keep);
    Filter(todos, keep)
  }

  /** The whole state of the store (its actions aside). */
  datatype TodoState = TodoState(
    todos: seq<Todo>,
    loading: bool,
    error: Option<string>,
    selectedTodo: Option<Todo>,
    isAddModalOpen: bool,
    isEditModalOpen: bool,
    isViewModalOpen: bool)

  function InitialState(): TodoState
  {
    TodoState(InitialTodos, false, None, None, false, false, false)
  }

  /** `useTodoStore`. */
  class TodoStore {
    var todos: seq<Todo>
    var loading: bool
    var error: Option<string>
    var selectedTodo: Option<Todo>
    var isAddModalOpen: bool
    var isEditModalOpen: bool
    var isViewModalOpen: bool
    /** Every state a `set` call published to subscribers, oldest first. */
    var published: seq<TodoState>

    function State(): TodoState
      reads this
    {
      TodoState(todos, loading, error, selectedTodo, isAddModalOpen, isEditModalOpen, isViewModalOpen)
    }

    constructor ()
      ensures State() == InitialState() && published == []
    {
      todos, loading, error, selectedTodo := InitialTodos, false, None, None;
      isAddModalOpen, isEditModalOpen, isViewModalOpen := false, false, false;
      published := [];
    }

    /** zustand's `set`: installs the merged state and notifies subscribers. */
    method Set(s: TodoState)
      modifies this
      ensures State() == s && published == old(published) + [s]
    {
      todos, loading, error, selectedTodo := s.todos, s.loading, s.error, s.selectedTodo;
      isAddModalOpen, isEditModalOpen, isViewModalOpen := s.isAddModalOpen, s.isEditModalOpen, s.isViewModalOpen;
      published := published + [s];
    }

    /** `fetchTodos`: reloads the initial list. */
    method FetchTodos()
      modifies this
      ensures published == old(published) + [old(State()).(loading := true, error := None), State()]
      ensures State() == old(State()).(todos := InitialTodos, loading := false, error := None)
    {
      Set(State().(loading := true, error := None));
      Set(State().(todos := InitialTodos, loading := false));
    }

    /** `addTodo`: prepends the created todo, then closes the add modal. */
    method AddTodo(newTodo: NewTodo, id: string, createdAt: Date)
      modifies this
      ensures
        var started := old(State()).(loading := true, error := None);
        var added := started.(todos := [Created(newTodo, id, createdAt)] + old(todos), loading := false);
        published == old(published) + [started, added, added.(isAddModalOpen := false)]
      ensures State() == old(State()).(todos := [Created(newTodo, id, createdAt)] + old(todos),
                                       loading := false, error := None, isAddModalOpen := false)
    {
      Set(State().(loading := true, error := None));
      var createdTodo := Created(newTodo, id, createdAt);
      Set(State().(todos := [createdTodo] + todos, loading := false));
      CloseAddModal();
    }

    /** `updateTodo`: overlays the patch on the matching todos, then closes the edit modal. */
    method UpdateTodo(id: string, p: TodoPatch)
      modifies this
      ensures
        var started := old(State()).(loading := true, error := None);
        var updated := started.(todos := UpdateById(old(todos), id, p), loading := false);
        published == old(published) + [started, updated, updated.(isEditModalOpen := false, selectedTodo := None)]
      ensures State() == old(State()).(todos := UpdateById(old(todos), id, p), loading := false, error := None,
                                       isEditModalOpen := false, selectedTodo := None)
    {
      Set(State().(loading := true, error := None));
      Set(State().(todos := UpdateById(todos, id, p), loading := false));
      CloseEditModal();
    }

    /** `deleteTodo`: drops every todo with the id. */
    method DeleteTodo(id: string)
      modifies this
      ensures published == old(published) + [old(State()).(loading := true, error := None), State()]
      ensures State() == old(State()).(todos := RemoveById(old(todos), id), loading := false, error := None)
    {
      Set(State().(loading := true, error := None));
      Set(State().(todos := RemoveById(todos, id), loading := false));
    }

    /** `toggleTodo`: flips `completed` of every todo with the id. */
    method ToggleTodo(id: string)
      modifies this
      ensures published == old(published) + [old(State()).(loading := true, error := None), State()]
      ensures State() == old(State()).(todos := ToggleById(old(todos), id), loading := false, error := None)
    {
      Set(State().(loading := true, error := None));
      Set(State().(todos := ToggleById(todos, id), loading := false));
    }

    method OpenAddModal()
      modifies this
      ensures State() == old(State()).(isAddModalOpen := true) && published == old(published) + [State()]
    {
      Set(State().(isAddModalOpen := true));
    }

    method CloseAddModal()
      modifies this
      ensures State() == old(State()).(isAddModalOpen := false) && published == old(published) + [State()]
    {
      Set(State().(isAddModalOpen := false));
    }

    method OpenEditModal(t: Todo)
      modifies this
      ensures State() == old(State()).(isEditModalOpen := true, selectedTodo := Some(t))
      ensures published == old(published) + [State()]
    {
      Set(State().(isEditModalOpen := true, selectedTodo := Some(t)));
    }

    method CloseEditModal()
      modifies this
      ensures State() == old(State()).(isEditModalOpen := false, selectedTodo := None)
      ensures published == old(published) + [State()]
    {
      Set(State().(isEditModalOpen := false, selectedTodo := None));
    }

    method OpenViewModal(t: Todo)
      modifies this
      ensures State() == old(State()).(isViewModalOpen := true, selectedTodo := Some(t))
      ensures published == old(published) + [State()]
    {
      Set(State().(isViewModalOpen := true, selectedTodo := Some(t)));
    }

    method CloseViewModal()
      modifies this
      ensures State() == old(State()).(isViewModalOpen := false, selectedTodo := None)
      ensures published == old(published) + [State()]
    {
      Set(State().(isViewModalOpen := false, selectedTodo := None));
    }

    method SetError(e: Option<string>)
      modifies this
      ensures State() == old(State()).(error := e) && published == old(published) + [State()]
    {
      Set(State().(error := e));
    }

    method ClearError()
      modifies this
      ensures State() == old(State()).(error := None) && published == old(published) + [State()]
    {
      Set(State().(error := None));
    }
  }

  /** The created todo heads the list and the old list follows unchanged. */
  lemma AddPrepends(todos: seq<Todo>, t: NewTodo, id: string, createdAt: Date)
    ensures var r := [Created(t, id, createdAt)] + todos;
      |r| == |todos| + 1 && r[1..] == todos && r[0].id == id && r[0].createdAt == createdAt
      && r[0].title == t.title && r[0].completed == t.completed && r[0].priority == t.priority
  {
  }

  /** `deleteTodo` keeps every copy of a todo without the id, and no copy of one with it. */
  lemma RemoveByIdCounts(todos: seq<Todo>, id: string)
    ensures forall t :: multiset(RemoveById(todos, id))[t] == if t.id != id then multiset(todos)[t] else 0
  {
    FilterSpec(todos, (t: Todo) => t.id != id);
  }

  /** Deleting an id no todo has changes nothing. */
  lemma RemoveAbsentId(todos: seq<Todo>, id: string)
    requires forall t :: t in todos ==> t.id != id
    ensures RemoveById(todos, id) == todos
  {
    FilterAll(todos, (t: Todo) => t.id != id);
  }

  /** Toggling the same id twice restores the list. */
  lemma ToggleTwice(todos: seq<Todo>, id: string)
    ensures ToggleById(ToggleById(todos, id), id) == todos
  {
    var once := ToggleById(todos, id);
    assert forall i :: 0 <= i < |todos| ==> once[i].id == todos[i].id;
  }
}
