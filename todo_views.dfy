/**
 * The views of EXAMPLES.tsx derived from the to-do list: the counters of
 * `TodoCounter` and `TodoStats`, the `useFilteredTodos` predicate, and the
 * clear-completed loop of `BatchOperations`. Lower-casing is a parameter.
 */
module TodoViews {
  import opened Wrappers
  import opened TodoTypes
  import opened Sequences
  import opened TodoStore
  import opened Strings

  /** The counters `TodoStats` shows. */
  datatype TodoStats = TodoStats(total: nat, completed: nat, pending: nat, high: nat, medium: nat, low: nat)

  /** `todos.filter(t => t.completed).length`, as `TodoCounter` and `TodoStats` count it. */
  function CompletedCount(todos: seq<Todo>): nat
  {
    Count(todos, (t: Todo) => t.completed)
  }

  /**
   * `TodoStats`: each counter is zero exactly when no todo has its property
   * and equals the total exactly when every todo has it; completed and
   * pending add up to the total, and so do the three priorities.
   */
  function Stats(todos: seq<Todo>): (r: TodoStats)
    ensures r.total == |todos|
    ensures r.completed == 0 <==> forall t :: t in todos ==> !t.completed
    ensures r.completed == r.total <==> forall t :: t in todos ==> t.completed
    ensures r.pending == 0 <==> forall t :: t in todos ==> t.completed
    ensures r.pending == r.total <==> forall t :: t in todos ==> !t.completed
    ensures r.high == 0 <==> forall t :: t in todos ==> t.priority != High
    ensures r.high == r.total <==> forall t :: t in todos ==> t.priority == High
    ensures r.medium == 0 <==> forall t :: t in todos ==> t.priority != Medium
    ensures r.medium == r.total <==> forall t :: t in todos ==> t.priority == Medium
    ensures r.low == 0 <==> forall t :: t in todos ==> t.priority != Low
    ensures r.low == r.total <==> forall t :: t in todos ==> t.priority == Low
    ensures r.completed + r.pending == r.total
    ensures r.high + r.medium + r.low == r.total
  {
    CompletedCountSpec(todos);
    PriorityCountSpec(todos, High);
    PriorityCountSpec(todos, Medium);
    PriorityCountSpec(todos, Low);
    PrioritiesCover(todos);
    TodoStats(
      |todos|,
      CompletedCount(todos),
      PendingCount(todos),
      PriorityCount(todos, High),
      PriorityCount(todos, Medium),
      PriorityCount(todos, Low))
  }

  /** `todos.filter(t => !t.completed).length`. */
  function PendingCount(todos: seq<Todo>): nat
  {
    Count(todos, (t: Todo) => !t.completed)
  }

  /** The test `t.priority === p`. */
  function HasPriority(p: Priority): Todo -> bool
  {
    (t: Todo) => t.priority == p
  }

  /** `todos.filter(t => t.priority === p).length`. */
  function PriorityCount(todos: seq<Todo>, p: Priority): nat
  {
    Count(todos, HasPriority(p))
  }

  /** Completed and pending split the list; each is zero or full as its todos are. */
  lemma CompletedCountSpec(todos: seq<Todo>)
    ensures CompletedCount(todos) == 0 <==> forall t :: t in todos ==> !t.completed
    ensures CompletedCount(todos) == |todos| <==> forall t :: t in todos ==> t.completed
    ensures CompletedCount(todos) + PendingCount(todos) == |todos|
  {
    CountNoneAll(todos, (t: Todo) => t.completed);
    CountSplit(todos, (t: Todo) => t.completed, (t: Todo) => !t.completed);
  }

  /** A priority's count is zero exactly when no todo has it, and full exactly when all do. */
  lemma PriorityCountSpec(todos: seq<Todo>, p: Priority)
    ensures PriorityCount(todos, p) == 0 <==> forall t :: t in todos ==> t.priority != p
    ensures PriorityCount(todos, p) == |todos| <==> forall t :: t in todos ==> t.priority == p
  {
    CountNoneAll(todos, HasPriority(p));
  }

  /** Every todo has exactly one of the three priorities. */
  lemma PrioritiesCover(todos: seq<Todo>)
    ensures PriorityCount(todos, High) + PriorityCount(todos, Medium) + PriorityCount(todos, Low) == |todos|
  {
    CountSplit3(todos, HasPriority(High), HasPriority(Medium), HasPriority(Low));
  }

  /** The priority choice of `useFilteredTodos`: `'all'` or one priority. */
  datatype PriorityFilter = All | Only(priority: Priority)

  /** The predicate `useFilteredTodos` passes to `filter`. */
  predicate Matches(t: Todo, query: string, filter: PriorityFilter, lower: string -> string)
  {
    var matchesSearch := Includes(lower(t.title), lower(query)) || Includes(lower(t.description), lower(query));
    var matchesPriority := filter.All? || t.priority == filter.priority;
    matchesSearch && matchesPriority
  }

  /** `useFilteredTodos`: exactly the matching todos, in their order. */
  function FilteredTodos(todos: seq<Todo>, query: string, filter: PriorityFilter, lower: string -> string): (r: seq<Todo>)
    ensures IsSubsequence(r, todos)
    ensures forall t :: t in r <==> t in todos && Matches(t, query, filter, lower)
    ensures forall t :: multiset(r)[t] == if Matches(t, query, filter, lower) then multiset(todos)[t] else 0
  {
    var keep := (t: Todo) => Matches(t, query, filter, lower);
    FilterSpec(todos, keep);
    Filter(todos, keep)
  }

  /** With one priority chosen, every todo shown has that priority. */
  lemma FilteredByPriority(todos: seq<Todo>, query: string, p: Priority, lower: string -> string)
    ensures forall t :: t in FilteredTodos(todos, query, Only(p), lower) ==> t.priority == p
  {
  }

  /** With the defaults (empty query, `'all'`), every todo is shown. */
  lemma DefaultFilterShowsAll(todos: seq<Todo>, lower: string -> string)
    requires lower("") == ""
    ensures FilteredTodos(todos, "", All, lower) == todos
  {
    forall t | t in todos
      ensures Matches(t, "", All, lower)
    {
      EmptyIncluded(lower(t.title));
    }
    FilterAll(todos, (t: Todo) => Matches(t, "", All, lower));
  }

  /** The ids of a list of todos. */
  function Ids(todos: seq<Todo>): set<string>
  {
    set t | t in todos :: t.id
  }

  /** The ids of the completed todos of a rendered list. */
  function CompletedIds(todos: seq<Todo>): set<string>
  {
    set t | t in todos && t.completed :: t.id
  }

  /** The todos whose id is not among `ids`, in their order. */
  function WithoutIds(todos: seq<Todo>, ids: set<string>): seq<Todo>
  {
    Filter(todos, (u: Todo) => u.id !in ids)
  }

  /** Deleting one more id from a list already cleared of `ids`. */
  lemma RemoveOneMore(todos: seq<Todo>, ids: set<string>, id: string)
    ensures RemoveById(WithoutIds(todos, ids), id) == WithoutIds(todos, ids + {id})
  {
    FilterTwice(todos, (u: Todo) => u.id !in ids, (t: Todo) => t.id != id, (u: Todo) => u.id !in ids + {id});
  }

  /** Clearing no id changes nothing. */
  lemma WithoutNoIds(todos: seq<Todo>)
    ensures WithoutIds(todos, {}) == todos
  {
    var none: set<string> := {};
    FilterAll(todos, (u: Todo) => u.id !in none);
  }

  /** The ids of a list grow by the id of each element appended. */
  lemma IdsAppend(todos: seq<Todo>, t: Todo)
    ensures Ids(todos + [t]) == Ids(todos) + {t.id}
  {
    assert forall u :: u in todos + [t] <==> u in todos || u == t;
  }

  /** The state after `deleteTodo` has run once for each todo of `done`, in order. */
  ghost function AfterDeleting(s: TodoState, done: seq<Todo>): TodoState
  {
    if done == [] then s else s.(todos := WithoutIds(s.todos, Ids(done)), loading := false, error := None)
  }

  /** One more `deleteTodo` call, for the next collected todo. */
  lemma AfterDeletingStep(s: TodoState, completed: seq<Todo>, i: nat)
    requires i < |completed|
    ensures var mid := AfterDeleting(s, completed[..i]);
      mid.(todos := RemoveById(mid.todos, completed[i].id), loading := false, error := None)
        == AfterDeleting(s, completed[..i + 1])
  {
    if i == 0 {
      WithoutNoIds(s.todos);
      assert Ids(completed[..0]) == {};
    }
    ClearStep(s.todos, completed, i);
  }

  /** After the whole run: the state unchanged if nothing was completed, otherwise the completed ids cleared. */
  lemma AfterDeletingAll(s: TodoState, rendered: seq<Todo>)
    ensures CompletedIds(rendered) == {} ==> AfterDeleting(s, CompletedTodos(rendered)) == s
    ensures CompletedIds(rendered) != {} ==>
      AfterDeleting(s, CompletedTodos(rendered)) ==
        s.(todos := WithoutIds(s.todos, CompletedIds(rendered)), loading := false, error := None)
  {
    CompletedIdsOfFilter(rendered);
  }

  /**
   * `handleClearCompleted`: calls `deleteTodo` for each todo that was
   * completed in the rendered list, one after the other.
   */
  method ClearCompleted(store: TodoStore, rendered: seq<Todo>)
    modifies store
    ensures CompletedIds(rendered) == {} ==> store.State() == old(store.State())
    ensures CompletedIds(rendered) != {} ==>
      store.State() ==
        old(store.State()).(todos := WithoutIds(old(store.todos), CompletedIds(rendered)), loading := false, error := None)
    ensures |store.published| == |old(store.published)| + 2 * |CompletedTodos(rendered)|
    ensures store.published[..|old(store.published)|] == old(store.published)
    ensures DeletionTrace(store.published[|old(store.published)|..])
  {
    var completedTodos := CompletedTodos(rendered);
    ghost var start := store.State();
    ghost var trace := store.published;
    ghost var deletions: seq<TodoState> := [];
    var i := 0;
    while i < |completedTodos|
      invariant 0 <= i <= |completedTodos|
      invariant store.State() == AfterDeleting(start, completedTodos[..i])
      invariant store.published == trace + deletions
      invariant |deletions| == 2 * i && DeletionTrace(deletions)
    {
      var id := completedTodos[i].id;
      ghost var mid := store.State();
      store.DeleteTodo(id);
      DeletionTraceGrows(deletions, mid.(loading := true, error := None), store.State());
      deletions := deletions + [mid.(loading := true, error := None), store.State()];
      AfterDeletingStep(start, completedTodos, i);
      i := i + 1;
    }
    assert completedTodos[..i] == completedTodos;
    AfterDeletingAll(start, rendered);
    assert store.published[..|trace|] == trace && store.published[|trace|..] == deletions;
  }

  /**
   * What a run of `deleteTodo` calls publishes: pairs of a started state
   * (loading, no error) and a finished one (not loading, no error).
   */
  ghost predicate DeletionTrace(states: seq<TodoState>)
  {
    |states| % 2 == 0 &&
    forall j :: 0 <= j < |states| ==> states[j].error.None? && (states[j].loading <==> j % 2 == 0)
  }

  /** One more `deleteTodo` extends the trace by its started and finished states. */
  lemma DeletionTraceGrows(states: seq<TodoState>, started: TodoState, finished: TodoState)
    requires DeletionTrace(states)
    requires started.loading && started.error.None?
    requires !finished.loading && finished.error.None?
    ensures DeletionTrace(states + [started, finished])
  {
    var s := states + [started, finished];
    forall j | 0 <= j < |s|
      ensures s[j].error.None? && (s[j].loading <==> j % 2 == 0)
    {
      if j < |states| {
        assert s[j] == states[j];
      } else if j == |states| {
        assert s[j] == started;
      } else {
        assert s[j] == finished;
      }
    }
  }

  /** `todos.filter((t) => t.completed)`: the todos the clear-completed handler deletes. */
  function CompletedTodos(rendered: seq<Todo>): seq<Todo>
  {
    Filter(rendered, (t: Todo) => t.completed)
  }

  /**
   * The completed ids are the ids of the completed todos the handler
   * collects, and there are none exactly when it collects none.
   */
  lemma CompletedIdsOfFilter(rendered: seq<Todo>)
    ensures Ids(CompletedTodos(rendered)) == CompletedIds(rendered)
    ensures CompletedIds(rendered) == {} <==> CompletedTodos(rendered) == []
  {
    var completed := CompletedTodos(rendered);
    FilterSpec(rendered, (t: Todo) => t.completed);
    if completed != [] {
      assert completed[0].id in Ids(completed);
    }
  }

  /** Deleting the next collected id extends the cleared prefix by one. */
  lemma ClearStep(start: seq<Todo>, completed: seq<Todo>, i: nat)
    requires i < |completed|
    ensures RemoveById(WithoutIds(start, Ids(completed[..i])), completed[i].id) == WithoutIds(start, Ids(completed[..i + 1]))
  {
    RemoveOneMore(start, Ids(completed[..i]), completed[i].id);
    assert completed[..i + 1] == completed[..i] + [completed[i]];
    IdsAppend(completed[..i], completed[i]);
  }

  /**
   * What clearing leaves: no todo whose id was cleared, every other todo, in
   * their order; with the completed ids of a rendered list, no todo that
   * shares an id with a completed rendered one.
   */
  lemma WithoutIdsSpec(todos: seq<Todo>, ids: set<string>)
    ensures forall u :: u in WithoutIds(todos, ids) <==> u in todos && u.id !in ids
    ensures forall u :: multiset(WithoutIds(todos, ids))[u] == if u.id !in ids then multiset(todos)[u] else 0
    ensures IsSubsequence(WithoutIds(todos, ids), todos)
  {
    FilterSpec(todos, (u: Todo) => u.id !in ids);
  }

  /** After clearing the completed ids of a rendered list, no todo shares an id with a completed rendered one. */
  lemma ClearedCompletedGone(todos: seq<Todo>, rendered: seq<Todo>)
    ensures forall t, u :: t in rendered && t.completed && u in WithoutIds(todos, CompletedIds(rendered)) ==> u.id != t.id
  {
    WithoutIdsSpec(todos, CompletedIds(rendered));
  }
}
