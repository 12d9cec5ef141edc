/** The records of lib/types/index.ts. */
module TodoTypes {
  import opened Wrappers

  datatype Priority = Low | Medium | High

  /** A `Date`, as milliseconds since the epoch. */
  type Date = int

  datatype Todo = Todo(
    id: string,
    title: string,
    description: string,
    completed: bool,
    createdAt: Date,
    dueDate: Option<Date>,
    priority: Priority)

  /** `Omit<Todo, 'id' | 'createdAt'>`: what `addTodo` is given. */
  datatype NewTodo = NewTodo(
    title: string,
    description: string,
    completed: bool,
    dueDate: Option<Date>,
    priority: Priority)

  /**
   * `Partial<Todo>`: every key absent (`None`) or present; `dueDate` may also
   * be present with the value `undefined` (`Some(None)`), as the edit form sends it.
   */
  datatype TodoPatch = TodoPatch(
    id: Option<string>,
    title: Option<string>,
    description: Option<string>,
    completed: Option<bool>,
    createdAt: Option<Date>,
    dueDate: Option<Option<Date>>,
    priority: Option<Priority>)
}
