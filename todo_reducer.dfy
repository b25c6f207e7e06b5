/** The todo reducer: a total, pure function from the current slice
    `{todos}` and an action to the next slice. Every case builds a new list
    with append, `map` or `filter`; the default case hands the state back. */
module TodoReducer {
  import opened Seqs
  import opened TodoModel

  datatype State = State(todos: seq<Task>)

  /** The slice before any action: no tasks. */
  const initialState: State := State([])

  /** `ADD_TODO`: the payload becomes the last task. */
  function Append(todos: seq<Task>, task: Task): (r: seq<Task>)
    ensures |r| == |todos| + 1
    ensures r[..|todos|] == todos && r[|todos|] == task
  {
    todos + [task]
  }

  /** `UPDATE_TODO`: every task with the id gets the new text, whoever owns
      it; nothing else in it, and no other task, changes. */
  function SetText(todos: seq<Task>, id: string, text: string): (r: seq<Task>)
    ensures |r| == |todos|
    ensures forall i :: 0 <= i < |todos| ==>
      r[i] == if todos[i].id == id then todos[i].(text := text) else todos[i]
  {
    Map(todos, (t: Task) => if t.id == id then t.(text := text) else t)
  }

  /** `DELETE_TODO`: drops every task with the id, whoever owns it. */
  function RemoveId(todos: seq<Task>, id: string): (r: seq<Task>)
    ensures forall t :: t in r <==> t in todos && t.id != id
  {
    Filter(todos, (t: Task) => t.id != id)
  }

  /** `TOGGLE_CHECKBOX`: flips `checked` on every task with the id. */
  function FlipChecked(todos: seq<Task>, id: string): (r: seq<Task>)
    ensures |r| == |todos|
    ensures forall i :: 0 <= i < |todos| ==>
      r[i] == if todos[i].id == id then todos[i].(checked := !todos[i].checked) else todos[i]
  {
    Map(todos, (t: Task) => if t.id == id then t.(checked := !t.checked) else t)
  }

  /** `UPDATE_TASK_DESCRIPTION`: sets `description` and `imageUrl` together on
      every task with the id. */
  function SetDescription(todos: seq<Task>, id: string, description: Option<string>,
                          imageUrl: Option<string>): (r: seq<Task>)
    ensures |r| == |todos|
    ensures forall i :: 0 <= i < |todos| ==>
      r[i] == if todos[i].id == id
              then todos[i].(description := description, imageUrl := imageUrl)
              else todos[i]
  {
    Map(todos, (t: Task) =>
      if t.id == id then t.(description := description, imageUrl := imageUrl) else t)
  }

  /** `UPLOAD_IMAGE`: sets `imageUrl` on the tasks with both the id and the
      email; the only case of the reducer that looks at the owner. */
  function SetImage(todos: seq<Task>, id: string, email: string, imageUrl: Option<string>)
    : (r: seq<Task>)
    ensures |r| == |todos|
    ensures forall i :: 0 <= i < |todos| ==>
      r[i] == if Matches(todos[i], id, email) then todos[i].(imageUrl := imageUrl) else todos[i]
  {
    Map(todos, (t: Task) => if Matches(t, id, email) then t.(imageUrl := imageUrl) else t)
  }

  /** The reducer. Loading replaces the list whatever it held; an action
      without a case leaves the state as it is. */
  function Reduce(state: State, action: Action): (next: State)
    ensures action.LoadTodos? ==> next.todos == action.todos
    ensures action.Other? ==> next == state
    ensures action.AddTodo? ==> next.todos == state.todos + [action.task]
  {
    match action
    case AddTodo(task) => state.(todos := Append(state.todos, task))
    case UpdateTodo(id, text) => state.(todos := SetText(state.todos, id, text))
    case DeleteTodo(id) => state.(todos := RemoveId(state.todos, id))
    case ToggleCheckbox(id) => state.(todos := FlipChecked(state.todos, id))
    case LoadTodos(todos) => state.(todos := todos)
    case UpdateTaskDescription(id, description, imageUrl) =>
      state.(todos := SetDescription(state.todos, id, description, imageUrl))
    case UploadImage(id, email, imageUrl) =>
      state.(todos := SetImage(state.todos, id, email, imageUrl))
    case Other(_) => state
  }

  // ---------------------------------------------------------------------
  // Properties of the reducer

  /** `DELETE_TODO` keeps the surviving tasks in their order: deleting from a
      list split in two is deleting from each half. */
  lemma RemoveIdKeepsOrder(a: seq<Task>, b: seq<Task>, id: string)
    ensures RemoveId(a + b, id) == RemoveId(a, id) + RemoveId(b, id)
  {
    FilterAppend(a, b, (t: Task) => t.id != id);
  }

  /** `DELETE_TODO` removes every copy of each task carrying the id and keeps
      every copy of every other task. */
  lemma RemoveIdCounts(todos: seq<Task>, id: string, t: Task)
    ensures multiset(RemoveId(todos, id))[t] == if t.id == id then 0 else multiset(todos)[t]
  {
    FilterCount(todos, (u: Task) => u.id != id, t);
  }

  /** `DELETE_TODO` on an id no task has gives the list back unchanged. */
  lemma RemoveAbsentId(todos: seq<Task>, id: string)
    requires forall t :: t in todos ==> t.id != id
    ensures RemoveId(todos, id) == todos
  {
    FilterKeepsAll(todos, (t: Task) => t.id != id);
  }

  /** Toggling the same id twice restores every task. */
  lemma ToggleTwice(todos: seq<Task>, id: string)
    ensures FlipChecked(FlipChecked(todos, id), id) == todos
  {
  }

  /** `UPLOAD_IMAGE` leaves a task alone when its owner differs, even when its
      id is the one named. */
  lemma SetImageSpareOtherOwners(todos: seq<Task>, id: string, email: string,
                                 imageUrl: Option<string>, i: int)
    requires 0 <= i < |todos| && todos[i].email != email
    ensures SetImage(todos, id, email, imageUrl)[i] == todos[i]
  {
  }

  /** `LOAD_TODOS` does not depend on the state it is applied to. */
  lemma LoadForgetsState(s1: State, s2: State, todos: seq<Task>)
    ensures Reduce(s1, LoadTodos(todos)) == Reduce(s2, LoadTodos(todos))
  {
  }

  /** The two success notifications dispatched after a description update
      and after an image upload have no case, so they change nothing. */
  lemma SuccessEventsChangeNothing(state: State)
    ensures Unhandled(TaskUpdateSuccess) && Unhandled(ImageUploadSuccess)
    ensures Reduce(state, Other(TaskUpdateSuccess)) == state
    ensures Reduce(state, Other(ImageUploadSuccess)) == state
  {
  }
}
