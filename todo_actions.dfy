/** The lists the action creators write to storage. Every thunk except
    `loadTodos` reads the current list and builds the next one: `addTodo`
    appends the new task, the others rebuild the list with `map` or
    `filter` keyed on the pair `(id, email)`. Each persists the result and
    only then dispatches an event to the reducer. This module holds the rebuilt lists and how they compare
    with what the reducer makes of the dispatched event; the effects
    themselves are in module TodoStore. */
module TodoActions {
  import opened Seqs
  import opened TodoModel
  import opened TodoReducer

  /** The record `addTodo` builds: `{id, ...todo, email, createdAt}`. The
      timestamp id is overridden by a caller's `id`, while the caller's
      `email` and `createdAt` are overridden by the signed-in user's email
      and the clock. */
  function NewTodo(draft: Draft, userEmail: string, now: int): (t: Task)
    ensures t.email == userEmail && t.createdAt == now
    ensures t.id == if draft.id.Some? then draft.id.value else TimestampId(now)
    ensures t.text == draft.text && t.checked == draft.checked
    ensures t.description == draft.description && t.imageUrl == draft.imageUrl
    ensures t.updatedAt == draft.updatedAt
  {
    Task(
      id := if draft.id.Some? then draft.id.value else TimestampId(now),
      text := draft.text,
      email := userEmail,
      createdAt := now,
      checked := draft.checked,
      description := draft.description,
      imageUrl := draft.imageUrl,
      updatedAt := draft.updatedAt)
  }

  /** Whatever owner and creation time the caller put in the draft, the new
      task is the same. */
  lemma NewTodoIgnoresCallerOwnerAndTime(draft: Draft, email: Option<string>,
                                         createdAt: Option<int>, userEmail: string, now: int)
    ensures NewTodo(draft.(email := email, createdAt := createdAt), userEmail, now)
         == NewTodo(draft, userEmail, now)
  {
  }

  /** Two drafts without an id, added at different milliseconds, get
      different ids. */
  lemma NewTodoIdsDistinct(d1: Draft, d2: Draft, userEmail: string, now1: int, now2: int)
    requires d1.id.None? && d2.id.None? && now1 != now2
    ensures NewTodo(d1, userEmail, now1).id != NewTodo(d2, userEmail, now2).id
  {
    TimestampIdsDistinct(now1, now2);
  }

  /** `updateTodo` writes the new text and the clock as `updatedAt` into the
      tasks with the `(id, email)` key. */
  function UpdatedTodos(todos: seq<Task>, email: string, id: string, text: string, now: int)
    : (r: seq<Task>)
    ensures |r| == |todos|
    ensures forall i :: 0 <= i < |todos| ==>
      r[i] == if Matches(todos[i], id, email)
              then todos[i].(text := text, updatedAt := Some(now))
              else todos[i]
  {
    Map(todos, (t: Task) =>
      if Matches(t, id, email) then t.(text := text, updatedAt := Some(now)) else t)
  }

  /** `deleteTodo` writes the list without the tasks with the `(id, email)` key. */
  function DeletedTodos(todos: seq<Task>, email: string, id: string): (r: seq<Task>)
    ensures forall t :: t in r <==> t in todos && !Matches(t, id, email)
  {
    Filter(todos, (t: Task) => !Matches(t, id, email))
  }

  /** `toggleCheckbox` flips `checked` on the tasks with the `(id, email)` key. */
  function ToggledTodos(todos: seq<Task>, email: string, id: string): (r: seq<Task>)
    ensures |r| == |todos|
    ensures forall i :: 0 <= i < |todos| ==>
      r[i] == if Matches(todos[i], id, email)
              then todos[i].(checked := !todos[i].checked)
              else todos[i]
  {
    Map(todos, (t: Task) => if Matches(t, id, email) then t.(checked := !t.checked) else t)
  }

  /** `updateTaskDescription` writes `description` and `imageUrl` together
      into the tasks with the `(id, email)` key. */
  function DescribedTodos(todos: seq<Task>, email: string, id: string,
                          description: Option<string>, imageUrl: Option<string>)
    : (r: seq<Task>)
    ensures |r| == |todos|
    ensures forall i :: 0 <= i < |todos| ==>
      r[i] == if Matches(todos[i], id, email)
              then todos[i].(description := description, imageUrl := imageUrl)
              else todos[i]
  {
    Map(todos, (t: Task) =>
      if Matches(t, id, email) then t.(description := description, imageUrl := imageUrl) else t)
  }

  /** `uploadImage` writes `imageUrl` into the tasks with the `(id, email)` key. */
  function ImagedTodos(todos: seq<Task>, email: string, id: string, imageUrl: Option<string>)
    : (r: seq<Task>)
    ensures |r| == |todos|
    ensures forall i :: 0 <= i < |todos| ==>
      r[i] == if Matches(todos[i], id, email) then todos[i].(imageUrl := imageUrl) else todos[i]
  {
    Map(todos, (t: Task) => if Matches(t, id, email) then t.(imageUrl := imageUrl) else t)
  }

  // ---------------------------------------------------------------------
  // What each written list promises on its own

  /** `updateTodo` with a key no task has writes back the list it read. */
  lemma UpdateWithoutMatchWritesSameList(todos: seq<Task>, email: string, id: string,
                                         text: string, now: int)
    requires forall t :: t in todos ==> !Matches(t, id, email)
    ensures UpdatedTodos(todos, email, id, text, now) == todos
  {
  }

  /** `deleteTodo` keeps the surviving tasks in their order. */
  lemma DeleteKeepsOrder(a: seq<Task>, b: seq<Task>, email: string, id: string)
    ensures DeletedTodos(a + b, email, id) == DeletedTodos(a, email, id) + DeletedTodos(b, email, id)
  {
    FilterAppend(a, b, (t: Task) => !Matches(t, id, email));
  }

  /** `deleteTodo` removes every copy of a task with the key and keeps every
      copy of every other task, including a task with the same id that
      another user owns. */
  lemma DeleteCounts(todos: seq<Task>, email: string, id: string, t: Task)
    ensures multiset(DeletedTodos(todos, email, id))[t]
         == if Matches(t, id, email) then 0 else multiset(todos)[t]
  {
    FilterCount(todos, (u: Task) => !Matches(u, id, email), t);
  }

  /** `deleteTodo` with a key no task has writes back the list it read. */
  lemma DeleteWithoutMatchWritesSameList(todos: seq<Task>, email: string, id: string)
    requires forall t :: t in todos ==> !Matches(t, id, email)
    ensures DeletedTodos(todos, email, id) == todos
  {
    FilterKeepsAll(todos, (t: Task) => !Matches(t, id, email));
  }

  /** Two toggles with the same key write back the list the first one read. */
  lemma ToggleTwiceRestores(todos: seq<Task>, email: string, id: string)
    ensures ToggledTodos(ToggledTodos(todos, email, id), email, id) == todos
  {
  }

  // ---------------------------------------------------------------------
  // What is written against what the reducer makes of the dispatched event

  /** Every task carrying `id` belongs to `email`: then the `(id, email)` key
      of the action creators and the bare id of the reducer pick out the
      same tasks. Unique ids plus an owned task imply it (UniqueIdsOwned). */
  predicate IdOwnedBy(todos: seq<Task>, id: string, email: string)
  {
    forall t :: t in todos && t.id == id ==> t.email == email
  }

  /** Ids are pairwise distinct across the whole list. */
  predicate UniqueIds(todos: seq<Task>)
  {
    forall i, j :: 0 <= i < j < |todos| ==> todos[i].id != todos[j].id
  }

  /** With unique ids, a task with the id that the user owns makes every
      task with that id the user's. */
  lemma UniqueIdsOwned(todos: seq<Task>, id: string, email: string, i: int)
    requires UniqueIds(todos)
    requires 0 <= i < |todos| && Matches(todos[i], id, email)
    ensures IdOwnedBy(todos, id, email)
  {
    forall t | t in todos && t.id == id ensures t.email == email {
      var j :| 0 <= j < |todos| && todos[j] == t;
      assert todos[j].id == todos[i].id;
    }
  }

  /** `uploadImage` persists exactly the list `UPLOAD_IMAGE` produces: both
      select by `(id, email)`. */
  lemma UploadAgrees(state: State, email: string, id: string, imageUrl: Option<string>)
    ensures ImagedTodos(state.todos, email, id, imageUrl)
         == Reduce(state, UploadImage(id, email, imageUrl)).todos
  {
  }

  /** When every task with the id is the user's, `toggleCheckbox` persists
      exactly the list `TOGGLE_CHECKBOX` produces. */
  lemma ToggleAgrees(state: State, email: string, id: string)
    requires IdOwnedBy(state.todos, id, email)
    ensures ToggledTodos(state.todos, email, id) == Reduce(state, ToggleCheckbox(id)).todos
  {
  }

  /** When every task with the id is the user's, `updateTaskDescription`
      persists exactly the list `UPDATE_TASK_DESCRIPTION` produces. */
  lemma DescribeAgrees(state: State, email: string, id: string,
                       description: Option<string>, imageUrl: Option<string>)
    requires IdOwnedBy(state.todos, id, email)
    ensures DescribedTodos(state.todos, email, id, description, imageUrl)
         == Reduce(state, UpdateTaskDescription(id, description, imageUrl)).todos
  {
  }

  /** When every task with the id is the user's, `deleteTodo` persists
      exactly the list `DELETE_TODO` produces. */
  lemma DeleteAgrees(state: State, email: string, id: string)
    requires IdOwnedBy(state.todos, id, email)
    ensures DeletedTodos(state.todos, email, id) == Reduce(state, DeleteTodo(id)).todos
  {
    FilterCongruent(state.todos, (t: Task) => !Matches(t, id, email), (t: Task) => t.id != id);
  }

  /** When every task with the id is the user's, `updateTodo` persists the
      list `UPDATE_TODO` produces except in `updatedAt`: the reducer keeps
      the old stamp where storage gets the clock. */
  lemma UpdateAgreesButForStamp(state: State, email: string, id: string, text: string, now: int)
    requires IdOwnedBy(state.todos, id, email)
    ensures var w := UpdatedTodos(state.todos, email, id, text, now);
            var r := Reduce(state, UpdateTodo(id, text)).todos;
            |w| == |r| &&
            forall i :: 0 <= i < |w| ==>
              w[i].(updatedAt := state.todos[i].updatedAt) == r[i] &&
              w[i].updatedAt == (if state.todos[i].id == id then Some(now) else state.todos[i].updatedAt)
  {
  }

  /** Divergence: a task the user updates whose stamp is not already the
      clock reading is stored with the new stamp but kept with the old one
      in memory, so the two lists differ. */
  lemma UpdateDivergesOnStamp(state: State, email: string, id: string, text: string,
                              now: int, i: int)
    requires 0 <= i < |state.todos|
    requires Matches(state.todos[i], id, email) && state.todos[i].updatedAt != Some(now)
    ensures UpdatedTodos(state.todos, email, id, text, now)[i].updatedAt == Some(now)
    ensures Reduce(state, UpdateTodo(id, text)).todos[i].updatedAt == state.todos[i].updatedAt
    ensures UpdatedTodos(state.todos, email, id, text, now) != Reduce(state, UpdateTodo(id, text)).todos
  {
  }

  /** Divergence: a task with the id that another user owns survives in
      storage but is deleted from memory. */
  lemma DeleteDivergesOnOtherOwner(state: State, email: string, id: string, t: Task)
    requires t in state.todos && t.id == id && t.email != email
    ensures t in DeletedTodos(state.todos, email, id)
    ensures t !in Reduce(state, DeleteTodo(id)).todos
  {
  }

  /** Divergence: a task with the id that another user owns keeps its
      `checked` in storage but is flipped in memory. */
  lemma ToggleDivergesOnOtherOwner(state: State, email: string, id: string, i: int)
    requires 0 <= i < |state.todos|
    requires state.todos[i].id == id && state.todos[i].email != email
    ensures ToggledTodos(state.todos, email, id)[i] == state.todos[i]
    ensures Reduce(state, ToggleCheckbox(id)).todos[i].checked != state.todos[i].checked
  {
  }

  /** Divergence: a task with the id that another user owns keeps its text
      in storage but gets the new text in memory. */
  lemma UpdateDivergesOnOtherOwner(state: State, email: string, id: string, text: string,
                                   now: int, i: int)
    requires 0 <= i < |state.todos|
    requires state.todos[i].id == id && state.todos[i].email != email
    ensures UpdatedTodos(state.todos, email, id, text, now)[i] == state.todos[i]
    ensures Reduce(state, UpdateTodo(id, text)).todos[i].text == text
  {
  }

  /** Divergence: a task with the id that another user owns keeps its
      description and image in storage but gets the new ones in memory. */
  lemma DescribeDivergesOnOtherOwner(state: State, email: string, id: string,
                                     description: Option<string>, imageUrl: Option<string>,
                                     i: int)
    requires 0 <= i < |state.todos|
    requires state.todos[i].id == id && state.todos[i].email != email
    ensures DescribedTodos(state.todos, email, id, description, imageUrl)[i] == state.todos[i]
    ensures Reduce(state, UpdateTaskDescription(id, description, imageUrl)).todos[i].description
         == description
    ensures Reduce(state, UpdateTaskDescription(id, description, imageUrl)).todos[i].imageUrl
         == imageUrl
  {
  }
}
