/** The action thunks as effects on the app: each thunk except `loadTodos`
    reads the current task list, writes the next list to storage under the
    key "todos", and only when the write succeeded dispatches its event,
    which runs the reducer on the in-memory list. `loadTodos` only reads
    storage and dispatches what it finds there. A failure anywhere in the `try` block (no signed-in
    user, a storage write that rejects, a read that rejects or does not
    parse) is caught and logged: nothing after it happens. */
module TodoStore {
  import opened TodoModel
  import opened TodoReducer
  import opened TodoActions

  /** The storage key the whole list is written under. */
  const TodosKey: string := "todos"

  class Store {
    /** `state.todo.todos`, the list the reducer maintains. */
    var todos: seq<Task>
    /** The email of `state.auth.currentUser`; `None` when nobody is signed in. */
    var currentUser: Option<string>
    /** Device storage, each value already deserialized. */
    var storage: map<string, seq<Task>>
    /** Every event dispatched to the reducer so far, oldest first. */
    var dispatched: seq<Action>

    /** Storage holds exactly the in-memory list. */
    predicate Synced()
      reads this
    {
      TodosKey in storage && storage[TodosKey] == todos
    }

    /** The app at start-up: the reducer's initial, empty list over whatever
        storage already holds. */
    constructor (user: Option<string>, initialStorage: map<string, seq<Task>>)
      ensures todos == initialState.todos && todos == []
      ensures currentUser == user && storage == initialStorage && dispatched == []
    {
      todos := initialState.todos;
      currentUser := user;
      storage := initialStorage;
      dispatched := [];
    }

    /** `dispatch`: the reducer computes the next list from the current one. */
    method Dispatch(action: Action)
      modifies this
      ensures todos == Reduce(State(old(todos)), action).todos
      ensures dispatched == old(dispatched) + [action]
      ensures storage == old(storage) && currentUser == old(currentUser)
    {
      todos := Reduce(State(todos), action).todos;
      dispatched := dispatched + [action];
    }

    /** `addTodo(draft)` at clock reading `now`. Without a signed-in user the
        read of `currentUser.email` throws before anything is written. An add
        that completes leaves storage and memory holding the same list. */
    method AddTodo(draft: Draft, now: int, writeSucceeds: bool) returns (completed: bool)
      modifies this
      ensures completed <==> old(currentUser).Some? && writeSucceeds
      ensures currentUser == old(currentUser)
      ensures completed ==>
        var task := NewTodo(draft, old(currentUser).value, now);
        storage == old(storage)[TodosKey := Append(old(todos), task)] &&
        todos == old(todos) + [task] &&
        dispatched == old(dispatched) + [Action.AddTodo(task)] &&
        Synced()
      ensures !completed ==>
        todos == old(todos) && storage == old(storage) && dispatched == old(dispatched)
    {
      var current := todos;
      if currentUser.None? {
        return false;
      }
      var task := NewTodo(draft, currentUser.value, now);
      var updated := Append(current, task);
      if !writeSucceeds {
        return false;
      }
      storage := storage[TodosKey := updated];
      Dispatch(Action.AddTodo(task));
      return true;
    }

    /** `updateTodo(email, id, text)` at clock reading `now`: storage gets
        the new text and stamp on the `(id, email)` tasks, memory gets
        whatever `UPDATE_TODO` makes of the id and the text. */
    method UpdateTodo(email: string, id: string, text: string, now: int, writeSucceeds: bool)
      returns (completed: bool)
      modifies this
      ensures completed == writeSucceeds
      ensures currentUser == old(currentUser)
      ensures completed ==>
        storage == old(storage)[TodosKey := UpdatedTodos(old(todos), email, id, text, now)] &&
        todos == Reduce(State(old(todos)), Action.UpdateTodo(id, text)).todos &&
        dispatched == old(dispatched) + [Action.UpdateTodo(id, text)]
      ensures !completed ==>
        todos == old(todos) && storage == old(storage) && dispatched == old(dispatched)
    {
      var updated := UpdatedTodos(todos, email, id, text, now);
      if !writeSucceeds {
        return false;
      }
      storage := storage[TodosKey := updated];
      Dispatch(Action.UpdateTodo(id, text));
      return true;
    }

    /** `deleteTodo(email, id)`. When every task with the id is the user's,
        storage and memory end up holding the same list. */
    method DeleteTodo(email: string, id: string, writeSucceeds: bool) returns (completed: bool)
      modifies this
      ensures completed == writeSucceeds
      ensures currentUser == old(currentUser)
      ensures completed ==>
        storage == old(storage)[TodosKey := DeletedTodos(old(todos), email, id)] &&
        todos == Reduce(State(old(todos)), Action.DeleteTodo(id)).todos &&
        dispatched == old(dispatched) + [Action.DeleteTodo(id)]
      ensures completed && IdOwnedBy(old(todos), id, email) ==> Synced()
      ensures !completed ==>
        todos == old(todos) && storage == old(storage) && dispatched == old(dispatched)
    {
      var current := todos;
      var updated := DeletedTodos(current, email, id);
      if !writeSucceeds {
        return false;
      }
      storage := storage[TodosKey := updated];
      Dispatch(Action.DeleteTodo(id));
      if IdOwnedBy(current, id, email) {
        DeleteAgrees(State(current), email, id);
      }
      return true;
    }

    /** `toggleCheckbox(email, id)`. When every task with the id is the
        user's, storage and memory end up holding the same list. */
    method ToggleCheckbox(email: string, id: string, writeSucceeds: bool) returns (completed: bool)
      modifies this
      ensures completed == writeSucceeds
      ensures currentUser == old(currentUser)
      ensures completed ==>
        storage == old(storage)[TodosKey := ToggledTodos(old(todos), email, id)] &&
        todos == Reduce(State(old(todos)), Action.ToggleCheckbox(id)).todos &&
        dispatched == old(dispatched) + [Action.ToggleCheckbox(id)]
      ensures completed && IdOwnedBy(old(todos), id, email) ==> Synced()
      ensures !completed ==>
        todos == old(todos) && storage == old(storage) && dispatched == old(dispatched)
    {
      var current := todos;
      var updated := ToggledTodos(current, email, id);
      if !writeSucceeds {
        return false;
      }
      storage := storage[TodosKey := updated];
      Dispatch(Action.ToggleCheckbox(id));
      if IdOwnedBy(current, id, email) {
        ToggleAgrees(State(current), email, id);
      }
      return true;
    }

    /** `loadTodos()`: when the read succeeds and the key is present, the
        stored list replaces the in-memory one; when the key is absent
        nothing is dispatched. Storage itself is never written. */
    method LoadTodos(readSucceeds: bool) returns (loaded: bool)
      modifies this
      ensures loaded <==> readSucceeds && TodosKey in old(storage)
      ensures storage == old(storage) && currentUser == old(currentUser)
      ensures loaded ==>
        todos == old(storage)[TodosKey] &&
        dispatched == old(dispatched) + [Action.LoadTodos(old(storage)[TodosKey])] &&
        Synced()
      ensures !loaded ==> todos == old(todos) && dispatched == old(dispatched)
    {
      if !readSucceeds {
        return false;
      }
      if TodosKey !in storage {
        return false;
      }
      Dispatch(Action.LoadTodos(storage[TodosKey]));
      return true;
    }

    /** `updateTaskDescription(email, id, description, imageUrl)`: after the
        write, `UPDATE_TASK_DESCRIPTION` and then `TASK_UPDATE_SUCCESS` are
        dispatched; the second has no reducer case. When every task with the
        id is the user's, storage and memory end up holding the same list. */
    method UpdateTaskDescription(email: string, id: string, description: Option<string>,
                                 imageUrl: Option<string>, writeSucceeds: bool)
      returns (completed: bool)
      modifies this
      ensures completed == writeSucceeds
      ensures currentUser == old(currentUser)
      ensures completed ==>
        storage == old(storage)[TodosKey := DescribedTodos(old(todos), email, id, description, imageUrl)] &&
        todos == Reduce(State(old(todos)), Action.UpdateTaskDescription(id, description, imageUrl)).todos &&
        dispatched == old(dispatched) + [Action.UpdateTaskDescription(id, description, imageUrl),
                                         Other(TaskUpdateSuccess)]
      ensures completed && IdOwnedBy(old(todos), id, email) ==> Synced()
      ensures !completed ==>
        todos == old(todos) && storage == old(storage) && dispatched == old(dispatched)
    {
      var current := todos;
      var updated := DescribedTodos(current, email, id, description, imageUrl);
      if !writeSucceeds {
        return false;
      }
      storage := storage[TodosKey := updated];
      Dispatch(Action.UpdateTaskDescription(id, description, imageUrl));
      Dispatch(Other(TaskUpdateSuccess));
      if IdOwnedBy(current, id, email) {
        DescribeAgrees(State(current), email, id, description, imageUrl);
      }
      return true;
    }

    /** `uploadImage(email, id, imageUrl)`: after the write, `UPLOAD_IMAGE`
        and then `IMAGE_UPLOAD_SUCCESS` are dispatched. The reducer keys this
        event on `(id, email)` too, so storage and memory always end up
        holding the same list. */
    method UploadImage(email: string, id: string, imageUrl: Option<string>, writeSucceeds: bool)
      returns (completed: bool)
      modifies this
      ensures completed == writeSucceeds
      ensures currentUser == old(currentUser)
      ensures completed ==>
        storage == old(storage)[TodosKey := ImagedTodos(old(todos), email, id, imageUrl)] &&
        todos == Reduce(State(old(todos)), Action.UploadImage(id, email, imageUrl)).todos &&
        dispatched == old(dispatched) + [Action.UploadImage(id, email, imageUrl),
                                         Other(ImageUploadSuccess)] &&
        Synced()
      ensures !completed ==>
        todos == old(todos) && storage == old(storage) && dispatched == old(dispatched)
    {
      var current := todos;
      var updated := ImagedTodos(current, email, id, imageUrl);
      if !writeSucceeds {
        return false;
      }
      storage := storage[TodosKey := updated];
      Dispatch(Action.UploadImage(id, email, imageUrl));
      Dispatch(Other(ImageUploadSuccess));
      return true;
    }
  }
}
