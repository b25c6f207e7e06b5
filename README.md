# Task-list state layer of a React Native to-do app, in Dafny

The app keeps its tasks in two places. The first is the Redux store slice
`state.todo.todos`. The second is device storage, where the whole list is
written as one value under the key `"todos"`. This project models the two
pieces that keep those places up to date:

- **The todo reducer** (`redux/reducers/todoReducer.js`). It is a pure function
  from the current slice and an action to the next slice. It has seven cases
  and a default.
- **The action thunks** (`redux/actions/todoActions.js`). Each thunk except
  `loadTodos` reads the current list and builds the next one. `addTodo`
  appends the new task. The others rebuild the list with `map` or `filter`,
  keyed on the pair `(id, email)`. Each writes the result to storage, and only
  after that write dispatches an event to the reducer. `loadTodos` reads
  storage, never writes it, and dispatches the stored list when there is one.

Modules:

- `Seqs` (`seqs.dfy`): JavaScript's `map` and `filter` on sequences. `filter`
  is proved to keep exactly the accepted elements, with their multiplicity
  and their order.
- `TodoModel` (`todo_model.dfy`): the `Task` record, the `Draft` a caller
  hands to `addTodo`, the `Action` events, the `(id, email)` key, and the
  timestamp strings used as ids. Ids are proved to read back as the clock
  value they came from, so different milliseconds give different ids.
- `TodoReducer` (`todo_reducer.dfy`): `initialState`, one function per reducer
  case, and `Reduce`.
- `TodoActions` (`todo_actions.dfy`): the list each thunk writes to storage. It
  also has lemmas comparing that list with what the reducer makes of the
  dispatched event. `addTodo` builds its list with the reducer's own `Append`.
  The lists agree for `uploadImage` in every case. They also agree
  for `toggleCheckbox`, `updateTaskDescription` and `deleteTodo` when every
  task with the id belongs to the user. Otherwise they can diverge. A lemma
  exhibits each such divergence: a task with the id that another user owns
  is changed or deleted in memory but not in storage. For `updateTodo` the
  `UPDATE_TODO` event does not carry the stored `updatedAt` stamp, so memory
  keeps the old one until the next `loadTodos`.
- `TodoStore` (`todo_store.dfy`): the class `Store`. Its fields are the
  in-memory list, the signed-in user's email, storage, and the log of
  dispatched events. Each thunk except `loadTodos` is a method that writes
  storage and then dispatches, in that order; `LoadTodos` only reads storage. A failed storage operation and a missing user are
  method parameters and state. On either one the method stops before
  dispatching, as the source's `try`/`catch` does.

Points of the code worth knowing before reading the model:

- `updateTodo` writes the new text and sets `updatedAt` to the clock in
  storage (redux/actions/todoActions.js:40).
- `deleteTodo` removes every task with the `(id, email)` key
  (redux/actions/todoActions.js:58-60).
- `addTodo` takes `checked` from the caller's object. When that field is
  absent it reads as `false` (redux/actions/todoActions.js:21).
- `loadTodos` with no stored list dispatches nothing, so the in-memory list
  stays as it was (redux/actions/todoActions.js:96).

Time enters as an integer parameter (epoch milliseconds). A storage read or
write that fails enters as a boolean parameter. The signed-in user is a field
of the store.

## Model

| member | source | states |
|---|---|---|
| `TodoModel.TimestampId` | redux/actions/todoActions.js:19 | the id is the decimal digits of the clock reading, with no leading zero, and a leading '-' exactly when the reading is negative |
| `TodoModel.TimestampIdRoundTrip` | redux/actions/todoActions.js:19 | the id string made from a clock reading parses back to that exact reading |
| `TodoModel.TimestampIdsDistinct` | redux/actions/todoActions.js:19 | two clock readings give equal ids exactly when they are equal |
| `TodoReducer.Append` | redux/reducers/todoReducer.js:17-21 | `ADD_TODO`: length grows by one, earlier tasks are unchanged, the payload is last |
| `TodoReducer.SetText` | redux/reducers/todoReducer.js:22-30 | `UPDATE_TODO`: every task with the id gets the new text, with no owner check; every other field, every other task and the length are unchanged |
| `TodoReducer.RemoveId` | redux/reducers/todoReducer.js:31-35 | `DELETE_TODO`: a task survives exactly when its id differs, whoever owns it |
| `TodoReducer.FlipChecked` | redux/reducers/todoReducer.js:36-42 | `TOGGLE_CHECKBOX`: `checked` is negated on every task with the id, with no owner check; nothing else changes |
| `TodoReducer.SetDescription` | redux/reducers/todoReducer.js:48-60 | `UPDATE_TASK_DESCRIPTION`: `description` and `imageUrl` are replaced together on tasks with the id; text, checked, email, createdAt and the other tasks are untouched |
| `TodoReducer.SetImage` | redux/reducers/todoReducer.js:61-67 | `UPLOAD_IMAGE`: only `imageUrl` changes, and only on tasks matching both the id and the email |
| `TodoReducer.Reduce` | redux/reducers/todoReducer.js:15-72 | `LOAD_TODOS` yields the payload whatever the prior list; `ADD_TODO` appends; an action without a case returns the state unchanged |
| `TodoReducer.RemoveIdKeepsOrder` | redux/reducers/todoReducer.js:34 | `DELETE_TODO` on a list split in two is the two deletions concatenated, so the survivors keep their order |
| `TodoReducer.RemoveIdCounts` | redux/reducers/todoReducer.js:34 | `DELETE_TODO` drops every copy of a task with the id and keeps every copy of every other task |
| `TodoReducer.RemoveAbsentId` | redux/reducers/todoReducer.js:34 | `DELETE_TODO` on an id no task has returns the same list |
| `TodoReducer.ToggleTwice` | redux/reducers/todoReducer.js:36-42 | two `TOGGLE_CHECKBOX` with the same id restore the list |
| `TodoReducer.SetImageSpareOtherOwners` | redux/reducers/todoReducer.js:64 | `UPLOAD_IMAGE` leaves a same-id task owned by another email unchanged |
| `TodoReducer.LoadForgetsState` | redux/reducers/todoReducer.js:43-47 | `LOAD_TODOS` gives the same next state from any two prior states |
| `TodoReducer.SuccessEventsChangeNothing` | redux/reducers/todoReducer.js:69-70 | `TASK_UPDATE_SUCCESS` and `IMAGE_UPLOAD_SUCCESS` leave the state unchanged |
| `TodoActions.NewTodo` | redux/actions/todoActions.js:19-21 | the new task's email is the signed-in user's and its createdAt is the clock; its id is the caller's id if one was given, else the timestamp id; its text, checked, description, imageUrl and updatedAt are the caller's |
| `TodoActions.NewTodoIgnoresCallerOwnerAndTime` | redux/actions/todoActions.js:21 | the caller's `email` and `createdAt` have no effect on the new task |
| `TodoActions.NewTodoIdsDistinct` | redux/actions/todoActions.js:19-21 | two id-less drafts added at different milliseconds get different ids |
| `TodoActions.UpdatedTodos` | redux/actions/todoActions.js:38-42 | `updateTodo` writes the new text and `updatedAt` = clock on `(id, email)` matches only; other tasks and the length are unchanged |
| `TodoActions.DeletedTodos` | redux/actions/todoActions.js:58-60 | `deleteTodo` writes a list holding a task exactly when the old list held it and it does not match `(id, email)` |
| `TodoActions.ToggledTodos` | redux/actions/todoActions.js:76-80 | `toggleCheckbox` writes `checked` negated on `(id, email)` matches only |
| `TodoActions.DescribedTodos` | redux/actions/todoActions.js:110-114 | `updateTaskDescription` writes `description` and `imageUrl` together on `(id, email)` matches; text, checked and createdAt are intact |
| `TodoActions.ImagedTodos` | redux/actions/todoActions.js:135-137 | `uploadImage` writes only `imageUrl`, on `(id, email)` matches only |
| `TodoActions.UpdateWithoutMatchWritesSameList` | redux/actions/todoActions.js:38-42 | `updateTodo` with no `(id, email)` match writes back exactly the list it read |
| `TodoActions.DeleteKeepsOrder` | redux/actions/todoActions.js:58-60 | `deleteTodo` on a split list is the two deletions concatenated, so order is preserved |
| `TodoActions.DeleteCounts` | redux/actions/todoActions.js:58-60 | `deleteTodo` removes exactly the `(id, email)` matches, every copy; a same-id task owned by another email survives |
| `TodoActions.DeleteWithoutMatchWritesSameList` | redux/actions/todoActions.js:58-60 | `deleteTodo` with no match writes back exactly the list it read |
| `TodoActions.ToggleTwiceRestores` | redux/actions/todoActions.js:76-80 | two `toggleCheckbox` writes with the same key give back the original list |
| `TodoActions.UniqueIdsOwned` | redux/actions/todoActions.js:39 | when ids are pairwise distinct and the task with the id is the user's, every task with that id is the user's, so the agreement lemmas apply |
| `TodoActions.UploadAgrees` | redux/actions/todoActions.js:135-141 | the list `uploadImage` persists equals the reducer's result for its `UPLOAD_IMAGE`, unconditionally |
| `TodoActions.ToggleAgrees` | redux/actions/todoActions.js:76-84 | if every task with the id is the user's, the persisted toggle list equals the reducer's `TOGGLE_CHECKBOX` result |
| `TodoActions.DescribeAgrees` | redux/actions/todoActions.js:110-121 | if every task with the id is the user's, the persisted description list equals the reducer's `UPDATE_TASK_DESCRIPTION` result |
| `TodoActions.DeleteAgrees` | redux/actions/todoActions.js:58-64 | if every task with the id is the user's, the persisted list equals the reducer's `DELETE_TODO` result |
| `TodoActions.UpdateAgreesButForStamp` | redux/actions/todoActions.js:38-46 | if every task with the id is the user's, the persisted `updateTodo` list equals the reducer's `UPDATE_TODO` result except that `updatedAt` is the clock on the matched tasks |
| `TodoActions.UpdateDivergesOnStamp` | redux/actions/todoActions.js:40 | a matched task whose stamp is not the clock is stored with the new stamp but kept with the old one in memory, so the lists differ |
| `TodoActions.DeleteDivergesOnOtherOwner` | redux/actions/todoActions.js:59 | a same-id task owned by another email stays in storage but leaves memory |
| `TodoActions.ToggleDivergesOnOtherOwner` | redux/actions/todoActions.js:77 | a same-id task owned by another email keeps `checked` in storage but is flipped in memory |
| `TodoActions.UpdateDivergesOnOtherOwner` | redux/actions/todoActions.js:39 | a same-id task owned by another email keeps its text in storage but gets the new text in memory |
| `TodoActions.DescribeDivergesOnOtherOwner` | redux/actions/todoActions.js:111 | a same-id task owned by another email keeps its description and image in storage but gets the new ones in memory |
| `TodoStore.Store.constructor` | redux/reducers/todoReducer.js:11-13 | the in-memory list starts as the reducer's initial empty list; nothing has been dispatched |
| `TodoStore.Store.Dispatch` | redux/actions/todoActions.js:118-123 | dispatching an event sets the in-memory list to the reducer's result for it and appends the event to the log; storage and the user are untouched |
| `TodoStore.Store.AddTodo` | redux/actions/todoActions.js:13-31 | completes exactly when a user is signed in and the write succeeds; then storage holds the old list unchanged with the new task appended, the same `ADD_TODO` is dispatched and memory equals storage; otherwise nothing changes |
| `TodoStore.Store.UpdateTodo` | redux/actions/todoActions.js:34-51 | on a successful write, storage gets the `(id, email)` update with stamp and memory gets the reducer's `UPDATE_TODO {id, text}`; on failure nothing changes |
| `TodoStore.Store.DeleteTodo` | redux/actions/todoActions.js:53-69 | on a successful write, storage gets the `(id, email)` filter and memory gets `DELETE_TODO id`; they agree when the id is the user's alone; on failure nothing changes |
| `TodoStore.Store.ToggleCheckbox` | redux/actions/todoActions.js:71-89 | on a successful write, storage gets the `(id, email)` toggle and memory gets `TOGGLE_CHECKBOX id`; they agree when the id is the user's alone; on failure nothing changes |
| `TodoStore.Store.LoadTodos` | redux/actions/todoActions.js:91-104 | dispatches `LOAD_TODOS` with the stored list exactly when the read succeeds and the key is present, after which memory equals storage; otherwise the list and the log are unchanged; storage is never written |
| `TodoStore.Store.UpdateTaskDescription` | redux/actions/todoActions.js:105-128 | on a successful write, storage gets the `(id, email)` description update, then `UPDATE_TASK_DESCRIPTION` and `TASK_UPDATE_SUCCESS` are dispatched in that order; on failure nothing changes |
| `TodoStore.Store.UploadImage` | redux/actions/todoActions.js:130-148 | on a successful write, storage gets the `(id, email)` image update, then `UPLOAD_IMAGE {id, email, imageUrl}` and `IMAGE_UPLOAD_SUCCESS` are dispatched, and memory always equals storage; on failure nothing changes |

## Left out

- Storage is a map from keys to already-deserialized task lists. `JSON.stringify` and `JSON.parse` are taken to be lossless. A read that rejects or does not parse is the `readSucceeds = false` case of `LoadTodos`.
- `addTodo` stores `createdAt` as a `Date` object, which JSON turns into an ISO string on reload. The caller in `screens/HomeScreen.js` passes epoch milliseconds. The model uses epoch milliseconds throughout.
- `addTodo` reads the clock twice: once for the id and once for `createdAt`. The model takes a single reading `now` for both.
- TodoActions.UpdatedTodos: gives every matched task the same `updatedAt`. The source calls `Date.now()` once per matched task, so several matches may get different stamps.
- The UI can pass a non-string `imageUrl` to `updateTaskDescription` (screens/HomeScreen.js passes a callback). The in-memory list keeps it and JSON drops it from storage. The model's `imageUrl` is always an optional string.
- `TodoModel.TimestampId` does not model the exponent notation `Number.prototype.toString` uses from 1e21 on. Millisecond timestamps are far below that.
- Tasks created in the same millisecond get the same id. The model only proves that different milliseconds give different ids.
- `undefined` and `null` in optional fields are both `None`. `JSON.stringify` drops the first and keeps the second.
- Fields of the caller's object outside the task's fixed shape are not modelled.
- The thunks' `email` argument is always a string. The UI can pass `currentUser?.email`, which is `undefined` when nobody is signed in. A `currentUser` without an `email` is not modelled either.
- Async interleaving and the read-modify-write race between concurrent thunks are out of scope. Each thunk is one atomic method.
- `console.error` logging is dropped. So are the unused `formatDistance` and `ImagePicker` imports.
- Object identity is not modelled: the reducer's default case returns the very same object. In the model, states are values.
- The UI is out of scope: screens/HomeScreen.js, components/TaskModal.js and App.js. That includes their `trim() !== ''` guards, the per-user display filter, navigation and the `redux-persist` bootstrap.
