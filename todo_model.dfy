/** The vocabulary shared by the reducer and the action creators: the task
    record, the object a caller hands to `addTodo`, the events dispatched to
    the reducer, and the timestamp strings used as task ids. */
module TodoModel {

  /** A field that may be absent (`undefined` or `null` in the source). */
  datatype Option<T> = None | Some(value: T)

  /** A task as kept in `state.todo.todos` and in storage. A record without
      a `checked` field reads as unchecked, so `checked` is `false` there.
      Timestamps are epoch milliseconds. */
  datatype Task = Task(
    id: string,
    text: string,
    email: string,
    createdAt: int,
    checked: bool,
    description: Option<string>,
    imageUrl: Option<string>,
    updatedAt: Option<int>)

  /** The object passed to `addTodo`. Every field is what the caller wrote;
      `addTodo` spreads it between its own `id` and its own `email` and
      `createdAt`, so a caller's `id` wins and a caller's `email` and
      `createdAt` do not. */
  datatype Draft = Draft(
    id: Option<string>,
    text: string,
    email: Option<string>,
    createdAt: Option<int>,
    checked: bool,
    description: Option<string>,
    imageUrl: Option<string>,
    updatedAt: Option<int>)

  /** The events the todo reducer receives. `Other` stands for every action
      type the reducer has no case for, among them `TASK_UPDATE_SUCCESS` and
      `IMAGE_UPLOAD_SUCCESS`; its `kind` is never one of the seven handled
      type names (see `Unhandled`). */
  datatype Action =
    | AddTodo(task: Task)
    | UpdateTodo(id: string, text: string)
    | DeleteTodo(id: string)
    | ToggleCheckbox(id: string)
    | LoadTodos(todos: seq<Task>)
    | UpdateTaskDescription(id: string, description: Option<string>, imageUrl: Option<string>)
    | UploadImage(id: string, email: string, imageUrl: Option<string>)
    | Other(kind: string)

  /** An action type the reducer has no case for. */
  predicate Unhandled(kind: string)
  {
    kind !in {"ADD_TODO", "UPDATE_TODO", "DELETE_TODO", "TOGGLE_CHECKBOX", "LOAD_TODOS",
              "UPDATE_TASK_DESCRIPTION", "UPLOAD_IMAGE"}
  }

  const TaskUpdateSuccess: string := "TASK_UPDATE_SUCCESS"
  const ImageUploadSuccess: string := "IMAGE_UPLOAD_SUCCESS"

  /** The `(id, email)` key every action creator selects tasks by. */
  predicate Matches(t: Task, id: string, email: string)
  {
    t.id == id && t.email == email
  }

  // ---------------------------------------------------------------------
  // Task ids: `new Date().getTime().toString()`, the decimal form of the
  // clock in milliseconds, with a leading '-' before 1970.

  predicate IsDigits(s: string)
  {
    forall i :: 0 <= i < |s| ==> '0' <= s[i] <= '9'
  }

  function DigitChar(d: nat): (c: char)
    requires d < 10
    ensures '0' <= c <= '9'
  {
    ('0' as int + d) as char
  }

  function DigitValue(c: char): (d: nat)
    requires '0' <= c <= '9'
    ensures d < 10 && DigitChar(d) == c
  {
    c as int - '0' as int
  }

  /** Decimal digits of `n`, most significant first, no leading zeros. */
  function NatToDecimal(n: nat): (s: string)
    ensures |s| >= 1 && IsDigits(s)
    ensures |s| > 1 ==> s[0] != '0'
    decreases n
  {
    if n < 10 then [DigitChar(n)] else NatToDecimal(n / 10) + [DigitChar(n % 10)]
  }

  /** The value of a string of decimal digits. */
  function DecimalToNat(s: string): nat
    requires IsDigits(s)
    decreases |s|
  {
    if s == [] then 0 else 10 * DecimalToNat(s[..|s| - 1]) + DigitValue(s[|s| - 1])
  }

  lemma {:induction false} DecimalRoundTrip(n: nat)
    ensures DecimalToNat(NatToDecimal(n)) == n
  {
    if n >= 10 {
      var s := NatToDecimal(n);
      assert s[..|s| - 1] == NatToDecimal(n / 10);
      DecimalRoundTrip(n / 10);
    }
  }

  /** The id `addTodo` gives a task created at clock reading `ms`. */
  function TimestampId(ms: int): (id: string)
    ensures |id| >= 1
    ensures id[0] == '-' <==> ms < 0
    ensures ms >= 0 ==> IsDigits(id)
    ensures ms < 0 ==> IsDigits(id[1..])
    ensures ms >= 0 && |id| > 1 ==> id[0] != '0'
    ensures ms < 0 ==> |id| >= 2 && id[1] != '0'
  {
    if ms < 0 then "-" + NatToDecimal(-ms) else NatToDecimal(ms)
  }

  /** Reads a task id back as the clock reading it was made from. */
  function ParseTimestampId(id: string): Option<int>
  {
    if |id| >= 2 && id[0] == '-' && IsDigits(id[1..]) then Some(0 - DecimalToNat(id[1..]) as int)
    else if |id| >= 1 && IsDigits(id) then Some(DecimalToNat(id))
    else None
  }

  lemma TimestampIdRoundTrip(ms: int)
    ensures ParseTimestampId(TimestampId(ms)) == Some(ms)
  {
    var id := TimestampId(ms);
    if ms < 0 {
      var digits := NatToDecimal(-ms);
      assert id == "-" + digits;
      assert id[1..] == digits;
      DecimalRoundTrip(-ms);
    } else {
      assert id == NatToDecimal(ms);
      assert id[0] != '-';
      DecimalRoundTrip(ms);
    }
  }

  /** Tasks created at different milliseconds get different ids; tasks
      created in the same millisecond get the same one. */
  lemma TimestampIdsDistinct(a: int, b: int)
    ensures TimestampId(a) == TimestampId(b) <==> a == b
  {
    if TimestampId(a) == TimestampId(b) {
      TimestampIdRoundTrip(a);
      TimestampIdRoundTrip(b);
    }
  }
}
