/**
 The state of the `TodoList` component and its event handlers, each as a pure
 transition. React's `useState` cells become the fields of `State`; a handler
 that talks to the remote task service takes the service's answer as a
 `Reply` argument and returns, besides the next state, the request it sent
 and the toast it raised.
 */
module TodoList {
  import opened Seqs
  import opened Text

  datatype Option<+T> = None | Some(value: T)

  /** A to-do item as the remote service delivers it. Ids are assigned by the
      service and are not assumed to be unique. */
  datatype Task = Task(id: int, title: string, completed: bool)

  /** A filter string other than the three the selector offers. */
  type OtherName = name: string | name != "all" && name != "completed" && name != "uncompleted"
    witness ""

  /** The filter selector. The component stores a string and treats any value
      other than the three it offers like `all`; `Unknown` stands for those. */
  datatype Filter = All | Completed | Uncompleted | Unknown(name: OtherName)

  /** The filter a string denotes, following the `if`/`else if` chain of the view. */
  function FilterOf(name: string): (f: Filter)
    ensures f.All? <==> name == "all"
    ensures f.Completed? <==> name == "completed"
    ensures f.Uncompleted? <==> name == "uncompleted"
    ensures f.Unknown? ==> f.name == name
  {
    if name == "all" then All
    else if name == "completed" then Completed
    else if name == "uncompleted" then Uncompleted
    else Unknown(name)
  }

  /** The string the component stores for a filter. */
  function NameOf(f: Filter): string {
    match f
    case All => "all"
    case Completed => "completed"
    case Uncompleted => "uncompleted"
    case Unknown(name) => name
  }

  /** Filters and their strings correspond one to one. */
  lemma FilterNameRoundTrip(f: Filter, name: string)
    ensures FilterOf(NameOf(f)) == f
    ensures NameOf(FilterOf(name)) == name
  {
  }

  datatype State = State(
    tasks: seq<Task>,
    inputValue: string,
    filter: Filter,
    isLoading: bool,
    editTaskId: Option<int>)

  /** What a network round trip produced: the decoded JSON body, or a thrown error. */
  datatype Reply<+T> = Ok(value: T) | Err

  /** The body (and, for an update, the target id) of an outgoing request:
      `Create` is the POST of a new task, `Replace` the PUT to `todos/<id>`. */
  datatype Request =
    | Create(title: string, completed: bool)
    | Replace(target: Option<int>, title: string, completed: bool)

  /** The toast a handler raises, if any. */
  datatype Notice = Silent | Success(message: string) | Failure(message: string)

  datatype Step = Step(state: State, sent: Option<Request>, notice: Notice)

  const AddedMessage := "Task added successfully"
  const AddFailedMessage := "Error adding task"
  const DeletedMessage := "Task deleted successfully"
  const UpdatedMessage := "Task updated successfully"
  const UpdateFailedMessage := "Error updating task"

  /** The state on mount: no tasks, empty input, filter `all`, loading. */
  const Initial := State([], "", All, true, None)

  predicate HasId(tasks: seq<Task>, id: int) {
    exists i :: 0 <= i < |tasks| && tasks[i].id == id
  }

  /** The button is in "Update" mode when `editTaskId` is truthy: `null`
      and the number 0 are falsy, every other id is truthy. */
  predicate Editing(s: State)
    ensures s.editTaskId == None ==> !Editing(s)
    ensures s.editTaskId == Some(0) ==> !Editing(s)
    ensures forall k :: k != 0 && s.editTaskId == Some(k) ==> Editing(s)
  {
    s.editTaskId.Some? && s.editTaskId.value != 0
  }

  /** Resolution of the initial fetch: the fetched list replaces `tasks` on
      success, and loading ends either way. */
  function LoadTodos(s: State, reply: Reply<seq<Task>>): (r: State)
    ensures !r.isLoading
    ensures reply.Ok? ==> r.tasks == reply.value
    ensures reply.Err? ==> r.tasks == s.tasks
    ensures r.inputValue == s.inputValue && r.filter == s.filter && r.editTaskId == s.editTaskId
  {
    match reply
    case Ok(todos) => s.(tasks := todos, isLoading := false)
    case Err => s.(isLoading := false)
  }

  /** Typing in the input box replaces the draft and nothing else. */
  function ChangeInput(s: State, text: string): (r: State)
    ensures r.inputValue == text
    ensures r.(inputValue := s.inputValue) == s
  {
    s.(inputValue := text)
  }

  /** Submit in "Add" mode. A blank draft is ignored without a request;
      otherwise the draft is POSTed as an uncompleted task, and the task the
      service answers with is appended. */
  function AddTask(s: State, reply: Reply<Task>): (r: Step)
    ensures IsBlank(s.inputValue) ==> r == Step(s, None, Silent)
    ensures !IsBlank(s.inputValue) ==> r.sent == Some(Create(s.inputValue, false))
    ensures !IsBlank(s.inputValue) && reply.Ok? ==>
      && |r.state.tasks| == |s.tasks| + 1
      && r.state.tasks[..|s.tasks|] == s.tasks
      && r.state.tasks[|s.tasks|] == reply.value
      && r.state.inputValue == ""
      && r.state.(tasks := s.tasks, inputValue := s.inputValue) == s
      && r.notice == Success(AddedMessage)
    ensures !IsBlank(s.inputValue) && reply.Err? ==>
      r.state == s && r.notice == Failure(AddFailedMessage)
  {
    if IsBlank(s.inputValue) then Step(s, None, Silent)
    else
      var sent := Some(Create(s.inputValue, false));
      match reply
      case Ok(added) =>
        Step(s.(tasks := s.tasks + [added], inputValue := ""), sent, Success(AddedMessage))
      case Err => Step(s, sent, Failure(AddFailedMessage))
  }

  /** The predicate handed to `filter` by the delete handler. */
  function OtherThan(taskId: int): Task -> bool {
    (t: Task) => t.id != taskId
  }

  predicate IsDone(t: Task) {
    t.completed
  }

  predicate IsOpen(t: Task) {
    !t.completed
  }

  /** Ticking a checkbox flips `completed` on every task with that id. */
  function ToggleCompleted(s: State, taskId: int): (r: State)
    ensures |r.tasks| == |s.tasks|
    ensures forall i :: 0 <= i < |s.tasks| ==>
      r.tasks[i].id == s.tasks[i].id && r.tasks[i].title == s.tasks[i].title
    ensures forall i :: 0 <= i < |s.tasks| ==>
      (r.tasks[i].completed != s.tasks[i].completed <==> s.tasks[i].id == taskId)
    ensures r.(tasks := s.tasks) == s
  {
    s.(tasks := seq(|s.tasks|, i requires 0 <= i < |s.tasks| =>
      var t := s.tasks[i];
      if t.id == taskId then t.(completed := !t.completed) else t))
  }

  /** Deleting removes every task with that id, keeps the rest in order, and
      always reports success. */
  function DeleteTask(s: State, taskId: int): (r: Step)
    ensures forall t :: t in r.state.tasks <==> t in s.tasks && t.id != taskId
    ensures forall t :: multiset(r.state.tasks)[t] == if t.id != taskId then multiset(s.tasks)[t] else 0
    ensures IsSubsequence(r.state.tasks, s.tasks)
    ensures !HasId(r.state.tasks, taskId)
    ensures r.state.(tasks := s.tasks) == s
    ensures r.sent == None && r.notice == Success(DeletedMessage)
  {
    var kept := Keep(s.tasks, OtherThan(taskId));
    KeepCounts(s.tasks, OtherThan(taskId));
    KeepOrdered(s.tasks, OtherThan(taskId));
    assert forall i :: 0 <= i < |kept| ==> kept[i] in kept;
    Step(s.(tasks := kept), None, Success(DeletedMessage))
  }

  /** Position of the first task with id `id`, or `|tasks|` when there is none
      (the index behind `Array.prototype.find`). */
  function FindIndex(tasks: seq<Task>, id: int): (k: nat)
    ensures k <= |tasks|
    ensures k < |tasks| ==> tasks[k].id == id
    ensures forall j :: 0 <= j < k ==> tasks[j].id != id
  {
    if |tasks| == 0 || tasks[0].id == id then 0
    else 1 + FindIndex(tasks[1..], id)
  }

  /** Clicking a task's edit icon: enter edit mode for that id and load the
      title of the first task with that id into the input. The handler reads
      the found task's title unguarded, so the id must be present. */
  function BeginEdit(s: State, taskId: int): (r: State)
    requires HasId(s.tasks, taskId)
    ensures r.editTaskId == Some(taskId)
    ensures exists k :: 0 <= k < |s.tasks| && s.tasks[k].id == taskId && r.inputValue == s.tasks[k].title
                        && forall j :: 0 <= j < k ==> s.tasks[j].id != taskId
    ensures r.tasks == s.tasks && r.filter == s.filter && r.isLoading == s.isLoading
  {
    var k := FindIndex(s.tasks, taskId);
    s.(editTaskId := Some(taskId), inputValue := s.tasks[k].title)
  }

  /** Submit in "Update" mode. A blank draft is ignored without a request;
      otherwise the draft is PUT to `editTaskId` with `completed: false`. On
      success only the title of the tasks with that id changes, to the title
      the service echoes, and the input returns to "Add" mode; on failure the
      edit session is kept for a retry. */
  function UpdateTask(s: State, reply: Reply<Task>): (r: Step)
    ensures IsBlank(s.inputValue) ==> r == Step(s, None, Silent)
    ensures !IsBlank(s.inputValue) ==> r.sent == Some(Replace(s.editTaskId, s.inputValue, false))
    ensures !IsBlank(s.inputValue) && reply.Ok? ==>
      && |r.state.tasks| == |s.tasks|
      && (forall i :: 0 <= i < |s.tasks| ==>
            && r.state.tasks[i].id == s.tasks[i].id
            && r.state.tasks[i].completed == s.tasks[i].completed
            && r.state.tasks[i].title ==
                 if s.editTaskId == Some(s.tasks[i].id) then reply.value.title else s.tasks[i].title)
      && r.state.inputValue == ""
      && r.state.editTaskId == None
      && r.state.filter == s.filter && r.state.isLoading == s.isLoading
      && r.notice == Success(UpdatedMessage)
    ensures !IsBlank(s.inputValue) && reply.Err? ==>
      r.state == s && r.notice == Failure(UpdateFailedMessage)
  {
    if IsBlank(s.inputValue) then Step(s, None, Silent)
    else
      var sent := Some(Replace(s.editTaskId, s.inputValue, false));
      match reply
      case Ok(echo) =>
        var renamed := seq(|s.tasks|, i requires 0 <= i < |s.tasks| =>
          var t := s.tasks[i];
          if s.editTaskId == Some(t.id) then t.(title := echo.title) else t);
        Step(s.(tasks := renamed, inputValue := "", editTaskId := None), sent, Success(UpdatedMessage))
      case Err => Step(s, sent, Failure(UpdateFailedMessage))
  }

  /** The submit button: `UpdateTask` in edit mode, `AddTask` otherwise. A
      blank draft changes nothing and sends nothing in either mode. A
      successful submit clears the draft; in edit mode it renames the target's
      tasks in place and leaves edit mode, otherwise it appends the service's
      task. A failed submit keeps the state and toasts the mode's failure. */
  function Submit(s: State, reply: Reply<Task>): (r: Step)
    ensures IsBlank(s.inputValue) ==> r == Step(s, None, Silent)
    ensures !IsBlank(s.inputValue) ==>
      r.sent == Some(if Editing(s) then Replace(s.editTaskId, s.inputValue, false)
                     else Create(s.inputValue, false))
    ensures !IsBlank(s.inputValue) && reply.Ok? ==>
      && r.state.inputValue == ""
      && r.state.filter == s.filter && r.state.isLoading == s.isLoading
      && if Editing(s) then
           && |r.state.tasks| == |s.tasks|
           && (forall i :: 0 <= i < |s.tasks| ==>
                 && r.state.tasks[i].id == s.tasks[i].id
                 && r.state.tasks[i].completed == s.tasks[i].completed
                 && r.state.tasks[i].title ==
                      if s.editTaskId == Some(s.tasks[i].id) then reply.value.title else s.tasks[i].title)
           && r.state.editTaskId == None
           && r.notice == Success(UpdatedMessage)
         else
           && r.state.tasks == s.tasks + [reply.value]
           && r.state.editTaskId == s.editTaskId
           && r.notice == Success(AddedMessage)
    ensures !IsBlank(s.inputValue) && reply.Err? ==>
      r.state == s && r.notice == Failure(if Editing(s) then UpdateFailedMessage else AddFailedMessage)
  {
    if Editing(s) then UpdateTask(s, reply) else AddTask(s, reply)
  }

  /** "Complete All Tasks": every task becomes completed; ids, titles and
      order stay. */
  function CompleteAll(s: State): (r: State)
    ensures |r.tasks| == |s.tasks|
    ensures forall i :: 0 <= i < |s.tasks| ==>
      r.tasks[i].id == s.tasks[i].id && r.tasks[i].title == s.tasks[i].title && r.tasks[i].completed
    ensures r.(tasks := s.tasks) == s
  {
    s.(tasks := seq(|s.tasks|, i requires 0 <= i < |s.tasks| => s.tasks[i].(completed := true)))
  }

  /** "Delete All Tasks": drops the completed tasks and keeps the others in order. */
  function ClearCompleted(s: State): (r: State)
    ensures forall t :: t in r.tasks <==> t in s.tasks && !t.completed
    ensures forall t :: multiset(r.tasks)[t] == if t.completed then 0 else multiset(s.tasks)[t]
    ensures IsSubsequence(r.tasks, s.tasks)
    ensures r.(tasks := s.tasks) == s
  {
    KeepCounts(s.tasks, IsOpen);
    KeepOrdered(s.tasks, IsOpen);
    s.(tasks := Keep(s.tasks, IsOpen))
  }

  /** Picking a filter replaces the filter and nothing else. */
  function ChangeFilter(s: State, f: Filter): (r: State)
    ensures r.filter == f
    ensures r.(filter := s.filter) == s
  {
    s.(filter := f)
  }

  /** Whether a task passes filter `f` in the derived view. */
  predicate Shows(f: Filter, t: Task) {
    match f
    case All => true
    case Completed => t.completed
    case Uncompleted => !t.completed
    case Unknown(_) => true
  }

  function ShownBy(f: Filter): Task -> bool {
    (t: Task) => Shows(f, t)
  }

  /** The list actually rendered: the tasks passing the active filter, in
      order and with their multiplicity. */
  function FilteredTasks(s: State): (r: seq<Task>)
    ensures forall t :: t in r <==> t in s.tasks && Shows(s.filter, t)
    ensures forall t :: multiset(r)[t] == if Shows(s.filter, t) then multiset(s.tasks)[t] else 0
    ensures IsSubsequence(r, s.tasks)
  {
    KeepCounts(s.tasks, ShownBy(s.filter));
    KeepOrdered(s.tasks, ShownBy(s.filter));
    Keep(s.tasks, ShownBy(s.filter))
  }

  /** The number of completed tasks, counted one task at a time. */
  function NumberDone(tasks: seq<Task>): nat {
    if |tasks| == 0 then 0
    else (if tasks[0].completed then 1 else 0) + NumberDone(tasks[1..])
  }

  /** Filtering the completed tasks keeps as many as `NumberDone` counts. */
  lemma {:induction false} DoneKeptIsNumberDone(tasks: seq<Task>)
    ensures |Keep(tasks, IsDone)| == NumberDone(tasks)
  {
    if |tasks| > 0 {
      KeepFirst(tasks, IsDone);
      DoneKeptIsNumberDone(tasks[1..]);
    }
  }

  /** The "Completed:" counter. */
  function CompletedCount(tasks: seq<Task>): (n: nat)
    ensures n == NumberDone(tasks)
    ensures n <= |tasks|
    ensures n == |tasks| <==> forall i :: 0 <= i < |tasks| ==> tasks[i].completed
    ensures n == 0 <==> forall i :: 0 <= i < |tasks| ==> !tasks[i].completed
  {
    var done := Keep(tasks, IsDone);
    KeepLength(tasks, IsDone);
    DoneKeptIsNumberDone(tasks);
    assert forall i :: 0 <= i < |tasks| ==> tasks[i] in tasks;
    assert |done| > 0 ==> done[0] in done;
    |done|
  }

  /** The "Total Tasks:" counter: the completed tasks plus the uncompleted ones. */
  function TotalCount(tasks: seq<Task>): (n: nat)
    ensures n == |Keep(tasks, IsDone)| + |Keep(tasks, IsOpen)|
    ensures n >= CompletedCount(tasks)
  {
    KeepPartition(tasks, IsDone, IsOpen);
    |tasks|
  }
}
