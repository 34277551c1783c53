/**
 The component as one transition function over the user's (and the initial
 fetch's) events, and the two-state Add/Update machine of the submit button.
 */
module TodoMachine {
  import opened Text
  import opened TodoList

  /** The events the rendered markup wires to a handler, plus the resolution
      of the initial fetch. A submit carries the reply its request receives. */
  datatype Event =
    | SeedLoaded(todos: Reply<seq<Task>>)
    | TypeText(text: string)
    | PressSubmit(reply: Reply<Task>)
    | TickCheckbox(taskId: int)
    | ClickDelete(taskId: int)
    | ClickEdit(taskId: int)
    | ClickCompleteAll
    | ClickClearCompleted
    | PickFilter(name: string)

  /** Only a submit talks to the service; only the seed load touches the
      loading flag; only the filter selector changes the filter; only a submit
      or an edit click changes `editTaskId`. */
  function Dispatch(s: State, e: Event): (r: Step)
    requires e.ClickEdit? ==> HasId(s.tasks, e.taskId)
    ensures r.sent.Some? ==> e.PressSubmit?
    ensures r.state.isLoading != s.isLoading ==> e.SeedLoaded?
    ensures r.state.filter != s.filter ==> e.PickFilter?
    ensures r.state.editTaskId != s.editTaskId ==> e.PressSubmit? || e.ClickEdit?
  {
    match e
    case SeedLoaded(todos) => Step(LoadTodos(s, todos), None, Silent)
    case TypeText(text) => Step(ChangeInput(s, text), None, Silent)
    case PressSubmit(reply) => Submit(s, reply)
    case TickCheckbox(id) => Step(ToggleCompleted(s, id), None, Silent)
    case ClickDelete(id) => DeleteTask(s, id)
    case ClickEdit(id) => Step(BeginEdit(s, id), None, Silent)
    case ClickCompleteAll => Step(CompleteAll(s), None, Silent)
    case ClickClearCompleted => Step(ClearCompleted(s), None, Silent)
    case PickFilter(name) => Step(ChangeFilter(s, FilterOf(name)), None, Silent)
  }

  /** The only ways out of "Update" mode: a non-blank submit whose request
      succeeds, or clicking edit on a task whose id is 0 (a falsy id). There
      is no cancel. */
  lemma ExitsFromEditing(s: State, e: Event)
    requires e.ClickEdit? ==> HasId(s.tasks, e.taskId)
    requires Editing(s)
    ensures !Editing(Dispatch(s, e).state) <==>
      || (e.PressSubmit? && e.reply.Ok? && !IsBlank(s.inputValue))
      || (e.ClickEdit? && e.taskId == 0)
  {
    match e
    case PressSubmit(reply) =>
      assert Dispatch(s, e) == UpdateTask(s, reply);
    case ClickEdit(id) =>
      assert Dispatch(s, e).state.editTaskId == Some(id);
    case _ =>
      assert Dispatch(s, e).state.editTaskId == s.editTaskId;
  }

  /** The only way into "Update" mode: clicking edit on a task with a nonzero id. */
  lemma EntriesToEditing(s: State, e: Event)
    requires e.ClickEdit? ==> HasId(s.tasks, e.taskId)
    requires !Editing(s)
    ensures Editing(Dispatch(s, e).state) <==> e.ClickEdit? && e.taskId != 0
  {
  }

  /** A failed or blank submit in "Update" mode keeps the edit session, draft
      included, so the user can retry. */
  lemma FailedUpdateKeepsSession(s: State, reply: Reply<Task>)
    requires Editing(s)
    requires reply.Err? || IsBlank(s.inputValue)
    ensures Dispatch(s, PressSubmit(reply)).state.editTaskId == s.editTaskId
    ensures Dispatch(s, PressSubmit(reply)).state.inputValue == s.inputValue
    ensures Dispatch(s, PressSubmit(reply)).state.tasks == s.tasks
  {
  }

  /** JavaScript truthiness makes an edit of the task with id 0 indistinguishable
      from "Add" mode: the following submit POSTs a new task instead of a PUT. */
  lemma EditOfZeroIdSubmitsAsAdd(s: State, text: string, reply: Reply<Task>)
    requires HasId(s.tasks, 0)
    ensures Submit(ChangeInput(BeginEdit(s, 0), text), reply).sent
            == if IsBlank(text) then None else Some(Create(text, false))
  {
  }
}
