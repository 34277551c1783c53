# To-do list widget: a Dafny model of the `TodoList` component

The repository is a single React component, `TodoList`, that shows a to-do
list. It loads a few seed tasks from a demo REST service. The user can add,
edit, tick, delete, bulk-complete and bulk-clear tasks, and filter the list.
Adds and edits are mirrored to the service. This project models the
component's state and handlers as pure transitions. It proves what each
handler does to the task list, the draft text, the filter and the edit
session, and how the handlers relate to the filtered view and the two
counters.

Modules:

- `Seqs` (`seqs.dfy`): `Keep`, the model of `Array.prototype.filter`.
  `Keep`'s own contract gives exact membership. Its lemmas give
  multiplicity (`KeepCounts`) and order (`KeepOrdered`, via
  `IsSubsequence`). They also cover append, idempotence, extensionality,
  and the partition by a predicate and its negation.
- `Text` (`text.dfy`): `String.prototype.trim` over the ECMAScript
  WhiteSpace and LineTerminator code points (sections 12.2 and 12.3 of
  ECMA-262). It also holds `IsBlank`, the submit guard `trim() === ''`.
- `TodoList` (`todo_list.dfy`): the data model and one function per handler.
  `Task` is `{id, title, completed}`. `State` holds `tasks`, `inputValue`,
  `filter`, `isLoading` and `editTaskId`. A handler that awaits the service
  takes the service's `Reply` (`Ok(value)` or `Err`) as an argument.
  `LoadTodos` returns the next `State`. `AddTask`, `UpdateTask`, `Submit`
  and `DeleteTask` return a `Step`: the next state, the request sent
  (`Create` for the POST, `Replace` for the PUT, none for a delete), and the
  toast raised (`Notice`). `TodoMachine.Dispatch` wraps every other handler's
  `State` in a `Step` with no request and no toast.
- `TodoProps` (`todo_props.dfy`): properties that span several calls, such as
  round trips, idempotence, handler/view agreement and counter effects.
- `TodoMachine` (`todo_machine.dfy`): one `Dispatch` over the UI events, and
  the Add/Update mode machine of the submit button.
- `TodoScenarios` (`todo_scenarios.dfy`): small concrete runs.

Modelling choices:

- Ids are integers. No handler assumes they are unique. Toggle, delete and
  update act on every task with a matching id. Add appends whatever task the
  service returns.
- The submit button is in "Update" mode when `editTaskId` is truthy
  (`Editing`: set and not 0). So an edit of a task whose id is 0 behaves as
  "Add" (`TodoMachine.EditOfZeroIdSubmitsAsAdd`).
- The update handler compares `task.id === editTaskId`. This is modelled as
  `editTaskId == Some(task.id)`, so an unset `editTaskId` matches no task.
- `filter` is a string in the component, and the view treats any value other
  than `all`, `completed` or `uncompleted` like `all`. `Filter.Unknown(name)`
  stands for those other values. Its `name` has type `OtherName`, which
  excludes the three offered strings. `FilterOf` maps a string to its
  `Filter`, and `NameOf` maps it back.
- `handleEditTask` reads the title of `find`'s result without a guard. So
  `BeginEdit` requires that some task has the id. `TodoProps.VisibleTaskCanBeEdited`
  shows that every rendered task meets this requirement.

Behaviour of the component worth knowing:

- Task ids are not unique. Nothing in the component checks them, and two
  tasks may share an id.
- Deleting the task under edit does not clear `editTaskId`. The button stays
  in "Update" mode with a target no task has
  (`TodoProps.DeleteDuringEditLeavesStaleTarget`).
- Clicking edit on an id no task has throws: the handler reads the title of
  `undefined` at src/Component/TodoList.js:81. `BeginEdit` requires the id
  to be present.

## Model

| member | source | states |
|---|---|---|
| `Seqs.Keep` | src/Component/TodoList.js:131-140 | `filter` never lengthens the list, and an element is in the result exactly when it is in the input and accepted |
| `Seqs.KeepLength` | src/Component/TodoList.js:131-140 | `filter` loses nothing exactly when every element is accepted |
| `Seqs.KeepCounts` | src/Component/TodoList.js:131-140 | `filter` keeps each accepted element as often as the input holds it and drops every rejected one |
| `Seqs.KeepOrdered` | src/Component/TodoList.js:131-140 | `filter` keeps the input's order: its result is a subsequence of the input |
| `Seqs.KeepAppend` | src/Component/TodoList.js:131-140 | filtering a concatenation is concatenating the filtered parts |
| `Seqs.KeepAllAccepted` | src/Component/TodoList.js:131-140 | a predicate accepting every element returns the input unchanged |
| `Seqs.KeepIdempotent` | src/Component/TodoList.js:131-140 | filtering twice by one predicate equals filtering once |
| `Seqs.KeepExtensional` | src/Component/TodoList.js:131-140 | predicates that agree on every value filter alike |
| `Seqs.KeepPartition` | src/Component/TodoList.js:131-140 | filtering by a predicate and by its negation splits the input: the two multisets add up to the input's, and so do the lengths |
| `Text.TrimStart` | src/Component/TodoList.js:38 | the result is a suffix of the input, everything dropped is whitespace or a line terminator, and the result does not start with one |
| `Text.TrimEnd` | src/Component/TodoList.js:38 | the result is a prefix of the input, everything dropped is whitespace or a line terminator, and the result does not end with one |
| `Text.Trim` | src/Component/TodoList.js:38 | trimming yields the empty string exactly when every character of the input is whitespace or a line terminator; a non-empty result neither starts nor ends with one |
| `TodoList.LoadTodos` | src/Component/TodoList.js:21-31 | the initial fetch always ends loading; on success the fetched list becomes `tasks`, on failure `tasks` stays; draft, filter and edit target are untouched |
| `TodoList.ChangeInput` | src/Component/TodoList.js:33-35 | typing sets the draft and changes nothing else |
| `TodoList.AddTask` | src/Component/TodoList.js:37-63 | a blank draft sends nothing and changes nothing; otherwise it POSTs `{title: draft, completed: false}`; on success the returned task is appended after the unchanged prefix, the draft is cleared and success is toasted; on failure the state is unchanged and failure is toasted |
| `TodoList.ToggleCompleted` | src/Component/TodoList.js:65-71 | length, ids and titles are preserved; `completed` changes on exactly the tasks with the given id; nothing outside `tasks` changes |
| `TodoList.DeleteTask` | src/Component/TodoList.js:73-76 | the result holds exactly the tasks with another id, with their multiplicity and order; no task with the id remains; nothing else changes; success is toasted regardless |
| `TodoList.FindIndex` | src/Component/TodoList.js:80 | returns the position of the first task with the id, or the list length when none has it |
| `TodoList.BeginEdit` | src/Component/TodoList.js:78-82 | for a present id: the edit target becomes that id and the draft becomes the title of the first task with it; tasks, filter and loading flag are unchanged |
| `TodoList.UpdateTask` | src/Component/TodoList.js:84-115 | a blank draft sends nothing and changes nothing; otherwise it PUTs `{title: draft, completed: false}` to the edit target; on success only the titles of tasks with the target id change, to the echoed title, with ids, completion flags and length kept; the draft is cleared and edit mode ends; on failure the state (edit session and draft included) is unchanged |
| `TodoList.Submit` | src/Component/TodoList.js:164-165 | a blank draft is a no-op without a request in both modes; otherwise edit mode (`editTaskId` truthy) PUTs the draft to the target and "Add" mode POSTs it; on success the draft is cleared, and edit mode renames the target's tasks to the echoed title in place (ids, flags, length kept), ends the edit session and toasts the update, while "Add" mode appends the returned task, keeps `editTaskId` and toasts the add; on failure the state is unchanged and the mode's failure is toasted |
| `TodoList.CompleteAll` | src/Component/TodoList.js:117-121 | length, ids and titles are preserved and every task is completed; nothing outside `tasks` changes |
| `TodoList.ClearCompleted` | src/Component/TodoList.js:123-125 | the result holds exactly the uncompleted tasks, with their multiplicity and order; nothing outside `tasks` changes |
| `TodoList.ChangeFilter` | src/Component/TodoList.js:127-129 | picking a filter sets it and changes nothing else |
| `TodoList.FilteredTasks` | src/Component/TodoList.js:131-140 | the view holds exactly the tasks the active filter passes, with multiplicity, in list order |
| `TodoList.CompletedCount` | src/Component/TodoList.js:226 | the completed counter equals the number of completed tasks counted one by one (`NumberDone`); it is at most the total, equals it exactly when every task is completed, and is 0 exactly when none is |
| `TodoList.DoneKeptIsNumberDone` | src/Component/TodoList.js:226 | filtering the completed tasks keeps exactly as many tasks as a one-by-one count of completed flags |
| `TodoList.TotalCount` | src/Component/TodoList.js:232 | the total counter is the number of completed tasks plus the number of uncompleted ones, so it is never below the completed counter |
| `TodoList.Editing` | src/Component/TodoList.js:164 | JavaScript truthiness of `editTaskId`: `null` and 0 give "Add" mode, every other id gives "Update" mode |
| `Text.IsBlank` | src/Component/TodoList.js:38 | the guard `trim() === ''` holds exactly when every character of the draft is whitespace or a line terminator |
| `TodoList.FilterOf` | src/Component/TodoList.js:131-140 | the strings `all`, `completed` and `uncompleted` denote their own filters, and every other string an `Unknown` filter carrying it |
| `TodoList.FilterNameRoundTrip` | src/Component/TodoList.js:127-140 | filters and the strings stored for them correspond one to one, in both directions |
| `TodoProps.PickedFilterView` | src/Component/TodoList.js:127-140 | after picking a filter by its string, `completed` shows the completed tasks, `uncompleted` the uncompleted ones, any other string the whole list; the completed counter does not move |
| `TodoProps.ChangeFilterLastWins` | src/Component/TodoList.js:127-129 | picking two filters in a row equals picking only the second |
| `TodoProps.ToggleTwiceRestores` | src/Component/TodoList.js:65-71 | toggling the same id twice restores the state |
| `TodoProps.ToggleAbsentIsNoOp` | src/Component/TodoList.js:65-71 | toggling an id no task has changes nothing |
| `TodoProps.DeleteAbsentIsNoOp` | src/Component/TodoList.js:73-76 | deleting an id no task has leaves the state unchanged |
| `TodoProps.DeleteIdempotent` | src/Component/TodoList.js:73-76 | deleting twice equals deleting once, and the second delete still toasts success |
| `TodoProps.CompleteAllIdempotent` | src/Component/TodoList.js:117-121 | completing all twice equals completing all once |
| `TodoProps.CompleteAllCountsEverything` | src/Component/TodoList.js:226-232 | after completing all, the completed counter equals the total counter, which is unchanged |
| `TodoProps.ClearCompletedLeavesNoneDone` | src/Component/TodoList.js:123-125 | after clearing, the completed counter is 0 |
| `TodoProps.ClearCompletedIdempotent` | src/Component/TodoList.js:123-125 | clearing twice equals clearing once |
| `TodoProps.ClearCompletedIsUncompletedView` | src/Component/TodoList.js:123-140 | the cleared list equals the `uncompleted` view of the list before clearing |
| `TodoProps.ViewOfAllIsWholeList` | src/Component/TodoList.js:131-140 | under `all`, or any filter value the selector does not offer, the view is the whole list |
| `TodoProps.ViewsPartitionList` | src/Component/TodoList.js:131-140 | the `completed` and `uncompleted` views together hold every task exactly as often as the list; the first is as long as the completed counter, the second is the total minus it |
| `TodoProps.CompletedCountByFlags` | src/Component/TodoList.js:226 | the completed counter depends only on the sequence of completion flags |
| `TodoProps.AddTaskCounters` | src/Component/TodoList.js:56 | a successful add raises the total by one, and the completed counter by one exactly when the returned task is completed |
| `TodoProps.UpdateKeepsCompletedCount` | src/Component/TodoList.js:103-107 | an update never changes the completed counter, although its request claims `completed: false` |
| `TodoProps.UpdateUsesOnlyEchoedTitle` | src/Component/TodoList.js:102-105 | of the service's echo only the title matters: echoes with equal titles give equal steps |
| `TodoProps.VisibleTaskCanBeEdited` | src/Component/TodoList.js:179-195 | every rendered task's id meets the precondition of the edit handler |
| `TodoProps.EditThenSubmit` | src/Component/TodoList.js:78-115 | edit a nonzero id, type a non-blank title, submit successfully: tasks with that id take the echoed title and keep their flag, other tasks are unchanged, the draft is empty and the button is back in "Add" mode |
| `TodoProps.DeleteDuringEditLeavesStaleTarget` | src/Component/TodoList.js:73-109 | deleting the task under edit keeps edit mode with a target no task has; a later successful update renames nothing but still leaves edit mode |
| `TodoMachine.Dispatch` | src/Component/TodoList.js:155-221 | only a submit sends a request; only the seed load changes the loading flag; only the filter selector changes the filter; only a submit or an edit click changes the edit target |
| `TodoMachine.ExitsFromEditing` | src/Component/TodoList.js:164-165 | from "Update" mode the button returns to "Add" exactly on a successful non-blank submit or an edit click on id 0; there is no cancel |
| `TodoMachine.EntriesToEditing` | src/Component/TodoList.js:164-165 | from "Add" mode the button turns to "Update" exactly on an edit click on a nonzero id |
| `TodoMachine.FailedUpdateKeepsSession` | src/Component/TodoList.js:111-114 | a failed or blank submit in "Update" mode keeps the edit target, the draft and the tasks |
| `TodoMachine.EditOfZeroIdSubmitsAsAdd` | src/Component/TodoList.js:164 | after editing the task with id 0, a submit POSTs a new task (or nothing, if blank) instead of a PUT |
| `TodoScenarios.SeedThenView` | src/Component/TodoList.js:131-140 | one uncompleted seed task is shown under `all` and not under `completed`, and loading has ended |
| `TodoScenarios.AddBuyMilk` | src/Component/TodoList.js:55-57 | adding "Buy milk" appends the task the service returns, empties the draft and sends a POST |
| `TodoScenarios.ToggleSingle` | src/Component/TodoList.js:65-71 | ticking the only task completes it |
| `TodoScenarios.DeleteTwice` | src/Component/TodoList.js:73-76 | deleting id 1 from two tasks leaves the second, and a repeat delete changes nothing and toasts success again |

## Left out

- Network I/O: the `fetch` calls, JSON encoding, URLs, HTTP methods and headers (lines 23-24, 48-55, 95-102). Each call's result is an abstract `Reply`. A request is recorded only as its body and, for an update, its target id. `fetch` does not reject on HTTP error statuses, so an error body that decodes as JSON would count as `Ok`. The shape of a reply is not checked: it is taken to be a `Task`.
- React lifecycle: the `useEffect` mount (lines 16-18) is not modelled; `LoadTodos` models only how the fetch resolves. The `isLoading` early render (lines 142-144) is not modelled either.
- Asynchrony: each async handler is one pure step from its pre-state. In the component, the guard and the request body come from the state at the click, while the functional `setTasks` of a resolution applies to the list as it is when the reply arrives. Concurrent resolutions and their interleaving are left out.
- Side effects: `console.log` is left out. Toasts appear only as the `Notice` a handler returns.
- Markup, CSS, images and icons (lines 146-239) are left out. Only the event wiring appears, in `TodoMachine.Dispatch`.
- Value domains: ids are integers, not arbitrary JavaScript values, so the falsy `NaN` id is not modelled. Strings are sequences of Unicode scalar values, not UTF-16 code units, so lone surrogates cannot be represented.
- TodoList.BeginEdit: the path where no task has the id is not modelled. At lines 79-81 the handler queues `setEditTaskId(taskId)` and then throws a TypeError on `taskToEdit.title`. The model requires the id to be present instead. `TodoProps.VisibleTaskCanBeEdited` shows that every rendered edit icon meets this.
- Text.Trim: does not state that the result is a contiguous slice of the input. It states only how the ends look and when the result is empty.
