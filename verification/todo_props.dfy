/**
 Properties that relate several calls of the `TodoList` handlers: round trips,
 idempotence, agreement between a handler and the filtered view, and the
 effect of each handler on the two counters.
 */
module TodoProps {
  import opened Seqs
  import opened Text
  import opened TodoList

  /** Ticking the same checkbox twice restores the list. */
  lemma ToggleTwiceRestores(s: State, taskId: int)
    ensures ToggleCompleted(ToggleCompleted(s, taskId), taskId) == s
  {
    var r := ToggleCompleted(ToggleCompleted(s, taskId), taskId);
    assert r.tasks == s.tasks;
  }

  /** Toggling an id no task carries changes nothing. */
  lemma ToggleAbsentIsNoOp(s: State, taskId: int)
    requires !HasId(s.tasks, taskId)
    ensures ToggleCompleted(s, taskId) == s
  {
    assert ToggleCompleted(s, taskId).tasks == s.tasks;
  }

  /** Deleting an id no task carries leaves the state as it was. */
  lemma DeleteAbsentIsNoOp(s: State, taskId: int)
    requires !HasId(s.tasks, taskId)
    ensures DeleteTask(s, taskId).state == s
  {
    KeepAllAccepted(s.tasks, OtherThan(taskId));
  }

  /** Deleting twice is deleting once; the second delete still reports success. */
  lemma DeleteIdempotent(s: State, taskId: int)
    ensures DeleteTask(DeleteTask(s, taskId).state, taskId).state == DeleteTask(s, taskId).state
    ensures DeleteTask(DeleteTask(s, taskId).state, taskId).notice == Success(DeletedMessage)
  {
    KeepIdempotent(s.tasks, OtherThan(taskId));
  }

  /** "Complete All Tasks" a second time changes nothing. */
  lemma CompleteAllIdempotent(s: State)
    ensures CompleteAll(CompleteAll(s)) == CompleteAll(s)
  {
    assert CompleteAll(CompleteAll(s)).tasks == CompleteAll(s).tasks;
  }

  /** After "Complete All Tasks" the two counters agree. */
  lemma CompleteAllCountsEverything(s: State)
    ensures CompletedCount(CompleteAll(s).tasks) == TotalCount(CompleteAll(s).tasks) == TotalCount(s.tasks)
  {
  }

  /** After clearing, the completed counter reads 0. */
  lemma ClearCompletedLeavesNoneDone(s: State)
    ensures CompletedCount(ClearCompleted(s).tasks) == 0
  {
    var r := ClearCompleted(s).tasks;
    forall i | 0 <= i < |r|
      ensures !r[i].completed
    {
      assert r[i] in r;
    }
  }

  /** Clearing twice is clearing once. */
  lemma ClearCompletedIdempotent(s: State)
    ensures ClearCompleted(ClearCompleted(s)) == ClearCompleted(s)
  {
    KeepIdempotent(s.tasks, IsOpen);
  }

  /** Clearing keeps exactly what the `uncompleted` view shows. */
  lemma ClearCompletedIsUncompletedView(s: State)
    ensures ClearCompleted(s).tasks == FilteredTasks(s.(filter := Uncompleted))
  {
    KeepExtensional(s.tasks, IsOpen, ShownBy(Uncompleted));
  }

  /** The `all` filter, and any value the selector does not offer, show the
      whole list. */
  lemma ViewOfAllIsWholeList(s: State)
    requires s.filter.All? || s.filter.Unknown?
    ensures FilteredTasks(s) == s.tasks
  {
    KeepAllAccepted(s.tasks, ShownBy(s.filter));
  }

  /** The `completed` and `uncompleted` views split the list: together they
      hold every task exactly as often as the list does, the first is as long
      as the completed counter says, the second makes up the rest. */
  lemma ViewsPartitionList(s: State)
    ensures multiset(FilteredTasks(s.(filter := Completed))) + multiset(FilteredTasks(s.(filter := Uncompleted)))
            == multiset(s.tasks)
    ensures |FilteredTasks(s.(filter := Completed))| == CompletedCount(s.tasks)
    ensures |FilteredTasks(s.(filter := Uncompleted))| == TotalCount(s.tasks) - CompletedCount(s.tasks)
  {
    KeepPartition(s.tasks, ShownBy(Completed), ShownBy(Uncompleted));
    KeepExtensional(s.tasks, ShownBy(Completed), IsDone);
  }

  /** Picking a filter by its string: `"completed"` shows the completed tasks,
      `"uncompleted"` the others, and every other string the whole list; the
      counters do not move. */
  lemma PickedFilterView(s: State, name: string)
    ensures FilteredTasks(ChangeFilter(s, FilterOf(name))) ==
      if name == "completed" then Keep(s.tasks, IsDone)
      else if name == "uncompleted" then Keep(s.tasks, IsOpen)
      else s.tasks
    ensures CompletedCount(ChangeFilter(s, FilterOf(name)).tasks) == CompletedCount(s.tasks)
  {
    var f := FilterOf(name);
    if name == "completed" {
      KeepExtensional(s.tasks, ShownBy(f), IsDone);
    } else if name == "uncompleted" {
      KeepExtensional(s.tasks, ShownBy(f), IsOpen);
    } else {
      KeepAllAccepted(s.tasks, ShownBy(f));
    }
  }

  /** The last filter picked wins. */
  lemma ChangeFilterLastWins(s: State, f: Filter, g: Filter)
    ensures ChangeFilter(ChangeFilter(s, f), g) == ChangeFilter(s, g)
  {
  }

  /** The completed counter depends only on the sequence of completion flags. */
  lemma {:induction false} CompletedCountByFlags(a: seq<Task>, b: seq<Task>)
    requires |a| == |b|
    requires forall i :: 0 <= i < |a| ==> a[i].completed == b[i].completed
    ensures CompletedCount(a) == CompletedCount(b)
  {
    if |a| > 0 {
      CompletedCountByFlags(a[1..], b[1..]);
      assert Keep(a, IsDone) == (if a[0].completed then [a[0]] else []) + Keep(a[1..], IsDone);
      assert Keep(b, IsDone) == (if b[0].completed then [b[0]] else []) + Keep(b[1..], IsDone);
    }
  }

  /** A successful add raises the total by one and the completed counter by
      one exactly when the service returned a completed task. */
  lemma AddTaskCounters(s: State, added: Task)
    requires !IsBlank(s.inputValue)
    ensures TotalCount(AddTask(s, Ok(added)).state.tasks) == TotalCount(s.tasks) + 1
    ensures CompletedCount(AddTask(s, Ok(added)).state.tasks)
            == CompletedCount(s.tasks) + (if added.completed then 1 else 0)
  {
    KeepAppend(s.tasks, [added], IsDone);
    assert Keep([added], IsDone) == Keep([], IsDone) + (if added.completed then [added] else []);
  }

  /** An update, whatever its outcome, leaves the completed counter as it was,
      although the request it sends claims `completed: false`. */
  lemma UpdateKeepsCompletedCount(s: State, reply: Reply<Task>)
    ensures CompletedCount(UpdateTask(s, reply).state.tasks) == CompletedCount(s.tasks)
  {
    var r := UpdateTask(s, reply).state.tasks;
    if !IsBlank(s.inputValue) && reply.Ok? {
      CompletedCountByFlags(r, s.tasks);
    }
  }

  /** Of the service's echo only the title is used: two echoes with the same
      title give the same step. */
  lemma UpdateUsesOnlyEchoedTitle(s: State, e1: Task, e2: Task)
    requires e1.title == e2.title
    ensures UpdateTask(s, Ok(e1)) == UpdateTask(s, Ok(e2))
  {
    if !IsBlank(s.inputValue) {
      assert UpdateTask(s, Ok(e1)).state.tasks == UpdateTask(s, Ok(e2)).state.tasks;
    }
  }

  /** Every task the list renders can be handed to `BeginEdit`: its id is present. */
  lemma VisibleTaskCanBeEdited(s: State, t: Task)
    requires t in FilteredTasks(s)
    ensures HasId(s.tasks, t.id)
  {
    var i :| 0 <= i < |s.tasks| && s.tasks[i] == t;
  }

  /** Edit, retype, submit: the tasks with the edited id take the echoed
      title and keep their completion flag, the other tasks are untouched,
      and the input is back in "Add" mode with an empty draft. */
  lemma EditThenSubmit(s: State, taskId: int, text: string, echo: Task)
    requires HasId(s.tasks, taskId) && taskId != 0
    requires !IsBlank(text)
    ensures var r := Submit(ChangeInput(BeginEdit(s, taskId), text), Ok(echo)).state;
      && |r.tasks| == |s.tasks|
      && (forall i :: 0 <= i < |s.tasks| && s.tasks[i].id == taskId ==>
            r.tasks[i] == s.tasks[i].(title := echo.title))
      && (forall i :: 0 <= i < |s.tasks| && s.tasks[i].id != taskId ==> r.tasks[i] == s.tasks[i])
      && r.inputValue == "" && !Editing(r)
  {
    var typed := ChangeInput(BeginEdit(s, taskId), text);
    assert Editing(typed) && typed.tasks == s.tasks && typed.editTaskId == Some(taskId);
    assert Submit(typed, Ok(echo)) == UpdateTask(typed, Ok(echo));
  }

  /** Deleting the task under edit does not leave edit mode; the later
      successful update then renames nothing, yet still leaves edit mode. */
  lemma DeleteDuringEditLeavesStaleTarget(s: State, echo: Task)
    requires Editing(s)
    ensures var d := DeleteTask(s, s.editTaskId.value).state;
      && Editing(d) && !HasId(d.tasks, d.editTaskId.value)
      && (!IsBlank(d.inputValue) ==>
            UpdateTask(d, Ok(echo)).state.tasks == d.tasks && !Editing(UpdateTask(d, Ok(echo)).state))
  {
    var d := DeleteTask(s, s.editTaskId.value).state;
    if !IsBlank(d.inputValue) {
      var u := UpdateTask(d, Ok(echo)).state;
      forall i | 0 <= i < |d.tasks|
        ensures u.tasks[i] == d.tasks[i]
      {
        assert d.editTaskId != Some(d.tasks[i].id);
      }
      assert u.tasks == d.tasks;
    }
  }
}
