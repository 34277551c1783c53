/**
 Concrete runs of the component on small lists, as a user would drive it.
 */
module TodoScenarios {
  import opened Text
  import opened TodoList

  /** One uncompleted seed task: visible under `all`, absent under `completed`. */
  lemma SeedThenView()
    ensures var s := LoadTodos(Initial, Ok([Task(1, "A", false)]));
      && !s.isLoading
      && FilteredTasks(s) == [Task(1, "A", false)]
      && FilteredTasks(s.(filter := Completed)) == []
  {
    var s := LoadTodos(Initial, Ok([Task(1, "A", false)]));
    assert !Shows(Completed, Task(1, "A", false));
  }

  /** Adding "Buy milk" appends the task the service returns and empties the input. */
  lemma AddBuyMilk(tasks: seq<Task>)
    ensures var s := State(tasks, "Buy milk", All, false, None);
      var r := Submit(s, Ok(Task(99, "Buy milk", false)));
      && r.state.tasks == tasks + [Task(99, "Buy milk", false)]
      && r.state.inputValue == ""
      && r.sent == Some(Create("Buy milk", false))
  {
    var s := State(tasks, "Buy milk", All, false, None);
    assert !IsTrimmable(s.inputValue[0]);
  }

  /** Ticking the checkbox of the only task completes it. */
  lemma ToggleSingle()
    ensures ToggleCompleted(State([Task(1, "A", false)], "", All, false, None), 1).tasks
            == [Task(1, "A", true)]
  {
  }

  /** Deleting id 1 from two tasks leaves the second; deleting it again still
      reports success and changes nothing. */
  lemma DeleteTwice()
    ensures var s := State([Task(1, "A", false), Task(2, "B", true)], "", All, false, None);
      var d := DeleteTask(s, 1);
      && d.state.tasks == [Task(2, "B", true)]
      && DeleteTask(d.state, 1) == d
  {
    var s := State([Task(1, "A", false), Task(2, "B", true)], "", All, false, None);
    assert s.tasks[1..] == [Task(2, "B", true)];
  }
}
