/** The window object of src/app.py with its widgets reduced to what the list operations use:
    the task list it mutates, the table rows it rebuilds from that list, the selected row and
    the chosen status (both passed in), and the data file (passed in and handed back). */
module App {
  import opened Results
  import opened Tasks
  import opened TaskList
  import opened Persistence

  /** One table row: the five column values and the tag that colours the row by status. */
  datatype Row = Row(values: seq<string>, tag: string)

  function RowOf(t: Task): Row {
    Row([t.name, t.description, t.assignee, t.dueDate, t.status], t.status)
  }

  class ProjectManager {
    /** The tasks in display order. */
    var tasks: seq<Task>
    /** The rows the table shows; a selected row is addressed by its index here. */
    var rows: seq<Row>

    /** The table shows one row per task, in list order. */
    ghost predicate Valid()
      reads this
    {
      |rows| == |tasks| && forall i :: 0 <= i < |tasks| ==> rows[i] == RowOf(tasks[i])
    }

    /** The state before the data file is read: no tasks and an empty table. */
    constructor ()
      ensures tasks == [] && rows == []
    {
      tasks := [];
      rows := [];
    }

    /** Start-up: read the file, then build the table. A record the task constructor rejects
        raises out of start-up, so no window is produced. */
    static method Open(file: FileState) returns (r: Result<ProjectManager, LoadError>)
      ensures LoadTasks(file).Err? ==> r == Err(LoadTasks(file).error)
      ensures LoadTasks(file).Ok? ==> r.Ok? && fresh(r.value) && r.value.Valid()
      ensures LoadTasks(file).Ok? ==> r.value.tasks == LoadTasks(file).value
    {
      var gui := new ProjectManager();
      var err := gui.LoadFromJson(file);
      if err.Some? {
        return Err(err.value);
      }
      gui.RefreshTable();
      return Ok(gui);
    }

    /** Replaces the list wholesale with what the file holds. When a record raises, the
        assignment never happens and the list is as before. The table is not touched. */
    method LoadFromJson(file: FileState) returns (err: Option<LoadError>)
      modifies this`tasks
      ensures LoadTasks(file).Ok? ==> err == None && tasks == LoadTasks(file).value
      ensures LoadTasks(file).Err? ==> err == Some(LoadTasks(file).error) && tasks == old(tasks)
    {
      match LoadTasks(file)
      case Ok(ts) =>
        tasks := ts;
        err := None;
      case Err(e) =>
        err := Some(e);
    }

    /** Writes the list to the file when it can; otherwise reports and leaves the file as it
        was. The list itself is never changed, and what was written loads back to it. */
    method SaveToJson(disk: FileState, writable: bool) returns (written: FileState, outcome: SaveOutcome)
      ensures writable ==> outcome == Written && written == Json(SaveRecords(tasks))
      ensures writable ==> LoadTasks(written) == Ok(tasks)
      ensures !writable ==> outcome == Reported && written == disk
    {
      if writable {
        SaveLoadRoundTrip(tasks);
        written, outcome := Json(SaveRecords(tasks)), Written;
      } else {
        written, outcome := disk, Reported;
      }
    }

    /** Clears the table and inserts one row per task, in list order. */
    method RefreshTable()
      modifies this`rows
      ensures Valid()
    {
      rows := [];
      for i := 0 to |tasks|
        invariant |rows| == i
        invariant forall k :: 0 <= k < i ==> rows[k] == RowOf(tasks[k])
      {
        rows := rows + [RowOf(tasks[i])];
      }
    }

    /** Appends a pending task holding the four form values, then rebuilds the table. */
    method AddTask(name: string, description: string, assignee: string, dueDate: string)
      requires Valid()
      modifies this
      ensures Valid()
      ensures tasks == old(tasks) + [Task(name, description, assignee, dueDate, PENDING)]
    {
      tasks := tasks + [Task(name, description, assignee, dueDate, PENDING)];
      RefreshTable();
    }

    /** Gives the selected task the chosen status, unchecked (the selector starts out empty,
        so the empty string can be chosen). Without a selection nothing happens. */
    method UpdateStatus(selection: Option<nat>, status: string)
      requires Valid()
      requires selection.Some? ==> selection.value < |rows|
      modifies this
      ensures Valid()
      ensures selection.None? ==> tasks == old(tasks) && rows == old(rows)
      ensures selection.Some? ==> tasks == WithStatus(old(tasks), selection.value, status)
    {
      if selection.Some? {
        var index := selection.value;
        tasks := WithStatus(tasks, index, status);
        RefreshTable();
      }
    }

    /** Deletes the selected task, then rebuilds the table. Without a selection nothing happens. */
    method DeleteTask(selection: Option<nat>)
      requires Valid()
      requires selection.Some? ==> selection.value < |rows|
      modifies this
      ensures Valid()
      ensures selection.None? ==> tasks == old(tasks) && rows == old(rows)
      ensures selection.Some? ==> tasks == Removed(old(tasks), selection.value)
    {
      if selection.Some? {
        var index := selection.value;
        tasks := Removed(tasks, index);
        RefreshTable();
      }
    }
  }

  /** A session as a user drives it: start without a file, add a task, move it on, save,
      start again from the saved file, and delete the task. */
  method ExampleSession() {
    var started := ProjectManager.Open(Missing);
    assert started.Ok?;
    var gui := started.value;
    gui.AddTask("Design", "Draft the plan", "Alice", "2024-01-10");
    assert gui.tasks == [Task("Design", "Draft the plan", "Alice", "2024-01-10", PENDING)];
    gui.UpdateStatus(Some(0), STATUS_CHOICES[1]);
    assert gui.tasks[0].status == "In Progress";
    var file, outcome := gui.SaveToJson(Missing, true);
    var reopened := ProjectManager.Open(file);
    assert reopened.Ok? && reopened.value.tasks == gui.tasks;
    gui.DeleteTask(Some(0));
    assert gui.tasks == [];
  }
}
