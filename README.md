# Project-Manager task list, modelled in Dafny

Project-Manager is a single-window desktop task tracker. Its data core is the list of tasks
held by the `ProjectManagerGUI` window object in `src/app.py`. A task has five text fields:
name, description, assignee, due date and status. Tasks are identified only by their
position in the list. The list changes in three ways:

- the form appends a new task with status "Pending";
- the status selector overwrites the status of the selected task;
- the delete button removes the selected task.

After each change the table is rebuilt, one row per task in list order, so the index of a
selected row is always an index into the list. At start-up the list is read from a JSON
file. At exit it is written back as an array of attribute dictionaries.

The model has five modules:

- `Results` holds `Option` and `Result`.
- `Tasks` holds the task record and its status constants.
- `TaskList` holds the status update and the deletion as functions on the list, with lemmas
  relating them.
- `Persistence` holds the record mapping. `ToRecord` models `vars(task)`, `FromRecord`
  models `Task(**item)`, and `DecodeAll` and `LoadTasks` model the whole load. It also holds
  the round-trip lemmas in both directions.
- `App` holds the class `ProjectManager`. Its `tasks` and `rows` fields are what the window
  mutates, and its methods are the window's handlers. The selected row and the chosen status
  are method parameters. The data file is an abstract `FileState` value: `Missing`,
  `Undecodable`, or `Json(items)` with one string-keyed record per array element.

What the code does and does not check:

- Status update does not validate the status. The selector is read-only with three values,
  but it starts out empty, so the empty string can be stored.
- Status update and delete raise no out-of-range error. With no selection they do nothing.
  With a selection, the index always names a task, because the table has one row per task
  (`ProjectManager.Valid`).
- Loading a record with a key the task constructor does not accept fails, as loading one
  that lacks a required key does.

## Model

| member | source | states |
|---|---|---|
| `TaskList.WithStatus` | src/app.py:121-123 | the list after a status update keeps its length and order; only the selected task's status changes, to the given string, and its other four fields and every other task stay as they were |
| `TaskList.Removed` | src/app.py:129-130 | the list after a delete is one shorter; tasks before the index stay in place, every later task moves down one position, and the tasks left are the old ones minus exactly the deleted one (as a multiset) |
| `TaskList.RemoveAfterAppend` | src/app.py:105-112 | deleting the task that add just appended gives back the previous list |
| `TaskList.StatusRestored` | src/app.py:123 | setting a task's status back to its earlier value restores the whole list |
| `TaskList.LastStatusWins` | src/app.py:123 | of two status updates on the same row, the later one alone decides the result |
| `TaskList.StatusUpdateKeepsOthers` | src/app.py:123 | a status update swaps exactly one task for its re-statused copy and keeps every other task |
| `Persistence.ToRecord` | src/app.py:173 | a task's attribute dictionary has exactly the keys name, description, assignee, due_date and status, holding the task's field values |
| `Persistence.FromRecord` | src/app.py:184 | keyword construction succeeds exactly when the record has the four required keys and no key outside the five; an unknown key is reported before a missing one; a missing-key error names exactly the missing required keys; a missing status becomes "Pending"; the task's dictionary equals the record apart from the status |
| `Persistence.DecodeAll` | src/app.py:184 | conversion of an array succeeds exactly when every record converts, and then gives one task per record in array order; otherwise it fails at the first record that cannot be converted |
| `Persistence.LoadTasks` | src/app.py:180-186 | a missing or undecodable file loads as the empty list; a decoded array loads as one task per element in order, and fails exactly when some element cannot be converted |
| `Persistence.SaveRecords` | src/app.py:173 | save writes one five-key record per task, in list order, and each record converts back to its task |
| `Persistence.RecordRoundTrip` | src/app.py:173 | converting a task's dictionary back gives the same task |
| `Persistence.FullRecordRoundTrip` | src/app.py:184 | a record with exactly the five keys converts to a task whose dictionary is that record |
| `Persistence.MissingStatusIsPending` | src/app.py:21 | a record with only the four required keys converts to a "Pending" task carrying their values |
| `Persistence.SaveLoadRoundTrip` | src/app.py:172-186 | loading what save wrote gives back the same list, field for field and in order |
| `Persistence.LoadSaveRoundTrip` | src/app.py:172-186 | a file of five-key records loads without error, and saving the result writes the same records |
| `App.ProjectManager.constructor` | src/app.py:38 | before loading, the list and the table are empty |
| `App.ProjectManager.Open` | src/app.py:29-42 | start-up either fails with the load's error, or yields a window whose list is the loaded list and whose table matches it |
| `App.ProjectManager.LoadFromJson` | src/app.py:180-186 | the list is replaced wholesale by what the file loads as; on a conversion error the error is returned and the list is unchanged |
| `App.ProjectManager.SaveToJson` | src/app.py:172-178 | save never changes the list; a successful write leaves a file that loads back to the list; a failed write is reported and leaves the file as it was |
| `App.ProjectManager.RefreshTable` | src/app.py:137-146 | after a rebuild the table has one row per task, in list order, showing its five fields and tagged with its status |
| `App.ProjectManager.AddTask` | src/app.py:103-113 | add appends exactly one task at the end, carrying the four given values and status "Pending"; earlier tasks are unchanged and the table matches the list |
| `App.ProjectManager.UpdateStatus` | src/app.py:118-124 | with no selection nothing changes; with a selected row the list becomes `WithStatus` of the old list at that index, with any status string; the table matches the list |
| `App.ProjectManager.DeleteTask` | src/app.py:126-131 | with no selection nothing changes; with a selected row the list becomes `Removed` of the old list at that index; the table matches the list |

## Left out

- Window setup, styles, widget layout, the form and its clearing, message boxes, the row
  colours chosen per status tag, and the event loop (src/app.py:28-37, 40-100, 133-135,
  147-151, 192-194). These are presentation only. The rows keep the values and the tag, not
  the colours. The start-up steps at src/app.py:38, 39 and 101 are modelled, by the
  constructor, `LoadFromJson` and `RefreshTable`.
- File paths, directory creation, opening files and the JSON text with its indentation
  (src/app.py:10-12, 36, 175-176, 182-183). The file is the abstract `FileState`, and a
  successful write replaces it wholly. Partial or truncated writes are not modelled.
- JSON documents other than an array of objects with string values are not modelled. This
  includes numbers, null or nested values in a record, a non-array top level, and
  non-object elements. So are read errors other than a missing file or undecodable JSON,
  such as a permission error or undecodable bytes, which the load does not catch.
- `App.ProjectManager.Open`: does not model the exception itself. A conversion error is
  returned as a value, where the program raises it out of the window's initialiser.
- The closing handler (src/app.py:188-190) is the save followed by closing the window. Only
  the save is modelled.
- The earlier definitions of the save, load and close handlers (src/app.py:153-168) are
  replaced by the later ones in the class body and never run.
- The exception handler in the add handler (src/app.py:104, 115-116) is left out. Nothing in
  the modelled logic can raise there.
- `validar_fecha`, `cargar_datos` and `guardar_datos` (src/utils.py) are left out. Their
  import is commented out, so they are never called. The date check is also a wrapper over
  the standard library's date parser.
