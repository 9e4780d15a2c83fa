/** The record-level mapping between the task list and the JSON file of src/app.py.
    The file is abstract: it is missing, it does not decode as JSON, or it decodes to an
    array of objects whose values are strings. */
module Persistence {
  import opened Results
  import opened Tasks

  /** A JSON object as the decoder gives it: keys to string values. */
  type Record = map<string, string>

  const NAME_KEY: string := "name"
  const DESCRIPTION_KEY: string := "description"
  const ASSIGNEE_KEY: string := "assignee"
  const DUE_DATE_KEY: string := "due_date"
  const STATUS_KEY: string := "status"

  /** The keyword parameters of the task constructor that have no default. */
  const REQUIRED_KEYS: set<string> := {NAME_KEY, DESCRIPTION_KEY, ASSIGNEE_KEY, DUE_DATE_KEY}

  /** Every keyword parameter of the task constructor: the attribute names of a task. */
  const FIELD_KEYS: set<string> := REQUIRED_KEYS + {STATUS_KEY}

  /** The ways keyword construction of a task raises a type error. Python names only the
      first unexpected keyword; `unknown` holds all of them. A "self" key also raises (the
      argument is given twice, once as the receiver); it is not a field key, so it is filed
      here as an unexpected keyword, with the same effect on the load. */
  datatype RecordError =
    | UnexpectedKeyword(unknown: set<string>)
    | MissingArguments(missing: set<string>)

  /** A load that raised: the array position of the record that could not be turned into a task. */
  datatype LoadError = BadRecord(position: nat, error: RecordError)

  datatype FileState = Missing | Undecodable | Json(items: seq<Record>)

  /** Whether a save wrote the file or reported that it could not. */
  datatype SaveOutcome = Written | Reported

  /** The attribute dictionary of a task, as the save writes it. */
  function ToRecord(t: Task): (r: Record)
    ensures r.Keys == FIELD_KEYS
    ensures r[NAME_KEY] == t.name && r[DESCRIPTION_KEY] == t.description
    ensures r[ASSIGNEE_KEY] == t.assignee && r[DUE_DATE_KEY] == t.dueDate && r[STATUS_KEY] == t.status
  {
    map[NAME_KEY := t.name, DESCRIPTION_KEY := t.description, ASSIGNEE_KEY := t.assignee,
        DUE_DATE_KEY := t.dueDate, STATUS_KEY := t.status]
  }

  /** Keyword construction of a task from a record. A key that is not a parameter is rejected
      before missing parameters are looked for; a missing status takes the default. */
  function FromRecord(r: Record): (res: Result<Task, RecordError>)
    ensures res.Ok? <==> REQUIRED_KEYS <= r.Keys <= FIELD_KEYS
    ensures (exists k :: k in r && k !in FIELD_KEYS) ==> res == Err(UnexpectedKeyword(r.Keys - FIELD_KEYS))
    ensures r.Keys <= FIELD_KEYS && !(REQUIRED_KEYS <= r.Keys) ==> res == Err(MissingArguments(REQUIRED_KEYS - r.Keys))
    ensures res.Ok? ==> ToRecord(res.value) == r[STATUS_KEY := res.value.status]
    ensures res.Ok? ==> res.value.status == (if STATUS_KEY in r then r[STATUS_KEY] else PENDING)
  {
    if !(r.Keys <= FIELD_KEYS) then
      Err(UnexpectedKeyword(r.Keys - FIELD_KEYS))
    else if !(REQUIRED_KEYS <= r.Keys) then
      Err(MissingArguments(REQUIRED_KEYS - r.Keys))
    else
      var t := Task(r[NAME_KEY], r[DESCRIPTION_KEY], r[ASSIGNEE_KEY], r[DUE_DATE_KEY],
                    if STATUS_KEY in r then r[STATUS_KEY] else PENDING);
      assert ToRecord(t) == r[STATUS_KEY := t.status] by {
        assert ToRecord(t).Keys == r[STATUS_KEY := t.status].Keys;
      }
      Ok(t)
  }

  /** One task per record, in array order; the first record that cannot be turned into a task
      aborts the whole conversion. */
  function DecodeAll(items: seq<Record>): (res: Result<seq<Task>, LoadError>)
    ensures res.Ok? <==> forall i :: 0 <= i < |items| ==> FromRecord(items[i]).Ok?
    ensures res.Ok? ==> |res.value| == |items|
    ensures res.Ok? ==> forall i :: 0 <= i < |items| ==> FromRecord(items[i]) == Ok(res.value[i])
    ensures res.Err? ==> var p := res.error.position;
      && p < |items|
      && FromRecord(items[p]) == Err(res.error.error)
      && forall i :: 0 <= i < p ==> FromRecord(items[i]).Ok?
  {
    if items == [] then
      Ok([])
    else
      match FromRecord(items[0])
      case Err(e) => Err(BadRecord(0, e))
      case Ok(t) =>
        match DecodeAll(items[1..])
        case Err(BadRecord(p, e)) => Err(BadRecord(p + 1, e))
        case Ok(ts) => Ok([t] + ts)
  }

  /** What the load assigns to the task list, or the error it raises. */
  function LoadTasks(file: FileState): (res: Result<seq<Task>, LoadError>)
    ensures !file.Json? ==> res == Ok([])
    ensures file.Json? && res.Ok? ==> |res.value| == |file.items|
    ensures file.Json? && res.Ok? ==> forall i :: 0 <= i < |file.items| ==> FromRecord(file.items[i]) == Ok(res.value[i])
    ensures file.Json? ==> (res.Err? <==> exists i :: 0 <= i < |file.items| && FromRecord(file.items[i]).Err?)
  {
    match file
    case Missing => Ok([])
    case Undecodable => Ok([])
    case Json(items) => DecodeAll(items)
  }

  /** The array of attribute dictionaries the save writes, one per task in list order. */
  function SaveRecords(ts: seq<Task>): (items: seq<Record>)
    ensures |items| == |ts|
    ensures forall i :: 0 <= i < |ts| ==> items[i].Keys == FIELD_KEYS && FromRecord(items[i]) == Ok(ts[i])
  {
    seq(|ts|, i requires 0 <= i < |ts| => ToRecord(ts[i]))
  }

  /** A saved task converts back to itself. */
  lemma RecordRoundTrip(t: Task)
    ensures FromRecord(ToRecord(t)) == Ok(t)
  {
  }

  /** A record holding exactly the five keys is the saved form of the task it converts to. */
  lemma FullRecordRoundTrip(r: Record)
    requires r.Keys == FIELD_KEYS
    ensures FromRecord(r).Ok? && ToRecord(FromRecord(r).value) == r
  {
  }

  /** A record without a status converts to a pending task carrying its four other values. */
  lemma MissingStatusIsPending(r: Record)
    requires r.Keys == REQUIRED_KEYS
    ensures FromRecord(r) == Ok(Task(r[NAME_KEY], r[DESCRIPTION_KEY], r[ASSIGNEE_KEY], r[DUE_DATE_KEY], PENDING))
  {
  }

  /** Loading what was saved gives back the same list, field for field and in order. */
  lemma {:induction false} SaveLoadRoundTrip(ts: seq<Task>)
    ensures LoadTasks(Json(SaveRecords(ts))) == Ok(ts)
  {
    var res := LoadTasks(Json(SaveRecords(ts)));
    assert res.Ok?;
    assert forall i :: 0 <= i < |ts| ==> res.value[i] == ts[i];
    assert res.value == ts;
  }

  /** Saving what was loaded from records holding exactly the five keys reproduces those records. */
  lemma {:induction false} LoadSaveRoundTrip(items: seq<Record>)
    requires forall i :: 0 <= i < |items| ==> items[i].Keys == FIELD_KEYS
    ensures LoadTasks(Json(items)).Ok?
    ensures SaveRecords(LoadTasks(Json(items)).value) == items
  {
    forall i | 0 <= i < |items|
      ensures FromRecord(items[i]).Ok? && ToRecord(FromRecord(items[i]).value) == items[i]
    {
      FullRecordRoundTrip(items[i]);
    }
    var ts := LoadTasks(Json(items)).value;
    assert forall i :: 0 <= i < |items| ==> SaveRecords(ts)[i] == ToRecord(ts[i]) == items[i];
  }
}
