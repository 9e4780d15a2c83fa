/** The list operations behind the task table, as functions on the ordered list of tasks.
    Identity is positional: the task "at row i" is the element at index i. */
module TaskList {
  import opened Tasks

  /** The list after the task at `i` takes `status`, whatever string it is. */
  function WithStatus(ts: seq<Task>, i: nat, status: string): (r: seq<Task>)
    requires i < |ts|
    ensures |r| == |ts|
    ensures r[i].status == status
    ensures r[i].name == ts[i].name && r[i].description == ts[i].description
    ensures r[i].assignee == ts[i].assignee && r[i].dueDate == ts[i].dueDate
    ensures forall j :: 0 <= j < |ts| && j != i ==> r[j] == ts[j]
  {
    ts[i := ts[i].(status := status)]
  }

  /** The list after the task at `i` is deleted: later tasks move down one position. */
  function Removed(ts: seq<Task>, i: nat): (r: seq<Task>)
    requires i < |ts|
    ensures |r| == |ts| - 1
    ensures forall j :: 0 <= j < i ==> r[j] == ts[j]
    ensures forall j :: i <= j < |r| ==> r[j] == ts[j + 1]
    ensures multiset(r) + multiset{ts[i]} == multiset(ts)
  {
    assert ts == ts[..i] + [ts[i]] + ts[i + 1..];
    ts[..i] + ts[i + 1..]
  }

  /** Deleting the task just appended gives back the list it was appended to. */
  lemma RemoveAfterAppend(ts: seq<Task>, t: Task)
    ensures Removed(ts + [t], |ts|) == ts
  {
  }

  /** Setting a task's status back to the value it had restores the whole list. */
  lemma StatusRestored(ts: seq<Task>, i: nat, status: string)
    requires i < |ts|
    ensures WithStatus(WithStatus(ts, i, status), i, ts[i].status) == ts
  {
  }

  /** Of two status updates on the same row, the later one alone decides the result. */
  lemma LastStatusWins(ts: seq<Task>, i: nat, first: string, second: string)
    requires i < |ts|
    ensures WithStatus(WithStatus(ts, i, first), i, second) == WithStatus(ts, i, second)
  {
  }

  /** A status update never changes which tasks are in the list apart from the one status. */
  lemma StatusUpdateKeepsOthers(ts: seq<Task>, i: nat, status: string)
    requires i < |ts|
    ensures multiset(WithStatus(ts, i, status)) == multiset(ts) - multiset{ts[i]} + multiset{ts[i].(status := status)}
  {
  }
}
