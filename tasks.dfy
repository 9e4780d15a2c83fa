/** The task record of src/app.py: five text fields, addressed only by position in the list. */
module Tasks {

  /** Status given to every task the form creates, and the default of the record constructor. */
  const PENDING: string := "Pending"

  /** The values offered by the read-only status selector. Nothing checks that a status is one of them. */
  const STATUS_CHOICES: seq<string> := ["Pending", "In Progress", "Completed"]

  /** One work item. `dueDate` is free text: no date format is enforced anywhere. */
  datatype Task = Task(name: string, description: string, assignee: string, dueDate: string, status: string)
}
