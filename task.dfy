/**
 * The task entity and its field constraints, with the task statuses and
 * labels it refers to.
 */
module TaskModel {
  import opened Wrappers
  import opened UserEntity

  /** Java's `int`: the task's `index` is a plain 32-bit integer. */
  newtype Int32 = x: int | -0x8000_0000 <= x < 0x8000_0000

  type TaskId = int

  /** A workflow status; tasks refer to it by its `slug`. */
  datatype TaskStatus = TaskStatus(id: int, name: Option<string>, slug: Option<string>)

  datatype Label = Label(id: int, name: Option<string>)

  /** A task. `name` and `taskStatus` are nullable in Java and constrained
      by bean validation; `assignee` and `description` are optional;
      `labels` is a set, so it holds no label twice. */
  datatype Task = Task(
    id: TaskId,
    name: Option<string>,
    index: Int32,
    description: Option<string>,
    taskStatus: Option<TaskStatus>,
    assignee: Option<User>,
    labels: set<Label>)

  /** The bean-validation constraints: `name` is not null and has at least
      one character, `taskStatus` is not null. Nothing else is constrained. */
  predicate Valid(t: Task)
  {
    t.name.Some? && |t.name.value| >= 1 && t.taskStatus.Some?
  }

  /** `new Task()`: every reference null, `index` 0, and an empty label set. */
  function NewTask(): (t: Task)
    ensures t.labels == {} && t.index == 0 && t.id == 0
    ensures t.name.None? && t.description.None? && t.taskStatus.None? && t.assignee.None?
    ensures !Valid(t)
  {
    Task(0, None, 0, None, None, None, {})
  }

  /** The optional fields are truly optional: a valid task stays valid
      whatever its assignee, description, index and labels are. */
  lemma OptionalFieldsFree(t: Task, assignee: Option<User>, description: Option<string>, index: Int32, labels: set<Label>)
    ensures Valid(t) <==> Valid(t.(assignee := assignee, description := description, index := index, labels := labels))
  {
  }

  /** A valid task needs a name of at least one character and a status:
      the empty name and the missing status are both rejected. */
  lemma RequiredFields(t: Task, status: TaskStatus)
    ensures !Valid(t.(name := Some(""))) && !Valid(t.(name := None)) && !Valid(t.(taskStatus := None))
    ensures Valid(t.(name := Some("x"), taskStatus := Some(status)))
  {
  }
}
