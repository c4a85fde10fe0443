/**
 * The MapStruct task mapper: create DTO to entity, entity to show DTO,
 * partial update of an entity, and the helpers that turn a status slug,
 * label ids and an assignee id into the entities they name.
 *
 * The repositories it reads are maps: statuses by slug, labels by id,
 * users by id.
 */
module TaskMapper {
  import opened Wrappers
  import opened UserEntity
  import opened TaskModel
  import opened JsonNullableMapper

  /** The body of `POST /api/tasks`. */
  datatype TaskCreateDTO = TaskCreateDTO(
    index: Option<Int32>,
    assigneeId: Option<UserId>,
    title: Option<string>,
    content: Option<string>,
    status: Option<string>,
    taskLabelIds: Option<set<int>>)

  /** What the API shows of a task. */
  datatype TaskShowDTO = TaskShowDTO(
    id: TaskId,
    index: Int32,
    assigneeId: Option<UserId>,
    title: Option<string>,
    content: Option<string>,
    status: Option<string>,
    taskLabelIds: set<int>)

  /** The body of `PUT /api/tasks/{id}`: every field may be absent, present
      with a value, or present as null. */
  datatype TaskUpdateDTO = TaskUpdateDTO(
    assigneeId: Option<JsonNullable<UserId>>,
    title: Option<JsonNullable<string>>,
    content: Option<JsonNullable<string>>,
    status: Option<JsonNullable<string>>,
    taskLabelIds: Option<JsonNullable<set<int>>>)

  /** `orElseThrow()` on an unknown or null status slug. */
  datatype MapError = StatusNotFound

  /** The repositories the mapper reads. */
  datatype Lookups = Lookups(
    statuses: map<string, TaskStatus>,
    labels: map<int, Label>,
    users: map<UserId, User>)

  /** Each entity is stored under its own slug or id. */
  predicate WellKeyed(r: Lookups)
  {
    && (forall s :: s in r.statuses ==> r.statuses[s].slug == Some(s))
    && (forall id :: id in r.labels ==> r.labels[id].id == id)
    && (forall id :: id in r.users ==> r.users[id].id == id)
  }

  /** `taskStatusFromSlug(slug)`: the status with that slug; null and an
      unknown slug both fail. */
  function TaskStatusFromSlug(r: Lookups, slug: Option<string>): (s: Result<TaskStatus, MapError>)
    ensures s.Ok? <==> slug.Some? && slug.value in r.statuses
    ensures s.Ok? ==> s.value == r.statuses[slug.value]
    ensures s.Err? ==> s.error == StatusNotFound
  {
    if slug.Some? && slug.value in r.statuses then Ok(r.statuses[slug.value]) else Err(StatusNotFound)
  }

  /** `labelsFromLabelIds(ids)`: the stored labels among the ids (unknown
      ids are dropped, as `findAllById` does); the empty set for null. */
  function LabelsFromLabelIds(r: Lookups, ids: Option<set<int>>): (labels: set<Label>)
    ensures ids.None? ==> labels == {}
    ensures ids.Some? ==> labels == set id | id in ids.value && id in r.labels :: r.labels[id]
  {
    if ids.None? then {} else set id | id in ids.value && id in r.labels :: r.labels[id]
  }

  /** `taskLabelIdsFromLabels(labels)`: the ids of the labels. */
  function TaskLabelIdsFromLabels(labels: set<Label>): (ids: set<int>)
    ensures forall l :: l in labels ==> l.id in ids
    ensures forall id :: id in ids ==> exists l :: l in labels && l.id == id
  {
    set l | l in labels :: l.id
  }

  /** The reference mapper for the assignee: null for a null id and for an
      id no user has, the user otherwise. */
  function AssigneeFromId(r: Lookups, id: Option<UserId>): (u: Option<User>)
    ensures u.Some? <==> id.Some? && id.value in r.users
    ensures u.Some? ==> u.value == r.users[id.value]
  {
    if id.Some? && id.value in r.users then Some(r.users[id.value]) else None
  }

  /** `map(TaskCreateDTO)`: title to name, content to description, status
      by slug, assignee by id, labels by ids; a null index leaves the
      default 0. Fails exactly when the status lookup fails. */
  function FromCreate(r: Lookups, dto: TaskCreateDTO): (t: Result<Task, MapError>)
    ensures t.Ok? <==> TaskStatusFromSlug(r, dto.status).Ok?
    ensures t.Ok? ==>
      && t.value.id == 0
      && t.value.name == dto.title
      && t.value.description == dto.content
      && t.value.index == (if dto.index.Some? then dto.index.value else 0)
      && t.value.taskStatus == Some(TaskStatusFromSlug(r, dto.status).value)
      && t.value.assignee == AssigneeFromId(r, dto.assigneeId)
      && t.value.labels == LabelsFromLabelIds(r, dto.taskLabelIds)
  {
    match TaskStatusFromSlug(r, dto.status)
    case Err(e) => Err(e)
    case Ok(status) =>
      Ok(NewTask().(
        name := dto.title,
        description := dto.content,
        index := if dto.index.Some? then dto.index.value else 0,
        taskStatus := Some(status),
        assignee := AssigneeFromId(r, dto.assigneeId),
        labels := LabelsFromLabelIds(r, dto.taskLabelIds)))
  }

  /** `map(Task)`: name to title, description to content, the assignee's id,
      the status's slug, the labels' ids. */
  function ToShow(t: Task): (d: TaskShowDTO)
    ensures d.id == t.id && d.index == t.index
    ensures d.title == t.name && d.content == t.description
    ensures d.assigneeId == (if t.assignee.Some? then Some(t.assignee.value.id) else None)
    ensures d.status == (if t.taskStatus.Some? then t.taskStatus.value.slug else None)
    ensures d.taskLabelIds == TaskLabelIdsFromLabels(t.labels)
  {
    TaskShowDTO(
      t.id, t.index,
      if t.assignee.Some? then Some(t.assignee.value.id) else None,
      t.name, t.description,
      if t.taskStatus.Some? then t.taskStatus.value.slug else None,
      TaskLabelIdsFromLabels(t.labels))
  }

  /** `update(dto, task)`: each present field is mapped as on create and
      overwrites the task's; absent fields are left as they were. A present
      status that names no status fails, and no updated task results. */
  function ApplyUpdate(r: Lookups, dto: TaskUpdateDTO, t: Task): (u: Result<Task, MapError>)
    ensures u.Err? <==> IsPresent(dto.status) && TaskStatusFromSlug(r, Unwrap(dto.status)).Err?
    ensures u.Ok? ==>
      && u.value.id == t.id
      && u.value.name == Patch(dto.title, t.name)
      && u.value.description == Patch(dto.content, t.description)
      && u.value.index == t.index
      && u.value.taskStatus == (if IsPresent(dto.status) then Some(TaskStatusFromSlug(r, Unwrap(dto.status)).value) else t.taskStatus)
      && u.value.assignee == (if IsPresent(dto.assigneeId) then AssigneeFromId(r, Unwrap(dto.assigneeId)) else t.assignee)
      && u.value.labels == (if IsPresent(dto.taskLabelIds) then LabelsFromLabelIds(r, Unwrap(dto.taskLabelIds)) else t.labels)
  {
    var status: Result<Option<TaskStatus>, MapError> :=
      if !IsPresent(dto.status) then Ok(t.taskStatus)
      else match TaskStatusFromSlug(r, Unwrap(dto.status))
        case Ok(s) => Ok(Some(s))
        case Err(e) => Err(e);
    if status.Err? then Err(StatusNotFound)
    else
      Ok(t.(
        name := Patch(dto.title, t.name),
        description := Patch(dto.content, t.description),
        taskStatus := status.value,
        assignee := if IsPresent(dto.assigneeId) then AssigneeFromId(r, Unwrap(dto.assigneeId)) else t.assignee,
        labels := if IsPresent(dto.taskLabelIds) then LabelsFromLabelIds(r, Unwrap(dto.taskLabelIds)) else t.labels))
  }

  /** The update that changes nothing: every field undefined. */
  const EmptyTaskUpdate: TaskUpdateDTO := TaskUpdateDTO(None, None, None, None, None)

  /** An update with every field absent leaves the task as it was, whatever
      the repositories hold. */
  lemma EmptyUpdateIsIdentity(r: Lookups, t: Task)
    ensures ApplyUpdate(r, EmptyTaskUpdate, t) == Ok(t)
  {
  }

  /** The ids of the labels found for some ids are exactly those ids that
      name a stored label. */
  lemma LabelIdsRoundTrip(r: Lookups, ids: set<int>)
    requires WellKeyed(r)
    ensures TaskLabelIdsFromLabels(LabelsFromLabelIds(r, Some(ids))) == ids * r.labels.Keys
  {
    var labels := LabelsFromLabelIds(r, Some(ids));
    forall id | id in ids * r.labels.Keys ensures id in TaskLabelIdsFromLabels(labels) {
      assert r.labels[id] in labels;
    }
  }

  /** Stored labels survive the trip through their ids: looking up the ids
      of a set of stored labels gives back that set. */
  lemma LabelsRoundTrip(r: Lookups, labels: set<Label>)
    requires WellKeyed(r)
    requires forall l :: l in labels ==> l.id in r.labels && r.labels[l.id] == l
    ensures LabelsFromLabelIds(r, Some(TaskLabelIdsFromLabels(labels))) == labels
  {
    var ids := TaskLabelIdsFromLabels(labels);
    forall l | l in labels ensures l in LabelsFromLabelIds(r, Some(ids)) {
      assert l == r.labels[l.id];
    }
  }

  /** Showing a task just created from a DTO gives back the DTO's title,
      content, status and index, the assignee id when it names a user, and
      the label ids that name labels. */
  lemma ShowAfterCreate(r: Lookups, dto: TaskCreateDTO)
    requires WellKeyed(r) && FromCreate(r, dto).Ok?
    ensures var d := ToShow(FromCreate(r, dto).value);
      && d.title == dto.title && d.content == dto.content && d.status == dto.status
      && d.index == (if dto.index.Some? then dto.index.value else 0)
      && (dto.assigneeId.Some? && dto.assigneeId.value in r.users ==> d.assigneeId == dto.assigneeId)
      && (dto.assigneeId.None? ==> d.assigneeId.None?)
      && (dto.taskLabelIds.Some? ==> d.taskLabelIds == dto.taskLabelIds.value * r.labels.Keys)
      && (dto.taskLabelIds.None? ==> d.taskLabelIds == {})
  {
    if dto.assigneeId.Some? && dto.assigneeId.value in r.users {
      assert r.users[dto.assigneeId.value].id == dto.assigneeId.value;
    }
    if dto.taskLabelIds.Some? {
      LabelIdsRoundTrip(r, dto.taskLabelIds.value);
    }
  }

  /** A task created from a DTO with a non-empty title is valid: the
      mapping itself supplies the status or fails. */
  lemma CreatedTaskValid(r: Lookups, dto: TaskCreateDTO)
    requires FromCreate(r, dto).Ok?
    requires dto.title.Some? && |dto.title.value| >= 1
    ensures Valid(FromCreate(r, dto).value)
  {
  }

  /** An update keeps a valid task valid unless it sets the title to null
      or to the empty string. */
  lemma UpdateKeepsValid(r: Lookups, dto: TaskUpdateDTO, t: Task)
    requires Valid(t) && ApplyUpdate(r, dto, t).Ok?
    requires IsPresent(dto.title) ==> Unwrap(dto.title).Some? && |Unwrap(dto.title).value| >= 1
    ensures Valid(ApplyUpdate(r, dto, t).value)
  {
  }
}
