/**
 What each service operation does to the rows and which callbacks it queues, when it runs on its own. The
 services themselves are classes in `Services`; each of their methods is proved equal to its rule here.
 */
module ServiceRules {
  import opened Wrappers
  import opened Clock
  import opened Domain

  datatype Entity = ProjectEntity | TaskEntity | LabelEntity | UserEntity

  datatype ServiceError =
    | NotFound(entity: Entity, id: Uuid)
    | PermissionDenied
    | ArchivedProject(project: Uuid)
    | ArchivedTaskUpdate(project: Uuid, task: Uuid)
    | ArchivedTaskDelete(project: Uuid, task: Uuid)
    | ArchivedLabelMutation(project: Uuid)
    | InactiveAssignee(user: Uuid)
    | AssigneeNotMember(project: Uuid, workspace: Uuid, user: Uuid)
    | DuplicateLabel(name: string)
    | LabelProjectMismatch(task: Uuid, labelId: Uuid)

  // ---------------------------------------------------------------- who may do what

  /** `get_accessible_by_id`: the owner first, then the membership row. */
  function Role(db: Database, workspaceId: Uuid, userId: Uuid): Option<AccessRole> {
    if workspaceId !in db.workspaces then None
    else if db.workspaces[workspaceId].ownerId == userId then Some(OWNER)
    else if (workspaceId, userId) !in db.members then None
    else if db.members[(workspaceId, userId)].MemberEditor? then Some(EDITOR)
    else Some(VIEWER)
  }

  function ProjectRole(db: Database, projectId: Uuid, userId: Uuid): Option<AccessRole> {
    if projectId in db.projects then Role(db, db.projects[projectId].workspaceId, userId) else None
  }

  predicate MayWrite(db: Database, projectId: Uuid, userId: Uuid) {
    ProjectRole(db, projectId, userId) in {Some(OWNER), Some(EDITOR)}
  }

  predicate Archived(db: Database, projectId: Uuid) {
    projectId in db.projects && db.projects[projectId].status.ARCHIVED?
  }

  /** The order every mutating operation checks in: visible, then writable, then not archived. */
  function Refusal(db: Database, projectId: Uuid, userId: Uuid, missing: ServiceError, archived: ServiceError):
    (r: Option<ServiceError>)
    ensures r.None? <==> MayWrite(db, projectId, userId) && !Archived(db, projectId)
  {
    if ProjectRole(db, projectId, userId).None? then Some(missing)
    else if ProjectRole(db, projectId, userId) == Some(VIEWER) then Some(PermissionDenied)
    else if Archived(db, projectId) then Some(archived)
    else None
  }

  /** `_validate_assignee`: nobody and oneself need no check. */
  function AssigneeRefusal(db: Database, project: Project, actor: User, assigneeId: Option<Uuid>): Option<ServiceError> {
    if assigneeId.None? || assigneeId.value == actor.id then None
    else if assigneeId.value !in db.users then Some(NotFound(UserEntity, assigneeId.value))
    else if !db.users[assigneeId.value].isActive then Some(InactiveAssignee(assigneeId.value))
    else if Role(db, project.workspaceId, assigneeId.value).None?
    then Some(AssigneeNotMember(project.id, project.workspaceId, assigneeId.value))
    else None
  }

  // ---------------------------------------------------------------- operations

  datatype Operation =
    | CreateTask(projectId: Uuid, draft: TaskDraft)
    | UpdateTask(taskId: Uuid, patch: TaskPatch)
    | DeleteTask(taskId: Uuid)
    | CreateLabel(projectId: Uuid, name: string, color: string)
    | UpdateLabel(labelId: Uuid, change: LabelPatch)
    | DeleteLabel(labelId: Uuid)
    | AssignLabel(taskId: Uuid, labelId: Uuid)
    | RemoveLabel(taskId: Uuid, labelId: Uuid)

  /** A refused operation changes nothing and queues nothing. */
  datatype Outcome = Performed(db: Database, callbacks: seq<Callback>) | Refused(error: ServiceError)

  function NewTask(id: Uuid, projectId: Uuid, actor: User, draft: TaskDraft, now: Instant): Task {
    Task(id, projectId, draft.assigneeId, actor.id, draft.title, draft.description, TODO, draft.priority, draft.dueDate, now, now)
  }

  /** An update that sets only what the row already holds issues no UPDATE, so the row keeps its stamp. */
  function Edited(task: Task, patch: TaskPatch, now: Instant): (r: Task)
    ensures r.id == task.id && r.projectId == task.projectId
  {
    if Patched(task, patch, task.updatedAt) == task then task else Patched(task, patch, now)
  }

  function EditedLabel(row: Label, change: LabelPatch): Label {
    row.(name := OrKeep(change.name, row.name), color := OrKeep(change.color, row.color))
  }

  function Assignee(db: Database, actor: User, assigneeId: Option<Uuid>): Option<User> {
    if assigneeId.None? then None
    else if assigneeId.value == actor.id then Some(actor)
    else if assigneeId.value in db.users then Some(db.users[assigneeId.value]) else None
  }

  function Notice(task: Task, project: Project, assignee: User, actor: User): Notification {
    Notification(task.id, task.title, project.name, assignee.email, assignee.fullName, actor.fullName, task.dueDate)
  }

  /** `_register_assignment_notification`. */
  function Mail(task: Task, project: Project, assignee: Option<User>, actor: User): seq<Callback> {
    if assignee.None? || assignee.value.id == actor.id then []
    else [Dispatch(Notice(task, project, assignee.value, actor))]
  }

  /** The label that already carries a name in a project, other than the given one. */
  predicate NameTaken(db: Database, projectId: Uuid, name: string, except: Option<Uuid>) {
    exists id :: id in db.labels && Some(id) != except && db.labels[id].projectId == projectId && db.labels[id].name == name
  }

  function PairsWithoutTask(pairs: set<(Uuid, Uuid)>, taskId: Uuid): set<(Uuid, Uuid)> {
    set pair | pair in pairs && pair.0 != taskId
  }

  function PairsWithoutLabel(pairs: set<(Uuid, Uuid)>, labelId: Uuid): set<(Uuid, Uuid)> {
    set pair | pair in pairs && pair.1 != labelId
  }

  function CreateTaskRule(db: Database, actor: User, projectId: Uuid, draft: TaskDraft, newId: Uuid, now: Instant): Outcome {
    var refusal := Refusal(db, projectId, actor.id, NotFound(ProjectEntity, projectId), ArchivedProject(projectId));
    if refusal.Some? then Refused(refusal.value) else
      var project := db.projects[projectId];
      var unassignable := AssigneeRefusal(db, project, actor, draft.assigneeId);
      if unassignable.Some? then Refused(unassignable.value) else
        var task := NewTask(newId, projectId, actor, draft, now);
        Performed(db.(tasks := db.tasks[newId := task]),
                  [Invalidate(projectId)] + Mail(task, project, Assignee(db, actor, draft.assigneeId), actor))
  }

  function UpdateTaskRule(db: Database, actor: User, taskId: Uuid, patch: TaskPatch, now: Instant): Outcome {
    if taskId !in db.tasks then Refused(NotFound(TaskEntity, taskId)) else
      var task := db.tasks[taskId];
      var refusal := Refusal(db, task.projectId, actor.id, NotFound(TaskEntity, taskId), ArchivedTaskUpdate(task.projectId, taskId));
      if refusal.Some? then Refused(refusal.value) else
        var project := db.projects[task.projectId];
        var unassignable := if patch.assigneeId.Some? then AssigneeRefusal(db, project, actor, patch.assigneeId.value) else None;
        if unassignable.Some? then Refused(unassignable.value) else
          var edited := Edited(task, patch, now);
          var mail := if edited.assigneeId == task.assigneeId then []
                      else Mail(edited, project, Assignee(db, actor, edited.assigneeId), actor);
          Performed(db.(tasks := db.tasks[taskId := edited]), [Invalidate(task.projectId)] + mail)
  }

  /** Deleting a task takes its label pairs with it. */
  function DeleteTaskRule(db: Database, actor: User, taskId: Uuid): Outcome {
    if taskId !in db.tasks then Refused(NotFound(TaskEntity, taskId)) else
      var projectId := db.tasks[taskId].projectId;
      var refusal := Refusal(db, projectId, actor.id, NotFound(TaskEntity, taskId), ArchivedTaskDelete(projectId, taskId));
      if refusal.Some? then Refused(refusal.value)
      else Performed(db.(tasks := db.tasks - {taskId}, taskLabels := PairsWithoutTask(db.taskLabels, taskId)),
                     [Invalidate(projectId)])
  }

  function CreateLabelRule(db: Database, actor: User, projectId: Uuid, name: string, color: string, newId: Uuid): Outcome {
    var refusal := Refusal(db, projectId, actor.id, NotFound(ProjectEntity, projectId), ArchivedLabelMutation(projectId));
    if refusal.Some? then Refused(refusal.value)
    else if NameTaken(db, projectId, name, None) then Refused(DuplicateLabel(name))
    else Performed(db.(labels := db.labels[newId := Label(newId, projectId, name, color)]), [])
  }

  function UpdateLabelRule(db: Database, actor: User, labelId: Uuid, change: LabelPatch): Outcome {
    if labelId !in db.labels then Refused(NotFound(LabelEntity, labelId)) else
      var row := db.labels[labelId];
      var refusal := Refusal(db, row.projectId, actor.id, NotFound(LabelEntity, labelId), ArchivedLabelMutation(row.projectId));
      if refusal.Some? then Refused(refusal.value)
      else if change.name.Some? && change.name.value != row.name && NameTaken(db, row.projectId, change.name.value, Some(labelId))
      then Refused(DuplicateLabel(change.name.value))
      else Performed(db.(labels := db.labels[labelId := EditedLabel(row, change)]), [])
  }

  /** Deleting a label cascades to its pairs, on whatever tasks they are. */
  function DeleteLabelRule(db: Database, actor: User, labelId: Uuid): Outcome {
    if labelId !in db.labels then Refused(NotFound(LabelEntity, labelId)) else
      var projectId := db.labels[labelId].projectId;
      var refusal := Refusal(db, projectId, actor.id, NotFound(LabelEntity, labelId), ArchivedLabelMutation(projectId));
      if refusal.Some? then Refused(refusal.value)
      else Performed(db.(labels := db.labels - {labelId}, taskLabels := PairsWithoutLabel(db.taskLabels, labelId)), [])
  }

  /** `_validate_assignment`: the error, or the project that both rows belong to. */
  function PairRefusal(db: Database, actor: User, taskId: Uuid, labelId: Uuid): Option<ServiceError> {
    if taskId !in db.tasks then Some(NotFound(TaskEntity, taskId)) else
      var projectId := db.tasks[taskId].projectId;
      var refusal := Refusal(db, projectId, actor.id, NotFound(TaskEntity, taskId), ArchivedTaskUpdate(projectId, taskId));
      if refusal.Some? then refusal
      else if labelId !in db.labels then Some(NotFound(LabelEntity, labelId))
      else if db.labels[labelId].projectId != projectId then Some(LabelProjectMismatch(taskId, labelId))
      else None
  }

  function AssignLabelRule(db: Database, actor: User, taskId: Uuid, labelId: Uuid): Outcome {
    var refusal := PairRefusal(db, actor, taskId, labelId);
    if refusal.Some? then Refused(refusal.value)
    else Performed(db.(taskLabels := db.taskLabels + {(taskId, labelId)}), [Invalidate(db.tasks[taskId].projectId)])
  }

  function RemoveLabelRule(db: Database, actor: User, taskId: Uuid, labelId: Uuid): Outcome {
    var refusal := PairRefusal(db, actor, taskId, labelId);
    if refusal.Some? then Refused(refusal.value)
    else Performed(db.(taskLabels := db.taskLabels - {(taskId, labelId)}), [Invalidate(db.tasks[taskId].projectId)])
  }

  function Execute(db: Database, actor: User, op: Operation, newId: Uuid, now: Instant): Outcome {
    match op
    case CreateTask(projectId, draft) => CreateTaskRule(db, actor, projectId, draft, newId, now)
    case UpdateTask(taskId, patch) => UpdateTaskRule(db, actor, taskId, patch, now)
    case DeleteTask(taskId) => DeleteTaskRule(db, actor, taskId)
    case CreateLabel(projectId, name, color) => CreateLabelRule(db, actor, projectId, name, color, newId)
    case UpdateLabel(labelId, change) => UpdateLabelRule(db, actor, labelId, change)
    case DeleteLabel(labelId) => DeleteLabelRule(db, actor, labelId)
    case AssignLabel(taskId, labelId) => AssignLabelRule(db, actor, taskId, labelId)
    case RemoveLabel(taskId, labelId) => RemoveLabelRule(db, actor, taskId, labelId)
  }
}
