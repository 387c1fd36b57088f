/**
 The rows and value objects of Task Hub. One `Database` value is shared by every part of the model:
 the task-list cache, the label/task triggers and the services all speak about these rows.
 */
module Domain {
  import opened Wrappers
  import opened Clock

  /** A UUID is its 128-bit number; PostgreSQL orders UUIDs by that number. */
  type Uuid = n: nat | n < 0x1_0000_0000_0000_0000_0000_0000_0000_0000

  datatype TaskStatus = TODO | IN_PROGRESS | IN_REVIEW | DONE

  datatype TaskPriority = LOW | MEDIUM | HIGH | URGENT

  datatype ProjectStatus = ACTIVE | ARCHIVED

  datatype MemberRole = MemberEditor | MemberViewer

  datatype AccessRole = OWNER | EDITOR | VIEWER

  datatype Task = Task(
    id: Uuid,
    projectId: Uuid,
    assigneeId: Option<Uuid>,
    createdBy: Uuid,
    title: string,
    description: Option<string>,
    status: TaskStatus,
    priority: TaskPriority,
    dueDate: Option<Instant>,
    createdAt: Instant,
    updatedAt: Instant)

  datatype Label = Label(id: Uuid, projectId: Uuid, name: string, color: string)

  datatype Project = Project(id: Uuid, workspaceId: Uuid, name: string, status: ProjectStatus)

  datatype Workspace = Workspace(id: Uuid, ownerId: Uuid)

  datatype User = User(id: Uuid, email: string, fullName: string, isActive: bool)

  /** Rows are stored under their own primary key. */
  type TaskTable = m: map<Uuid, Task> | forall id :: id in m ==> m[id].id == id

  type UserTable = m: map<Uuid, User> | forall id :: id in m ==> m[id].id == id

  type LabelTable = m: map<Uuid, Label> | forall id :: id in m ==> m[id].id == id

  type ProjectTable = m: map<Uuid, Project> | forall id :: id in m ==> m[id].id == id

  datatype Database = Database(
    users: UserTable,
    workspaces: map<Uuid, Workspace>,
    members: map<(Uuid, Uuid), MemberRole>,   // (workspace, user)
    projects: ProjectTable,
    tasks: TaskTable,
    labels: LabelTable,
    taskLabels: set<(Uuid, Uuid)>)            // (task, label), unique by uq_task_labels_task_label

  /** The rows of one project, which is all a listing of that project can depend on. */
  function TasksOf(tasks: TaskTable, projectId: Uuid): TaskTable {
    map id | id in tasks && tasks[id].projectId == projectId :: tasks[id]
  }

  /** The columns an update sets; an absent entry leaves the column alone, and no update can name the project. */
  datatype TaskPatch = TaskPatch(
    title: Option<string>,
    description: Option<Option<string>>,
    assigneeId: Option<Option<Uuid>>,
    status: Option<TaskStatus>,
    priority: Option<TaskPriority>,
    dueDate: Option<Option<Instant>>)

  function OrKeep<T>(change: Option<T>, current: T): T {
    if change.Some? then change.value else current
  }

  /** An UPDATE statement ran: the given columns are set, and `onupdate` stamps the row. */
  function Patched(task: Task, patch: TaskPatch, now: Instant): (r: Task)
    ensures r.id == task.id && r.projectId == task.projectId
  {
    task.(title := OrKeep(patch.title, task.title),
          description := OrKeep(patch.description, task.description),
          assigneeId := OrKeep(patch.assigneeId, task.assigneeId),
          status := OrKeep(patch.status, task.status),
          priority := OrKeep(patch.priority, task.priority),
          dueDate := OrKeep(patch.dueDate, task.dueDate),
          updatedAt := now)
  }

  /** What a creation request may set. */
  datatype TaskDraft = TaskDraft(
    title: string,
    description: Option<string>,
    assigneeId: Option<Uuid>,
    priority: TaskPriority,
    dueDate: Option<Instant>)

  datatype LabelPatch = LabelPatch(name: Option<string>, color: Option<string>)

  /** `TaskAssignmentNotification`. */
  datatype Notification = Notification(
    taskId: Uuid,
    taskTitle: string,
    projectName: string,
    assigneeEmail: string,
    assigneeName: string,
    assignedByName: string,
    dueDate: Option<Instant>)

  /** A post-commit callback: bump a project's cache version, or hand a mail to the background dispatcher. */
  datatype Callback = Invalidate(project: Uuid) | Dispatch(notice: Notification)

  /** Every task-label pair joins two existing rows of one project. */
  ghost predicate SameProject(tasks: TaskTable, labels: LabelTable, taskLabels: set<(Uuid, Uuid)>) {
    forall pair: (Uuid, Uuid) :: pair in taskLabels ==>
      pair.0 in tasks && pair.1 in labels && tasks[pair.0].projectId == labels[pair.1].projectId
  }

  // ---------------------------------------------------------------- the listing filter

  datatype TaskFilters = TaskFilters(
    status: Option<TaskStatus>,
    priority: Option<TaskPriority>,
    assigneeId: Option<Uuid>,
    unassigned: bool,
    createdBy: Option<Uuid>,
    dueFrom: Option<Datetime>,
    dueTo: Option<Datetime>)

  datatype FilterError = NaiveBound | AssigneeAndUnassigned | BoundsReversed

  predicate AwareBound(d: Option<Datetime>) {
    d.Some? ==> d.value.Aware()
  }

  /** What the filter validators accept: the domain every listing below assumes. */
  predicate Accepted(f: TaskFilters) {
    AwareBound(f.dueFrom) && AwareBound(f.dueTo)
    && !(f.assigneeId.Some? && f.unassigned)
    && (f.dueFrom.Some? && f.dueTo.Some? ==> f.dueFrom.value.Instant() <= f.dueTo.value.Instant())
  }

  /** The field validators run first, then the combination validator. */
  function Validate(f: TaskFilters): (r: Result<TaskFilters, FilterError>)
    ensures r.Success? <==> Accepted(f)
    ensures r.Success? ==> r.value == f
  {
    if !AwareBound(f.dueFrom) || !AwareBound(f.dueTo) then Failure(NaiveBound)
    else if f.assigneeId.Some? && f.unassigned then Failure(AssigneeAndUnassigned)
    else if f.dueFrom.Some? && f.dueTo.Some? && f.dueFrom.value.Instant() > f.dueTo.value.Instant() then
      Failure(BoundsReversed)
    else Success(f)
  }

  /** Which complaint, first fault first: a bound without an offset, both ways to ask for assignees, or no instant between. */
  lemma ValidationErrors(f: TaskFilters)
    ensures var naive := (f.dueFrom.Some? && f.dueFrom.value.offset.None?) || (f.dueTo.Some? && f.dueTo.value.offset.None?);
            var both := f.assigneeId.Some? && f.unassigned;
            && (Validate(f) == Failure(NaiveBound) <==> naive)
            && (Validate(f) == Failure(AssigneeAndUnassigned) <==> !naive && both)
            && (Validate(f) == Failure(BoundsReversed) <==>
                  && !naive && !both && f.dueFrom.Some? && f.dueTo.Some?
                  && f.dueFrom.value.wall - f.dueFrom.value.offset.value > f.dueTo.value.wall - f.dueTo.value.offset.value)
  {
  }

  /** One listing request: `page` and `page_size` start at 1, and the filter has been validated. */
  datatype QueryData = Query(page: nat, pageSize: nat, filters: TaskFilters)

  type Query = q: QueryData | q.page >= 1 && q.pageSize >= 1 && Accepted(q.filters)
    witness Query(1, 1, TaskFilters(None, None, None, false, None, None, None))

  /** `TaskPageResponse`. */
  datatype TaskPage = TaskPage(items: seq<Task>, page: nat, pageSize: nat, total: nat, totalPages: nat)
}
