/** The task, label and task-label services of one request, working on its session and its callback queue. */
module Services {
  import opened Wrappers
  import opened Clock
  import opened Domain
  import opened TaskListing
  import opened TaskListKeys
  import opened Redis
  import opened ServiceRules
  import opened TaskListCache
  import opened PostCommit

  /** The rows as the request's open transaction sees them. */
  class Session {
    var db: Database

    constructor (db: Database)
      ensures this.db == db
    {
      this.db := db;
    }
  }

  function ErrorOf<T>(result: Result<T, ServiceError>): Option<ServiceError> {
    if result.Failure? then Some(result.error) else None
  }

  /** A service call did what its rule says: rows, queue and error. */
  ghost predicate Follows(rule: Outcome, before: Database, after: Database, queued: seq<Callback>, queue: seq<Callback>,
                          error: Option<ServiceError>)
  {
    match rule
    case Refused(e) => error == Some(e) && after == before && queue == queued
    case Performed(db, callbacks) => error.None? && after == db && queue == queued + callbacks
  }

  // ---------------------------------------------------------------- shared access checks

  class AccessChecks {
    const session: Session

    constructor (session: Session)
      ensures this.session == session
    {
      this.session := session;
    }

    /** `get_accessible_by_id`. */
    method GetAccessible(workspaceId: Uuid, userId: Uuid) returns (role: Option<AccessRole>)
      ensures role == Role(session.db, workspaceId, userId)
    {
      var db := session.db;
      if workspaceId !in db.workspaces {
        return None;
      }
      if db.workspaces[workspaceId].ownerId != userId && (workspaceId, userId) !in db.members {
        return None;
      }
      if db.workspaces[workspaceId].ownerId == userId {
        return Some(OWNER);
      }
      match db.members[(workspaceId, userId)] {
        case MemberEditor => return Some(EDITOR);
        case MemberViewer => return Some(VIEWER);
      }
    }

    method GetProjectAccess(projectId: Uuid, userId: Uuid, missing: ServiceError)
      returns (result: Result<(Project, AccessRole), ServiceError>)
      ensures result.Success? <==> ProjectRole(session.db, projectId, userId).Some?
      ensures result.Success? ==> result.value.0 == session.db.projects[projectId]
                                  && Some(result.value.1) == ProjectRole(session.db, projectId, userId)
      ensures result.Failure? ==> result.error == missing
    {
      if projectId !in session.db.projects {
        return Failure(missing);
      }
      var project := session.db.projects[projectId];
      var access := GetAccessible(project.workspaceId, userId);
      if access.None? {
        return Failure(missing);
      }
      return Success((project, access.value));
    }

    /** Visible, then writable, then not archived. */
    method RequireWritable(projectId: Uuid, userId: Uuid, missing: ServiceError, archived: ServiceError)
      returns (result: Result<Project, ServiceError>)
      ensures ErrorOf(result) == Refusal(session.db, projectId, userId, missing, archived)
      ensures result.Success? ==> projectId in session.db.projects && result.value == session.db.projects[projectId]
    {
      var access := GetProjectAccess(projectId, userId, missing);
      if access.Failure? {
        return Failure(access.error);
      }
      var (project, role) := access.value;
      if role !in {OWNER, EDITOR} {
        return Failure(PermissionDenied);
      }
      if project.status.ARCHIVED? {
        return Failure(archived);
      }
      return Success(project);
    }
  }

  // ---------------------------------------------------------------- tasks

  datatype ListError = Denied(error: ServiceError) | KeyOverflow

  class TaskService {
    const session: Session
    const access: AccessChecks
    const cache: RedisTaskListCache
    const postCommit: PostCommitActions
    const repository: TaskRepository

    ghost predicate Valid() {
      access.session == session
    }

    constructor (session: Session, access: AccessChecks, cache: RedisTaskListCache, postCommit: PostCommitActions)
      requires access.session == session
      ensures Valid() && this.session == session && this.cache == cache && this.postCommit == postCommit
    {
      this.session, this.access, this.cache, this.postCommit := session, access, cache, postCommit;
      repository := new TaskRepository();
    }

    method ValidateAssignee(project: Project, actor: User, assigneeId: Option<Uuid>)
      returns (result: Result<Option<User>, ServiceError>)
      requires Valid()
      ensures ErrorOf(result) == AssigneeRefusal(session.db, project, actor, assigneeId)
      ensures result.Success? ==> result.value == Assignee(session.db, actor, assigneeId)
    {
      if assigneeId.None? {
        return Success(None);
      }
      if assigneeId.value == actor.id {
        return Success(Some(actor));
      }
      if assigneeId.value !in session.db.users {
        return Failure(NotFound(UserEntity, assigneeId.value));
      }
      var assignee := session.db.users[assigneeId.value];
      if !assignee.isActive {
        return Failure(InactiveAssignee(assigneeId.value));
      }
      var membership := access.GetAccessible(project.workspaceId, assigneeId.value);
      if membership.None? {
        return Failure(AssigneeNotMember(project.id, project.workspaceId, assigneeId.value));
      }
      return Success(Some(assignee));
    }

    method RegisterAssignmentNotification(task: Task, project: Project, assignee: Option<User>, assignedBy: User)
      modifies postCommit
      ensures postCommit.callbacks == old(postCommit.callbacks) + Mail(task, project, assignee, assignedBy)
    {
      if assignee.None? || assignee.value.id == assignedBy.id {
        return;
      }
      postCommit.Add(Dispatch(Notice(task, project, assignee.value, assignedBy)));
    }

    method CreateTask(projectId: Uuid, actor: User, draft: TaskDraft, newId: Uuid, now: Instant)
      returns (result: Result<Task, ServiceError>)
      requires Valid() && newId !in session.db.tasks
      modifies session, postCommit
      ensures Follows(CreateTaskRule(old(session.db), actor, projectId, draft, newId, now), old(session.db), session.db,
                      old(postCommit.callbacks), postCommit.callbacks, ErrorOf(result))
      ensures result.Success? ==> newId in session.db.tasks && result.value == session.db.tasks[newId]
    {
      var writable := access.RequireWritable(projectId, actor.id, NotFound(ProjectEntity, projectId), ArchivedProject(projectId));
      if writable.Failure? {
        return Failure(writable.error);
      }
      var project := writable.value;
      var assignee := ValidateAssignee(project, actor, draft.assigneeId);
      if assignee.Failure? {
        return Failure(assignee.error);
      }
      var task := Task(newId, projectId, draft.assigneeId, actor.id, draft.title, draft.description, TODO,
                       draft.priority, draft.dueDate, now, now);
      session.db := session.db.(tasks := session.db.tasks[newId := task]);
      postCommit.Add(Invalidate(projectId));
      RegisterAssignmentNotification(task, project, assignee.value, actor);
      return Success(task);
    }

    method UpdateTask(taskId: Uuid, actor: User, patch: TaskPatch, now: Instant) returns (result: Result<Task, ServiceError>)
      requires Valid()
      modifies session, postCommit
      ensures Follows(UpdateTaskRule(old(session.db), actor, taskId, patch, now), old(session.db), session.db,
                      old(postCommit.callbacks), postCommit.callbacks, ErrorOf(result))
      ensures result.Success? ==> taskId in session.db.tasks && result.value == session.db.tasks[taskId]
    {
      if taskId !in session.db.tasks {
        return Failure(NotFound(TaskEntity, taskId));
      }
      var task := session.db.tasks[taskId];
      var writable := access.RequireWritable(task.projectId, actor.id, NotFound(TaskEntity, taskId),
                                             ArchivedTaskUpdate(task.projectId, taskId));
      if writable.Failure? {
        return Failure(writable.error);
      }
      var project := writable.value;
      var previousAssigneeId := task.assigneeId;
      var assignee: Option<User> := None;
      if patch.assigneeId.Some? {
        var checked := ValidateAssignee(project, actor, patch.assigneeId.value);
        if checked.Failure? {
          return Failure(checked.error);
        }
        assignee := checked.value;
      }
      var updated := Edited(task, patch, now);
      session.db := session.db.(tasks := session.db.tasks[taskId := updated]);
      postCommit.Add(Invalidate(project.id));
      if updated.assigneeId != previousAssigneeId {
        RegisterAssignmentNotification(updated, project, assignee, actor);
      }
      return Success(updated);
    }

    method DeleteTask(taskId: Uuid, actor: User) returns (result: Result<(), ServiceError>)
      requires Valid()
      modifies session, postCommit
      ensures Follows(DeleteTaskRule(old(session.db), actor, taskId), old(session.db), session.db,
                      old(postCommit.callbacks), postCommit.callbacks, ErrorOf(result))
    {
      if taskId !in session.db.tasks {
        return Failure(NotFound(TaskEntity, taskId));
      }
      var projectId := session.db.tasks[taskId].projectId;
      var writable := access.RequireWritable(projectId, actor.id, NotFound(TaskEntity, taskId),
                                             ArchivedTaskDelete(projectId, taskId));
      if writable.Failure? {
        return Failure(writable.error);
      }
      session.db := session.db.(tasks := session.db.tasks - {taskId},
                                taskLabels := PairsWithoutTask(session.db.taskLabels, taskId));
      postCommit.Add(Invalidate(writable.value.id));
      return Success(());
    }

    /** Both statements, and the page arithmetic. */
    method QueryPage(projectId: Uuid, q: Query) returns (response: TaskPage)
      ensures response == Answer(session.db.tasks, projectId, q)
    {
      hide Matching, Ordered, Slice, Offset, TotalPages, Answer;
      AnswerParts(session.db.tasks, projectId, q);
      var rows := repository.ListByProject(session.db.tasks, session.db.tasks, projectId, q.filters,
                                           Offset(q), q.pageSize);
      response := TaskPage(rows.items, q.page, q.pageSize, rows.total, TotalPages(rows.total, q.pageSize));
    }

    /**
     The cached listing. It overflows exactly when the project is visible, the first GET was answered and the key cannot
     be printed; answer and store are those of `CachedListing`; and when the cache was sound for the queries in use, the page
     is the uncached answer and the cache stays sound.
     */
    method ListTasks(projectId: Uuid, userId: Uuid, q: Query, ghost queries: set<Query>)
      returns (result: Result<TaskPage, ListError>, ghost calls: Calls)
      requires Valid() && VersionsOk(cache.redis.store) && CollisionFree(cache.config.digest, queries) && q in queries
      modifies cache.redis`store, cache.redis`answers
      ensures old(cache.redis.answers) <= cache.redis.answers
      ensures ProjectRole(session.db, projectId, userId).None? <==>
                result == Failure(Denied(NotFound(ProjectEntity, projectId)))
      ensures ProjectRole(session.db, projectId, userId).None? ==>
                cache.redis.store == old(cache.redis.store) && cache.redis.answers == old(cache.redis.answers)
      ensures ProjectRole(session.db, projectId, userId).Some? ==>
                && |cache.redis.answers| > |old(cache.redis.answers)|
                && calls.version == cache.redis.answers[|old(cache.redis.answers)|]
                && Listed(PageOf(result), cache.redis.store)
                     == CachedListing(cache.config, old(cache.redis.store), cache.redis.now, session.db.tasks, projectId, q, calls)
      ensures cache.redis.up ==> calls == ALL_WORK
      ensures result == Failure(KeyOverflow) <==>
                && ProjectRole(session.db, projectId, userId).Some?
                && cache.redis.answers[|old(cache.redis.answers)|] && !Printable(q)
      ensures result.Failure? ==> result.error == KeyOverflow || result.error == Denied(NotFound(ProjectEntity, projectId))
      ensures Served(cache.config.digest, queries, old(cache.redis.store), session.db.tasks, projectId, q,
                     Listed(PageOf(result), cache.redis.store))
    {
      hide Answer, Sound, VersionsOk, VersionKey, Got, ResponseKey, Printable, Stored, CollisionFree, Fetch, Lookup, VersionText,
        Role, ProjectRole, AtMostUnlinked, CachedListing, Version, Served, PageKey;
      calls := if cache.redis.up then ALL_WORK else Calls(false, false, false, false);
      var project := access.GetProjectAccess(projectId, userId, NotFound(ProjectEntity, projectId));
      if project.Failure? {
        NothingServed(cache.config.digest, queries, cache.redis.store, session.db.tasks, projectId, q);
        return Failure(Denied(project.error)), calls;
      }
      ghost var before := cache.redis.store;
      assert VersionReadable(before, cache.redis.now, projectId) by {
        VersionReply(before, cache.redis.now, projectId);
      }
      var found, fetching := cache.Get(projectId, q);
      calls := fetching;
      EndedListing(cache.config, queries, before, cache.redis.now, session.db.tasks, projectId, q, calls);
      if found.Failure? {
        return Failure(KeyOverflow), calls;
      }
      var lookup := found.value;
      if lookup.Some? && lookup.value.response.Some? {
        return Success(lookup.value.response.value), calls;
      }
      if lookup.Some? {
        LookupHasKey(cache.config.digest, before, cache.redis.store, cache.redis.now, projectId, q, lookup.value);
      }
      var response, applied := QueryAndStore(projectId, q, if lookup.Some? then Some(lookup.value.version) else None);
      result := Success(response);
      if lookup.Some? {
        calls := calls.(stored := applied);
        MissedListing(cache.config, queries, before, cache.redis.now, session.db.tasks, projectId, q, fetching, applied,
                      cache.redis.store);
      }
    }

    /** What a miss does: the answer from the rows, stored if there was a lookup. */
    method QueryAndStore(projectId: Uuid, q: Query, version: Option<string>) returns (response: TaskPage, ghost applied: bool)
      requires version.Some? ==> Printable(q)
      modifies cache.redis`store
      ensures response == Answer(session.db.tasks, projectId, q)
      ensures version.None? || !applied ==> cache.redis.store == old(cache.redis.store)
      ensures version.Some? && applied ==>
                cache.redis.store == Stored(old(cache.redis.store), ResponseKey(cache.config.digest, projectId, version.value, q).value,
                                            response, cache.redis.now + cache.config.ttl)
      ensures cache.redis.up ==> applied
    {
      hide Answer, Printable, ProjectPrefix, VersionedName, Fingerprint, Stored;
      response := QueryPage(projectId, q);
      applied := cache.redis.up;
      if version.Some? {
        applied := cache.Set(projectId, q, version.value, response);
      }
    }
  }

  function PageOf(result: Result<TaskPage, ListError>): Option<TaskPage> {
    if result.Success? then Some(result.value) else None
  }

  // ---------------------------------------------------------------- labels

  class LabelService {
    const session: Session
    const access: AccessChecks

    ghost predicate Valid() {
      access.session == session
    }

    constructor (session: Session, access: AccessChecks)
      requires access.session == session
      ensures Valid() && this.session == session
    {
      this.session, this.access := session, access;
    }

    method GetByProjectAndName(projectId: Uuid, name: string) returns (id: Option<Uuid>)
      ensures id.Some? ==>
        id.value in session.db.labels && session.db.labels[id.value].projectId == projectId
        && session.db.labels[id.value].name == name
      ensures id.None? ==> !NameTaken(session.db, projectId, name, None)
    {
      if found :| found in session.db.labels && session.db.labels[found].projectId == projectId
                  && session.db.labels[found].name == name {
        return Some(found);
      }
      return None;
    }

    method CreateLabel(projectId: Uuid, actor: User, name: string, color: string, newId: Uuid)
      returns (result: Result<Label, ServiceError>)
      requires Valid() && newId !in session.db.labels
      modifies session
      ensures Follows(CreateLabelRule(old(session.db), actor, projectId, name, color, newId), old(session.db), session.db,
                      [], [], ErrorOf(result))
      ensures result.Success? ==> newId in session.db.labels && result.value == session.db.labels[newId]
    {
      var writable := access.RequireWritable(projectId, actor.id, NotFound(ProjectEntity, projectId),
                                             ArchivedLabelMutation(projectId));
      if writable.Failure? {
        return Failure(writable.error);
      }
      var existing := GetByProjectAndName(projectId, name);
      if existing.Some? {
        return Failure(DuplicateLabel(name));
      }
      var row := Label(newId, projectId, name, color);
      session.db := session.db.(labels := session.db.labels[newId := row]);
      return Success(row);
    }

    method UpdateLabel(labelId: Uuid, actor: User, change: LabelPatch) returns (result: Result<Label, ServiceError>)
      requires Valid()
      modifies session
      ensures Follows(UpdateLabelRule(old(session.db), actor, labelId, change), old(session.db), session.db, [], [],
                      ErrorOf(result))
      ensures result.Success? ==> labelId in session.db.labels && result.value == session.db.labels[labelId]
    {
      if labelId !in session.db.labels {
        return Failure(NotFound(LabelEntity, labelId));
      }
      var row := session.db.labels[labelId];
      var writable := access.RequireWritable(row.projectId, actor.id, NotFound(LabelEntity, labelId),
                                             ArchivedLabelMutation(row.projectId));
      if writable.Failure? {
        return Failure(writable.error);
      }
      if change.name.Some? && change.name.value != row.name {
        var existing := GetByProjectAndName(writable.value.id, change.name.value);
        if existing.Some? && existing.value != labelId {
          return Failure(DuplicateLabel(change.name.value));
        }
      }
      var updated := row.(name := OrKeep(change.name, row.name), color := OrKeep(change.color, row.color));
      session.db := session.db.(labels := session.db.labels[labelId := updated]);
      return Success(updated);
    }

    method DeleteLabel(labelId: Uuid, actor: User) returns (result: Result<(), ServiceError>)
      requires Valid()
      modifies session
      ensures Follows(DeleteLabelRule(old(session.db), actor, labelId), old(session.db), session.db, [], [], ErrorOf(result))
    {
      if labelId !in session.db.labels {
        return Failure(NotFound(LabelEntity, labelId));
      }
      var projectId := session.db.labels[labelId].projectId;
      var writable := access.RequireWritable(projectId, actor.id, NotFound(LabelEntity, labelId),
                                             ArchivedLabelMutation(projectId));
      if writable.Failure? {
        return Failure(writable.error);
      }
      session.db := session.db.(labels := session.db.labels - {labelId},
                                taskLabels := PairsWithoutLabel(session.db.taskLabels, labelId));
      return Success(());
    }
  }

  // ---------------------------------------------------------------- labels on tasks

  class TaskLabelRepository {
    const session: Session

    constructor (session: Session)
      ensures this.session == session
    {
      this.session := session;
    }

    /** Insert, do nothing on conflict. */
    method Add(taskId: Uuid, labelId: Uuid)
      modifies session
      ensures session.db == old(session.db).(taskLabels := old(session.db).taskLabels + {(taskId, labelId)})
    {
      if (taskId, labelId) in session.db.taskLabels {
        assert session.db.taskLabels == session.db.taskLabels + {(taskId, labelId)};
        return;
      }
      session.db := session.db.(taskLabels := session.db.taskLabels + {(taskId, labelId)});
    }

    method Remove(taskId: Uuid, labelId: Uuid)
      modifies session
      ensures session.db == old(session.db).(taskLabels := old(session.db).taskLabels - {(taskId, labelId)})
    {
      session.db := session.db.(taskLabels := session.db.taskLabels - {(taskId, labelId)});
    }
  }

  class TaskLabelService {
    const session: Session
    const access: AccessChecks
    const pairs: TaskLabelRepository
    const postCommit: PostCommitActions

    ghost predicate Valid() {
      access.session == session && pairs.session == session
    }

    constructor (session: Session, access: AccessChecks, postCommit: PostCommitActions)
      requires access.session == session
      ensures Valid() && this.session == session && this.postCommit == postCommit
    {
      this.session, this.access, this.postCommit := session, access, postCommit;
      pairs := new TaskLabelRepository(session);
    }

    method ValidateAssignment(taskId: Uuid, labelId: Uuid, actor: User) returns (result: Result<Uuid, ServiceError>)
      requires Valid()
      ensures ErrorOf(result) == PairRefusal(session.db, actor, taskId, labelId)
      ensures result.Success? ==> taskId in session.db.tasks && result.value == session.db.tasks[taskId].projectId
    {
      if taskId !in session.db.tasks {
        return Failure(NotFound(TaskEntity, taskId));
      }
      var task := session.db.tasks[taskId];
      var writable := access.RequireWritable(task.projectId, actor.id, NotFound(TaskEntity, taskId),
                                             ArchivedTaskUpdate(task.projectId, taskId));
      if writable.Failure? {
        return Failure(writable.error);
      }
      if labelId !in session.db.labels {
        return Failure(NotFound(LabelEntity, labelId));
      }
      if session.db.labels[labelId].projectId != task.projectId {
        return Failure(LabelProjectMismatch(taskId, labelId));
      }
      return Success(writable.value.id);
    }

    method AssignLabel(taskId: Uuid, labelId: Uuid, actor: User) returns (result: Result<(), ServiceError>)
      requires Valid()
      modifies session, postCommit
      ensures Follows(AssignLabelRule(old(session.db), actor, taskId, labelId), old(session.db), session.db,
                      old(postCommit.callbacks), postCommit.callbacks, ErrorOf(result))
    {
      var projectId := ValidateAssignment(taskId, labelId, actor);
      if projectId.Failure? {
        return Failure(projectId.error);
      }
      pairs.Add(taskId, labelId);
      postCommit.Add(Invalidate(projectId.value));
      return Success(());
    }

    method RemoveLabel(taskId: Uuid, labelId: Uuid, actor: User) returns (result: Result<(), ServiceError>)
      requires Valid()
      modifies session, postCommit
      ensures Follows(RemoveLabelRule(old(session.db), actor, taskId, labelId), old(session.db), session.db,
                      old(postCommit.callbacks), postCommit.callbacks, ErrorOf(result))
    {
      var projectId := ValidateAssignment(taskId, labelId, actor);
      if projectId.Failure? {
        return Failure(projectId.error);
      }
      pairs.Remove(taskId, labelId);
      postCommit.Add(Invalidate(projectId.value));
      return Success(());
    }
  }
}
