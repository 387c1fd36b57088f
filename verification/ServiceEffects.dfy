/**
 The service operations read off the rows: who may perform which, how the others are refused, and what each one leaves in
 every column. Nothing here is stated through the functions that the rules are built from.
 */
module ServiceEffects {
  import opened Wrappers
  import opened Clock
  import opened Domain
  import opened ServiceRules
  import opened ServiceProperties

  // ---------------------------------------------------------------- the membership rows

  predicate Owns(db: Database, workspaceId: Uuid, userId: Uuid) {
    workspaceId in db.workspaces && db.workspaces[workspaceId].ownerId == userId
  }

  predicate HasRow(db: Database, workspaceId: Uuid, userId: Uuid, role: MemberRole) {
    workspaceId in db.workspaces && (workspaceId, userId) in db.members && db.members[(workspaceId, userId)] == role
  }

  /** The owner's role hides a membership row; everyone else has the role of the row, or none. */
  lemma RoleIsMembership(db: Database, w: Uuid, u: Uuid)
    ensures Role(db, w, u) == Some(OWNER) <==> Owns(db, w, u)
    ensures Role(db, w, u) == Some(EDITOR) <==> !Owns(db, w, u) && HasRow(db, w, u, MemberEditor)
    ensures Role(db, w, u) == Some(VIEWER) <==> !Owns(db, w, u) && HasRow(db, w, u, MemberViewer)
  {
  }

  predicate OwnerOrEditor(db: Database, p: Uuid, u: Uuid) {
    p in db.projects
    && (Owns(db, db.projects[p].workspaceId, u) || HasRow(db, db.projects[p].workspaceId, u, MemberEditor))
  }

  predicate ViewerOnly(db: Database, p: Uuid, u: Uuid) {
    p in db.projects
    && !Owns(db, db.projects[p].workspaceId, u) && HasRow(db, db.projects[p].workspaceId, u, MemberViewer)
  }

  /** Whoever may write a project is its workspace's owner or one of its editors; whoever else sees it is a viewer. */
  lemma MayWriteExactly(db: Database, p: Uuid, u: Uuid)
    ensures MayWrite(db, p, u) <==> OwnerOrEditor(db, p, u)
    ensures ProjectRole(db, p, u).Some? <==> OwnerOrEditor(db, p, u) || ViewerOnly(db, p, u)
  {
    if p in db.projects {
      RoleIsMembership(db, db.projects[p].workspaceId, u);
    }
  }

  // ---------------------------------------------------------------- what is refused, and how

  /** The row an operation names first, which is what a stranger is told does not exist. */
  function Subject(op: Operation): (Entity, Uuid) {
    match op
    case CreateTask(projectId, _) => (ProjectEntity, projectId)
    case CreateLabel(projectId, _, _) => (ProjectEntity, projectId)
    case UpdateTask(id, _) => (TaskEntity, id)
    case DeleteTask(id) => (TaskEntity, id)
    case AssignLabel(id, _) => (TaskEntity, id)
    case RemoveLabel(id, _) => (TaskEntity, id)
    case UpdateLabel(id, _) => (LabelEntity, id)
    case DeleteLabel(id) => (LabelEntity, id)
  }

  function ArchivedError(op: Operation, p: Uuid): ServiceError {
    match op
    case CreateTask(_, _) => ArchivedProject(p)
    case UpdateTask(id, _) => ArchivedTaskUpdate(p, id)
    case AssignLabel(id, _) => ArchivedTaskUpdate(p, id)
    case RemoveLabel(id, _) => ArchivedTaskUpdate(p, id)
    case DeleteTask(id) => ArchivedTaskDelete(p, id)
    case _ => ArchivedLabelMutation(p)
  }

  /**
   The same answer for a missing row and for a row in a project the user cannot see; viewers are denied whatever else is
   wrong; writers of an archived project are told so.
   */
  lemma RefusedByRole(db: Database, actor: User, op: Operation, newId: Uuid, now: Instant)
    ensures var outcome, p := Execute(db, actor, op, newId, now), Target(db, op);
            && (p.None? || !(OwnerOrEditor(db, p.value, actor.id) || ViewerOnly(db, p.value, actor.id)) ==>
                  outcome == Refused(NotFound(Subject(op).0, Subject(op).1)))
            && (p.Some? && ViewerOnly(db, p.value, actor.id) ==> outcome == Refused(PermissionDenied))
            && (p.Some? && OwnerOrEditor(db, p.value, actor.id) && db.projects[p.value].status.ARCHIVED? ==>
                  outcome == Refused(ArchivedError(op, p.value)))
  {
    hide AssigneeRefusal, Mail, Edited, NameTaken, ProjectRole, Owns, HasRow;
    var p := Target(db, op);
    if p.Some? {
      MayWriteExactly(db, p.value, actor.id);
      RoleOfViewer(db, p.value, actor.id);
    }
  }

  lemma RoleOfViewer(db: Database, p: Uuid, u: Uuid)
    ensures ViewerOnly(db, p, u) <==> ProjectRole(db, p, u) == Some(VIEWER)
  {
    if p in db.projects {
      RoleIsMembership(db, db.projects[p].workspaceId, u);
    }
  }

  /** Nobody, oneself, or an active user who owns the workspace or has any row in it. */
  predicate Assignable(db: Database, p: Uuid, actor: User, assigneeId: Option<Uuid>)
    requires p in db.projects
  {
    assigneeId.None? || assigneeId.value == actor.id ||
    (&& assigneeId.value in db.users && db.users[assigneeId.value].isActive && SeesProject(db, p, assigneeId.value))
  }

  predicate SeesProject(db: Database, p: Uuid, u: Uuid)
    requires p in db.projects
  {
    var w := db.projects[p].workspaceId;
    Owns(db, w, u) || HasRow(db, w, u, MemberEditor) || HasRow(db, w, u, MemberViewer)
  }

  ghost predicate NameFree(db: Database, p: Uuid, name: string) {
    forall id :: id in db.labels && db.labels[id].projectId == p ==> db.labels[id].name != name
  }

  ghost predicate Admissible(db: Database, actor: User, op: Operation) {
    var p := Target(db, op);
    && p.Some? && OwnerOrEditor(db, p.value, actor.id) && db.projects[p.value].status.ACTIVE?
    && match op
       case CreateTask(_, draft) => Assignable(db, p.value, actor, draft.assigneeId)
       case UpdateTask(_, patch) => patch.assigneeId.Some? ==> Assignable(db, p.value, actor, patch.assigneeId.value)
       case DeleteTask(_) => true
       case CreateLabel(_, name, _) => NameFree(db, p.value, name)
       case UpdateLabel(id, change) =>
         change.name.Some? && change.name.value != db.labels[id].name ==> NameFree(db, p.value, change.name.value)
       case DeleteLabel(_) => true
       case AssignLabel(_, labelId) => labelId in db.labels && db.labels[labelId].projectId == p.value
       case RemoveLabel(_, labelId) => labelId in db.labels && db.labels[labelId].projectId == p.value
  }

  /** An operation is performed exactly when the rows admit it, for all eight of them. */
  lemma PerformedExactly(db: Database, actor: User, op: Operation, newId: Uuid, now: Instant)
    ensures Execute(db, actor, op, newId, now).Performed? <==> Admissible(db, actor, op)
  {
    hide Mail, Edited, MayWrite, Assignable, AssigneeRefusal, Refusal, NameTaken, NameFree, OwnerOrEditor, Assignee;
    var p := Target(db, op);
    if p.Some? {
      WritableExactly(db, p.value, actor.id);
      if p.value in db.projects {
        match op
        case CreateTask(_, draft) => AssignableExactly(db, p.value, actor, draft.assigneeId);
        case UpdateTask(_, patch) =>
          if patch.assigneeId.Some? {
            AssignableExactly(db, p.value, actor, patch.assigneeId.value);
          }
        case CreateLabel(_, name, _) => NameTakenExactly(db, p.value, name, None);
        case UpdateLabel(id, change) =>
          if change.name.Some? && change.name.value != db.labels[id].name {
            NameTakenExactly(db, p.value, change.name.value, Some(id));
          }
        case _ =>
      }
    }
  }

  lemma WritableExactly(db: Database, p: Uuid, u: Uuid)
    ensures forall missing, archived :: Refusal(db, p, u, missing, archived).None? <==>
              OwnerOrEditor(db, p, u) && db.projects[p].status.ACTIVE?
    ensures OwnerOrEditor(db, p, u) ==> p in db.projects
  {
    hide ProjectRole;
    MayWriteExactly(db, p, u);
  }

  lemma AssignableExactly(db: Database, p: Uuid, actor: User, assigneeId: Option<Uuid>)
    requires p in db.projects
    ensures AssigneeRefusal(db, db.projects[p], actor, assigneeId).None? <==> Assignable(db, p, actor, assigneeId)
  {
    if assigneeId.Some? {
      RoleIsMembership(db, db.projects[p].workspaceId, assigneeId.value);
    }
  }

  lemma NameTakenExactly(db: Database, p: Uuid, name: string, except: Option<Uuid>)
    requires except.Some? ==> except.value in db.labels && db.labels[except.value].name != name
    ensures NameTaken(db, p, name, except) <==> !NameFree(db, p, name)
  {
  }

  /** A user who could work in the project but asks for something its rows do not allow is told what, first fault first. */
  lemma RefusedForItsContent(db: Database, actor: User, op: Operation, newId: Uuid, now: Instant)
    requires Target(db, op).Some? && OwnerOrEditor(db, Target(db, op).value, actor.id)
    requires db.projects[Target(db, op).value].status.ACTIVE? && !Admissible(db, actor, op)
    ensures var p := Target(db, op).value;
            var outcome := Execute(db, actor, op, newId, now);
            outcome.Refused? && match op
            case CreateTask(_, draft) => draft.assigneeId.Some? && AssigneeError(db, p, draft.assigneeId.value, outcome.error)
            case UpdateTask(_, patch) =>
              patch.assigneeId.Some? && patch.assigneeId.value.Some? && AssigneeError(db, p, patch.assigneeId.value.value, outcome.error)
            case CreateLabel(_, name, _) => outcome.error == DuplicateLabel(name)
            case UpdateLabel(_, change) => change.name.Some? && outcome.error == DuplicateLabel(change.name.value)
            case AssignLabel(taskId, labelId) => PairError(db, taskId, labelId, outcome.error)
            case RemoveLabel(taskId, labelId) => PairError(db, taskId, labelId, outcome.error)
            case _ => true
  {
    hide Mail, Edited, Assignable, AssigneeRefusal, Refusal, NameTaken, NameFree, OwnerOrEditor, Assignee, AssigneeError;
    PerformedExactly(db, actor, op, newId, now);
    var p := Target(db, op).value;
    WritableExactly(db, p, actor.id);
    match op
    case CreateTask(_, draft) => AssigneeErrors(db, p, actor, draft.assigneeId);
    case UpdateTask(_, patch) =>
      if patch.assigneeId.Some? {
        AssigneeErrors(db, p, actor, patch.assigneeId.value);
      }
    case _ =>
  }

  predicate AssigneeError(db: Database, p: Uuid, assigneeId: Uuid, error: ServiceError)
    requires p in db.projects
  {
    if assigneeId !in db.users then error == NotFound(UserEntity, assigneeId)
    else if !db.users[assigneeId].isActive then error == InactiveAssignee(assigneeId)
    else error == AssigneeNotMember(p, db.projects[p].workspaceId, assigneeId)
  }

  predicate PairError(db: Database, taskId: Uuid, labelId: Uuid, error: ServiceError) {
    if labelId !in db.labels then error == NotFound(LabelEntity, labelId) else error == LabelProjectMismatch(taskId, labelId)
  }

  lemma AssigneeErrors(db: Database, p: Uuid, actor: User, assigneeId: Option<Uuid>)
    requires p in db.projects
    ensures var refusal := AssigneeRefusal(db, db.projects[p], actor, assigneeId);
            refusal.Some? ==> assigneeId.Some? && AssigneeError(db, p, assigneeId.value, refusal.value)
  {
  }

  // ---------------------------------------------------------------- what each operation leaves in the rows

  /** Of all rows, at most this task's differ. */
  ghost predicate OnlyThatTask(db: Database, after: Database, id: Uuid) {
    && after == db.(tasks := after.tasks, taskLabels := after.taskLabels)
    && forall other :: other != id ==>
         && (other in after.tasks <==> other in db.tasks)
         && (other in db.tasks ==> after.tasks[other] == db.tasks[other])
  }

  ghost predicate OnlyThatLabel(db: Database, after: Database, id: Uuid) {
    && after == db.(labels := after.labels, taskLabels := after.taskLabels)
    && forall other :: other != id ==>
         && (other in after.labels <==> other in db.labels)
         && (other in db.labels ==> after.labels[other] == db.labels[other])
  }

  lemma CreatedTask(db: Database, actor: User, projectId: Uuid, draft: TaskDraft, newId: Uuid, now: Instant)
    requires Execute(db, actor, CreateTask(projectId, draft), newId, now).Performed?
    ensures var after := Execute(db, actor, CreateTask(projectId, draft), newId, now).db;
            && OnlyThatTask(db, after, newId) && after.taskLabels == db.taskLabels && newId in after.tasks
            && var row := after.tasks[newId];
               && row.id == newId && row.projectId == projectId && row.createdBy == actor.id && row.status == TODO
               && row.title == draft.title && row.description == draft.description && row.priority == draft.priority
               && row.assigneeId == draft.assigneeId && row.dueDate == draft.dueDate
               && row.createdAt == now && row.updatedAt == now
  {
    hide Refusal, AssigneeRefusal, Mail, Assignee;
  }

  /** The six columns an update can set hold what the patch gives, and what they held where it gives nothing. */
  predicate SetAsGiven(patch: TaskPatch, before: Task, after: Task) {
    && (match patch.title case Some(v) => after.title == v case None => after.title == before.title)
    && (match patch.description case Some(v) => after.description == v case None => after.description == before.description)
    && (match patch.assigneeId case Some(v) => after.assigneeId == v case None => after.assigneeId == before.assigneeId)
    && (match patch.status case Some(v) => after.status == v case None => after.status == before.status)
    && (match patch.priority case Some(v) => after.priority == v case None => after.priority == before.priority)
    && (match patch.dueDate case Some(v) => after.dueDate == v case None => after.dueDate == before.dueDate)
  }

  predicate SameColumns(before: Task, after: Task) {
    && after.title == before.title && after.description == before.description && after.assigneeId == before.assigneeId
    && after.status == before.status && after.priority == before.priority && after.dueDate == before.dueDate
  }

  /** Every given column takes its value, every other keeps its own, and the stamp moves exactly when some column did. */
  lemma UpdatedTask(db: Database, actor: User, taskId: Uuid, patch: TaskPatch, newId: Uuid, now: Instant)
    requires Execute(db, actor, UpdateTask(taskId, patch), newId, now).Performed?
    ensures var after := Execute(db, actor, UpdateTask(taskId, patch), newId, now).db;
            && OnlyThatTask(db, after, taskId) && after.taskLabels == db.taskLabels
            && taskId in db.tasks && taskId in after.tasks
            && var (was, row) := (db.tasks[taskId], after.tasks[taskId]);
               && SetAsGiven(patch, was, row)
               && row.id == was.id && row.projectId == was.projectId
               && row.createdBy == was.createdBy && row.createdAt == was.createdAt
               && row.updatedAt == if SameColumns(was, row) then was.updatedAt else now
  {
    hide Refusal, AssigneeRefusal, Mail, Assignee;
  }

  lemma DeletedTask(db: Database, actor: User, taskId: Uuid, newId: Uuid, now: Instant)
    requires Execute(db, actor, DeleteTask(taskId), newId, now).Performed?
    ensures var after := Execute(db, actor, DeleteTask(taskId), newId, now).db;
            && OnlyThatTask(db, after, taskId) && taskId in db.tasks && taskId !in after.tasks
            && forall t, l :: (t, l) in after.taskLabels <==> (t, l) in db.taskLabels && t != taskId
  {
    hide Refusal;
  }

  lemma CreatedLabel(db: Database, actor: User, projectId: Uuid, name: string, color: string, newId: Uuid, now: Instant)
    requires Execute(db, actor, CreateLabel(projectId, name, color), newId, now).Performed?
    ensures var after := Execute(db, actor, CreateLabel(projectId, name, color), newId, now).db;
            && OnlyThatLabel(db, after, newId) && after.taskLabels == db.taskLabels && newId in after.labels
            && var row := after.labels[newId];
               row.id == newId && row.projectId == projectId && row.name == name && row.color == color
  {
    hide Refusal, NameTaken;
  }

  lemma UpdatedLabel(db: Database, actor: User, labelId: Uuid, change: LabelPatch, newId: Uuid, now: Instant)
    requires Execute(db, actor, UpdateLabel(labelId, change), newId, now).Performed?
    ensures var after := Execute(db, actor, UpdateLabel(labelId, change), newId, now).db;
            && OnlyThatLabel(db, after, labelId) && after.taskLabels == db.taskLabels
            && labelId in db.labels && labelId in after.labels
            && var (was, row) := (db.labels[labelId], after.labels[labelId]);
               && row.id == was.id && row.projectId == was.projectId
               && (match change.name case Some(v) => row.name == v case None => row.name == was.name)
               && (match change.color case Some(v) => row.color == v case None => row.color == was.color)
  {
    hide Refusal, NameTaken;
  }

  lemma DeletedLabel(db: Database, actor: User, labelId: Uuid, newId: Uuid, now: Instant)
    requires Execute(db, actor, DeleteLabel(labelId), newId, now).Performed?
    ensures var after := Execute(db, actor, DeleteLabel(labelId), newId, now).db;
            && OnlyThatLabel(db, after, labelId) && labelId in db.labels && labelId !in after.labels
            && forall t, l :: (t, l) in after.taskLabels <==> (t, l) in db.taskLabels && l != labelId
  {
    hide Refusal;
  }

  /** After an assignment the pair is there, after a removal it is not, whether or not it was; nothing else moves. */
  lemma PairedOrNot(db: Database, actor: User, taskId: Uuid, labelId: Uuid, newId: Uuid, now: Instant)
    ensures var paired := Execute(db, actor, AssignLabel(taskId, labelId), newId, now);
            paired.Performed? ==>
              && paired.db == db.(taskLabels := paired.db.taskLabels)
              && forall t, l :: (t, l) in paired.db.taskLabels <==> (t, l) in db.taskLabels || (t == taskId && l == labelId)
    ensures var removed := Execute(db, actor, RemoveLabel(taskId, labelId), newId, now);
            removed.Performed? ==>
              && removed.db == db.(taskLabels := removed.db.taskLabels)
              && forall t, l :: (t, l) in removed.db.taskLabels <==> (t, l) in db.taskLabels && !(t == taskId && l == labelId)
  {
    hide PairRefusal;
  }
}
