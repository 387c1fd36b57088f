/** What single service operations keep and what they announce. */
module ServiceProperties {
  import opened Wrappers
  import opened Clock
  import opened Domain
  import opened ServiceRules

  // ---------------------------------------------------------------- what the operations keep

  predicate SameName(a: Label, b: Label) {
    a.projectId == b.projectId && a.name == b.name
  }

  /** `uq_labels_project_name`. */
  ghost predicate LabelNamesUnique(labels: LabelTable) {
    forall a, b :: a in labels && b in labels && SameName(labels[a], labels[b]) ==> a == b
  }

  ghost predicate WellFormed(db: Database) {
    SameProject(db.tasks, db.labels, db.taskLabels) && LabelNamesUnique(db.labels)
  }

  predicate FreshId(db: Database, newId: Uuid) {
    newId !in db.tasks && newId !in db.labels
  }

  lemma SameProjectKept(db: Database, actor: User, op: Operation, newId: Uuid, now: Instant)
    requires WellFormed(db) && FreshId(db, newId) && Execute(db, actor, op, newId, now).Performed?
    ensures var after := Execute(db, actor, op, newId, now).db;
            SameProject(after.tasks, after.labels, after.taskLabels)
  {
    hide Refusal, AssigneeRefusal, Mail, Edited, LabelNamesUnique, Assignee, NameTaken;
  }

  lemma NamesKept(db: Database, actor: User, op: Operation, newId: Uuid, now: Instant)
    requires LabelNamesUnique(db.labels) && FreshId(db, newId) && Execute(db, actor, op, newId, now).Performed?
    ensures LabelNamesUnique(Execute(db, actor, op, newId, now).db.labels)
  {
  }

  /** Every operation keeps the rows well-formed: pairs stay within one project, label names stay unique. */
  lemma WellFormedKept(db: Database, actor: User, op: Operation, newId: Uuid, now: Instant)
    requires WellFormed(db) && FreshId(db, newId) && Execute(db, actor, op, newId, now).Performed?
    ensures WellFormed(Execute(db, actor, op, newId, now).db)
  {
    hide Execute;
    SameProjectKept(db, actor, op, newId, now);
    NamesKept(db, actor, op, newId, now);
  }

  // ---------------------------------------------------------------- who changes a project

  /** Everything a project contains: its tasks, its labels, and the pairs on its tasks. */
  datatype Contents = Contents(tasks: TaskTable, labels: LabelTable, pairs: set<(Uuid, Uuid)>)

  function LabelsOf(labels: LabelTable, projectId: Uuid): LabelTable {
    map id | id in labels && labels[id].projectId == projectId :: labels[id]
  }

  function PairsOf(db: Database, projectId: Uuid): set<(Uuid, Uuid)> {
    set pair | pair in db.taskLabels && pair.0 in db.tasks && db.tasks[pair.0].projectId == projectId
  }

  function ContentsOf(db: Database, projectId: Uuid): Contents {
    Contents(TasksOf(db.tasks, projectId), LabelsOf(db.labels, projectId), PairsOf(db, projectId))
  }

  /** The project an operation works in, given the rows it finds. */
  function Target(db: Database, op: Operation): Option<Uuid> {
    match op
    case CreateTask(projectId, _) => Some(projectId)
    case CreateLabel(projectId, _, _) => Some(projectId)
    case UpdateTask(id, _) => if id in db.tasks then Some(db.tasks[id].projectId) else None
    case DeleteTask(id) => if id in db.tasks then Some(db.tasks[id].projectId) else None
    case AssignLabel(id, _) => if id in db.tasks then Some(db.tasks[id].projectId) else None
    case RemoveLabel(id, _) => if id in db.tasks then Some(db.tasks[id].projectId) else None
    case UpdateLabel(id, _) => if id in db.labels then Some(db.labels[id].projectId) else None
    case DeleteLabel(id) => if id in db.labels then Some(db.labels[id].projectId) else None
  }

  lemma PerformedMeansAllowed(db: Database, actor: User, op: Operation, newId: Uuid, now: Instant)
    requires Execute(db, actor, op, newId, now).Performed?
    ensures Target(db, op).Some? && MayWrite(db, Target(db, op).value, actor.id) && !Archived(db, Target(db, op).value)
  {
    hide AssigneeRefusal, Mail, Edited, NameTaken, MayWrite, Archived;
  }

  lemma OthersKeepTasks(db: Database, actor: User, op: Operation, newId: Uuid, now: Instant, p: Uuid)
    requires FreshId(db, newId) && Execute(db, actor, op, newId, now).Performed? && Target(db, op) != Some(p)
    ensures TasksOf(Execute(db, actor, op, newId, now).db.tasks, p) == TasksOf(db.tasks, p)
  {
    hide Refusal, AssigneeRefusal, Mail, Edited, NameTaken, Assignee, TasksOf;
    var after := Execute(db, actor, op, newId, now).db.tasks;
    if after != db.tasks {
      OneTaskChanges(db, actor, op, newId, now);
      KeepsOtherProjects(db.tasks, after, TaskOf(op, newId), Target(db, op).value, p);
    }
  }

  ghost predicate OnlyTask(before: TaskTable, after: TaskTable, id: Uuid) {
    before - {id} == after - {id}
  }

  predicate InProject(before: TaskTable, after: TaskTable, id: Uuid, p: Uuid) {
    (id in before ==> before[id].projectId == p) && (id in after ==> after[id].projectId == p)
  }

  lemma OneTaskChanges(db: Database, actor: User, op: Operation, newId: Uuid, now: Instant)
    requires FreshId(db, newId) && Execute(db, actor, op, newId, now).Performed?
    requires Execute(db, actor, op, newId, now).db.tasks != db.tasks
    ensures var after := Execute(db, actor, op, newId, now).db.tasks;
            && Target(db, op).Some?
            && OnlyTask(db.tasks, after, TaskOf(op, newId)) && InProject(db.tasks, after, TaskOf(op, newId), Target(db, op).value)
  {
    hide CreateTaskRule, UpdateTaskRule, DeleteTaskRule, CreateLabelRule, UpdateLabelRule, DeleteLabelRule, AssignLabelRule,
      RemoveLabelRule, OnlyTask, InProject, FreshId;
    match op
    case CreateTask(projectId, draft) => CreateChangesOne(db, actor, projectId, draft, newId, now);
    case UpdateTask(id, patch) => UpdateChangesOne(db, actor, id, patch, now);
    case DeleteTask(id) => DeleteChangesOne(db, actor, id);
    case AssignLabel(taskId, labelId) => PairsLeaveTasks(db, actor, op, newId, now);
    case RemoveLabel(taskId, labelId) => PairsLeaveTasks(db, actor, op, newId, now);
    case _ => LabelsLeaveTasks(db, actor, op, newId, now);
  }

  lemma CreateChangesOne(db: Database, actor: User, projectId: Uuid, draft: TaskDraft, newId: Uuid, now: Instant)
    requires FreshId(db, newId) && CreateTaskRule(db, actor, projectId, draft, newId, now).Performed?
    ensures var after := CreateTaskRule(db, actor, projectId, draft, newId, now).db.tasks;
            OnlyTask(db.tasks, after, newId) && InProject(db.tasks, after, newId, projectId)
  {
    hide Refusal, AssigneeRefusal, Mail, Assignee;
  }

  lemma UpdateChangesOne(db: Database, actor: User, id: Uuid, patch: TaskPatch, now: Instant)
    requires UpdateTaskRule(db, actor, id, patch, now).Performed?
    ensures var after := UpdateTaskRule(db, actor, id, patch, now).db.tasks;
            id in db.tasks && OnlyTask(db.tasks, after, id) && InProject(db.tasks, after, id, db.tasks[id].projectId)
  {
    hide Refusal, AssigneeRefusal, Mail, Assignee, Edited;
  }

  lemma DeleteChangesOne(db: Database, actor: User, id: Uuid)
    requires DeleteTaskRule(db, actor, id).Performed?
    ensures var after := DeleteTaskRule(db, actor, id).db.tasks;
            id in db.tasks && OnlyTask(db.tasks, after, id) && InProject(db.tasks, after, id, db.tasks[id].projectId)
  {
    hide Refusal, PairsWithoutTask;
  }

  lemma PairsLeaveTasks(db: Database, actor: User, op: Operation, newId: Uuid, now: Instant)
    requires Execute(db, actor, op, newId, now).Performed? && (op.AssignLabel? || op.RemoveLabel?)
    ensures Execute(db, actor, op, newId, now).db.tasks == db.tasks
  {
    hide PairRefusal;
  }

  function TaskOf(op: Operation, newId: Uuid): Uuid {
    match op
    case CreateTask(_, _) => newId
    case UpdateTask(taskId, _) => taskId
    case DeleteTask(taskId) => taskId
    case _ => 0
  }

  lemma KeepsOtherProjects(before: TaskTable, after: TaskTable, id: Uuid, p: Uuid, other: Uuid)
    requires OnlyTask(before, after, id) && InProject(before, after, id, p) && other != p
    ensures TasksOf(after, other) == TasksOf(before, other)
  {
    forall k | k != id
      ensures k in before <==> k in after
      ensures k in before ==> before[k] == after[k]
    {
      assert k in before <==> k in before - {id};
      assert k in after <==> k in after - {id};
      assert k in before ==> before[k] == (before - {id})[k] == (after - {id})[k] == after[k];
    }
  }

  lemma OthersKeepLabels(db: Database, actor: User, op: Operation, newId: Uuid, now: Instant, p: Uuid)
    requires FreshId(db, newId) && Execute(db, actor, op, newId, now).Performed? && Target(db, op) != Some(p)
    ensures LabelsOf(Execute(db, actor, op, newId, now).db.labels, p) == LabelsOf(db.labels, p)
  {
    hide CreateTaskRule, UpdateTaskRule, DeleteTaskRule, CreateLabelRule, UpdateLabelRule, DeleteLabelRule, AssignLabelRule,
      RemoveLabelRule, LabelsOf, FreshId;
    match op
    case CreateLabel(projectId, name, color) => CreateKeepsLabels(db, actor, projectId, name, color, newId, p);
    case UpdateLabel(id, change) => UpdateKeepsLabels(db, actor, id, change, p);
    case DeleteLabel(id) => DeleteKeepsLabels(db, actor, id, p);
    case _ => TasksLeaveLabels(db, actor, op, newId, now);
  }

  lemma CreateKeepsLabels(db: Database, actor: User, projectId: Uuid, name: string, color: string, newId: Uuid, p: Uuid)
    requires FreshId(db, newId) && CreateLabelRule(db, actor, projectId, name, color, newId).Performed? && projectId != p
    ensures LabelsOf(CreateLabelRule(db, actor, projectId, name, color, newId).db.labels, p) == LabelsOf(db.labels, p)
  {
    hide Refusal, NameTaken;
  }

  lemma UpdateKeepsLabels(db: Database, actor: User, id: Uuid, change: LabelPatch, p: Uuid)
    requires UpdateLabelRule(db, actor, id, change).Performed? && (id in db.labels ==> db.labels[id].projectId != p)
    ensures LabelsOf(UpdateLabelRule(db, actor, id, change).db.labels, p) == LabelsOf(db.labels, p)
  {
    hide Refusal, NameTaken;
  }

  lemma DeleteKeepsLabels(db: Database, actor: User, id: Uuid, p: Uuid)
    requires DeleteLabelRule(db, actor, id).Performed? && (id in db.labels ==> db.labels[id].projectId != p)
    ensures LabelsOf(DeleteLabelRule(db, actor, id).db.labels, p) == LabelsOf(db.labels, p)
  {
    hide Refusal, PairsWithoutLabel;
  }

  lemma TasksLeaveLabels(db: Database, actor: User, op: Operation, newId: Uuid, now: Instant)
    requires Execute(db, actor, op, newId, now).Performed? && !op.CreateLabel? && !op.UpdateLabel? && !op.DeleteLabel?
    ensures Execute(db, actor, op, newId, now).db.labels == db.labels
  {
    hide Refusal, AssigneeRefusal, Mail, Edited, Assignee, PairRefusal, PairsWithoutTask;
  }

  /** The one place where the same-project invariant is needed: a deleted label's pairs are all in its own project. */
  lemma OthersKeepPairs(db: Database, actor: User, op: Operation, newId: Uuid, now: Instant, p: Uuid)
    requires SameProject(db.tasks, db.labels, db.taskLabels) && FreshId(db, newId)
    requires Execute(db, actor, op, newId, now).Performed? && Target(db, op) != Some(p)
    ensures PairsOf(Execute(db, actor, op, newId, now).db, p) == PairsOf(db, p)
  {
    hide CreateTaskRule, UpdateTaskRule, DeleteTaskRule, CreateLabelRule, UpdateLabelRule, DeleteLabelRule, AssignLabelRule,
      RemoveLabelRule, PairsOf, FreshId, SameProject;
    match op
    case CreateTask(_, _) => TaskWritesKeepPairs(db, actor, op, newId, now, p);
    case UpdateTask(_, _) => TaskWritesKeepPairs(db, actor, op, newId, now, p);
    case DeleteTask(id) => DeleteTaskKeepsPairs(db, actor, id, p);
    case DeleteLabel(id) => DeleteLabelKeepsPairs(db, actor, id, p);
    case AssignLabel(taskId, labelId) => AssignKeepsPairs(db, actor, taskId, labelId, p);
    case RemoveLabel(taskId, labelId) => RemoveKeepsPairs(db, actor, taskId, labelId, p);
    case _ => LabelWritesLeavePairs(db, actor, op, newId, now, p);
  }

  lemma TaskWritesKeepPairs(db: Database, actor: User, op: Operation, newId: Uuid, now: Instant, p: Uuid)
    requires SameProject(db.tasks, db.labels, db.taskLabels) && FreshId(db, newId) && (op.CreateTask? || op.UpdateTask?)
    requires Execute(db, actor, op, newId, now).Performed? && Target(db, op) != Some(p)
    ensures PairsOf(Execute(db, actor, op, newId, now).db, p) == PairsOf(db, p)
  {
    hide Refusal, AssigneeRefusal, Mail, Edited, Assignee;
  }

  lemma DeleteTaskKeepsPairs(db: Database, actor: User, id: Uuid, p: Uuid)
    requires DeleteTaskRule(db, actor, id).Performed? && (id in db.tasks ==> db.tasks[id].projectId != p)
    ensures PairsOf(DeleteTaskRule(db, actor, id).db, p) == PairsOf(db, p)
  {
    hide Refusal;
  }

  lemma DeleteLabelKeepsPairs(db: Database, actor: User, id: Uuid, p: Uuid)
    requires SameProject(db.tasks, db.labels, db.taskLabels)
    requires DeleteLabelRule(db, actor, id).Performed? && (id in db.labels ==> db.labels[id].projectId != p)
    ensures PairsOf(DeleteLabelRule(db, actor, id).db, p) == PairsOf(db, p)
  {
    hide Refusal;
  }

  lemma AssignKeepsPairs(db: Database, actor: User, taskId: Uuid, labelId: Uuid, p: Uuid)
    requires AssignLabelRule(db, actor, taskId, labelId).Performed? && (taskId in db.tasks ==> db.tasks[taskId].projectId != p)
    ensures PairsOf(AssignLabelRule(db, actor, taskId, labelId).db, p) == PairsOf(db, p)
  {
    hide Refusal;
  }

  lemma RemoveKeepsPairs(db: Database, actor: User, taskId: Uuid, labelId: Uuid, p: Uuid)
    requires RemoveLabelRule(db, actor, taskId, labelId).Performed? && (taskId in db.tasks ==> db.tasks[taskId].projectId != p)
    ensures PairsOf(RemoveLabelRule(db, actor, taskId, labelId).db, p) == PairsOf(db, p)
  {
    hide Refusal;
  }

  lemma LabelWritesLeavePairs(db: Database, actor: User, op: Operation, newId: Uuid, now: Instant, p: Uuid)
    requires Execute(db, actor, op, newId, now).Performed? && (op.CreateLabel? || op.UpdateLabel?)
    ensures PairsOf(Execute(db, actor, op, newId, now).db, p) == PairsOf(db, p)
  {
    hide Refusal, NameTaken;
  }

  /** Whoever changes anything in a project is its owner or an editor, and the project is not archived. */
  lemma OnlyWritersChangeAProject(db: Database, actor: User, op: Operation, newId: Uuid, now: Instant, p: Uuid)
    requires WellFormed(db) && FreshId(db, newId) && Execute(db, actor, op, newId, now).Performed?
    ensures var after := Execute(db, actor, op, newId, now).db;
            && (ContentsOf(after, p) != ContentsOf(db, p) ==> MayWrite(db, p, actor.id) && !Archived(db, p))
            && after.projects == db.projects
  {
    hide MayWrite, Archived, ContentsOf;
    PerformedMeansAllowed(db, actor, op, newId, now);
    ProjectsStay(db, actor, op, newId, now);
    hide Execute, Target;
    if Target(db, op) != Some(p) {
      SameContents(db, actor, op, newId, now, p);
    }
  }

  lemma ProjectsStay(db: Database, actor: User, op: Operation, newId: Uuid, now: Instant)
    requires Execute(db, actor, op, newId, now).Performed?
    ensures Execute(db, actor, op, newId, now).db.projects == db.projects
  {
    hide Refusal, AssigneeRefusal, Mail, Edited, NameTaken, Assignee;
  }

  lemma SameContents(db: Database, actor: User, op: Operation, newId: Uuid, now: Instant, p: Uuid)
    requires WellFormed(db) && FreshId(db, newId) && Execute(db, actor, op, newId, now).Performed?
    requires Target(db, op) != Some(p)
    ensures ContentsOf(Execute(db, actor, op, newId, now).db, p) == ContentsOf(db, p)
  {
    hide Execute, Target;
    OthersKeepTasks(db, actor, op, newId, now, p);
    OthersKeepLabels(db, actor, op, newId, now, p);
    OthersKeepPairs(db, actor, op, newId, now, p);
  }

  /**
   Without the same-project invariant archiving would not freeze a project: a pair that joins a task of an archived
   project to a label elsewhere is removed by whoever may delete that label.
   */
  lemma CascadeReachesStrayPairs(db: Database, actor: User, taskId: Uuid, labelId: Uuid, newId: Uuid, now: Instant)
    requires (taskId, labelId) in db.taskLabels && taskId in db.tasks && labelId in db.labels
    requires var home := db.labels[labelId].projectId; MayWrite(db, home, actor.id) && !Archived(db, home)
    ensures var outcome := Execute(db, actor, DeleteLabel(labelId), newId, now);
            var p := db.tasks[taskId].projectId;
            && outcome.Performed? && ContentsOf(outcome.db, p) != ContentsOf(db, p)
            && (Archived(db, p) ==> !SameProject(db.tasks, db.labels, db.taskLabels))
  {
    var p := db.tasks[taskId].projectId;
    assert (taskId, labelId) in PairsOf(db, p);
    assert (taskId, labelId) !in PairsOf(Execute(db, actor, DeleteLabel(labelId), newId, now).db, p);
  }

  // ---------------------------------------------------------------- what is announced

  predicate IsMailFor(c: Callback, taskId: Uuid) {
    c.Dispatch? && c.notice.taskId == taskId
  }

  /** The committed row of the task has an assignee it did not have before, and who is not the actor. */
  predicate NewlyAssigned(before: Database, after: Database, actor: User, taskId: Uuid) {
    && taskId in after.tasks
    && after.tasks[taskId].assigneeId.Some? && after.tasks[taskId].assigneeId.value != actor.id
    && (taskId in before.tasks ==> before.tasks[taskId].assigneeId != after.tasks[taskId].assigneeId)
  }

  /** Queued callbacks: nothing at all, or one invalidation and then at most one mail. */
  lemma QueueShape(db: Database, actor: User, op: Operation, newId: Uuid, now: Instant)
    requires Execute(db, actor, op, newId, now).Performed?
    ensures var queue := Execute(db, actor, op, newId, now).callbacks;
            && Target(db, op).Some?
            && (queue == [] || (queue[0] == Invalidate(Target(db, op).value)
                                && (|queue| == 1 || (|queue| == 2 && queue[1].Dispatch?))))
            && (queue == [] <==> op.CreateLabel? || op.UpdateLabel? || op.DeleteLabel?)
  {
    hide Refusal, AssigneeRefusal, Edited, NameTaken, Assignee;
  }

  /** Task rows never change unannounced: the project's invalidation is queued, before any mail. */
  lemma RowChangesInvalidate(db: Database, actor: User, op: Operation, newId: Uuid, now: Instant, p: Uuid)
    requires FreshId(db, newId) && Execute(db, actor, op, newId, now).Performed?
    ensures var outcome := Execute(db, actor, op, newId, now);
            TasksOf(outcome.db.tasks, p) != TasksOf(db.tasks, p) ==>
              && outcome.callbacks != [] && outcome.callbacks[0] == Invalidate(p)
              && forall i :: 0 < i < |outcome.callbacks| ==> outcome.callbacks[i].Dispatch?
  {
    hide Execute, Target, TasksOf;
    QueueShape(db, actor, op, newId, now);
    if op.CreateLabel? || op.UpdateLabel? || op.DeleteLabel? {
      LabelsLeaveTasks(db, actor, op, newId, now);
    }
    if Target(db, op) != Some(p) {
      OthersKeepTasks(db, actor, op, newId, now, p);
    }
  }

  lemma LabelsLeaveTasks(db: Database, actor: User, op: Operation, newId: Uuid, now: Instant)
    requires Execute(db, actor, op, newId, now).Performed? && (op.CreateLabel? || op.UpdateLabel? || op.DeleteLabel?)
    ensures Execute(db, actor, op, newId, now).db.tasks == db.tasks
  {
    hide Refusal, NameTaken;
  }

  /**
   A mail is queued for the task exactly when the operation gives it a new assignee other than the actor, and it says
   what the new row says, addressed to that assignee.
   */
  ghost predicate MailMatches(db: Database, outcome: Outcome, actor: User, taskId: Uuid)
    requires outcome.Performed?
  {
    && ((exists c :: c in outcome.callbacks && IsMailFor(c, taskId)) <==> NewlyAssigned(db, outcome.db, actor, taskId))
    && (forall c :: c in outcome.callbacks && IsMailFor(c, taskId) ==>
          && taskId in outcome.db.tasks && outcome.db.tasks[taskId].assigneeId.Some?
          && var task := outcome.db.tasks[taskId];
             && task.assigneeId.value in db.users && task.projectId in db.projects
             && c.notice.assigneeEmail == db.users[task.assigneeId.value].email
             && c.notice.assigneeName == db.users[task.assigneeId.value].fullName
             && c.notice.assignedByName == actor.fullName && c.notice.projectName == db.projects[task.projectId].name
             && c.notice.taskTitle == task.title && c.notice.dueDate == task.dueDate)
  }

  lemma MailExactlyForNewAssignees(db: Database, actor: User, op: Operation, newId: Uuid, now: Instant, taskId: Uuid)
    requires FreshId(db, newId) && Execute(db, actor, op, newId, now).Performed?
    ensures MailMatches(db, Execute(db, actor, op, newId, now), actor, taskId)
  {
    match op
    case CreateTask(projectId, draft) => CreateMail(db, actor, projectId, draft, newId, now, taskId);
    case UpdateTask(id, patch) => UpdateMail(db, actor, id, patch, now, taskId);
    case _ => NoMail(db, actor, op, newId, now, taskId);
  }

  lemma CreateMail(db: Database, actor: User, projectId: Uuid, draft: TaskDraft, newId: Uuid, now: Instant, taskId: Uuid)
    requires FreshId(db, newId) && CreateTaskRule(db, actor, projectId, draft, newId, now).Performed?
    ensures var outcome := CreateTaskRule(db, actor, projectId, draft, newId, now);
            MailMatches(db, outcome, actor, taskId)
  {
    var outcome := CreateTaskRule(db, actor, projectId, draft, newId, now);
    if NewlyAssigned(db, outcome.db, actor, taskId) {
      assert IsMailFor(outcome.callbacks[1], taskId);
    }
  }

  lemma UpdateMail(db: Database, actor: User, id: Uuid, patch: TaskPatch, now: Instant, taskId: Uuid)
    requires UpdateTaskRule(db, actor, id, patch, now).Performed?
    ensures MailMatches(db, UpdateTaskRule(db, actor, id, patch, now), actor, taskId)
  {
    var outcome := UpdateTaskRule(db, actor, id, patch, now);
    if NewlyAssigned(db, outcome.db, actor, taskId) {
      assert IsMailFor(outcome.callbacks[1], taskId);
    }
  }

  lemma NoMail(db: Database, actor: User, op: Operation, newId: Uuid, now: Instant, taskId: Uuid)
    requires Execute(db, actor, op, newId, now).Performed? && !op.CreateTask? && !op.UpdateTask?
    ensures MailMatches(db, Execute(db, actor, op, newId, now), actor, taskId)
  {
    hide Refusal, NameTaken;
  }
}
