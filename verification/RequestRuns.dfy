/** Sequences of complete requests with no cache: the reference that the cached application is compared with. */
module RequestRuns {
  import opened Wrappers
  import opened Clock
  import opened Domain
  import opened TaskListing
  import opened TaskListKeys
  import opened ServiceRules
  import opened ServiceProperties
  import opened PostCommit

  datatype Request =
    | Mutation(actor: User, op: Operation, newId: Uuid, now: Instant)
    | Listing(userId: Uuid, projectId: Uuid, query: Query)
    | Elsewhere(users: UserTable, workspaces: map<Uuid, Workspace>, members: map<(Uuid, Uuid), MemberRole>,
                projects: ProjectTable)

  /** What a request does not decide itself: whether its commit succeeds, and whether its first GET, if any, is answered. */
  datatype Fate = Fate(commits: bool, answered: bool)

  datatype Reply = Page(page: TaskPage) | Failed(error: ServiceError) | Finished | Overflowed

  datatype Handled = Handled(db: Database, reply: Reply, events: seq<Event>)

  /** `get_db` after the service call: commit, close and callbacks, or rollback and close. */
  function Concluded(commits: bool, callbacks: seq<Callback>): seq<Event> {
    if commits then [TransactionCommitted, SessionClosed] + Calls(callbacks) else [TransactionRolledBack, SessionClosed]
  }

  /** Registrations, profiles, workspaces, members and new projects: the other services touch no row modelled below them. */
  function WithElsewhere(db: Database, r: Request): Database
    requires r.Elsewhere?
  {
    db.(users := r.users, workspaces := r.workspaces, members := r.members, projects := r.projects + db.projects)
  }

  /** The request looks the listing's version up, because its user can see the project. */
  predicate AsksRedis(db: Database, r: Request) {
    r.Listing? && ProjectRole(db, r.projectId, r.userId).Some?
  }

  /** A listing whose version was read has to print its key, and fails if it cannot. */
  function Handle(db: Database, r: Request, fate: Fate): Handled {
    match r
    case Mutation(actor, op, newId, now) =>
      (match Execute(db, actor, op, newId, now)
       case Refused(error) => Handled(db, Failed(error), Concluded(false, []))
       case Performed(after, callbacks) =>
         if fate.commits then Handled(after, Finished, Concluded(true, callbacks))
         else Handled(db, Finished, Concluded(false, [])))
    case Listing(userId, projectId, query) =>
      if ProjectRole(db, projectId, userId).None? then
        Handled(db, Failed(NotFound(ProjectEntity, projectId)), Concluded(false, []))
      else if fate.answered && !Printable(query) then Handled(db, Overflowed, Concluded(false, []))
      else Handled(db, Page(Answer(db.tasks, projectId, query)), Concluded(fate.commits, []))
    case Elsewhere(_, _, _, _) =>
      Handled(if fate.commits then WithElsewhere(db, r) else db, Finished, Concluded(fate.commits, []))
  }

  datatype Replayed = Replayed(db: Database, replies: seq<Reply>, events: seq<Event>)

  function Replay(db: Database, requests: seq<Request>, fates: seq<Fate>): (r: Replayed)
    requires |fates| == |requests|
    ensures |r.replies| == |requests|
  {
    if requests == [] then Replayed(db, [], []) else
      var last := |requests| - 1;
      var before := Replay(db, requests[..last], fates[..last]);
      var step := Handle(before.db, requests[last], fates[last]);
      Replayed(step.db, before.replies + [step.reply], before.events + step.events)
  }

  /** Ids are drawn at random: none is in use when its request runs. */
  predicate IdsFresh(db: Database, requests: seq<Request>, fates: seq<Fate>)
    requires |fates| == |requests|
  {
    requests == [] ||
    var last := |requests| - 1;
    && IdsFresh(db, requests[..last], fates[..last])
    && (requests[last].Mutation? ==> FreshId(Replay(db, requests[..last], fates[..last]).db, requests[last].newId))
  }

  /** Enough for that: the ids that the requests bring are pairwise different and new to the first state. */
  predicate DistinctIds(db: Database, requests: seq<Request>) {
    && (forall i :: 0 <= i < |requests| && requests[i].Mutation? ==> FreshId(db, requests[i].newId))
    && (forall i, j :: 0 <= i < j < |requests| && requests[i].Mutation? && requests[j].Mutation? ==>
          requests[i].newId != requests[j].newId)
  }

  lemma StepBringsOneId(db: Database, r: Request, fate: Fate, id: Uuid)
    requires FreshId(db, id) && (r.Mutation? ==> r.newId != id)
    ensures FreshId(Handle(db, r, fate).db, id)
  {
    hide Execute, Answer, ProjectRole;
    if r.Mutation? && Execute(db, r.actor, r.op, r.newId, r.now).Performed? {
      OneNewTask(db, r.actor, r.op, r.newId, r.now);
      OneNewLabel(db, r.actor, r.op, r.newId, r.now);
    }
  }

  lemma OneNewTask(db: Database, actor: User, op: Operation, newId: Uuid, now: Instant)
    requires Execute(db, actor, op, newId, now).Performed?
    ensures Execute(db, actor, op, newId, now).db.tasks.Keys <= db.tasks.Keys + {newId}
  {
    hide Refusal, AssigneeRefusal, Mail, Edited, NameTaken, Assignee;
  }

  lemma OneNewLabel(db: Database, actor: User, op: Operation, newId: Uuid, now: Instant)
    requires Execute(db, actor, op, newId, now).Performed?
    ensures Execute(db, actor, op, newId, now).db.labels.Keys <= db.labels.Keys + {newId}
  {
    hide Refusal, AssigneeRefusal, Mail, Edited, NameTaken, Assignee;
  }

  lemma {:induction false} StaysFresh(db: Database, requests: seq<Request>, fates: seq<Fate>, id: Uuid)
    requires |fates| == |requests| && FreshId(db, id)
    requires forall i :: 0 <= i < |requests| && requests[i].Mutation? ==> requests[i].newId != id
    ensures FreshId(Replay(db, requests, fates).db, id)
  {
    hide Handle, FreshId;
    if requests != [] {
      var last := |requests| - 1;
      StaysFresh(db, requests[..last], fates[..last], id);
      StepBringsOneId(Replay(db, requests[..last], fates[..last]).db, requests[last], fates[last], id);
    }
  }

  lemma {:induction false} DistinctIdsAreFresh(db: Database, requests: seq<Request>, fates: seq<Fate>)
    requires |fates| == |requests| && DistinctIds(db, requests)
    ensures IdsFresh(db, requests, fates)
  {
    hide Handle, FreshId;
    if requests != [] {
      var last := |requests| - 1;
      DistinctIdsAreFresh(db, requests[..last], fates[..last]);
      if requests[last].Mutation? {
        StaysFresh(db, requests[..last], fates[..last], requests[last].newId);
      }
    }
  }

  // ---------------------------------------------------------------- what sequences keep

  lemma StepKeeps(db: Database, r: Request, fate: Fate, p: Uuid)
    requires WellFormed(db) && (r.Mutation? ==> FreshId(db, r.newId))
    ensures var after := Handle(db, r, fate).db;
            && WellFormed(after)
            && (p in db.projects ==> p in after.projects && after.projects[p] == db.projects[p])
            && (Archived(db, p) ==> ContentsOf(after, p) == ContentsOf(db, p))
  {
    hide Execute, WellFormed, ContentsOf, MayWrite;
    if r.Mutation? && Execute(db, r.actor, r.op, r.newId, r.now).Performed? {
      WellFormedKept(db, r.actor, r.op, r.newId, r.now);
      OnlyWritersChangeAProject(db, r.actor, r.op, r.newId, r.now, p);
    } else if r.Elsewhere? {
      ElsewhereKeeps(db, r, p);
    }
  }

  lemma ElsewhereKeeps(db: Database, r: Request, p: Uuid)
    requires r.Elsewhere? && WellFormed(db)
    ensures WellFormed(WithElsewhere(db, r)) && ContentsOf(WithElsewhere(db, r), p) == ContentsOf(db, p)
  {
    hide LabelNamesUnique;
  }

  lemma {:induction false} RunKeeps(db: Database, requests: seq<Request>, fates: seq<Fate>, p: Uuid)
    requires WellFormed(db) && |fates| == |requests| && IdsFresh(db, requests, fates)
    ensures var after := Replay(db, requests, fates).db;
            && WellFormed(after)
            && (p in db.projects ==> p in after.projects && after.projects[p] == db.projects[p])
            && (Archived(db, p) ==> ContentsOf(after, p) == ContentsOf(db, p))
  {
    hide WellFormed, ContentsOf, Handle, FreshId;
    if requests != [] {
      var last := |requests| - 1;
      RunKeeps(db, requests[..last], fates[..last], p);
      StepKeeps(Replay(db, requests[..last], fates[..last]).db, requests[last], fates[last], p);
    }
  }

  /** The requests, with ids that are fresh and with these fates, lead from one database to the other. */
  ghost predicate Leads(db: Database, requests: seq<Request>, fates: seq<Fate>, after: Database) {
    |fates| == |requests| && IdsFresh(db, requests, fates) && Replay(db, requests, fates).db == after
  }

  /** Archived projects are frozen: over any sequence of requests their tasks, labels and pairs never change. */
  lemma ArchivedProjectsAreFrozen(db: Database, requests: seq<Request>, fates: seq<Fate>, after: Database, p: Uuid)
    requires WellFormed(db) && Leads(db, requests, fates, after) && Archived(db, p)
    ensures Archived(after, p) && ContentsOf(after, p) == ContentsOf(db, p)
  {
    RunKeeps(db, requests, fates, p);
  }

  // ---------------------------------------------------------------- when callbacks run

  /** Callback `i` follows a commit and a close at once, or one other callback of the same request. */
  predicate InItsPlace(events: seq<Event>, i: nat)
    requires i < |events|
  {
    && (events[i].Called? && events[i].callback.Invalidate? ==>
          i >= 2 && events[i - 1].SessionClosed? && events[i - 2].TransactionCommitted?)
    && (events[i].Called? && events[i].callback.Dispatch? ==>
          i >= 3 && events[i - 1].Called? && events[i - 1].callback.Invalidate?)
  }

  lemma StepInPlace(db: Database, r: Request, fate: Fate, i: nat)
    requires i < |Handle(db, r, fate).events|
    ensures InItsPlace(Handle(db, r, fate).events, i)
  {
    hide Execute, Answer, ProjectRole;
    if r.Mutation? && Execute(db, r.actor, r.op, r.newId, r.now).Performed? {
      QueueShape(db, r.actor, r.op, r.newId, r.now);
    }
  }

  /**
   Callbacks run only after a successful commit and close of their own request, and a mail is dispatched only right
   after that request's invalidation was attempted.
   */
  lemma {:induction false} CallbacksFollowTheirCommit(db: Database, requests: seq<Request>, fates: seq<Fate>, i: nat)
    requires |fates| == |requests| && i < |Replay(db, requests, fates).events|
    ensures InItsPlace(Replay(db, requests, fates).events, i)
  {
    if requests != [] {
      hide Handle, InItsPlace;
      var last := |requests| - 1;
      var before := Replay(db, requests[..last], fates[..last]);
      var events := Handle(before.db, requests[last], fates[last]).events;
      if i < |before.events| {
        CallbacksFollowTheirCommit(db, requests[..last], fates[..last], i);
        EarlierStayInPlace(before.events, events, i);
      } else {
        StepInPlace(before.db, requests[last], fates[last], i - |before.events|);
        LaterStayInPlace(before.events, events, i - |before.events|);
      }
    }
  }

  lemma EarlierStayInPlace(a: seq<Event>, b: seq<Event>, i: nat)
    requires i < |a| && InItsPlace(a, i)
    ensures InItsPlace(a + b, i)
  {
  }

  lemma LaterStayInPlace(a: seq<Event>, b: seq<Event>, i: nat)
    requires i < |b| && InItsPlace(b, i)
    ensures InItsPlace(a + b, |a| + i)
  {
  }

  // ---------------------------------------------------------------- how often they run

  function Count(events: seq<Event>, f: Event -> bool): nat {
    if events == [] then 0 else Count(events[..|events| - 1], f) + if f(events[|events| - 1]) then 1 else 0
  }

  lemma {:induction false} CountAppend(a: seq<Event>, b: seq<Event>, f: Event -> bool)
    ensures Count(a + b, f) == Count(a, f) + Count(b, f)
  {
    if b == [] {
      assert a + b == a;
    } else {
      CountAppend(a, b[..|b| - 1], f);
      assert (a + b)[..|a + b| - 1] == a + b[..|b| - 1];
    }
  }

  function Invalidations(events: seq<Event>, p: Uuid): nat {
    Count(events, (e: Event) => e == Called(Invalidate(p)))
  }

  function MailCalls(events: seq<Event>, taskId: Uuid): nat {
    Count(events, (e: Event) => e.Called? && IsMailFor(e.callback, taskId))
  }

  predicate ChangesTasks(db: Database, r: Request, fate: Fate, p: Uuid) {
    TasksOf(Handle(db, r, fate).db.tasks, p) != TasksOf(db.tasks, p)
  }

  /** A committed request gave the task a new assignee, other than whoever made the request. */
  predicate Assigns(db: Database, r: Request, fate: Fate, taskId: Uuid) {
    r.Mutation? && NewlyAssigned(db, Handle(db, r, fate).db, r.actor, taskId)
  }

  /** How many requests of the run committed a change of the project's task rows. */
  function TaskChanges(db: Database, requests: seq<Request>, fates: seq<Fate>, p: Uuid): nat
    requires |fates| == |requests|
  {
    if requests == [] then 0 else
      var last := |requests| - 1;
      TaskChanges(db, requests[..last], fates[..last], p)
      + if ChangesTasks(Replay(db, requests[..last], fates[..last]).db, requests[last], fates[last], p) then 1 else 0
  }

  /** A request committed an operation on a task or a pair of the project, whether or not it changed a row. */
  predicate WorksOnTasks(db: Database, r: Request, fate: Fate, p: Uuid) {
    r.Mutation? && fate.commits && Execute(db, r.actor, r.op, r.newId, r.now).Performed? && OnTasksOf(db, r.op, p)
  }

  predicate OnTasksOf(db: Database, op: Operation, p: Uuid) {
    !op.CreateLabel? && !op.UpdateLabel? && !op.DeleteLabel? && Target(db, op) == Some(p)
  }

  function TaskOperations(db: Database, requests: seq<Request>, fates: seq<Fate>, p: Uuid): nat
    requires |fates| == |requests|
  {
    if requests == [] then 0 else
      var last := |requests| - 1;
      TaskOperations(db, requests[..last], fates[..last], p)
      + if WorksOnTasks(Replay(db, requests[..last], fates[..last]).db, requests[last], fates[last], p) then 1 else 0
  }

  function Assignments(db: Database, requests: seq<Request>, fates: seq<Fate>, taskId: Uuid): nat
    requires |fates| == |requests|
  {
    if requests == [] then 0 else
      var last := |requests| - 1;
      Assignments(db, requests[..last], fates[..last], taskId)
      + if Assigns(Replay(db, requests[..last], fates[..last]).db, requests[last], fates[last], taskId) then 1 else 0
  }

  lemma StepCounts(db: Database, r: Request, fate: Fate, p: Uuid, taskId: Uuid)
    requires r.Mutation? ==> FreshId(db, r.newId)
    ensures Invalidations(Handle(db, r, fate).events, p) == if WorksOnTasks(db, r, fate, p) then 1 else 0
    ensures ChangesTasks(db, r, fate, p) ==> WorksOnTasks(db, r, fate, p)
    ensures MailCalls(Handle(db, r, fate).events, taskId) == if Assigns(db, r, fate, taskId) then 1 else 0
  {
    hide Execute, Answer, ProjectRole, TasksOf, Target;
    if r.Mutation? && fate.commits && Execute(db, r.actor, r.op, r.newId, r.now).Performed? {
      PerformedCounts(db, r.actor, r.op, r.newId, r.now, p, taskId);
    } else {
      QuietCounts(Handle(db, r, fate).events, p, taskId);
    }
  }

  lemma QuietCounts(events: seq<Event>, p: Uuid, taskId: Uuid)
    requires |events| == 2 && !events[0].Called? && !events[1].Called?
    ensures Invalidations(events, p) == 0 && MailCalls(events, taskId) == 0
  {
    CountPair(events, (e: Event) => e == Called(Invalidate(p)));
    CountPair(events, (e: Event) => e.Called? && IsMailFor(e.callback, taskId));
  }

  lemma CountPair(events: seq<Event>, f: Event -> bool)
    requires |events| <= 2
    ensures Count(events, f) == (if |events| >= 1 && f(events[0]) then 1 else 0)
                                + (if |events| == 2 && f(events[1]) then 1 else 0)
  {
  }

  lemma CountConcluded(callbacks: seq<Callback>, f: Event -> bool)
    requires |callbacks| <= 2 && !f(TransactionCommitted) && !f(SessionClosed)
    ensures Count(Concluded(true, callbacks), f)
              == (if |callbacks| >= 1 && f(Called(callbacks[0])) then 1 else 0)
                 + (if |callbacks| == 2 && f(Called(callbacks[1])) then 1 else 0)
  {
    CountAppend([TransactionCommitted, SessionClosed], Calls(callbacks), f);
    CountPair([TransactionCommitted, SessionClosed], f);
    CountPair(Calls(callbacks), f);
  }

  lemma PerformedCounts(db: Database, actor: User, op: Operation, newId: Uuid, now: Instant, p: Uuid, taskId: Uuid)
    requires FreshId(db, newId) && Execute(db, actor, op, newId, now).Performed?
    ensures var outcome := Execute(db, actor, op, newId, now);
            && Invalidations(Concluded(true, outcome.callbacks), p) == (if OnTasksOf(db, op, p) then 1 else 0)
            && (TasksOf(outcome.db.tasks, p) != TasksOf(db.tasks, p) ==> OnTasksOf(db, op, p))
            && MailCalls(Concluded(true, outcome.callbacks), taskId)
                 == if NewlyAssigned(db, outcome.db, actor, taskId) then 1 else 0
  {
    hide Execute, TasksOf, Concluded, Target, NewlyAssigned;
    var queue := Execute(db, actor, op, newId, now).callbacks;
    QueueShape(db, actor, op, newId, now);
    RowChangesInvalidate(db, actor, op, newId, now, p);
    MailExactlyForNewAssignees(db, actor, op, newId, now, taskId);
    QueueCounts(queue, p, taskId);
    assert (exists c :: c in queue && IsMailFor(c, taskId)) <==> |queue| == 2 && IsMailFor(queue[1], taskId);
  }

  lemma QueueCounts(queue: seq<Callback>, p: Uuid, taskId: Uuid)
    requires |queue| <= 2 && (queue != [] ==> queue[0].Invalidate?) && (|queue| == 2 ==> queue[1].Dispatch?)
    ensures Invalidations(Concluded(true, queue), p) == if queue != [] && queue[0] == Invalidate(p) then 1 else 0
    ensures MailCalls(Concluded(true, queue), taskId) == if |queue| == 2 && IsMailFor(queue[1], taskId) then 1 else 0
  {
    CountConcluded(queue, (e: Event) => e == Called(Invalidate(p)));
    CountConcluded(queue, (e: Event) => e.Called? && IsMailFor(e.callback, taskId));
  }

  /**
   Over any sequence of requests, a project's invalidation was attempted exactly once for every committed operation on
   its tasks or pairs, which include all that changed its task rows, and a mail was dispatched for a task exactly as
   often as a committed request newly assigned it.
   */
  lemma {:induction false} EffectsMatchChanges(db: Database, requests: seq<Request>, fates: seq<Fate>, p: Uuid, taskId: Uuid)
    requires |fates| == |requests| && IdsFresh(db, requests, fates)
    ensures var events := Replay(db, requests, fates).events;
            && Invalidations(events, p) == TaskOperations(db, requests, fates, p)
            && TaskChanges(db, requests, fates, p) <= TaskOperations(db, requests, fates, p)
            && Assignments(db, requests, fates, taskId) == MailCalls(events, taskId)
  {
    hide Handle, ChangesTasks, WorksOnTasks, Assigns, FreshId;
    if requests != [] {
      var last := |requests| - 1;
      EffectsMatchChanges(db, requests[..last], fates[..last], p, taskId);
      var before := Replay(db, requests[..last], fates[..last]);
      StepCounts(before.db, requests[last], fates[last], p, taskId);
      var events := Handle(before.db, requests[last], fates[last]).events;
      CountAppend(before.events, events, (e: Event) => e == Called(Invalidate(p)));
      CountAppend(before.events, events, (e: Event) => e.Called? && IsMailFor(e.callback, taskId));
    }
  }
}
