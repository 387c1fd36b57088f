/**
 What the two statements of a listing read, and what commits write, at the moment they run. No transaction joins the two
 statements, so a commit between them shows: the total is from before it and the items are from after it.
 */
module TornPages {
  import opened Wrappers
  import opened Clock
  import opened Domain
  import opened TaskListing
  import opened ListingRanks
  import opened TaskListKeys
  import opened Redis
  import opened CacheProtocol
  import opened UninterruptedRuns
  import ServiceEffects

  /** The response that a listing has built, stored or not. */
  function Built(phase: Phase): Option<TaskPage> {
    match phase
    case Answered(response) => Some(response)
    case WantStore(_, response) => Some(response)
    case _ => None
  }

  /** The rows of the last commit. */
  function Newest(s: State): TaskTable
    requires s.commits != []
  {
    s.commits[|s.commits| - 1].tasks
  }

  // ---------------------------------------------------------------- what each statement reads

  /** The count statement counts the rows that are committed when it runs. */
  lemma CountReadsNewestCommit(c: Config, s: State, r: nat, t: State)
    requires Next(c, s, RunCount(r)) == Some(t)
    ensures s.commits != [] && r in s.readers && r in t.readers && t.readers[r].phase.WantItems?
    ensures var reader := s.readers[r];
            t.readers[r].phase.total == |Selected(Newest(s), reader.project, reader.query.filters)|
  {
    CountIsSelected(Newest(s), s.readers[r].project, s.readers[r].query);
  }

  /**
   The page statement reads the rows that are committed when it runs, whatever the count has seen: the items are those
   whose rank in them falls on the page, newest first, and the total is still the one counted.
   */
  lemma ItemsReadNewestCommit(c: Config, s: State, r: nat, t: State)
    requires Next(c, s, RunItems(r)) == Some(t)
    ensures s.commits != [] && r in s.readers && s.readers[r].phase.WantItems? && r in t.readers
    ensures var reader, page := s.readers[r], Built(t.readers[r].phase);
            && page.Some? && page.value.total == reader.phase.total
            && page.value.page == reader.query.page && page.value.pageSize == reader.query.pageSize
            && (forall task :: task in page.value.items <==> OnPage(Newest(s), reader.project, reader.query, task))
            && (forall i, j :: 0 <= i < j < |page.value.items| ==>
                  || page.value.items[i].createdAt > page.value.items[j].createdAt
                  || (page.value.items[i].createdAt == page.value.items[j].createdAt
                      && page.value.items[i].id > page.value.items[j].id))
  {
    hide OnPage, PageStatement, TotalPages;
    var rows, p, q := Newest(s), s.readers[r].project, s.readers[r].query;
    var page := Built(t.readers[r].phase).value;
    assert page.items == PageStatement(rows, p, q) == Answer(rows, p, q).items;
    forall task {
      PageMembers(rows, p, q, task);
    }
    forall i, j | 0 <= i < j < |page.items|
      ensures page.items[i].createdAt > page.items[j].createdAt
              || (page.items[i].createdAt == page.items[j].createdAt && page.items[i].id > page.items[j].id)
    {
      AnswerIsNewestFirst(rows, p, q, i, j);
    }
  }

  // ---------------------------------------------------------------- what each commit writes

  /** Only a commit changes the committed rows, and what was committed stays on record. */
  lemma OnlyCommitsCommit(c: Config, s: State, a: Action, t: State)
    requires Next(c, s, a) == Some(t)
    ensures if a.CommitMutation? then |t.commits| == |s.commits| + 1 && t.commits[..|s.commits|] == s.commits
            else t.commits == s.commits
  {
    hide Applied, MayStart, Printable, ResponseKey, VersionKey, Lookup, VersionText, Bumped, PageStatement, CountStatement,
      TotalPages, Stored, IsVersionKey;
  }

  /** A committed mutation writes its own task into the rows of the last commit, and no other. */
  lemma CommitWritesItsTask(c: Config, s: State, w: nat, t: State)
    requires Next(c, s, CommitMutation(w)) == Some(t)
    ensures w in s.writers && s.commits != [] && t.commits != []
    ensures t.commits[|t.commits| - 1].at == s.now && t.commits[|t.commits| - 1].project == s.writers[w].project
    ensures var before, after := Newest(s), Newest(t);
            match s.writers[w].mutation
            case Insert(task) =>
              && task.id in after && after[task.id] == task
              && forall id :: id != task.id ==> (id in after <==> id in before) && (id in before ==> after[id] == before[id])
            case Update(id, patch, at) =>
              && id in before && id in after && ServiceEffects.SetAsGiven(patch, before[id], after[id])
              && after[id].updatedAt == at && after[id].createdAt == before[id].createdAt
              && after[id].id == id && after[id].projectId == before[id].projectId && after[id].createdBy == before[id].createdBy
              && forall k :: k != id ==> (k in after <==> k in before) && (k in before ==> after[k] == before[k])
            case Remove(id) =>
              id !in after && forall k :: k != id ==> (k in after <==> k in before) && (k in before ==> after[k] == before[k])
            case LeaveRows => after == before
  {
  }

  /** An update whose row has gone meanwhile cannot commit; every other open request can. */
  lemma CommitsUnlessRowIsGone(c: Config, s: State, w: nat)
    requires s.commits != [] && w in s.writers && s.writers[w].progress.InTransaction?
    ensures Next(c, s, CommitMutation(w)).Some? <==>
              !(s.writers[w].mutation.Update? && s.writers[w].mutation.id !in Newest(s))
  {
  }

  /** A request that rolled back never commits and never calls a callback, in any continuation. */
  lemma {:induction false} RolledBackForGood(c: Config, s: State, w: nat, more: seq<Action>)
    requires w in s.writers && s.writers[w].progress.RolledBack? && Run(c, s, more).Some?
    ensures var t := Run(c, s, more).value;
            && w in t.writers && t.writers[w] == s.writers[w]
            && Next(c, t, CommitMutation(w)).None? && forall times :: Next(c, t, RunCallback(w, times)).None?
  {
    if more != [] {
      RolledBackForGood(c, s, w, more[..|more| - 1]);
      RolledBackStep(c, Run(c, s, more[..|more| - 1]).value, w, more[|more| - 1]);
    }
  }

  lemma RolledBackStep(c: Config, s: State, w: nat, a: Action)
    requires w in s.writers && s.writers[w].progress.RolledBack? && Next(c, s, a).Some?
    ensures w in Next(c, s, a).value.writers && Next(c, s, a).value.writers[w] == s.writers[w]
  {
    hide Applied, MayStart, Printable, ResponseKey, VersionKey, Lookup, VersionText, Bumped, PageStatement, CountStatement,
      TotalPages, Stored, IsVersionKey;
  }

  // ---------------------------------------------------------------- a torn page

  /** A listing that has missed, and a request that is about to insert a task. */
  function BeforeTheTear(p: Uuid, q: Query, task: Task): seq<Action> {
    (([StartListing(0, p, q)] + [ReadVersion(0, true)]) + [ReadPage(0, true)]) + [StartMutation(0, p, Insert(task), None)]
  }

  /** The count runs, the insert commits, the page statement runs. */
  function TornRun(p: Uuid, q: Query, task: Task): seq<Action> {
    BeforeTheTear(p, q, task) + (([RunCount(0)] + [CommitMutation(0)]) + [RunItems(0)])
  }

  /** Reader 0 waits for its count and writer 0 for its commit. */
  ghost predicate ReadyToTear(s: State, tasks: TaskTable, p: Uuid, q: Query, task: Task) {
    && |s.commits| == 1 && Newest(s) == tasks
    && 0 in s.readers && s.readers[0].phase.WantCount? && s.readers[0].project == p && s.readers[0].query == q
    && 0 in s.writers && s.writers[0].progress.InTransaction? && s.writers[0].mutation == Insert(task)
  }

  lemma ThreeSteps(c: Config, s: State, a: Action, b: Action, d: Action)
    requires Next(c, s, a).Some? && Next(c, Next(c, s, a).value, b).Some?
    ensures Run(c, s, ([a] + [b]) + [d]) == Next(c, Next(c, Next(c, s, a).value, b).value, d)
  {
    hide Next;
    TwoSteps(c, s, a, b);
    RunAppend(c, s, [a] + [b], [d]);
    OneStep(c, Next(c, Next(c, s, a).value, b).value, d);
  }

  lemma BecomesReady(c: Config, tasks: TaskTable, now: Instant, p: Uuid, q: Query, task: Task)
    requires Printable(q) && task.id !in tasks && task.projectId == p
    ensures var t := Run(c, Initial(tasks, now), BeforeTheTear(p, q, task));
            t.Some? && ReadyToTear(t.value, tasks, p, q, task)
  {
    hide Run, Printable, ResponseKey, VersionKey;
    var s := Initial(tasks, now);
    StartAndVersion(c, s, 0, p, q, true);
    var t := Run(c, s, [StartListing(0, p, q)] + [ReadVersion(0, true)]).value;
    MissOnEmpty(c, t, 0);
    RunAppend(c, s, [StartListing(0, p, q)] + [ReadVersion(0, true)], [ReadPage(0, true)]);
    OneStep(c, t, ReadPage(0, true));
    var u := Next(c, t, ReadPage(0, true)).value;
    RunAppend(c, s, ([StartListing(0, p, q)] + [ReadVersion(0, true)]) + [ReadPage(0, true)], [StartMutation(0, p, Insert(task), None)]);
    OneStep(c, u, StartMutation(0, p, Insert(task), None));
    BeginsRequest(u, 0, p, Insert(task), None);
  }

  lemma MissOnEmpty(c: Config, s: State, r: nat)
    requires r in s.readers && s.readers[r].phase.WantPage? && Printable(s.readers[r].query) && s.redis == map[]
    ensures var t := AfterPage(c, s, r, true);
            && t.Some? && OnlyReader(s, t.value, r, s.redis)
            && t.value.readers[r].phase.WantCount?
            && t.value.readers[r].project == s.readers[r].project && t.value.readers[r].query == s.readers[r].query
  {
    hide ResponseKey, Printable;
  }

  /** The total of one state with the items of the next. */
  function Straddling(tasks: TaskTable, p: Uuid, q: Query, task: Task): TaskPage
    requires task.id !in tasks
  {
    Response(q, CountStatement(tasks, p, q), PageStatement(tasks[task.id := task], p, q))
  }

  lemma CountThenCommit(c: Config, s: State, tasks: TaskTable, p: Uuid, q: Query, task: Task)
    requires ReadyToTear(s, tasks, p, q, task)
    ensures var t := Next(c, s, RunCount(0));
            && t.Some? && var u := Next(c, t.value, CommitMutation(0));
               && u.Some? && |u.value.commits| == 2 && u.value.commits[0].tasks == tasks
               && Newest(u.value) == tasks[task.id := task] && 0 in u.value.readers
               && u.value.readers[0].project == p && u.value.readers[0].query == q
               && u.value.readers[0].phase.WantItems? && u.value.readers[0].phase.total == CountStatement(tasks, p, q)
  {
    hide CountStatement;
  }

  lemma ItemsThen(c: Config, s: State)
    requires s.commits != [] && 0 in s.readers && s.readers[0].phase.WantItems?
    ensures var t := Next(c, s, RunItems(0));
            && t.Some? && t.value.commits == s.commits && 0 in t.value.readers
            && var reader := s.readers[0];
               Built(t.value.readers[0].phase)
                 == Some(Response(reader.query, reader.phase.total, PageStatement(Newest(s), reader.project, reader.query)))
  {
    hide PageStatement, Response;
  }

  lemma Tears(c: Config, s: State, tasks: TaskTable, p: Uuid, q: Query, task: Task)
    requires ReadyToTear(s, tasks, p, q, task) && task.id !in tasks
    ensures var t := Run(c, s, ([RunCount(0)] + [CommitMutation(0)]) + [RunItems(0)]);
            && t.Some? && 0 in t.value.readers && |t.value.commits| == 2
            && t.value.commits[0].tasks == tasks && t.value.commits[1].tasks == tasks[task.id := task]
            && Built(t.value.readers[0].phase) == Some(Straddling(tasks, p, q, task))
  {
    hide Next, Run, CountStatement, PageStatement, Response, ReadyToTear;
    CountThenCommit(c, s, tasks, p, q, task);
    ThreeSteps(c, s, RunCount(0), CommitMutation(0), RunItems(0));
    ItemsThen(c, Next(c, Next(c, s, RunCount(0)).value, CommitMutation(0)).value);
  }

  /** Such a response leaves the task out of its total, may have it among its items, and is then no fresh answer. */
  lemma StraddlingMembers(tasks: TaskTable, p: Uuid, q: Query, task: Task)
    requires task.id !in tasks && task.projectId == p && Matches(task, q.filters)
    ensures var page, after := Straddling(tasks, p, q, task), tasks[task.id := task];
            && page.total == |Selected(tasks, p, q.filters)| && page.total + 1 == |Selected(after, p, q.filters)|
            && page != Answer(after, p, q)
            && (OnPage(after, p, q, task) ==> task in page.items && page != Answer(tasks, p, q))
            && forall row :: row in page.items <==> OnPage(after, p, q, row)
  {
    hide Matches, OnPage, CountStatement, PageStatement, TotalPages, Selected;
    var after := tasks[task.id := task];
    CountIsSelected(tasks, p, q);
    CountIsSelected(after, p, q);
    NewMatchChangesAnswer(tasks, p, q, task);
    forall row {
      PageMembers(after, p, q, row);
    }
    NotListed(tasks, p, q, task);
  }

  lemma NotListed(tasks: TaskTable, p: Uuid, q: Query, task: Task)
    requires task.id !in tasks
    ensures task !in Answer(tasks, p, q).items
  {
    hide PageStatement;
    PageMembers(tasks, p, q, task);
  }

  /**
   The straddling listing: for all rows, every project, printable query and new matching task, this run ends with a
   response whose total leaves the task out and whose items have it, if its rank is on the page. Such a response is the
   fresh answer of no committed state.
   */
  lemma TornPageIsReached(c: Config, tasks: TaskTable, now: Instant, p: Uuid, q: Query, task: Task)
    requires Printable(q) && task.id !in tasks && task.projectId == p && Matches(task, q.filters)
    ensures var t := Run(c, Initial(tasks, now), TornRun(p, q, task));
            && t.Some? && 0 in t.value.readers && Built(t.value.readers[0].phase).Some?
            && |t.value.commits| == 2 && t.value.commits[0].tasks == tasks && t.value.commits[1].tasks == tasks[task.id := task]
            && var page, after := Built(t.value.readers[0].phase).value, tasks[task.id := task];
               && page.total == |Selected(tasks, p, q.filters)| && page.total + 1 == |Selected(after, p, q.filters)|
               && (forall row :: row in page.items <==> OnPage(after, p, q, row))
               && page != Answer(after, p, q)
               && (OnPage(after, p, q, task) ==> task in page.items && page != Answer(tasks, p, q))
  {
    hide Run, Printable, Matches, OnPage, TornRun, Straddling, Selected, Answer;
    TornRunEnds(c, tasks, now, p, q, task);
    StraddlingMembers(tasks, p, q, task);
  }

  lemma TornRunEnds(c: Config, tasks: TaskTable, now: Instant, p: Uuid, q: Query, task: Task)
    requires Printable(q) && task.id !in tasks && task.projectId == p
    ensures var t := Run(c, Initial(tasks, now), TornRun(p, q, task));
            && t.Some? && 0 in t.value.readers && |t.value.commits| == 2
            && t.value.commits[0].tasks == tasks && t.value.commits[1].tasks == tasks[task.id := task]
            && Built(t.value.readers[0].phase) == Some(Straddling(tasks, p, q, task))
  {
    hide Run, Printable, BeforeTheTear, Straddling, ReadyToTear;
    var s := Initial(tasks, now);
    BecomesReady(c, tasks, now, p, q, task);
    Tears(c, Run(c, s, BeforeTheTear(p, q, task)).value, tasks, p, q, task);
    RunAppend(c, s, BeforeTheTear(p, q, task), ([RunCount(0)] + [CommitMutation(0)]) + [RunItems(0)]);
  }
}
