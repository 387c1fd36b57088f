/**
 The uncached task listing: the filter under SQL's three-valued logic, the total order, and the page arithmetic.
 */
module TaskListing {
  import opened Wrappers
  import opened Clock
  import opened Domain

  // ---------------------------------------------------------------- what a filter selects

  /** A task matches when every given part of the filter holds of a value that is present. */
  predicate Matches(task: Task, f: TaskFilters)
    requires Accepted(f)
  {
    && (f.status.Some? ==> task.status == f.status.value)
    && (f.priority.Some? ==> task.priority == f.priority.value)
    && (f.unassigned ==> task.assigneeId.None?)
    && (f.assigneeId.Some? ==> task.assigneeId == f.assigneeId)
    && (f.createdBy.Some? ==> task.createdBy == f.createdBy.value)
    && (f.dueFrom.Some? ==> task.dueDate.Some? && f.dueFrom.value.Instant() <= task.dueDate.value)
    && (f.dueTo.Some? ==> task.dueDate.Some? && task.dueDate.value <= f.dueTo.value.Instant())
  }

  function Matching(tasks: TaskTable, projectId: Uuid, f: TaskFilters): TaskTable
    requires Accepted(f)
  {
    var rows := TasksOf(tasks, projectId);
    map id | id in rows && Matches(rows[id], f) :: rows[id]
  }

  // ---------------------------------------------------------------- WHERE, as SQL evaluates it

  datatype Truth = IsTrue | IsFalse | Unknown

  function Known(b: bool): Truth {
    if b then IsTrue else IsFalse
  }

  function And(a: Truth, b: Truth): Truth {
    if a == IsFalse || b == IsFalse then IsFalse else if a == Unknown || b == Unknown then Unknown else IsTrue
  }

  datatype Condition =
    | ProjectIs(projectId: Uuid)
    | StatusIs(status: TaskStatus)
    | PriorityIs(priority: TaskPriority)
    | AssigneeIsNull
    | AssigneeIs(assigneeId: Uuid)
    | CreatedByIs(createdBy: Uuid)
    | DueAtOrAfter(bound: Instant)
    | DueAtOrBefore(bound: Instant)

  /** A comparison with a null column is unknown; `IS NULL` never is. */
  function Evaluate(c: Condition, task: Task): Truth {
    match c
    case ProjectIs(p) => Known(task.projectId == p)
    case StatusIs(s) => Known(task.status == s)
    case PriorityIs(p) => Known(task.priority == p)
    case AssigneeIsNull => Known(task.assigneeId.None?)
    case AssigneeIs(u) => if task.assigneeId.None? then Unknown else Known(task.assigneeId.value == u)
    case CreatedByIs(u) => Known(task.createdBy == u)
    case DueAtOrAfter(i) => if task.dueDate.None? then Unknown else Known(task.dueDate.value >= i)
    case DueAtOrBefore(i) => if task.dueDate.None? then Unknown else Known(task.dueDate.value <= i)
  }

  function Conjunction(conditions: seq<Condition>, task: Task): Truth {
    if conditions == [] then IsTrue
    else And(Conjunction(conditions[..|conditions| - 1], task), Evaluate(conditions[|conditions| - 1], task))
  }

  /** The rows for which the conjunction is true; unknown does not select. */
  function Where(tasks: TaskTable, conditions: seq<Condition>): TaskTable {
    map id | id in tasks && Selects(conditions, tasks[id]) :: tasks[id]
  }

  predicate Selects(conditions: seq<Condition>, task: Task) {
    Conjunction(conditions, task) == IsTrue
  }

  lemma SelectsAppend(conditions: seq<Condition>, c: Condition)
    ensures forall task :: Selects(conditions + [c], task) <==> Selects(conditions, task) && Evaluate(c, task) == IsTrue
  {
    assert (conditions + [c])[..|conditions|] == conditions;
  }

  // ---------------------------------------------------------------- ORDER BY created_at DESC, id DESC

  predicate Before(a: Task, b: Task) {
    a.createdAt > b.createdAt || (a.createdAt == b.createdAt && a.id > b.id)
  }

  ghost predicate StrictlyOrdered(rows: seq<Task>) {
    forall i, j :: 0 <= i < j < |rows| ==> Before(rows[i], rows[j])
  }

  ghost predicate IsFirst(rows: TaskTable, id: Uuid) {
    id in rows && forall other :: other in rows && other != id ==> Before(rows[id], rows[other])
  }

  lemma {:induction false} FirstExists(rows: TaskTable)
    requires rows != map[]
    ensures exists id :: IsFirst(rows, id)
    decreases |rows|
  {
    var some :| some in rows;
    var rest: TaskTable := rows - {some};
    if rest == map[] {
      assert forall other :: other in rows && other != some ==> other in rest;
      assert IsFirst(rows, some);
    } else {
      FirstExists(rest);
      var first :| IsFirst(rest, first);
      if Before(rows[some], rows[first]) {
        assert IsFirst(rows, some);
      } else {
        assert IsFirst(rows, first);
      }
    }
  }

  function First(rows: TaskTable): (id: Uuid)
    requires rows != map[]
    ensures IsFirst(rows, id)
  {
    FirstExists(rows);
    var id :| id in rows && forall other :: other in rows && other != id ==> Before(rows[id], rows[other]);
    id
  }

  /** The rows of a table in listing order. */
  function Ordered(rows: TaskTable): (r: seq<Task>)
    ensures |r| == |rows|
    decreases |rows|
  {
    if rows == map[] then [] else
      var rest: TaskTable := rows - {First(rows)};
      [rows[First(rows)]] + Ordered(rest)
  }

  ghost predicate Lists(r: seq<Task>, rows: TaskTable) {
    && (forall i :: 0 <= i < |r| ==> r[i].id in rows && rows[r[i].id] == r[i])
    && (forall id :: id in rows ==> rows[id] in r)
  }

  lemma PrependLists(rows: TaskTable, rest: TaskTable, first: Task, tail: seq<Task>)
    requires first.id in rows && rows[first.id] == first && rest == rows - {first.id}
    requires Lists(tail, rest)
    ensures Lists([first] + tail, rows)
  {
  }

  lemma PrependOrdered(first: Task, tail: seq<Task>)
    requires StrictlyOrdered(tail) && forall i :: 0 <= i < |tail| ==> Before(first, tail[i])
    ensures StrictlyOrdered([first] + tail)
  {
  }

  lemma {:induction false} OrderedLists(rows: TaskTable)
    ensures Lists(Ordered(rows), rows) && StrictlyOrdered(Ordered(rows))
    decreases |rows|
  {
    if rows != map[] {
      var rest: TaskTable := rows - {First(rows)};
      OrderedLists(rest);
      PrependLists(rows, rest, rows[First(rows)], Ordered(rest));
      PrependOrdered(rows[First(rows)], Ordered(rest));
    }
  }

  lemma OrderedMembers(rows: TaskTable)
    ensures StrictlyOrdered(Ordered(rows))
    ensures forall task: Task :: task in Ordered(rows) <==> task.id in rows && rows[task.id] == task
  {
    OrderedLists(rows);
  }

  /** There is only one such order: any strictly ordered sequence that lists the same rows is this one. */
  lemma OrderUnique(a: seq<Task>, rows: TaskTable)
    requires Lists(a, rows) && StrictlyOrdered(a)
    ensures a == Ordered(rows)
  {
    OrderedLists(rows);
    SameMembersSameOrder(a, Ordered(rows));
  }

  lemma {:induction false} SameMembersSameOrder(a: seq<Task>, b: seq<Task>)
    requires StrictlyOrdered(a) && StrictlyOrdered(b)
    requires (forall i :: 0 <= i < |a| ==> a[i] in b) && (forall j :: 0 <= j < |b| ==> b[j] in a)
    ensures a == b
  {
    NonEmptyTogether(a, b);
    if a != [] {
      HeadsAgree(a, b);
      TailMembers(a, b);
      TailMembers(b, a);
      SameMembersSameOrder(a[1..], b[1..]);
      assert a == [a[0]] + a[1..] && b == [b[0]] + b[1..];
    }
  }

  lemma HeadsAgree(a: seq<Task>, b: seq<Task>)
    requires a != [] && b != [] && StrictlyOrdered(a) && StrictlyOrdered(b) && a[0] in b && b[0] in a
    ensures a[0] == b[0]
  {
  }

  lemma NonEmptyTogether(a: seq<Task>, b: seq<Task>)
    requires (forall i :: 0 <= i < |a| ==> a[i] in b) && (forall j :: 0 <= j < |b| ==> b[j] in a)
    ensures a == [] <==> b == []
  {
    if a != [] {
      assert a[0] in b;
    }
    if b != [] {
      assert b[0] in a;
    }
  }

  lemma TailMembers(a: seq<Task>, b: seq<Task>)
    requires a != [] && b != [] && a[0] == b[0] && StrictlyOrdered(a)
    requires forall i :: 0 <= i < |a| ==> a[i] in b
    ensures forall i :: 0 <= i < |a[1..]| ==> a[1..][i] in b[1..]
  {
  }

  // ---------------------------------------------------------------- pages

  /** OFFSET and LIMIT. */
  function Slice(rows: seq<Task>, offset: nat, limit: nat): seq<Task> {
    if offset >= |rows| then [] else if offset + limit >= |rows| then rows[offset..] else rows[offset..offset + limit]
  }

  function Offset(q: Query): nat {
    (q.page - 1) * q.pageSize
  }

  function TotalPages(total: nat, pageSize: nat): nat
    requires pageSize >= 1
  {
    (total + pageSize - 1) / pageSize
  }

  function CountStatement(tasks: TaskTable, projectId: Uuid, q: Query): nat {
    |Matching(tasks, projectId, q.filters)|
  }

  function PageStatement(tasks: TaskTable, projectId: Uuid, q: Query): seq<Task> {
    Slice(Ordered(Matching(tasks, projectId, q.filters)), Offset(q), q.pageSize)
  }

  function Response(q: Query, total: nat, items: seq<Task>): TaskPage {
    TaskPage(items, q.page, q.pageSize, total, TotalPages(total, q.pageSize))
  }

  /** The answer of a listing that runs both statements on one committed state and uses no cache. */
  function Answer(tasks: TaskTable, projectId: Uuid, q: Query): TaskPage {
    Response(q, CountStatement(tasks, projectId, q), PageStatement(tasks, projectId, q))
  }

  lemma AnswerParts(tasks: TaskTable, projectId: Uuid, q: Query)
    ensures var matching := Matching(tasks, projectId, q.filters);
            Answer(tasks, projectId, q)
              == TaskPage(Slice(Ordered(matching), Offset(q), q.pageSize), q.page, q.pageSize, |matching|,
                          TotalPages(|matching|, q.pageSize))
  {
    hide Matching, Ordered, Slice, Offset, TotalPages;
  }

  // ---------------------------------------------------------------- pages partition the result

  ghost function Page(rows: seq<Task>, n: nat, pageSize: nat): seq<Task>
    requires n >= 1
  {
    Slice(rows, (n - 1) * pageSize, pageSize)
  }

  ghost function FirstPages(rows: seq<Task>, n: nat, pageSize: nat): seq<Task> {
    if n == 0 then [] else FirstPages(rows, n - 1, pageSize) + Page(rows, n, pageSize)
  }

  lemma {:induction false} FirstPagesArePrefix(rows: seq<Task>, n: nat, pageSize: nat)
    requires pageSize >= 1
    ensures FirstPages(rows, n, pageSize) == if n * pageSize <= |rows| then rows[..n * pageSize] else rows
  {
    if n > 0 {
      FirstPagesArePrefix(rows, n - 1, pageSize);
      assert n * pageSize == (n - 1) * pageSize + pageSize;
    }
  }

  lemma TotalPagesBounds(total: nat, pageSize: nat)
    requires pageSize >= 1
    ensures (TotalPages(total, pageSize) - 1) * pageSize < total || total == 0 == TotalPages(total, pageSize)
    ensures total <= TotalPages(total, pageSize) * pageSize
  {
    var n := TotalPages(total, pageSize);
    assert total + pageSize - 1 == n * pageSize + (total + pageSize - 1) % pageSize;
    if total == 0 {
      assert n * pageSize < pageSize;
    } else {
      assert (n - 1) * pageSize == n * pageSize - pageSize;
    }
  }

  lemma PageLength(rows: seq<Task>, n: nat, pageSize: nat)
    requires pageSize >= 1 && n >= 1
    ensures n < TotalPages(|rows|, pageSize) ==> |Page(rows, n, pageSize)| == pageSize
    ensures n == TotalPages(|rows|, pageSize) ==> 0 < |Page(rows, n, pageSize)| <= pageSize
    ensures n > TotalPages(|rows|, pageSize) ==> Page(rows, n, pageSize) == []
  {
    var last: int := TotalPages(|rows|, pageSize);
    TotalPagesBounds(|rows|, pageSize);
    hide TotalPages, Slice;
    ScaledOrder(n, last - 1, pageSize);
    ScaledOrder(last, n - 1, pageSize);
    SliceLength(rows, (n - 1) * pageSize, pageSize);
    assert n * pageSize == (n - 1) * pageSize + pageSize;
  }

  lemma ScaledOrder(a: int, b: int, c: nat)
    ensures a <= b ==> a * c <= b * c
  {
    if a <= b {
      assert b * c - a * c == (b - a) * c;
    }
  }

  lemma SliceLength(rows: seq<Task>, offset: nat, limit: nat)
    ensures offset + limit <= |rows| ==> |Slice(rows, offset, limit)| == limit
    ensures offset < |rows| && limit > 0 ==> 0 < |Slice(rows, offset, limit)| <= limit
    ensures offset >= |rows| ==> Slice(rows, offset, limit) == []
  {
  }

  lemma SliceOrdered(rows: seq<Task>, offset: nat, limit: nat)
    requires StrictlyOrdered(rows)
    ensures StrictlyOrdered(Slice(rows, offset, limit))
  {
  }

  lemma MatchingMembers(tasks: TaskTable, projectId: Uuid, f: TaskFilters, task: Task)
    requires Accepted(f)
    ensures task.id in Matching(tasks, projectId, f) && Matching(tasks, projectId, f)[task.id] == task <==>
            task.id in tasks && tasks[task.id] == task && task.projectId == projectId && Matches(task, f)
  {
  }

  /**
   Pages 1 to `total_pages` of a fixed table are a partition of the matching tasks in listing order:
   together they are the strictly ordered sequence of exactly those tasks.
   */
  lemma PagesPartition(tasks: TaskTable, projectId: Uuid, q: Query)
    ensures
      var rows := FirstPages(Ordered(Matching(tasks, projectId, q.filters)),
                             Answer(tasks, projectId, q).totalPages, q.pageSize);
      && StrictlyOrdered(rows)
      && |rows| == Answer(tasks, projectId, q).total
      && forall task: Task :: task in rows <==>
           task.id in tasks && tasks[task.id] == task && task.projectId == projectId && Matches(task, q.filters)
  {
    var matching := Matching(tasks, projectId, q.filters);
    AllPages(Ordered(matching), q.pageSize);
    OrderedMembers(matching);
    hide Matching, Matches, StrictlyOrdered, Ordered, FirstPages, TotalPages;
    forall task: Task {
      MatchingMembers(tasks, projectId, q.filters, task);
    }
  }

  lemma AllPages(rows: seq<Task>, pageSize: nat)
    requires pageSize >= 1
    ensures FirstPages(rows, TotalPages(|rows|, pageSize), pageSize) == rows
  {
    TotalPagesBounds(|rows|, pageSize);
    FirstPagesArePrefix(rows, TotalPages(|rows|, pageSize), pageSize);
  }

  /** An answer holds its own piece of that partition: full before the last page, nothing after it. */
  lemma AnswerIsItsPage(tasks: TaskTable, projectId: Uuid, q: Query)
    ensures
      var answer := Answer(tasks, projectId, q);
      && answer.items == Page(Ordered(Matching(tasks, projectId, q.filters)), q.page, q.pageSize)
      && (q.page < answer.totalPages ==> |answer.items| == q.pageSize)
      && (q.page == answer.totalPages ==> 0 < |answer.items| <= q.pageSize)
      && (q.page > answer.totalPages ==> answer.items == [])
  {
    hide Matching, Ordered, Slice, TotalPages;
    PageLength(Ordered(Matching(tasks, projectId, q.filters)), q.page, q.pageSize);
  }

  // ---------------------------------------------------------------- what an answer depends on

  /** Filters that bound the due date by the same instants select alike, whatever offsets they are written in. */
  predicate SameBound(a: Option<Datetime>, b: Option<Datetime>)
    requires AwareBound(a) && AwareBound(b)
  {
    a.Some? == b.Some? && (a.Some? ==> a.value.Instant() == b.value.Instant())
  }

  predicate SameFilter(f: TaskFilters, g: TaskFilters)
    requires Accepted(f) && Accepted(g)
  {
    f.(dueFrom := None, dueTo := None) == g.(dueFrom := None, dueTo := None)
    && SameBound(f.dueFrom, g.dueFrom) && SameBound(f.dueTo, g.dueTo)
  }

  predicate SameQuery(q: Query, r: Query) {
    q.page == r.page && q.pageSize == r.pageSize && SameFilter(q.filters, r.filters)
  }

  lemma SameFilterMatches(f: TaskFilters, g: TaskFilters, task: Task)
    requires Accepted(f) && Accepted(g) && SameFilter(f, g)
    ensures Matches(task, f) == Matches(task, g)
  {
  }

  /** Both statements depend only on the project's own rows and on the query up to the spelling of its bounds. */
  lemma StatementsDependOn(a: TaskTable, b: TaskTable, projectId: Uuid, q: Query, r: Query)
    requires TasksOf(a, projectId) == TasksOf(b, projectId) && SameQuery(q, r)
    ensures CountStatement(a, projectId, q) == CountStatement(b, projectId, r)
    ensures PageStatement(a, projectId, q) == PageStatement(b, projectId, r)
  {
    forall task ensures Matches(task, q.filters) == Matches(task, r.filters) {
      SameFilterMatches(q.filters, r.filters, task);
    }
    assert Matching(a, projectId, q.filters) == Matching(b, projectId, r.filters);
  }

  // ---------------------------------------------------------------- the repository

  datatype TaskListResult = TaskListResult(items: seq<Task>, total: nat)

  class TaskRepository {
    constructor () {
    }

    /**
     Builds the list of conditions one by one, then counts, then fetches the ordered page.
     `counted` and `fetched` are the rows that each of the two statements sees.
     */
    method ListByProject(
        counted: TaskTable, fetched: TaskTable, projectId: Uuid, filters: TaskFilters, offset: nat, limit: nat)
      returns (result: TaskListResult)
      requires Accepted(filters)
      ensures result.total == |Matching(counted, projectId, filters)|
      ensures result.items == Slice(Ordered(Matching(fetched, projectId, filters)), offset, limit)
      ensures forall i, j :: 0 <= i < j < |result.items| ==>
                || result.items[i].createdAt > result.items[j].createdAt
                || (result.items[i].createdAt == result.items[j].createdAt && result.items[i].id > result.items[j].id)
    {
      var conditions := Conditions(projectId, filters);
      assert Where(counted, conditions) == Matching(counted, projectId, filters);
      assert Where(fetched, conditions) == Matching(fetched, projectId, filters);
      result := TaskListResult(Slice(Ordered(Where(fetched, conditions)), offset, limit), |Where(counted, conditions)|);
      hide Matching, Ordered;
      OrderedLists(Matching(fetched, projectId, filters));
      SliceOrdered(Ordered(Matching(fetched, projectId, filters)), offset, limit);
    }

    method Conditions(projectId: Uuid, filters: TaskFilters) returns (conditions: seq<Condition>)
      requires Accepted(filters)
      ensures forall task :: Selects(conditions, task) <==> task.projectId == projectId && Matches(task, filters)
    {
      hide Selects;
      conditions := StateConditions(projectId, filters);
      if filters.createdBy.Some? {
        conditions := Append(conditions, CreatedByIs(filters.createdBy.value));
      }
      if filters.dueFrom.Some? {
        conditions := Append(conditions, DueAtOrAfter(filters.dueFrom.value.Instant()));
      }
      if filters.dueTo.Some? {
        conditions := Append(conditions, DueAtOrBefore(filters.dueTo.value.Instant()));
      }
    }

    /** The conditions on project, status, priority and assignee. */
    method StateConditions(projectId: Uuid, filters: TaskFilters) returns (conditions: seq<Condition>)
      requires Accepted(filters)
      ensures forall task :: Selects(conditions, task) <==>
                task.projectId == projectId && Matches(task, filters.(createdBy := None, dueFrom := None, dueTo := None))
    {
      conditions := [ProjectIs(projectId)];
      SelectsAppend([], ProjectIs(projectId));
      assert [] + [ProjectIs(projectId)] == conditions;
      hide Selects;
      if filters.status.Some? {
        conditions := Append(conditions, StatusIs(filters.status.value));
      }
      if filters.priority.Some? {
        conditions := Append(conditions, PriorityIs(filters.priority.value));
      }
      if filters.unassigned {
        conditions := Append(conditions, AssigneeIsNull);
      } else if filters.assigneeId.Some? {
        conditions := Append(conditions, AssigneeIs(filters.assigneeId.value));
      }
    }

    method Append(conditions: seq<Condition>, c: Condition) returns (longer: seq<Condition>)
      ensures forall task :: Selects(longer, task) <==> Selects(conditions, task) && Evaluate(c, task) == IsTrue
    {
      longer := conditions + [c];
      SelectsAppend(conditions, c);
    }
  }
}
