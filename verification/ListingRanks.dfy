/**
 The task listing read off the columns: newest first, and which page a task is on. Nothing here is stated through the
 order or the slices that the listing is built from.
 */
module ListingRanks {
  import opened Wrappers
  import opened Clock
  import opened Domain
  import opened TaskListing

  /** `ORDER BY created_at DESC, id DESC`: of two items of one answer, the earlier one is newer, or as old with a greater id. */
  lemma AnswerIsNewestFirst(tasks: TaskTable, projectId: Uuid, q: Query, i: nat, j: nat)
    requires i < j < |Answer(tasks, projectId, q).items|
    ensures var items := Answer(tasks, projectId, q).items;
            items[i].createdAt > items[j].createdAt
            || (items[i].createdAt == items[j].createdAt && items[i].id > items[j].id)
  {
    hide Matching, Ordered;
    OrderedLists(Matching(tasks, projectId, q.filters));
    var rows := Ordered(Matching(tasks, projectId, q.filters));
    assert Before(rows[Offset(q) + i], rows[Offset(q) + j]);
  }

  /** The same across pages: the concatenation of pages 1 to `total_pages` is newest first. */
  lemma PagesAreNewestFirst(tasks: TaskTable, projectId: Uuid, q: Query, i: nat, j: nat)
    requires var rows := FirstPages(Ordered(Matching(tasks, projectId, q.filters)),
                                    Answer(tasks, projectId, q).totalPages, q.pageSize);
             i < j < |rows|
    ensures var rows := FirstPages(Ordered(Matching(tasks, projectId, q.filters)),
                                   Answer(tasks, projectId, q).totalPages, q.pageSize);
            rows[i].createdAt > rows[j].createdAt || (rows[i].createdAt == rows[j].createdAt && rows[i].id > rows[j].id)
  {
    hide FirstPages, Answer;
    PagesPartition(tasks, projectId, q);
    var rows := FirstPages(Ordered(Matching(tasks, projectId, q.filters)), Answer(tasks, projectId, q).totalPages, q.pageSize);
    assert Before(rows[i], rows[j]);
  }

  // ---------------------------------------------------------------- which page a task is on

  /** The tasks of the project that the filter selects. */
  ghost function Selected(tasks: TaskTable, projectId: Uuid, f: TaskFilters): set<Uuid>
    requires Accepted(f)
  {
    set id | id in tasks && tasks[id].projectId == projectId && Matches(tasks[id], f)
  }

  /** Those created later than the given task, or at the same instant under a greater id. */
  ghost function Newer(tasks: TaskTable, projectId: Uuid, f: TaskFilters, task: Task): set<Uuid>
    requires Accepted(f)
  {
    set id | id in Selected(tasks, projectId, f)
             && (tasks[id].createdAt > task.createdAt || (tasks[id].createdAt == task.createdAt && id > task.id))
  }

  /** The page that the query asks for holds the tasks with between (page - 1) * size and page * size newer ones. */
  ghost predicate OnPage(tasks: TaskTable, projectId: Uuid, q: Query, task: Task) {
    && task.id in Selected(tasks, projectId, q.filters) && tasks[task.id] == task
    && (q.page - 1) * q.pageSize <= |Newer(tasks, projectId, q.filters, task)| < q.page * q.pageSize
  }

  lemma {:induction false} IdsOfPrefix(rows: seq<Task>, k: nat)
    requires k <= |rows| && forall i, j :: 0 <= i < j < |rows| ==> rows[i].id != rows[j].id
    ensures |set i | 0 <= i < k :: rows[i].id| == k
  {
    if k > 0 {
      IdsOfPrefix(rows, k - 1);
      assert (set i | 0 <= i < k :: rows[i].id) == (set i | 0 <= i < k - 1 :: rows[i].id) + {rows[k - 1].id};
    }
  }

  lemma DistinctIds(rows: seq<Task>, table: TaskTable)
    requires StrictlyOrdered(rows) && Lists(rows, table)
    ensures forall i, j :: 0 <= i < j < |rows| ==> rows[i].id != rows[j].id
  {
    forall i, j | 0 <= i < j < |rows|
      ensures rows[i].id != rows[j].id
    {
      assert Before(rows[i], rows[j]);
      assert table[rows[i].id] == rows[i] && table[rows[j].id] == rows[j];
    }
  }

  lemma PrefixIsNewer(tasks: TaskTable, projectId: Uuid, f: TaskFilters, rows: seq<Task>, k: nat)
    requires Accepted(f) && Lists(rows, Matching(tasks, projectId, f)) && StrictlyOrdered(rows) && k < |rows|
    ensures Newer(tasks, projectId, f, rows[k]) == set i | 0 <= i < k :: rows[i].id
  {
    hide Matches;
    assert forall i :: k < i < |rows| ==> Before(rows[k], rows[i]);
    forall id
      ensures id in Newer(tasks, projectId, f, rows[k]) <==> exists i :: 0 <= i < k && rows[i].id == id
    {
      if id in Newer(tasks, projectId, f, rows[k]) {
        assert id in Matching(tasks, projectId, f);
        var i :| 0 <= i < |rows| && rows[i] == tasks[id];
        assert i < k;
      }
      if i :| 0 <= i < k && rows[i].id == id {
        assert Before(rows[i], rows[k]);
      }
    }
  }

  /** The row at place `k` of the whole listing has exactly `k` newer ones. */
  lemma PlaceIsRank(tasks: TaskTable, projectId: Uuid, f: TaskFilters, k: nat)
    requires Accepted(f) && k < |Ordered(Matching(tasks, projectId, f))|
    ensures |Newer(tasks, projectId, f, Ordered(Matching(tasks, projectId, f))[k])| == k
  {
    hide Ordered, Matching, Newer;
    var table := Matching(tasks, projectId, f);
    OrderedLists(table);
    DistinctIds(Ordered(table), table);
    PrefixIsNewer(tasks, projectId, f, Ordered(table), k);
    IdsOfPrefix(Ordered(table), k);
  }

  lemma SliceMembers(rows: seq<Task>, offset: nat, limit: nat, task: Task)
    ensures task in Slice(rows, offset, limit) <==> exists k :: offset <= k < offset + limit && k < |rows| && rows[k] == task
  {
    if k :| offset <= k < offset + limit && k < |rows| && rows[k] == task {
      assert Slice(rows, offset, limit)[k - offset] == task;
    }
    if task in Slice(rows, offset, limit) {
      var i :| 0 <= i < |Slice(rows, offset, limit)| && Slice(rows, offset, limit)[i] == task;
      assert rows[offset + i] == task;
    }
  }

  /** Every task is on exactly the page its rank says, and no page holds anything else. */
  lemma PageMembers(tasks: TaskTable, projectId: Uuid, q: Query, task: Task)
    ensures task in PageStatement(tasks, projectId, q) <==> OnPage(tasks, projectId, q, task)
  {
    hide Ordered, Newer, Matches, Slice;
    var f, table := q.filters, Matching(tasks, projectId, q.filters);
    var rows := Ordered(table);
    OrderedLists(table);
    SliceMembers(rows, Offset(q), q.pageSize, task);
    PageEnd(q);
    if task.id in Selected(tasks, projectId, f) && tasks[task.id] == task {
      assert task.id in table && table[task.id] == task;
      var k :| 0 <= k < |rows| && rows[k] == task;
      PlaceIsRank(tasks, projectId, f, k);
      if k' :| Offset(q) <= k' < Offset(q) + q.pageSize && k' < |rows| && rows[k'] == task {
        PlaceIsRank(tasks, projectId, f, k');
      }
    }
  }

  lemma PageEnd(q: Query)
    ensures Offset(q) + q.pageSize == q.page * q.pageSize
  {
  }

  /** An answer counts the selected tasks of the project and holds those whose rank falls on its page. */
  lemma AnswerExactly(tasks: TaskTable, projectId: Uuid, q: Query, task: Task)
    ensures var answer := Answer(tasks, projectId, q);
            && answer.total == |Selected(tasks, projectId, q.filters)|
            && (task in answer.items <==> OnPage(tasks, projectId, q, task))
            && answer.page == q.page && answer.pageSize == q.pageSize
  {
    hide PageStatement, OnPage, TotalPages;
    PageMembers(tasks, projectId, q, task);
    CountIsSelected(tasks, projectId, q);
  }

  /** `total_pages` is the least number of pages that hold them all. */
  lemma PagesNeeded(tasks: TaskTable, projectId: Uuid, q: Query, n: nat)
    ensures Answer(tasks, projectId, q).totalPages <= n <==> |Selected(tasks, projectId, q.filters)| <= n * q.pageSize
  {
    CountIsSelected(tasks, projectId, q);
    LeastPages(|Selected(tasks, projectId, q.filters)|, q.pageSize, n);
  }

  lemma LeastPages(total: nat, pageSize: nat, n: nat)
    requires pageSize >= 1
    ensures TotalPages(total, pageSize) <= n <==> total <= n * pageSize
  {
    TotalPagesBounds(total, pageSize);
    hide TotalPages;
    ScaledOrder(TotalPages(total, pageSize), n, pageSize);
    ScaledOrder(n, TotalPages(total, pageSize) - 1, pageSize);
  }

  lemma CountIsSelected(tasks: TaskTable, projectId: Uuid, q: Query)
    ensures CountStatement(tasks, projectId, q) == |Selected(tasks, projectId, q.filters)|
  {
    hide Matches;
    assert Matching(tasks, projectId, q.filters).Keys == Selected(tasks, projectId, q.filters);
  }

  // ---------------------------------------------------------------- what the filter refuses

  /** A task is left out exactly when some given part of the filter contradicts it; a missing due date contradicts any bound. */
  lemma LeftOutExactly(task: Task, f: TaskFilters)
    requires Accepted(f)
    ensures !Matches(task, f) <==>
              || (exists s :: f.status == Some(s) && task.status != s)
              || (exists p :: f.priority == Some(p) && task.priority != p)
              || (f.unassigned && task.assigneeId.Some?)
              || (exists u :: f.assigneeId == Some(u) && task.assigneeId != Some(u))
              || (exists u :: f.createdBy == Some(u) && task.createdBy != u)
              || ((f.dueFrom.Some? || f.dueTo.Some?) && task.dueDate.None?)
              || (f.dueFrom.Some? && task.dueDate.Some? && task.dueDate.value < f.dueFrom.value.Instant())
              || (f.dueTo.Some? && task.dueDate.Some? && task.dueDate.value > f.dueTo.value.Instant())
  {
  }
}
