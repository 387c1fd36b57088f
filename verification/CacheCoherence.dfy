/** What every run of the cache protocol keeps, and what that means for the pages it serves. */
module CacheCoherence {
  import opened Wrappers
  import opened Text
  import opened Clock
  import opened Domain
  import opened TaskListing
  import opened TaskListKeys
  import opened Redis
  import opened CacheProtocol

  /** Every listing so far, and every page it stored, was for one of the queries. */
  ghost predicate Within(s: State, queries: set<Query>) {
    && (forall r :: r in s.readers ==> s.readers[r].query in queries)
    && (forall key :: key in s.origins ==> s.origins[key].query in queries)
  }

  // ---------------------------------------------------------------- the invariant

  /** The response holds the count of committed state `i` and the items of committed state `j`. */
  ghost predicate DrawnFrom(s: State, project: Uuid, q: Query, response: TaskPage, i: nat, j: nat) {
    i <= j < |s.commits|
    && response == Response(q, CountStatement(s.commits[i].tasks, project, q), PageStatement(s.commits[j].tasks, project, q))
  }

  /** Committed state `i` includes every mutation whose INCR was among the first `version` of the project. */
  ghost predicate Covers(s: State, project: Uuid, version: nat, i: nat) {
    version <= |Bumps(s, project)| && forall k :: 0 <= k < version ==> Bumps(s, project)[k] <= i
  }

  /** Nothing after committed state `i` was committed before time `t`. */
  ghost predicate UpToDateAt(s: State, i: nat, t: Instant) {
    t <= s.now && forall k :: i < k < |s.commits| ==> t <= s.commits[k].at
  }

  ghost predicate VersionEntry(s: State, project: Uuid) {
    var key := VersionKey(project);
    if Bumps(s, project) == [] then key !in s.redis
    else key in s.redis && s.redis[key] == Entry(Number(|Bumps(s, project)|), None)
  }

  ghost predicate GoodOrigin(c: Config, s: State, key: string, entry: Entry, o: Origin) {
    && Printable(o.query)
    && ResponseKey(c.digest, o.project, Decimal(o.version), o.query) == Some(key)
    && entry.value.Json?
    && DrawnFrom(s, o.project, o.query, entry.value.page, o.countAt, o.itemsAt)
    && Covers(s, o.project, o.version, o.countAt)
    && UpToDateAt(s, o.countAt, o.countTime)
    && entry.expiresAt == Some(o.storedAt + c.ttl)
    && o.storedAt <= o.countTime + s.slowest
  }

  ghost predicate LookedUp(s: State, reader: Reader, version: string) {
    reader.seen.Some? && version == Decimal(reader.seen.value)
  }

  function SeenOrZero(reader: Reader): nat {
    if reader.seen.Some? then reader.seen.value else 0
  }

  /** Every committed state before `t - ttl - slowest` is included. */
  ghost predicate NotOlderThan(c: Config, s: State, i: nat, t: Instant) {
    forall k :: i < k < |s.commits| ==> s.commits[k].at + c.ttl + s.slowest > t
  }

  ghost predicate ReaderOk(c: Config, s: State, reader: Reader) {
    && SeenOrZero(reader) <= |Bumps(s, reader.project)|
    && (reader.hitAt.Some? ==> reader.phase.Answered?)
    && match reader.phase
       case WantVersion => true
       case WantPage(version) => LookedUp(s, reader, version) && Printable(reader.query)
       case WantUnlink(version) => LookedUp(s, reader, version) && Printable(reader.query)
       case WantCount(lookup) => lookup.Some? ==> LookedUp(s, reader, lookup.value) && Printable(reader.query)
       case WantItems(lookup, total) =>
         && (lookup.Some? ==> LookedUp(s, reader, lookup.value) && Printable(reader.query))
         && reader.countAt < |s.commits|
         && total == CountStatement(s.commits[reader.countAt].tasks, reader.project, reader.query)
         && Covers(s, reader.project, SeenOrZero(reader), reader.countAt)
         && UpToDateAt(s, reader.countAt, reader.countTime)
       case WantStore(version, response) =>
         && LookedUp(s, reader, version) && Printable(reader.query)
         && DrawnFrom(s, reader.project, reader.query, response, reader.countAt, reader.itemsAt)
         && Covers(s, reader.project, SeenOrZero(reader), reader.countAt)
         && UpToDateAt(s, reader.countAt, reader.countTime)
       case Answered(response) =>
         && DrawnFrom(s, reader.project, reader.query, response, reader.countAt, reader.itemsAt)
         && Covers(s, reader.project, SeenOrZero(reader), reader.countAt)
         && (reader.hitAt.Some? ==> reader.hitAt.value <= s.now && NotOlderThan(c, s, reader.countAt, reader.hitAt.value))
       case Overflowed => !Printable(reader.query)
  }

  ghost predicate WriterOk(s: State, writer: Writer) {
    && (match writer.mutation
        case Insert(task) => task.projectId == writer.project && task.id in s.homes && s.homes[task.id] == writer.project
        case Update(id, _, _) => id in s.homes && s.homes[id] == writer.project
        case Remove(id) => id in s.homes && s.homes[id] == writer.project
        case LeaveRows => true)
    && (forall i :: 0 <= i < |writer.queue| && writer.queue[i].Invalidate? ==> writer.queue[i].project == writer.project)
    && (writer.progress.InTransaction? ==> Invalidate(writer.project) in writer.queue)
    && (writer.progress.Committed? || writer.progress.Closed? ==>
          1 <= writer.commitIndex < |s.commits| && s.commits[writer.commitIndex].project == writer.project)
  }

  ghost predicate AtHome(s: State, tasks: TaskTable) {
    forall id :: id in tasks ==> id in s.homes && s.homes[id] == tasks[id].projectId
  }

  /** A commit by a request on one project leaves the rows of every other project alone. */
  ghost predicate OnlyItsProject(before: Commit, after: Commit) {
    forall p :: p != after.project ==> TasksOf(after.tasks, p) == TasksOf(before.tasks, p)
  }

  /** The request has committed and its invalidation is still queued. */
  predicate Owes(writer: Writer, k: nat) {
    (writer.progress.Committed? || writer.progress.Closed?) && writer.commitIndex == k
    && Invalidate(writer.project) in writer.queue
  }

  ghost predicate InFlight(s: State, k: nat) {
    exists w :: w in s.writers && Owes(s.writers[w], k)
  }

  ghost predicate Accounted(s: State, k: nat)
    requires k < |s.commits|
  {
    k in Bumps(s, s.commits[k].project) || k in s.lost || InFlight(s, k)
  }

  ghost predicate HistoryOk(s: State) {
    && |s.commits| > 0
    && (forall k :: 0 <= k < |s.commits| ==> s.commits[k].at <= s.now)
    && AtHome(s, Current(s))
    && (forall k :: 1 <= k < |s.commits| ==> OnlyItsProject(s.commits[k - 1], s.commits[k]))
  }

  ghost predicate BumpsOk(s: State) {
    forall p, k :: 0 <= k < |Bumps(s, p)| ==> Bumps(s, p)[k] < |s.commits|
  }

  ghost predicate RedisOk(c: Config, s: State) {
    && (forall p :: VersionEntry(s, p))
    && (forall key :: key in s.redis && s.redis[key].value.Json? ==>
          key in s.origins && GoodOrigin(c, s, key, s.redis[key], s.origins[key]))
  }

  ghost predicate Inv(c: Config, s: State) {
    && HistoryOk(s)
    && BumpsOk(s)
    && RedisOk(c, s)
    && (forall r :: r in s.readers ==> ReaderOk(c, s, s.readers[r]))
    && (forall w :: w in s.writers ==> WriterOk(s, s.writers[w]))
    && (forall k :: 1 <= k < |s.commits| ==> Accounted(s, k))
  }

  // ---------------------------------------------------------------- what survives growth

  /** History only grows: commits and bumps are appended, time moves on. */
  ghost predicate Grows(s: State, t: State) {
    && s.commits <= t.commits
    && (forall k :: |s.commits| <= k < |t.commits| ==> s.now <= t.commits[k].at)
    && (forall p :: Bumps(s, p) <= Bumps(t, p))
    && (forall id :: id in s.homes ==> id in t.homes && t.homes[id] == s.homes[id])
    && s.slowest <= t.slowest
    && s.now <= t.now
  }

  lemma DrawnSurvives(s: State, t: State, project: Uuid, q: Query, response: TaskPage, i: nat, j: nat)
    requires Grows(s, t) && DrawnFrom(s, project, q, response, i, j)
    ensures DrawnFrom(t, project, q, response, i, j)
  {
    assert s.commits[i] == t.commits[i] && s.commits[j] == t.commits[j];
  }

  lemma CoversSurvives(s: State, t: State, project: Uuid, version: nat, i: nat)
    requires Grows(s, t) && Covers(s, project, version, i)
    ensures Covers(t, project, version, i)
  {
  }

  lemma UpToDateSurvives(s: State, t: State, i: nat, at: Instant)
    requires Grows(s, t) && UpToDateAt(s, i, at)
    ensures UpToDateAt(t, i, at)
  {
    assert forall k :: i < k < |s.commits| ==> t.commits[k] == s.commits[k];
  }

  lemma OriginSurvives(c: Config, s: State, t: State, key: string, entry: Entry, o: Origin)
    requires Grows(s, t) && GoodOrigin(c, s, key, entry, o)
    ensures GoodOrigin(c, t, key, entry, o)
  {
    DrawnSurvives(s, t, o.project, o.query, entry.value.page, o.countAt, o.itemsAt);
    CoversSurvives(s, t, o.project, o.version, o.countAt);
    UpToDateSurvives(s, t, o.countAt, o.countTime);
  }

  lemma ReaderSurvives(c: Config, s: State, t: State, reader: Reader)
    requires Grows(s, t) && ReaderOk(c, s, reader)
    ensures ReaderOk(c, t, reader)
  {
    assert Bumps(s, reader.project) <= Bumps(t, reader.project);
    match reader.phase
    case WantItems(_, _) =>
      assert s.commits[reader.countAt] == t.commits[reader.countAt];
      CoversSurvives(s, t, reader.project, SeenOrZero(reader), reader.countAt);
      UpToDateSurvives(s, t, reader.countAt, reader.countTime);
    case WantStore(_, response) =>
      DrawnSurvives(s, t, reader.project, reader.query, response, reader.countAt, reader.itemsAt);
      CoversSurvives(s, t, reader.project, SeenOrZero(reader), reader.countAt);
      UpToDateSurvives(s, t, reader.countAt, reader.countTime);
    case Answered(response) =>
      DrawnSurvives(s, t, reader.project, reader.query, response, reader.countAt, reader.itemsAt);
      CoversSurvives(s, t, reader.project, SeenOrZero(reader), reader.countAt);
      assert forall k :: 0 <= k < |s.commits| ==> t.commits[k] == s.commits[k];
    case _ =>
  }

  lemma WriterSurvives(s: State, t: State, writer: Writer)
    requires Grows(s, t) && WriterOk(s, writer)
    ensures WriterOk(t, writer)
  {
    assert forall k :: 0 <= k < |s.commits| ==> t.commits[k] == s.commits[k];
  }

  /** A step that only moves history forward and touches at most reader `r` and writer `w` keeps all the others. */
  lemma OthersSurvive(c: Config, s: State, t: State, r: nat, w: nat)
    requires Inv(c, s) && Grows(s, t)
    requires forall x :: x in t.readers && x != r ==> x in s.readers && t.readers[x] == s.readers[x]
    requires forall x :: x in t.writers && x != w ==> x in s.writers && t.writers[x] == s.writers[x]
    ensures forall x :: x in t.readers && x != r ==> ReaderOk(c, t, t.readers[x])
    ensures forall x :: x in t.writers && x != w ==> WriterOk(t, t.writers[x])
  {
    forall x | x in t.readers && x != r ensures ReaderOk(c, t, t.readers[x]) {
      ReaderSurvives(c, s, t, s.readers[x]);
    }
    forall x | x in t.writers && x != w ensures WriterOk(t, t.writers[x]) {
      WriterSurvives(s, t, s.writers[x]);
    }
  }

  /** Redis may lose pages, or have them spoiled, without breaking anything. */
  lemma PagesSurvive(c: Config, s: State, t: State)
    requires RedisOk(c, s) && Grows(s, t)
    requires forall p :: Bumps(t, p) == Bumps(s, p)
    requires forall p :: VersionKey(p) in t.redis <==> VersionKey(p) in s.redis
    requires forall p :: VersionKey(p) in t.redis ==> t.redis[VersionKey(p)] == s.redis[VersionKey(p)]
    requires forall key :: key in t.redis && t.redis[key].value.Json? ==>
               key in s.redis && t.redis[key] == s.redis[key] && key in t.origins && t.origins[key] == s.origins[key]
    ensures RedisOk(c, t)
  {
    forall p ensures VersionEntry(t, p) {
      assert VersionEntry(s, p);
    }
    forall key | key in t.redis && t.redis[key].value.Json?
      ensures GoodOrigin(c, t, key, t.redis[key], t.origins[key])
    {
      OriginSurvives(c, s, t, key, s.redis[key], s.origins[key]);
    }
  }
}
