/**
 The versioned task-list cache as a state machine. Every await of a listing and of a mutating request is one
 step, and any number of both interleave freely. Redis may fail at every call, may drop a page at any time, and
 a failed call may nevertheless have taken effect.
 */
module CacheProtocol {
  import opened Wrappers
  import opened Clock
  import opened Domain
  import opened TaskListing
  import opened TaskListKeys
  import opened Redis

  datatype ConfigData = Config(digest: Digest, ttl: nat)

  /** `TASK_LIST_CACHE_TTL_SECONDS`, in the microseconds that instants count. It is positive. */
  type Config = c: ConfigData | c.ttl >= 1 witness Config(text => text, 1)

  // ---------------------------------------------------------------- state

  /** The committed rows after one more commit, by a request on `project`. */
  datatype Commit = Commit(tasks: TaskTable, at: Instant, project: Uuid)

  datatype Phase =
    | WantVersion
    | WantPage(version: string)
    | WantUnlink(version: string)
    | WantCount(lookup: Option<string>)
    | WantItems(lookup: Option<string>, total: nat)
    | WantStore(version: string, response: TaskPage)
    | Answered(response: TaskPage)
    | Overflowed

  /**
   A listing in flight. The last five fields are history: the version number that was looked up, which committed
   states the count and the items came from, when the count ran, and when the answer came from the cache.
   */
  datatype Reader = Reader(
    project: Uuid, query: Query, phase: Phase,
    seen: Option<nat>, countAt: nat, itemsAt: nat, countTime: Instant, hitAt: Option<Instant>)

  datatype Mutation =
    | Insert(task: Task)
    | Update(id: Uuid, patch: TaskPatch, now: Instant)
    | Remove(id: Uuid)
    | LeaveRows                   // a label is assigned or removed, or an update sets only what the row already holds

  datatype Progress = InTransaction | Committed | Closed | RolledBack

  /** A mutating request: one service call, its transaction, and the callbacks it has queued. */
  datatype Writer = Writer(
    project: Uuid, mutation: Mutation, queue: seq<Callback>, progress: Progress, commitIndex: nat)

  /** Where a stored page came from. History only. */
  datatype Origin = Origin(
    project: Uuid, version: nat, query: Query, countAt: nat, itemsAt: nat, countTime: Instant, storedAt: Instant)

  datatype State = State(
    now: Instant,
    commits: seq<Commit>,
    homes: map<Uuid, Uuid>,           // history: the project each task id was created in
    redis: Store,
    readers: map<nat, Reader>,
    writers: map<nat, Writer>,
    bumps: map<Uuid, seq<nat>>,       // history: for each INCR that a project's version has seen, whose commit it was for
    lost: set<nat>,                   // history: commits whose INCR never reached Redis
    origins: map<string, Origin>,
    slowest: nat)                     // history: the longest time from a count statement to its stored page

  function Current(s: State): TaskTable
    requires |s.commits| > 0
  {
    s.commits[|s.commits| - 1].tasks
  }

  function Bumps(s: State, project: Uuid): seq<nat> {
    if project in s.bumps then s.bumps[project] else []
  }

  function Initial(tasks: TaskTable, now: Instant): State {
    State(now, [Commit(tasks, now, 0)], map id | id in tasks :: tasks[id].projectId, map[], map[], map[], map[], {}, map[], 0)
  }

  // ---------------------------------------------------------------- actions

  datatype Action =
    | Tick(elapsed: nat)
    | DropPage(key: string)
    | SpoilPage(key: string, text: string)
    | StartListing(r: nat, project: Uuid, query: Query)
    | ReadVersion(r: nat, ok: bool)
    | ReadPage(r: nat, ok: bool)
    | UnlinkPage(r: nat, applied: bool)
    | RunCount(r: nat)
    | RunItems(r: nat)
    | StorePage(r: nat, applied: bool)
    | StartMutation(w: nat, project: Uuid, mutation: Mutation, notifies: Option<Notification>)
    | CommitMutation(w: nat)
    | RollBack(w: nat)
    | CloseSession(w: nat)
    | RunCallback(w: nat, times: nat)

  ghost predicate IsVersionKey(key: string) {
    exists p :: key == VersionKey(p)
  }

  function WithReader(s: State, r: nat, reader: Reader): State {
    s.(readers := s.readers[r := reader])
  }

  /** `cache.get`: the first GET. A printing overflow is not a Redis error, so it escapes. */
  function AfterVersion(c: Config, s: State, r: nat, ok: bool): Option<State> {
    if r !in s.readers || !s.readers[r].phase.WantVersion? then None else
      var reader := s.readers[r];
      var reply := Lookup(s.redis, s.now, VersionKey(reader.project));
      if !ok then Some(WithReader(s, r, reader.(phase := WantCount(None))))
      else if reply.Some? && reply.value.Json? then None
      else if !Printable(reader.query) then Some(WithReader(s, r, reader.(phase := Overflowed)))
      else Some(WithReader(s, r, reader.(phase := WantPage(VersionText(reply)),
                                         seen := Some(if reply.Some? && reply.value.Number? then reply.value.n else 0))))
  }

  /** `cache.get`: the second GET, under the version just read. */
  function AfterPage(c: Config, s: State, r: nat, ok: bool): Option<State> {
    if r !in s.readers || !s.readers[r].phase.WantPage? || !Printable(s.readers[r].query) then None else
      var reader := s.readers[r];
      var version := reader.phase.version;
      var key := ResponseKey(c.digest, reader.project, version, reader.query).value;
      if !ok then Some(WithReader(s, r, reader.(phase := WantCount(None))))
      else match Lookup(s.redis, s.now, key)
        case None => Some(WithReader(s, r, reader.(phase := WantCount(Some(version)))))
        case Some(Json(page)) =>
          if key !in s.origins then None else
            var o := s.origins[key];
            Some(WithReader(s, r, reader.(phase := Answered(page), hitAt := Some(s.now),
                                          countAt := o.countAt, itemsAt := o.itemsAt, countTime := o.countTime)))
        case Some(_) => Some(WithReader(s, r, reader.(phase := WantUnlink(version))))
  }

  function AfterUnlink(c: Config, s: State, r: nat, applied: bool): Option<State> {
    if r !in s.readers || !s.readers[r].phase.WantUnlink? || !Printable(s.readers[r].query) then None else
      var reader := s.readers[r];
      var version := reader.phase.version;
      var key := ResponseKey(c.digest, reader.project, version, reader.query).value;
      Some(WithReader(if applied then s.(redis := s.redis - {key}) else s, r, reader.(phase := WantCount(Some(version)))))
  }

  function AfterCount(s: State, r: nat): Option<State> {
    if r !in s.readers || !s.readers[r].phase.WantCount? || s.commits == [] then None else
      var reader := s.readers[r];
      var total := CountStatement(Current(s), reader.project, reader.query);
      Some(WithReader(s, r, reader.(phase := WantItems(reader.phase.lookup, total),
                                    countAt := |s.commits| - 1, countTime := s.now)))
  }

  /** The page statement sees whatever is committed by then; the response is built from both results. */
  function AfterItems(s: State, r: nat): Option<State> {
    if r !in s.readers || !s.readers[r].phase.WantItems? || s.commits == [] then None else
      var reader := s.readers[r];
      var items := PageStatement(Current(s), reader.project, reader.query);
      var response := Response(reader.query, reader.phase.total, items);
      var next := if reader.phase.lookup.Some? then WantStore(reader.phase.lookup.value, response) else Answered(response);
      Some(WithReader(s, r, reader.(phase := next, itemsAt := |s.commits| - 1)))
  }

  function Later(a: nat, b: int): nat {
    if b > a then b else a
  }

  /** `cache.set`, under the version that was read before the two statements ran. */
  function AfterStore(c: Config, s: State, r: nat, applied: bool): Option<State> {
    if r !in s.readers || !s.readers[r].phase.WantStore? || !Printable(s.readers[r].query) || s.readers[r].seen.None? then None else
      var reader := s.readers[r];
      var key := ResponseKey(c.digest, reader.project, reader.phase.version, reader.query).value;
      var s' := WithReader(s, r, reader.(phase := Answered(reader.phase.response)));
      if !applied then Some(s') else
        Some(s'.(redis := Stored(s.redis, key, reader.phase.response, s.now + c.ttl),
                 origins := s.origins[key := Origin(reader.project, reader.seen.value, reader.query,
                                                    reader.countAt, reader.itemsAt, reader.countTime, s.now)],
                 slowest := Later(s.slowest, s.now - reader.countTime)))
  }

  predicate MayStart(s: State, project: Uuid, m: Mutation)
    requires |s.commits| > 0
  {
    match m
    case Insert(task) => task.id !in s.homes && task.projectId == project
    case Update(id, _, _) => id in Current(s) && Current(s)[id].projectId == project
    case Remove(id) => id in Current(s) && Current(s)[id].projectId == project
    case LeaveRows => true
  }

  function AfterStart(s: State, w: nat, project: Uuid, m: Mutation, notifies: Option<Notification>): Option<State> {
    if w in s.writers || s.commits == [] || !MayStart(s, project, m) then None else
      var queue := [Invalidate(project)] + if notifies.Some? then [Dispatch(notifies.value)] else [];
      Some(s.(writers := s.writers[w := Writer(project, m, queue, InTransaction, 0)],
              homes := if m.Insert? then s.homes[m.task.id := project] else s.homes))
  }

  /** What a commit does to the rows; an UPDATE whose row is gone fails instead. */
  function Applied(tasks: TaskTable, m: Mutation): Option<TaskTable> {
    match m
    case Insert(task) => Some(tasks[task.id := task])
    case Update(id, patch, now) => if id in tasks then Some(tasks[id := Patched(tasks[id], patch, now)]) else None
    case Remove(id) => Some(tasks - {id})
    case LeaveRows => Some(tasks)
  }

  function AfterCommit(s: State, w: nat): Option<State> {
    if w !in s.writers || !s.writers[w].progress.InTransaction? || s.commits == [] then None else
      var writer := s.writers[w];
      var rows := Applied(Current(s), writer.mutation);
      if rows.None? then None else
        Some(s.(commits := s.commits + [Commit(rows.value, s.now, writer.project)],
                writers := s.writers[w := writer.(progress := Committed, commitIndex := |s.commits|)]))
  }

  function AfterCallback(s: State, w: nat, times: nat): Option<State> {
    if w !in s.writers || !s.writers[w].progress.Closed? || s.writers[w].queue == [] then None else
      var writer := s.writers[w];
      var s' := s.(writers := s.writers[w := writer.(queue := writer.queue[1..])]);
      match writer.queue[0]
      case Dispatch(_) => Some(s')
      case Invalidate(project) =>
        Some(s'.(redis := Bumped(s.redis, s.now, VersionKey(project), times),
                 bumps := s.bumps[project := Bumps(s, project) + seq(times, _ => writer.commitIndex)],
                 lost := if times == 0 then s.lost + {writer.commitIndex} else s.lost))
  }

  function WithProgress(s: State, w: nat, from: Progress, to: Progress): Option<State> {
    if w !in s.writers || s.writers[w].progress != from then None
    else Some(s.(writers := s.writers[w := s.writers[w].(progress := to)]))
  }

  ghost function Next(c: Config, s: State, a: Action): Option<State> {
    match a
    case Tick(elapsed) => Some(s.(now := s.now + elapsed))
    case DropPage(key) => if IsVersionKey(key) then None else Some(s.(redis := s.redis - {key}))
    case SpoilPage(key, text) =>
      if key !in s.redis || IsVersionKey(key) then None
      else Some(s.(redis := s.redis[key := s.redis[key].(value := Garbage(text))]))
    case StartListing(r, project, query) =>
      if r in s.readers then None
      else Some(WithReader(s, r, Reader(project, query, WantVersion, None, 0, 0, s.now, None)))
    case ReadVersion(r, ok) => AfterVersion(c, s, r, ok)
    case ReadPage(r, ok) => AfterPage(c, s, r, ok)
    case UnlinkPage(r, applied) => AfterUnlink(c, s, r, applied)
    case RunCount(r) => AfterCount(s, r)
    case RunItems(r) => AfterItems(s, r)
    case StorePage(r, applied) => AfterStore(c, s, r, applied)
    case StartMutation(w, project, m, notifies) => AfterStart(s, w, project, m, notifies)
    case CommitMutation(w) => AfterCommit(s, w)
    case RollBack(w) => WithProgress(s, w, InTransaction, RolledBack)
    case CloseSession(w) => WithProgress(s, w, Committed, Closed)
    case RunCallback(w, times) => AfterCallback(s, w, times)
  }

  /** The state a run ends in, if every action was enabled when it was taken. */
  ghost function Run(c: Config, s: State, actions: seq<Action>): Option<State> {
    if actions == [] then Some(s) else
      var before := Run(c, s, actions[..|actions| - 1]);
      if before.None? then None else Next(c, before.value, actions[|actions| - 1])
  }
}
