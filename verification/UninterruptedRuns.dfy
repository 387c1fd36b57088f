/**
 The concurrent cache protocol contains the services: a listing or a mutating request that nobody interrupts ends, for
 whatever Redis does with its calls, with the answer, the store and the rows that the classes compute.
 */
module UninterruptedRuns {
  import opened Wrappers
  import opened Text
  import opened Clock
  import opened Domain
  import opened TaskListing
  import opened TaskListKeys
  import opened Redis
  import opened CacheProtocol
  import opened CacheCoherence
  import opened CacheSteps
  import opened CacheRuns
  import opened TaskListCache
  import opened ServiceRules
  import opened ServiceProperties
  import PostCommit

  lemma {:induction false} RunAppend(c: Config, s: State, a: seq<Action>, b: seq<Action>)
    requires Run(c, s, a).Some?
    ensures Run(c, s, a + b) == Run(c, Run(c, s, a).value, b)
  {
    hide Next;
    if b == [] {
      assert a + b == a;
    } else {
      RunAppend(c, s, a, b[..|b| - 1]);
      assert (a + b)[..|a + b| - 1] == a + b[..|b| - 1];
    }
  }

  lemma OneStep(c: Config, s: State, a: Action)
    ensures Run(c, s, [a]) == Next(c, s, a)
  {
    hide Next;
    assert [a][..0] == [];
  }

  lemma TwoSteps(c: Config, s: State, a: Action, b: Action)
    requires Next(c, s, a).Some?
    ensures Run(c, s, [a] + [b]) == Next(c, Next(c, s, a).value, b)
  {
    hide Next;
    OneStep(c, s, a);
    RunAppend(c, s, [a], [b]);
    OneStep(c, Next(c, s, a).value, b);
  }

  // ---------------------------------------------------------------- a listing

  /** `t` is `s` except for reader `r`, what the listing left in Redis, and history. */
  ghost predicate OnlyReader(s: State, t: State, r: nat, store: Store) {
    && t.redis == store && t.commits == s.commits && t.writers == s.writers && t.now == s.now && t.bumps == s.bumps
    && t.homes == s.homes && r in t.readers && t.readers == s.readers[r := t.readers[r]]
  }

  /** The steps run through, end with the answer, and leave the given store. */
  ghost predicate Ends(c: Config, s: State, steps: seq<Action>, r: nat, store: Store, answer: TaskPage) {
    && Run(c, s, steps).Some? && OnlyReader(s, Run(c, s, steps).value, r, store)
    && Run(c, s, steps).value.readers[r].phase == Answered(answer)
  }

  lemma EndsAfter(c: Config, s: State, a: seq<Action>, t: State, b: seq<Action>, r: nat, store: Store, answer: TaskPage)
    requires Run(c, s, a) == Some(t) && OnlyReader(s, t, r, t.redis) && Ends(c, t, b, r, store, answer)
    ensures Ends(c, s, a + b, r, store, answer)
  {
    hide Run;
    RunAppend(c, s, a, b);
    var u := Run(c, t, b).value;
    assert s.readers[r := t.readers[r]][r := u.readers[r]] == s.readers[r := u.readers[r]];
  }

  function Statements(r: nat): seq<Action> {
    [RunCount(r)] + [RunItems(r)]
  }

  /** From the second GET on, under the version just read. */
  function PageSteps(c: Config, s: State, r: nat, p: Uuid, version: string, q: Query, calls: Calls): seq<Action>
    requires Printable(q)
  {
    [ReadPage(r, calls.page)]
    + if !calls.page then Statements(r)
      else match Lookup(s.redis, s.now, ResponseKey(c.digest, p, version, q).value)
        case None => Statements(r) + [StorePage(r, calls.stored)]
        case Some(Json(_)) => []
        case Some(_) => [UnlinkPage(r, calls.unlinked)] + (Statements(r) + [StorePage(r, calls.stored)])
  }

  /** The steps of one whole listing, as Redis answers its calls. */
  function ListingSteps(c: Config, s: State, r: nat, p: Uuid, q: Query, calls: Calls): seq<Action>
    requires Lookup(s.redis, s.now, VersionKey(p)).Some? ==> !Lookup(s.redis, s.now, VersionKey(p)).value.Json?
  {
    ([StartListing(r, p, q)] + [ReadVersion(r, calls.version)])
    + if !calls.version then Statements(r)
      else if !Printable(q) then []
      else PageSteps(c, s, r, p, VersionText(Lookup(s.redis, s.now, VersionKey(p))), q, calls)
  }

  lemma StartAndVersion(c: Config, s: State, r: nat, p: Uuid, q: Query, ok: bool)
    requires r !in s.readers
    requires Lookup(s.redis, s.now, VersionKey(p)).Some? ==> !Lookup(s.redis, s.now, VersionKey(p)).value.Json?
    ensures var t := Run(c, s, [StartListing(r, p, q)] + [ReadVersion(r, ok)]);
            && t.Some? && OnlyReader(s, t.value, r, s.redis) && t.value.origins == s.origins
            && var reader := t.value.readers[r];
               && reader.project == p && reader.query == q
               && reader.phase == (if !ok then WantCount(None) else if !Printable(q) then Overflowed
                                   else WantPage(VersionText(Lookup(s.redis, s.now, VersionKey(p)))))
               && (reader.phase.WantPage? ==> reader.seen.Some?)
  {
    hide VersionKey, Printable, Lookup, VersionText, AfterVersion, Run;
    TwoSteps(c, s, StartListing(r, p, q), ReadVersion(r, ok));
    var started := WithReader(s, r, Reader(p, q, WantVersion, None, 0, 0, s.now, None));
    VersionAnswered(c, started, r, ok);
    assert started.readers[r := AfterVersion(c, started, r, ok).value.readers[r]]
           == s.readers[r := AfterVersion(c, started, r, ok).value.readers[r]];
  }

  lemma VersionAnswered(c: Config, s: State, r: nat, ok: bool)
    requires r in s.readers && s.readers[r].phase.WantVersion?
    requires var p := s.readers[r].project;
             Lookup(s.redis, s.now, VersionKey(p)).Some? ==> !Lookup(s.redis, s.now, VersionKey(p)).value.Json?
    ensures var t := AfterVersion(c, s, r, ok);
            && t.Some? && OnlyReader(s, t.value, r, s.redis) && t.value.origins == s.origins
            && var reader := t.value.readers[r];
               && reader.project == s.readers[r].project && reader.query == s.readers[r].query
               && reader.phase == (if !ok then WantCount(None) else if !Printable(reader.query) then Overflowed
                                   else WantPage(VersionText(Lookup(s.redis, s.now, VersionKey(reader.project)))))
               && (reader.phase.WantPage? ==> reader.seen.Some?)
  {
    hide VersionKey, Printable, Lookup, VersionText;
  }

  lemma BothStatements(c: Config, s: State, r: nat)
    requires r in s.readers && s.readers[r].phase.WantCount? && s.commits != []
    ensures var t := Run(c, s, Statements(r));
            && t.Some? && OnlyReader(s, t.value, r, s.redis) && t.value.origins == s.origins
            && var reader, answer := s.readers[r], Answer(Current(s), s.readers[r].project, s.readers[r].query);
               && t.value.readers[r].project == reader.project && t.value.readers[r].query == reader.query
               && t.value.readers[r].seen == reader.seen
               && t.value.readers[r].phase
                    == if reader.phase.lookup.Some? then WantStore(reader.phase.lookup.value, answer) else Answered(answer)
  {
    hide CountStatement, PageStatement, Run;
    TwoSteps(c, s, RunCount(r), RunItems(r));
    var counted := AfterCount(s, r).value;
    assert counted.readers[r := AfterItems(counted, r).value.readers[r]] == s.readers[r := AfterItems(counted, r).value.readers[r]];
  }

  lemma StoreStep(c: Config, s: State, r: nat, applied: bool)
    requires r in s.readers && s.readers[r].phase.WantStore? && s.readers[r].seen.Some? && Printable(s.readers[r].query)
    ensures var reader := s.readers[r];
            var key := ResponseKey(c.digest, reader.project, reader.phase.version, reader.query).value;
            Ends(c, s, [StorePage(r, applied)], r,
                 if applied then Stored(s.redis, key, reader.phase.response, s.now + c.ttl) else s.redis, reader.phase.response)
  {
    hide ResponseKey, Printable, Run, AfterStore, Stored;
    OneStep(c, s, StorePage(r, applied));
    StoreLeaves(c, s, r, applied);
  }

  lemma StoreLeaves(c: Config, s: State, r: nat, applied: bool)
    requires r in s.readers && s.readers[r].phase.WantStore? && s.readers[r].seen.Some? && Printable(s.readers[r].query)
    ensures var t := AfterStore(c, s, r, applied);
            var reader := s.readers[r];
            var key := ResponseKey(c.digest, reader.project, reader.phase.version, reader.query).value;
            && t.Some? && r in t.value.readers && t.value.readers[r].phase == Answered(reader.phase.response)
            && OnlyReader(s, t.value, r, if applied then Stored(s.redis, key, reader.phase.response, s.now + c.ttl) else s.redis)
  {
    hide ResponseKey, Printable, Stored;
  }

  lemma UnlinkStep(c: Config, s: State, r: nat, applied: bool)
    requires r in s.readers && s.readers[r].phase.WantUnlink? && Printable(s.readers[r].query)
    ensures var t := Run(c, s, [UnlinkPage(r, applied)]);
            var reader := s.readers[r];
            var key := ResponseKey(c.digest, reader.project, reader.phase.version, reader.query).value;
            && t.Some? && OnlyReader(s, t.value, r, if applied then s.redis - {key} else s.redis)
            && t.value.readers[r] == reader.(phase := WantCount(Some(reader.phase.version)))
  {
    hide ResponseKey, Printable;
    OneStep(c, s, UnlinkPage(r, applied));
  }

  /** Both statements of a listing that will not store its page. */
  lemma Unstored(c: Config, s: State, r: nat)
    requires r in s.readers && s.readers[r].phase == WantCount(None) && s.commits != []
    ensures Ends(c, s, Statements(r), r, s.redis, Answer(Current(s), s.readers[r].project, s.readers[r].query))
  {
    hide Answer, Run;
    BothStatements(c, s, r);
  }

  /** A miss runs both statements and offers the answer to the cache. */
  lemma MissedPage(c: Config, s: State, r: nat, applied: bool)
    requires r in s.readers && s.readers[r].phase.WantCount? && s.readers[r].phase.lookup.Some? && s.commits != []
    requires s.readers[r].seen.Some? && Printable(s.readers[r].query)
    ensures var reader := s.readers[r];
            var key := ResponseKey(c.digest, reader.project, reader.phase.lookup.value, reader.query).value;
            var answer := Answer(Current(s), reader.project, reader.query);
            Ends(c, s, Statements(r) + [StorePage(r, applied)], r,
                 if applied then Stored(s.redis, key, answer, s.now + c.ttl) else s.redis, answer)
  {
    hide ResponseKey, Printable, Answer, Run, Stored, Ends;
    BothStatements(c, s, r);
    var t := Run(c, s, Statements(r)).value;
    StoreStep(c, t, r, applied);
    var answer := Answer(Current(s), s.readers[r].project, s.readers[r].query);
    var key := ResponseKey(c.digest, s.readers[r].project, s.readers[r].phase.lookup.value, s.readers[r].query).value;
    EndsAfter(c, s, Statements(r), t, [StorePage(r, applied)], r,
              if applied then Stored(s.redis, key, answer, s.now + c.ttl) else s.redis, answer);
  }

  /** An unreadable page is removed if possible, and the listing goes on as after a miss. */
  lemma CleanedPage(c: Config, s: State, r: nat, calls: Calls)
    requires r in s.readers && s.readers[r].phase.WantUnlink? && Printable(s.readers[r].query) && s.commits != []
    requires s.readers[r].seen.Some?
    ensures var reader := s.readers[r];
            var key := ResponseKey(c.digest, reader.project, reader.phase.version, reader.query).value;
            var answer := Answer(Current(s), reader.project, reader.query);
            var cleaned := if calls.unlinked then s.redis - {key} else s.redis;
            Ends(c, s, [UnlinkPage(r, calls.unlinked)] + (Statements(r) + [StorePage(r, calls.stored)]), r,
                 if calls.stored then Stored(cleaned, key, answer, s.now + c.ttl) else cleaned, answer)
  {
    hide ResponseKey, Printable, Answer, Run, Stored, Ends, Statements;
    UnlinkStep(c, s, r, calls.unlinked);
    var t := Run(c, s, [UnlinkPage(r, calls.unlinked)]).value;
    MissedPage(c, t, r, calls.stored);
    var answer := Answer(Current(s), s.readers[r].project, s.readers[r].query);
    var key := ResponseKey(c.digest, s.readers[r].project, s.readers[r].phase.version, s.readers[r].query).value;
    EndsAfter(c, s, [UnlinkPage(r, calls.unlinked)], t, Statements(r) + [StorePage(r, calls.stored)], r,
              if calls.stored then Stored(t.redis, key, answer, s.now + c.ttl) else t.redis, answer);
  }

  lemma PageStep(c: Config, s: State, r: nat, ok: bool)
    requires r in s.readers && s.readers[r].phase.WantPage? && Printable(s.readers[r].query)
    requires forall key :: key in s.redis && s.redis[key].value.Json? ==> key in s.origins
    ensures var t := Run(c, s, [ReadPage(r, ok)]);
            var reader := s.readers[r];
            var version := reader.phase.version;
            var reply := Lookup(s.redis, s.now, ResponseKey(c.digest, reader.project, version, reader.query).value);
            && t.Some? && OnlyReader(s, t.value, r, s.redis)
            && t.value.readers[r].project == reader.project && t.value.readers[r].query == reader.query
            && t.value.readers[r].seen == reader.seen
            && t.value.readers[r].phase
                 == if !ok then WantCount(None) else if reply.None? then WantCount(Some(version))
                    else if reply.value.Json? then Answered(reply.value.page) else WantUnlink(version)
  {
    hide ResponseKey, Printable;
    OneStep(c, s, ReadPage(r, ok));
  }

  lemma PagePart(c: Config, s: State, r: nat, p: Uuid, q: Query, calls: Calls)
    requires r in s.readers && s.readers[r].phase.WantPage? && Printable(q) && s.commits != []
    requires s.readers[r].seen.Some? && calls.version && s.readers[r].project == p && s.readers[r].query == q
    requires forall key :: key in s.redis && s.redis[key].value.Json? ==> key in s.origins
    ensures var key := ResponseKey(c.digest, p, s.readers[r].phase.version, q).value;
            var reply := Lookup(s.redis, s.now, key);
            var answer := Answer(Current(s), p, q);
            var cleaned := if reply.Some? && calls.unlinked then s.redis - {key} else s.redis;
            Ends(c, s, PageSteps(c, s, r, p, s.readers[r].phase.version, q, calls), r,
                 if !calls.page || (reply.Some? && reply.value.Json?) then s.redis
                 else if calls.stored then Stored(cleaned, key, answer, s.now + c.ttl) else cleaned,
                 if calls.page && reply.Some? && reply.value.Json? then reply.value.page else answer)
  {
    hide ResponseKey, Printable, Answer, Run, Stored, Ends, Lookup, Statements;
    var version := s.readers[r].phase.version;
    var key := ResponseKey(c.digest, p, version, q).value;
    var reply := Lookup(s.redis, s.now, key);
    var answer := Answer(Current(s), p, q);
    PageStep(c, s, r, calls.page);
    var read := [ReadPage(r, calls.page)];
    var t := Run(c, s, read).value;
    if !calls.page {
      Unstored(c, t, r);
      EndsAfter(c, s, read, t, Statements(r), r, s.redis, answer);
    } else if reply.None? {
      MissedPage(c, t, r, calls.stored);
      EndsAfter(c, s, read, t, Statements(r) + [StorePage(r, calls.stored)], r,
                if calls.stored then Stored(s.redis, key, answer, s.now + c.ttl) else s.redis, answer);
    } else if reply.value.Json? {
      AlreadyEnded(c, t, r, reply.value.page);
      EndsAfter(c, s, read, t, [], r, s.redis, reply.value.page);
    } else {
      CleanedPage(c, t, r, calls);
      var cleaned := if calls.unlinked then s.redis - {key} else s.redis;
      EndsAfter(c, s, read, t, [UnlinkPage(r, calls.unlinked)] + (Statements(r) + [StorePage(r, calls.stored)]), r,
                if calls.stored then Stored(cleaned, key, answer, s.now + c.ttl) else cleaned, answer);
    }
  }

  lemma AlreadyEnded(c: Config, s: State, r: nat, answer: TaskPage)
    requires r in s.readers && s.readers[r].phase == Answered(answer)
    ensures Ends(c, s, [], r, s.redis, answer)
  {
  }

  /** What `CachedListing` says once the version has been read and the key printed. */
  lemma ListedFromPage(c: Config, store: Store, now: Instant, tasks: TaskTable, p: Uuid, q: Query, calls: Calls)
    requires Lookup(store, now, VersionKey(p)).Some? ==> !Lookup(store, now, VersionKey(p)).value.Json?
    requires calls.version && Printable(q)
    ensures var key := ResponseKey(c.digest, p, VersionText(Lookup(store, now, VersionKey(p))), q).value;
            var reply := Lookup(store, now, key);
            var answer := Answer(tasks, p, q);
            var cleaned := if reply.Some? && calls.unlinked then store - {key} else store;
            CachedListing(c, store, now, tasks, p, q, calls)
              == Listed(Some(if calls.page && reply.Some? && reply.value.Json? then reply.value.page else answer),
                        if !calls.page || (reply.Some? && reply.value.Json?) then store
                        else if calls.stored then Stored(cleaned, key, answer, now + c.ttl) else cleaned)
  {
    hide Answer, VersionKey, VersionText, ProjectPrefix, VersionedName, Lookup, Stored;
  }

  /**
   From every reachable state, a listing that runs its steps without interruption ends with the answer and the store of
   `CachedListing`, which is what `TaskService.ListTasks` computes; it overflows when that has no answer.
   */
  lemma UninterruptedListing(c: Config, queries: set<Query>, tasks: TaskTable, now: Instant, actions: seq<Action>,
      s: State, r: nat, p: Uuid, q: Query, calls: Calls)
    requires CollisionFree(c.digest, queries) && Reached(c, queries, tasks, now, actions, s) && r !in s.readers
    ensures |s.commits| > 0 && (Lookup(s.redis, s.now, VersionKey(p)).Some? ==> !Lookup(s.redis, s.now, VersionKey(p)).value.Json?)
    ensures var t := Run(c, s, ListingSteps(c, s, r, p, q, calls));
            var listed := CachedListing(c, s.redis, s.now, Current(s), p, q, calls);
            && t.Some? && OnlyReader(s, t.value, r, listed.store)
            && t.value.readers[r].phase == if listed.response.Some? then Answered(listed.response.value) else Overflowed
  {
    ReachedReady(c, queries, tasks, now, actions, s, p);
    ReadyListing(c, s, r, p, q, calls);
  }

  /** The same for its failure: from every reachable state, for every accepted query and whatever Redis does. */
  lemma ListingOverflowsExactly(c: Config, queries: set<Query>, tasks: TaskTable, now: Instant, actions: seq<Action>,
      s: State, r: nat, p: Uuid, q: Query, calls: Calls)
    requires CollisionFree(c.digest, queries) && Reached(c, queries, tasks, now, actions, s) && r !in s.readers
    ensures |s.commits| > 0 && (Lookup(s.redis, s.now, VersionKey(p)).Some? ==> !Lookup(s.redis, s.now, VersionKey(p)).value.Json?)
    ensures var t := Run(c, s, ListingSteps(c, s, r, p, q, calls));
            && t.Some? && r in t.value.readers
            && (t.value.readers[r].phase == Overflowed <==>
                  calls.version && (LeavesCalendar(q.filters.dueFrom) || LeavesCalendar(q.filters.dueTo)))
  {
    hide CachedListing, ListingSteps, Run, Reached, Lookup, VersionKey, Printable, LeavesCalendar, CollisionFree;
    UninterruptedListing(c, queries, tasks, now, actions, s, r, p, q, calls);
    OverflowsExactly(c, s.redis, s.now, Current(s), p, q, calls);
    PrintableExactly(q);
  }

  /** And it does fail: on any rows, already the first listing of `EDGE_QUERY` ends so. */
  lemma OverflowIsReachable(c: Config, tasks: TaskTable, now: Instant, p: Uuid)
    ensures var t := Run(c, Initial(tasks, now), [StartListing(0, p, EDGE_QUERY)] + [ReadVersion(0, true)]);
            t.Some? && t.value.readers[0].phase == Overflowed
  {
    hide VersionKey, Run;
    EdgeQueryOverflows();
    StartAndVersion(c, Initial(tasks, now), 0, p, EDGE_QUERY, true);
  }

  /** What a listing relies on: a first commit, a readable version, and a recorded origin for every page. */
  ghost predicate Ready(s: State, p: Uuid) {
    && |s.commits| > 0
    && (Lookup(s.redis, s.now, VersionKey(p)).Some? ==> !Lookup(s.redis, s.now, VersionKey(p)).value.Json?)
    && (forall key :: key in s.redis && s.redis[key].value.Json? ==> key in s.origins)
  }

  lemma ReachedReady(c: Config, queries: set<Query>, tasks: TaskTable, now: Instant, actions: seq<Action>, s: State, p: Uuid)
    requires CollisionFree(c.digest, queries) && Reached(c, queries, tasks, now, actions, s)
    ensures Ready(s, p) && VersionEntry(s, p)
  {
    hide VersionKey, GoodOrigin, ReaderOk, WriterOk, Accounted, BumpsOk;
    RunKeeps(c, queries, tasks, now, actions);
    assert VersionEntry(s, p);
  }

  lemma ReadyListing(c: Config, s: State, r: nat, p: Uuid, q: Query, calls: Calls)
    requires Ready(s, p) && r !in s.readers
    ensures var steps := ListingSteps(c, s, r, p, q, calls);
            var listed := CachedListing(c, s.redis, s.now, Current(s), p, q, calls);
            if listed.response.Some? then Ends(c, s, steps, r, listed.store, listed.response.value)
            else Run(c, s, steps).Some? && OnlyReader(s, Run(c, s, steps).value, r, listed.store)
                 && Run(c, s, steps).value.readers[r].phase == Overflowed
  {
    hide ResponseKey, Printable, Answer, Run, VersionKey, VersionText, Lookup, Ends, Statements, Stored;
    var front := [StartListing(r, p, q)] + [ReadVersion(r, calls.version)];
    StartAndVersion(c, s, r, p, q, calls.version);
    var t := Run(c, s, front).value;
    if !calls.version {
      Unstored(c, t, r);
      EndsAfter(c, s, front, t, Statements(r), r, s.redis, Answer(Current(s), p, q));
    } else if !Printable(q) {
      RunAppend(c, s, front, []);
      EmptyRun(c, t);
    } else {
      PrintedListing(c, s, t, r, p, q, calls);
    }
  }

  lemma EmptyRun(c: Config, s: State)
    ensures Run(c, s, []) == Some(s)
  {
  }

  lemma PrintedListing(c: Config, s: State, t: State, r: nat, p: Uuid, q: Query, calls: Calls)
    requires Ready(s, p) && calls.version && Printable(q)
    requires Run(c, s, [StartListing(r, p, q)] + [ReadVersion(r, true)]) == Some(t)
    requires OnlyReader(s, t, r, s.redis) && t.origins == s.origins && t.readers[r].seen.Some?
    requires t.readers[r].project == p && t.readers[r].query == q
    requires t.readers[r].phase == WantPage(VersionText(Lookup(s.redis, s.now, VersionKey(p))))
    ensures var listed := CachedListing(c, s.redis, s.now, Current(s), p, q, calls);
            listed.response.Some? && Ends(c, s, ListingSteps(c, s, r, p, q, calls), r, listed.store, listed.response.value)
  {
    hide ResponseKey, Printable, Answer, Run, VersionKey, VersionText, Lookup, Ends, Statements, Stored, CachedListing;
    var version := VersionText(Lookup(s.redis, s.now, VersionKey(p)));
    PagePart(c, t, r, p, q, calls);
    ListedFromPage(c, s.redis, s.now, Current(s), p, q, calls);
    assert PageSteps(c, t, r, p, version, q, calls) == PageSteps(c, s, r, p, version, q, calls);
    var listed := CachedListing(c, s.redis, s.now, Current(s), p, q, calls);
    EndsAfter(c, s, [StartListing(r, p, q)] + [ReadVersion(r, true)], t, PageSteps(c, s, r, p, version, q, calls), r,
              listed.store, listed.response.value);
  }

  // ---------------------------------------------------------------- a mutation

  /** How an operation appears in the protocol; label operations do not, because they touch neither tasks nor Redis. */
  function MutationOf(db: Database, op: Operation, newId: Uuid, now: Instant, after: Database): Mutation {
    match op
    case CreateTask(_, _) => if newId in after.tasks then Insert(after.tasks[newId]) else LeaveRows
    case UpdateTask(id, patch) =>
      if id in db.tasks && Edited(db.tasks[id], patch, now) != db.tasks[id] then Update(id, patch, now) else LeaveRows
    case DeleteTask(id) => Remove(id)
    case _ => LeaveRows
  }

  function NoticeOf(callbacks: seq<Callback>): Option<Notification> {
    if |callbacks| == 2 && callbacks[1].Dispatch? then Some(callbacks[1].notice) else None
  }

  function CallbackSteps(w: nat, times: seq<nat>): seq<Action> {
    if times == [] then [] else CallbackSteps(w, times[..|times| - 1]) + [RunCallback(w, times[|times| - 1])]
  }

  lemma RowsApplied(db: Database, actor: User, op: Operation, newId: Uuid, now: Instant)
    requires FreshId(db, newId) && Execute(db, actor, op, newId, now).Performed?
    requires !op.CreateLabel? && !op.UpdateLabel? && !op.DeleteLabel?
    ensures var after := Execute(db, actor, op, newId, now).db;
            var m := MutationOf(db, op, newId, now, after);
            && Applied(db.tasks, m) == Some(after.tasks)
            && (m.Insert? ==> op.CreateTask? && m.task.id == newId && m.task.projectId == Target(db, op).value)
            && (m.Update? ==> m.id in db.tasks && db.tasks[m.id].projectId == Target(db, op).value)
            && (m.Remove? ==> m.id in db.tasks && db.tasks[m.id].projectId == Target(db, op).value)
  {
    hide Refusal, AssigneeRefusal, Mail, NameTaken, Assignee, PairsWithoutTask, Patched;
    if op.UpdateTask? {
      assert db.tasks[op.taskId := db.tasks[op.taskId]] == db.tasks;
    }
  }

  lemma MutationMayStart(s: State, db: Database, actor: User, op: Operation, newId: Uuid, now: Instant)
    requires s.commits != [] && Current(s) == db.tasks && newId !in s.homes && FreshId(db, newId)
    requires Execute(db, actor, op, newId, now).Performed? && Execute(db, actor, op, newId, now).callbacks != []
    ensures var outcome := Execute(db, actor, op, newId, now);
            var m := MutationOf(db, op, newId, now, outcome.db);
            && Target(db, op).Some? && MayStart(s, Target(db, op).value, m)
            && Applied(Current(s), m) == Some(outcome.db.tasks)
            && outcome.callbacks == [Invalidate(Target(db, op).value)]
                 + if NoticeOf(outcome.callbacks).Some? then [Dispatch(NoticeOf(outcome.callbacks).value)] else []
  {
    hide Execute, Applied, MutationOf, Target;
    QueueShape(db, actor, op, newId, now);
    RowsApplied(db, actor, op, newId, now);
  }

  /** The service call and its transaction, as three steps of the protocol. */
  lemma Transacted(c: Config, s: State, w: nat, p: Uuid, m: Mutation, notifies: Option<Notification>, after: TaskTable)
    requires w !in s.writers && s.commits != [] && MayStart(s, p, m) && Applied(Current(s), m) == Some(after)
    ensures var t := Run(c, s, ([StartMutation(w, p, m, notifies)] + [CommitMutation(w)]) + [CloseSession(w)]);
            && t.Some? && t.value.commits != [] && Current(t.value) == after && t.value.redis == s.redis
            && t.value.readers == s.readers && t.value.now == s.now && w in t.value.writers
            && t.value.writers[w].progress.Closed?
            && t.value.writers[w].queue == [Invalidate(p)] + if notifies.Some? then [Dispatch(notifies.value)] else []
  {
    hide Run, Applied, MayStart, AfterCommit, AfterStart;
    BeginsRequest(s, w, p, m, notifies);
    var begun := AfterStart(s, w, p, m, notifies).value;
    CommitsRows(begun, w, after);
    CommitTouches(begun, w);
    var front := [StartMutation(w, p, m, notifies)] + [CommitMutation(w)];
    TwoSteps(c, s, StartMutation(w, p, m, notifies), CommitMutation(w));
    var t := Run(c, s, front).value;
    RunAppend(c, s, front, [CloseSession(w)]);
    OneStep(c, t, CloseSession(w));
  }

  lemma BeginsRequest(s: State, w: nat, p: Uuid, m: Mutation, notifies: Option<Notification>)
    requires w !in s.writers && s.commits != [] && MayStart(s, p, m)
    ensures var t := AfterStart(s, w, p, m, notifies);
            && t.Some? && t.value.commits == s.commits && t.value.redis == s.redis && t.value.readers == s.readers
            && t.value.now == s.now && w in t.value.writers && t.value.writers[w].progress.InTransaction?
            && t.value.writers[w].mutation == m && t.value.writers[w].project == p
            && t.value.writers[w].queue == [Invalidate(p)] + if notifies.Some? then [Dispatch(notifies.value)] else []
  {
    hide MayStart;
  }

  lemma CommitsRows(s: State, w: nat, after: TaskTable)
    requires w in s.writers && s.writers[w].progress.InTransaction? && s.commits != []
    requires Applied(Current(s), s.writers[w].mutation) == Some(after)
    ensures var t := AfterCommit(s, w); t.Some? && t.value.commits != [] && Current(t.value) == after
  {
    hide Applied;
  }

  /** The callbacks, each with the number of times its INCR is applied. */
  lemma {:induction false} CalledBack(c: Config, s: State, w: nat, times: seq<nat>)
    requires w in s.writers && s.writers[w].progress.Closed? && |times| <= |s.writers[w].queue|
    ensures var t := Run(c, s, CallbackSteps(w, times));
            var queue := s.writers[w].queue;
            && t.Some? && t.value.commits == s.commits && t.value.readers == s.readers && t.value.now == s.now
            && w in t.value.writers && t.value.writers[w].progress.Closed? && t.value.writers[w].queue == queue[|times|..]
            && t.value.redis == PostCommit.AfterCalls(s.redis, s.now, queue[..|times|], times)
  {
    hide Next, Bumped, VersionKey;
    var queue := s.writers[w].queue;
    if times == [] {
      EmptyRun(c, s);
    } else {
      var last := |times| - 1;
      CalledBack(c, s, w, times[..last]);
      var t := Run(c, s, CallbackSteps(w, times[..last])).value;
      RunAppend(c, s, CallbackSteps(w, times[..last]), [RunCallback(w, times[last])]);
      OneStep(c, t, RunCallback(w, times[last]));
      assert queue[..|times|][..last] == queue[..last] && queue[last..][0] == queue[last] && queue[last..][1..] == queue[|times|..];
      CallbackStep(c, t, w, times[last]);
    }
  }

  lemma CallbackStep(c: Config, s: State, w: nat, times: nat)
    requires w in s.writers && s.writers[w].progress.Closed? && s.writers[w].queue != []
    ensures var t := Next(c, s, RunCallback(w, times));
            && t.Some? && t.value.commits == s.commits && t.value.readers == s.readers && t.value.now == s.now
            && w in t.value.writers && t.value.writers[w].progress.Closed?
            && t.value.writers[w].queue == s.writers[w].queue[1..]
            && t.value.redis == PostCommit.AfterCall(s.redis, s.now, s.writers[w].queue[0], times)
  {
    hide Bumped, VersionKey;
  }

  function MutationSteps(w: nat, p: Uuid, m: Mutation, notifies: Option<Notification>, times: seq<nat>): seq<Action> {
    (([StartMutation(w, p, m, notifies)] + [CommitMutation(w)]) + [CloseSession(w)]) + CallbackSteps(w, times)
  }

  /**
   An operation that queues callbacks, run without interruption and with a commit that succeeds, ends with the rows of
   its rule and with Redis as its callbacks leave it: what `Application.Mutate` states of the classes.
   */
  lemma UninterruptedMutation(c: Config, s: State, w: nat, db: Database, actor: User, op: Operation, newId: Uuid,
      now: Instant, times: seq<nat>)
    requires w !in s.writers && s.commits != [] && Current(s) == db.tasks && newId !in s.homes && FreshId(db, newId)
    requires Execute(db, actor, op, newId, now).Performed? && Execute(db, actor, op, newId, now).callbacks != []
    requires |times| == |Execute(db, actor, op, newId, now).callbacks|
    ensures Target(db, op).Some?
    ensures var outcome := Execute(db, actor, op, newId, now);
            var m := MutationOf(db, op, newId, now, outcome.db);
            var t := Run(c, s, MutationSteps(w, Target(db, op).value, m, NoticeOf(outcome.callbacks), times));
            && t.Some? && t.value.commits != [] && Current(t.value) == outcome.db.tasks && t.value.readers == s.readers
            && t.value.redis == PostCommit.AfterCalls(s.redis, s.now, outcome.callbacks, times)
  {
    hide Execute, Run, Applied, MutationOf, CallbackSteps, Target, MayStart, NoticeOf, FreshId, PostCommit.AfterCalls, Current;
    MutationMayStart(s, db, actor, op, newId, now);
    var outcome := Execute(db, actor, op, newId, now);
    var m, notifies := MutationOf(db, op, newId, now, outcome.db), NoticeOf(outcome.callbacks);
    var p := Target(db, op).value;
    var front := ([StartMutation(w, p, m, notifies)] + [CommitMutation(w)]) + [CloseSession(w)];
    Transacted(c, s, w, p, m, notifies, outcome.db.tasks);
    var t := Run(c, s, front).value;
    CalledBack(c, t, w, times);
    assert outcome.callbacks[..|times|] == outcome.callbacks;
    RunAppend(c, s, front, CallbackSteps(w, times));
    SameRows(t, Run(c, t, CallbackSteps(w, times)).value);
  }

  lemma SameRows(s: State, t: State)
    requires s.commits == t.commits && s.commits != []
    ensures Current(s) == Current(t)
  {
  }

  // ---------------------------------------------------------------- a run that goes stale

  lemma NewMatchChangesAnswer(tasks: TaskTable, p: Uuid, q: Query, task: Task)
    requires task.id !in tasks && task.projectId == p && Matches(task, q.filters)
    ensures Answer(tasks[task.id := task], p, q).total == Answer(tasks, p, q).total + 1
  {
    hide Matches, PageStatement;
    var before, after := Matching(tasks, p, q.filters), Matching(tasks[task.id := task], p, q.filters);
    assert after == before[task.id := task];
  }

  /** The first listing of a query on an empty Redis: a miss that stores its page. */
  function FirstListing(p: Uuid, q: Query): seq<Action> {
    ([StartListing(0, p, q)] + [ReadVersion(0, true)]) + ([ReadPage(0, true)] + (Statements(0) + [StorePage(0, true)]))
  }

  lemma FirstListingStores(c: Config, tasks: TaskTable, now: Instant, p: Uuid, q: Query)
    requires Printable(q)
    ensures var t := Run(c, Initial(tasks, now), FirstListing(p, q));
            && t.Some? && t.value.now == now && t.value.commits == Initial(tasks, now).commits && t.value.bumps == map[]
            && t.value.writers == map[] && t.value.homes == Initial(tasks, now).homes
            && 1 !in t.value.readers && FreshPageStored(c, t.value, p, q)
  {
    hide Printable, Answer, Run, ProjectPrefix, VersionedName, CachedListing, VersionKey;
    var s, calls := Initial(tasks, now), Calls(true, true, false, true);
    assert Decimal(0) == "0";
    ListedFromPage(c, s.redis, now, tasks, p, q, calls);
    ReadyListing(c, s, 0, p, q, calls);
    assert FirstListing(p, q) == ListingSteps(c, s, 0, p, q, calls);
  }

  /** List, and begin to insert a task. */
  lemma InsertOpens(c: Config, tasks: TaskTable, now: Instant, p: Uuid, q: Query, task: Task)
    requires Printable(q) && task.id !in tasks && task.projectId == p
    ensures var t := Run(c, Initial(tasks, now), FirstListing(p, q) + [StartMutation(0, p, Insert(task), None)]);
            && t.Some? && t.value.commits == Initial(tasks, now).commits && 1 !in t.value.readers && 0 in t.value.writers
            && t.value.writers[0].project == p && t.value.writers[0].queue == [Invalidate(p)]
            && AfterCommit(t.value, 0).Some? && AfterCommit(t.value, 0).value.commits != []
            && Current(AfterCommit(t.value, 0).value) == tasks[task.id := task] && FreshPageStored(c, t.value, p, q)
  {
    hide Printable, Answer, Run, ResponseKey, FirstListing;
    FirstListingStores(c, tasks, now, p, q);
    var s := Run(c, Initial(tasks, now), FirstListing(p, q)).value;
    RunAppend(c, Initial(tasks, now), FirstListing(p, q), [StartMutation(0, p, Insert(task), None)]);
    OneStep(c, s, StartMutation(0, p, Insert(task), None));
    assert MayStart(s, p, Insert(task));
  }

  /** List, insert a matching task, lose the INCR, list again. */
  function StaleRun(p: Uuid, q: Query, task: Task): seq<Action> {
    ((FirstListing(p, q) + [StartMutation(0, p, Insert(task), None)]) + LostIncrSteps(0)) + HitSteps(1, p, q)
  }

  /**
   Such states are reached: for all rows, every project, every printable query and every new task that matches it, this
   run ends with a second listing that is answered from before the insert.
   */
  lemma StaleRunServesOldPage(c: Config, tasks: TaskTable, now: Instant, p: Uuid, q: Query, task: Task)
    requires Printable(q) && task.id !in tasks && task.projectId == p && Matches(task, q.filters)
    ensures var t := Run(c, Initial(tasks, now), StaleRun(p, q, task));
            && t.Some? && 1 in t.value.readers && t.value.commits != []
            && t.value.readers[1].phase == Answered(Answer(tasks, p, q))
            && Current(t.value) == tasks[task.id := task] && Answer(Current(t.value), p, q) != Answer(tasks, p, q)
  {
    hide Printable, Answer, Run, Matches, FreshPageStored, LostIncrSteps, HitSteps, FirstListing, AfterCommit;
    var opening := FirstListing(p, q) + [StartMutation(0, p, Insert(task), None)];
    InsertOpens(c, tasks, now, p, q, task);
    NewMatchChangesAnswer(tasks, p, q, task);
    OnlyOneQuery(p, q, task);
    var s := Run(c, Initial(tasks, now), opening).value;
    LostIncrServesStalePage(c, {q}, tasks, now, opening, s, 0, 1, q);
    RunAppend(c, Initial(tasks, now), opening, LostIncrSteps(0));
    RunAppend(c, Initial(tasks, now), opening + LostIncrSteps(0), HitSteps(1, p, q));
  }

  lemma OnlyOneQuery(p: Uuid, q: Query, task: Task)
    ensures Started(FirstListing(p, q) + [StartMutation(0, p, Insert(task), None)]) <= {q}
  {
  }
}
