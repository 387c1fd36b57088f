/** What the cache protocol promises over every run. */
module CacheRuns {
  import opened Wrappers
  import opened Text
  import opened Clock
  import opened Domain
  import opened TaskListing
  import opened TaskListKeys
  import opened Redis
  import opened CacheProtocol
  import opened CacheCoherence
  import opened CacheSteps

  /** The run `actions`, from rows `tasks` and an empty Redis, lists no query but the given ones and ends in state `s`. */
  ghost predicate Reached(c: Config, queries: set<Query>, tasks: TaskTable, now: Instant, actions: seq<Action>, s: State) {
    Started(actions) <= queries && Run(c, Initial(tasks, now), actions) == Some(s)
  }

  /**
   Some committed mutation of the project has not had its INCR applied: either the INCR is still queued in a
   request that has committed and not finished, or Redis lost it for good.
   */
  ghost predicate Outstanding(s: State, project: Uuid) {
    exists k: nat :: Unapplied(s, project, k) && (InFlight(s, k) || k in s.lost)
  }

  ghost predicate Unapplied(s: State, project: Uuid, k: nat) {
    1 <= k < |s.commits| && s.commits[k].project == project && k !in Bumps(s, project)
  }

  /** Every response under the project's current version, stored or about to be, is a fresh count-and-page answer. */
  ghost predicate Coherent(c: Config, queries: set<Query>, s: State, project: Uuid)
    requires |s.commits| > 0
  {
    var version := |Bumps(s, project)|;
    && (forall q: Query :: q in queries && Printable(q) ==>
          var key := ResponseKey(c.digest, project, Decimal(version), q).value;
          key in s.redis && s.redis[key].value.Json? ==> s.redis[key].value.page == Answer(Current(s), project, q))
    && (forall r :: r in s.readers && s.readers[r].project == project && s.readers[r].phase.WantStore?
                    && s.readers[r].phase.version == Decimal(version) ==>
          s.readers[r].phase.response == Answer(Current(s), project, s.readers[r].query))
  }

  // ---------------------------------------------------------------- coherence

  ghost predicate AllApplied(s: State, project: Uuid) {
    forall k: nat :: !Unapplied(s, project, k)
  }

  lemma NothingOutstandingAllApplied(c: Config, s: State, project: Uuid)
    requires Inv(c, s) && !Outstanding(s, project)
    ensures AllApplied(s, project)
  {
    forall k: nat ensures !Unapplied(s, project, k) {
      if 1 <= k < |s.commits| {
        assert Accounted(s, k);
      }
    }
  }

  /** From the last commit that counted for the project onwards, the project's rows are the current ones. */
  lemma {:induction false} UnchangedSince(s: State, project: Uuid, i: nat)
    requires HistoryOk(s) && i < |s.commits|
    requires forall k :: i < k < |s.commits| ==> s.commits[k].project != project
    ensures TasksOf(s.commits[i].tasks, project) == TasksOf(Current(s), project)
    decreases |s.commits| - i
  {
    if i + 1 < |s.commits| {
      UnchangedSince(s, project, i + 1);
      assert OnlyItsProject(s.commits[i], s.commits[i + 1]);
    }
  }

  /** With nothing outstanding, a state that covers the whole current version is current. */
  lemma CoveringIsCurrent(s: State, project: Uuid, i: nat)
    requires HistoryOk(s) && i < |s.commits| && AllApplied(s, project)
    requires Covers(s, project, |Bumps(s, project)|, i)
    ensures TasksOf(s.commits[i].tasks, project) == TasksOf(Current(s), project)
  {
    assert forall k :: k in Bumps(s, project) ==> k <= i;
    forall k | i < k < |s.commits| ensures s.commits[k].project != project {
      assert !Unapplied(s, project, k);
    }
    UnchangedSince(s, project, i);
  }

  lemma DrawnIsCurrent(s: State, project: Uuid, q: Query, response: TaskPage, i: nat, j: nat)
    requires HistoryOk(s) && AllApplied(s, project)
    requires DrawnFrom(s, project, q, response, i, j) && Covers(s, project, |Bumps(s, project)|, i)
    ensures response == Answer(Current(s), project, q)
  {
    CoveringIsCurrent(s, project, i);
    CoveringIsCurrent(s, project, j);
    StatementsDependOn(s.commits[i].tasks, Current(s), project, q, q);
    StatementsDependOn(s.commits[j].tasks, Current(s), project, q, q);
  }

  lemma StoredIsCurrent(c: Config, queries: set<Query>, s: State, project: Uuid, q: Query)
    requires Inv(c, s) && CollisionFree(c.digest, queries) && Within(s, queries) && q in queries
    requires AllApplied(s, project) && Printable(q)
    requires var key := ResponseKey(c.digest, project, Decimal(|Bumps(s, project)|), q).value;
             key in s.redis && s.redis[key].value.Json?
    ensures var key := ResponseKey(c.digest, project, Decimal(|Bumps(s, project)|), q).value;
            s.redis[key].value.page == Answer(Current(s), project, q)
  {
    var key := ResponseKey(c.digest, project, Decimal(|Bumps(s, project)|), q).value;
    var o := s.origins[key];
    assert GoodOrigin(c, s, key, s.redis[key], o);
    ResponseKeySound(c.digest, o.project, o.version, o.query, project, |Bumps(s, project)|, q);
    SameQueryDrawn(s, project, o.query, q, s.redis[key].value.page, o.countAt, o.itemsAt);
    DrawnIsCurrent(s, project, q, s.redis[key].value.page, o.countAt, o.itemsAt);
  }

  lemma PendingIsCurrent(c: Config, s: State, project: Uuid, reader: Reader)
    requires Inv(c, s) && ReaderOk(c, s, reader) && AllApplied(s, project)
    requires reader.project == project && reader.phase.WantStore?
    requires reader.phase.version == Decimal(|Bumps(s, project)|)
    ensures reader.phase.response == Answer(Current(s), project, reader.query)
  {
    DecimalInjective(reader.seen.value, |Bumps(s, project)|);
    DrawnIsCurrent(s, project, reader.query, reader.phase.response, reader.countAt, reader.itemsAt);
  }

  /**
   Coherence. In every state of every run, for every project, either some committed mutation's INCR is still
   outstanding, or every page under the current version, stored or on its way, equals a fresh query on the
   committed tasks. Listings whose two statements straddle a commit are included: their pages can only live
   under versions that the outstanding INCR will retire.
   */
  lemma Coherence(c: Config, queries: set<Query>, tasks: TaskTable, now: Instant, actions: seq<Action>,
      s: State, project: Uuid)
    requires CollisionFree(c.digest, queries) && Reached(c, queries, tasks, now, actions, s)
    ensures Outstanding(s, project) || (|s.commits| > 0 && Coherent(c, queries, s, project))
  {
    RunKeeps(c, queries, tasks, now, actions);
    if !Outstanding(s, project) {
      NothingOutstandingAllApplied(c, s, project);
      forall q: Query | q in queries && Printable(q)
        ensures var key := ResponseKey(c.digest, project, Decimal(|Bumps(s, project)|), q).value;
          key in s.redis && s.redis[key].value.Json? ==> s.redis[key].value.page == Answer(Current(s), project, q)
      {
        var key := ResponseKey(c.digest, project, Decimal(|Bumps(s, project)|), q).value;
        if key in s.redis && s.redis[key].value.Json? {
          StoredIsCurrent(c, queries, s, project, q);
        }
      }
      forall r | r in s.readers && s.readers[r].project == project && s.readers[r].phase.WantStore?
                 && s.readers[r].phase.version == Decimal(|Bumps(s, project)|)
        ensures s.readers[r].phase.response == Answer(Current(s), project, s.readers[r].query)
      {
        PendingIsCurrent(c, s, project, s.readers[r]);
      }
    }
  }

  // ---------------------------------------------------------------- freshness

  /** The count and the items each come from a committed state that includes all the given commits. */
  ghost predicate Reflects(s: State, project: Uuid, q: Query, response: TaskPage, required: set<nat>) {
    exists i: nat, j: nat ::
      DrawnFrom(s, project, q, response, i, j) && forall k :: k in required ==> k <= i
  }

  function FirstBumps(s: State, project: Uuid, version: nat): set<nat> {
    set k | 0 <= k < version && k < |Bumps(s, project)| :: Bumps(s, project)[k]
  }

  /**
   Version freshness. An answer given after a version lookup that returned `v` has its count and its items each
   drawn from a committed state that includes every mutation whose INCR was among the first `v`, however the
   version moved meanwhile and whichever other INCRs were lost or doubled.
   */
  lemma VersionFreshness(c: Config, queries: set<Query>, tasks: TaskTable, now: Instant, actions: seq<Action>,
      s: State, r: nat)
    requires CollisionFree(c.digest, queries) && Reached(c, queries, tasks, now, actions, s)
    requires r in s.readers && s.readers[r].phase.Answered? && s.readers[r].seen.Some?
    ensures var reader := s.readers[r];
      && reader.seen.value <= |Bumps(s, reader.project)|
      && Reflects(s, reader.project, reader.query, reader.phase.response,
                  FirstBumps(s, reader.project, reader.seen.value))
  {
    RunKeeps(c, queries, tasks, now, actions);
    var reader := s.readers[r];
    assert ReaderOk(c, s, reader);
    assert forall k :: k in FirstBumps(s, reader.project, reader.seen.value) ==> k <= reader.countAt;
  }

  function CommittedBy(s: State, limit: int): set<nat> {
    set k | 0 <= k < |s.commits| && s.commits[k].at <= limit
  }

  /**
   Staleness bound. Even if INCRs are lost, when every page so far was stored within `delay` of starting its
   count, an answer served from the cache at time `t` reflects every mutation committed by `t - ttl - delay`.
   */
  lemma StalenessBound(c: Config, queries: set<Query>, tasks: TaskTable, now: Instant, actions: seq<Action>,
      s: State, r: nat, delay: nat)
    requires CollisionFree(c.digest, queries) && Reached(c, queries, tasks, now, actions, s)
    requires s.slowest <= delay && r in s.readers && s.readers[r].phase.Answered? && s.readers[r].hitAt.Some?
    ensures var reader := s.readers[r];
      Reflects(s, reader.project, reader.query, reader.phase.response,
               CommittedBy(s, reader.hitAt.value - c.ttl - delay))
  {
    hide Reflects, ReaderOk, CommittedBy, RedisOk, HistoryOk, BumpsOk, WriterOk, Accounted, Run, Initial;
    RunKeeps(c, queries, tasks, now, actions);
    HitReflects(c, s, r, delay);
  }

  lemma HitReflects(c: Config, s: State, r: nat, delay: nat)
    requires r in s.readers && ReaderOk(c, s, s.readers[r]) && s.slowest <= delay
    requires s.readers[r].phase.Answered? && s.readers[r].hitAt.Some?
    ensures var reader := s.readers[r];
      Reflects(s, reader.project, reader.query, reader.phase.response,
               CommittedBy(s, reader.hitAt.value - c.ttl - delay))
  {
    hide CountStatement, PageStatement, Response;
    var reader := s.readers[r];
    assert DrawnFrom(s, reader.project, reader.query, reader.phase.response, reader.countAt, reader.itemsAt);
  }

  // ---------------------------------------------------------------- why INCR must not be lost

  lemma RunExtends(c: Config, s: State, actions: seq<Action>, a: Action)
    requires Run(c, s, actions).Some?
    ensures Run(c, s, actions + [a]) == Next(c, Run(c, s, actions).value, a)
  {
    assert (actions + [a])[..|actions|] == actions;
  }

  /** A live page under the version that Redis holds is served as it is. */
  lemma LivePageIsServed(c: Config, s: State, r: nat, p: Uuid, q: Query, page: TaskPage)
    requires r !in s.readers && Printable(q) && VersionEntry(s, p)
    requires var key := ResponseKey(c.digest, p, Decimal(|Bumps(s, p)|), q).value;
             key in s.origins && Lookup(s.redis, s.now, key) == Some(Json(page))
    ensures var t := Run(c, s, HitSteps(r, p, q));
            t.Some? && r in t.value.readers && t.value.readers[r].phase == Answered(page) && t.value.commits == s.commits
  {
    hide AfterVersion, AfterPage, VersionKey, ResponseKey, Printable, Lookup, VersionEntry, Bumps;
    RunExtends(c, s, [], StartListing(r, p, q));
    assert [] + [StartListing(r, p, q)] == [StartListing(r, p, q)];
    RunExtends(c, s, [StartListing(r, p, q)], ReadVersion(r, true));
    var started := WithReader(s, r, Reader(p, q, WantVersion, None, 0, 0, s.now, None));
    SameEntry(s, started, p);
    VersionIsRead(c, started, r);
    RunExtends(c, s, [StartListing(r, p, q)] + [ReadVersion(r, true)], ReadPage(r, true));
    PageIsRead(c, AfterVersion(c, started, r, true).value, r, page);
  }

  lemma SameEntry(s: State, t: State, p: Uuid)
    requires t.redis == s.redis && t.bumps == s.bumps
    ensures VersionEntry(t, p) == VersionEntry(s, p) && Bumps(t, p) == Bumps(s, p)
  {
    hide VersionKey;
  }

  lemma VersionIsRead(c: Config, s: State, r: nat)
    requires r in s.readers && s.readers[r].phase.WantVersion? && Printable(s.readers[r].query)
    requires VersionEntry(s, s.readers[r].project)
    ensures var t := AfterVersion(c, s, r, true);
            var version := Decimal(|Bumps(s, s.readers[r].project)|);
            && t.Some? && r in t.value.readers && t.value == WithReader(s, r, t.value.readers[r])
            && t.value.readers[r].phase == WantPage(version)
            && t.value.readers[r].project == s.readers[r].project && t.value.readers[r].query == s.readers[r].query
  {
  }

  lemma PageIsRead(c: Config, s: State, r: nat, page: TaskPage)
    requires r in s.readers && s.readers[r].phase.WantPage? && Printable(s.readers[r].query)
    requires var key := ResponseKey(c.digest, s.readers[r].project, s.readers[r].phase.version, s.readers[r].query).value;
             key in s.origins && Lookup(s.redis, s.now, key) == Some(Json(page))
    ensures var t := AfterPage(c, s, r, true);
            t.Some? && r in t.value.readers && t.value.readers[r].phase == Answered(page) && t.value.commits == s.commits
  {
    hide ResponseKey, Printable, Lookup;
  }

  function LostIncrSteps(w: nat): seq<Action> {
    [CommitMutation(w)] + [CloseSession(w)] + [RunCallback(w, 0)]
  }

  function HitSteps(r: nat, p: Uuid, q: Query): seq<Action> {
    [StartListing(r, p, q)] + [ReadVersion(r, true)] + [ReadPage(r, true)]
  }

  /** The page stored for a query under the project's current version is alive and, so far, the fresh answer. */
  ghost predicate FreshPageStored(c: Config, s: State, p: Uuid, q: Query)
    requires |s.commits| > 0
  {
    && Printable(q)
    && Lookup(s.redis, s.now, ResponseKey(c.digest, p, Decimal(|Bumps(s, p)|), q).value) == Some(Json(Answer(Current(s), p, q)))
  }

  /**
   In every reachable state with a fresh page stored, if an open request commits a change of that answer, loses its
   INCR, and a listing of the same query follows, that listing is served the old page: coherence needs its "still
   outstanding" alternative.
   */
  lemma LostIncrServesStalePage(c: Config, queries: set<Query>, tasks: TaskTable, now: Instant, actions: seq<Action>,
      s: State, w: nat, r: nat, q: Query)
    requires CollisionFree(c.digest, queries) && Reached(c, queries, tasks, now, actions, s) && |s.commits| > 0
    requires r !in s.readers && w in s.writers && AfterCommit(s, w).Some?
    requires s.writers[w].queue != [] && s.writers[w].queue[0] == Invalidate(s.writers[w].project)
    requires FreshPageStored(c, s, s.writers[w].project, q)
    requires Answer(Current(AfterCommit(s, w).value), s.writers[w].project, q) != Answer(Current(s), s.writers[w].project, q)
    ensures var p := s.writers[w].project;
            var written := Run(c, s, LostIncrSteps(w));
            && written.Some?
            && var t := Run(c, written.value, HitSteps(r, p, q));
               && t.Some? && r in t.value.readers && t.value.commits == AfterCommit(s, w).value.commits
               && t.value.readers[r].phase == Answered(Answer(Current(s), p, q))
               && Answer(Current(t.value), p, q) != Answer(Current(s), p, q)
  {
    hide VersionKey, ResponseKey, Answer, Lookup, GoodOrigin, ReaderOk, WriterOk, Accounted, BumpsOk, HistoryOk, Run;
    var p := s.writers[w].project;
    RunKeeps(c, queries, tasks, now, actions);
    assert VersionEntry(s, p);
    PageHasOrigin(c, s, ResponseKey(c.digest, p, Decimal(|Bumps(s, p)|), q).value);
    LosesIncr(c, s, w);
    var written := Run(c, s, LostIncrSteps(w)).value;
    hide Bumps, AfterCommit;
    LivePageIsServed(c, written, r, p, q, Answer(Current(s), p, q));
  }

  lemma PageHasOrigin(c: Config, s: State, key: string)
    requires RedisOk(c, s) && Lookup(s.redis, s.now, key).Some? && Lookup(s.redis, s.now, key).value.Json?
    ensures key in s.origins
  {
    hide VersionEntry, GoodOrigin;
  }

  lemma LosesIncr(c: Config, s: State, w: nat)
    requires w in s.writers && AfterCommit(s, w).Some?
    requires s.writers[w].queue != [] && s.writers[w].queue[0] == Invalidate(s.writers[w].project)
    ensures var t := Run(c, s, LostIncrSteps(w));
            && t.Some? && t.value.commits == AfterCommit(s, w).value.commits && t.value.redis == s.redis
            && t.value.readers == s.readers && t.value.origins == s.origins && t.value.now == s.now
            && (forall p :: Bumps(t.value, p) == Bumps(s, p))
            && (forall p :: VersionEntry(t.value, p) == VersionEntry(s, p))
  {
    hide AfterCommit, AfterCallback, VersionKey, Bumped, Run, Bumps;
    ClosesSession(c, s, w);
    var t := Run(c, s, [CommitMutation(w)] + [CloseSession(w)]).value;
    RunExtends(c, s, [CommitMutation(w)] + [CloseSession(w)], RunCallback(w, 0));
    LostCallback(t, w);
  }

  lemma ClosesSession(c: Config, s: State, w: nat)
    requires w in s.writers && AfterCommit(s, w).Some?
    ensures var t := Run(c, s, [CommitMutation(w)] + [CloseSession(w)]);
            && t.Some? && t.value.commits == AfterCommit(s, w).value.commits && t.value.redis == s.redis
            && t.value.readers == s.readers && t.value.origins == s.origins && t.value.now == s.now
            && (forall p :: Bumps(t.value, p) == Bumps(s, p))
            && w in t.value.writers && t.value.writers[w].progress.Closed? && t.value.writers[w].queue == s.writers[w].queue
  {
    hide AfterCommit;
    RunExtends(c, s, [], CommitMutation(w));
    assert [] + [CommitMutation(w)] == [CommitMutation(w)];
    RunExtends(c, s, [CommitMutation(w)], CloseSession(w));
    CommitTouches(s, w);
  }

  lemma CommitTouches(s: State, w: nat)
    requires AfterCommit(s, w).Some?
    ensures var t := AfterCommit(s, w).value;
            && t.redis == s.redis && t.readers == s.readers && t.origins == s.origins && t.now == s.now && t.bumps == s.bumps
            && w in t.writers && t.writers[w].progress.Committed? && t.writers[w].queue == s.writers[w].queue
  {
    hide Applied;
  }

  lemma LostCallback(s: State, w: nat)
    requires w in s.writers && s.writers[w].progress.Closed? && s.writers[w].queue != [] && s.writers[w].queue[0].Invalidate?
    ensures var t := AfterCallback(s, w, 0);
            && t.Some? && t.value.commits == s.commits && t.value.redis == s.redis && t.value.readers == s.readers
            && t.value.origins == s.origins && t.value.now == s.now
            && forall p :: Bumps(t.value, p) == Bumps(s, p)
  {
  }

  // ---------------------------------------------------------------- keys that cannot be printed

  ghost predicate HasOverflowed(s: State, r: nat) {
    r in s.readers && s.readers[r].phase == Overflowed
  }

  /**
   In every interleaving a listing fails at one step only, and exactly when that step happens to a query whose due bounds
   leave the calendar: its version lookup is answered.
   */
  lemma OverflowsExactlyAtVersion(c: Config, s: State, a: Action, t: State, r: nat)
    requires Next(c, s, a) == Some(t)
    ensures HasOverflowed(t, r) <==>
      HasOverflowed(s, r)
      || (a == ReadVersion(r, true) && r in s.readers
          && (LeavesCalendar(s.readers[r].query.filters.dueFrom) || LeavesCalendar(s.readers[r].query.filters.dueTo)))
  {
    hide AfterVersion, AfterPage, AfterUnlink, AfterCount, AfterItems, AfterStore, AfterStart, AfterCommit, AfterCallback,
      IsVersionKey, LeavesCalendar;
    match a {
      case ReadVersion(i, ok) => VersionOverflows(c, s, i, ok);
      case StartMutation(w, p, m, notifies) => WritersNeverOverflow(c, s, a);
      case CommitMutation(w) => WritersNeverOverflow(c, s, a);
      case RunCallback(w, times) => WritersNeverOverflow(c, s, a);
      case ReadPage(i, ok) => OthersNeverOverflow(c, s, i, ok);
      case UnlinkPage(i, applied) => OthersNeverOverflow(c, s, i, applied);
      case RunCount(i) => OthersNeverOverflow(c, s, i, true);
      case RunItems(i) => OthersNeverOverflow(c, s, i, true);
      case StorePage(i, applied) => OthersNeverOverflow(c, s, i, applied);
      case _ =>
    }
  }

  ghost predicate MovesWithoutOverflow(s: State, t: Option<State>, r: nat) {
    t.Some? ==>
      && r in s.readers && s.readers[r].phase != Overflowed && r in t.value.readers
      && t.value.readers == s.readers[r := t.value.readers[r]] && t.value.readers[r].phase != Overflowed
  }

  lemma WritersNeverOverflow(c: Config, s: State, a: Action)
    requires Next(c, s, a).Some? && (a.StartMutation? || a.CommitMutation? || a.RunCallback?)
    ensures Next(c, s, a).value.readers == s.readers
  {
    hide Applied, Bumped, MayStart, VersionKey;
  }

  lemma VersionOverflows(c: Config, s: State, r: nat, ok: bool)
    requires AfterVersion(c, s, r, ok).Some?
    ensures var t := AfterVersion(c, s, r, ok).value;
            && r in s.readers && s.readers[r].phase != Overflowed && r in t.readers
            && t.readers == s.readers[r := t.readers[r]]
            && (t.readers[r].phase == Overflowed <==>
                  ok && (LeavesCalendar(s.readers[r].query.filters.dueFrom) || LeavesCalendar(s.readers[r].query.filters.dueTo)))
  {
    hide VersionKey, Printable, LeavesCalendar, Lookup, VersionText;
    PrintableExactly(s.readers[r].query);
  }

  lemma OthersNeverOverflow(c: Config, s: State, r: nat, ok: bool)
    ensures MovesWithoutOverflow(s, AfterPage(c, s, r, ok), r) && MovesWithoutOverflow(s, AfterUnlink(c, s, r, ok), r)
    ensures MovesWithoutOverflow(s, AfterCount(s, r), r) && MovesWithoutOverflow(s, AfterItems(s, r), r)
    ensures MovesWithoutOverflow(s, AfterStore(c, s, r, ok), r)
  {
    hide AfterPage, AfterUnlink, AfterCount, AfterItems, AfterStore;
    PageNeverOverflows(c, s, r, ok);
    StatementsNeverOverflow(c, s, r, ok);
  }

  lemma PageNeverOverflows(c: Config, s: State, r: nat, ok: bool)
    ensures MovesWithoutOverflow(s, AfterPage(c, s, r, ok), r) && MovesWithoutOverflow(s, AfterUnlink(c, s, r, ok), r)
  {
    hide ResponseKey, Printable, Lookup;
  }

  lemma StatementsNeverOverflow(c: Config, s: State, r: nat, ok: bool)
    ensures MovesWithoutOverflow(s, AfterCount(s, r), r) && MovesWithoutOverflow(s, AfterItems(s, r), r)
    ensures MovesWithoutOverflow(s, AfterStore(c, s, r, ok), r)
  {
    hide ResponseKey, Printable, CountStatement, PageStatement, Response, Stored;
  }

  // ---------------------------------------------------------------- nothing is stuck

  ghost predicate CanMove(c: Config, s: State, r: nat, ok: bool)
    requires r in s.readers
  {
    match s.readers[r].phase
    case WantVersion => Next(c, s, ReadVersion(r, ok)).Some?
    case WantPage(_) => Next(c, s, ReadPage(r, ok)).Some?
    case WantUnlink(_) => Next(c, s, UnlinkPage(r, ok)).Some?
    case WantCount(_) => Next(c, s, RunCount(r)).Some?
    case WantItems(_, _) => Next(c, s, RunItems(r)).Some?
    case WantStore(_, _) => Next(c, s, StorePage(r, ok)).Some?
    case Answered(_) => true
    case Overflowed => !Printable(s.readers[r].query)
  }

  /** The step a listing waits for is always possible, so no behaviour is hidden by a guard. */
  lemma ListingsNeverBlock(c: Config, queries: set<Query>, tasks: TaskTable, now: Instant, actions: seq<Action>,
      s: State, r: nat, ok: bool)
    requires CollisionFree(c.digest, queries) && Reached(c, queries, tasks, now, actions, s) && r in s.readers
    ensures CanMove(c, s, r, ok)
  {
    RunKeeps(c, queries, tasks, now, actions);
    assert VersionEntry(s, s.readers[r].project);
    ReaderCanMove(c, s, r, ok);
  }

  lemma ReaderCanMove(c: Config, s: State, r: nat, ok: bool)
    requires |s.commits| > 0 && r in s.readers && ReaderOk(c, s, s.readers[r]) && VersionEntry(s, s.readers[r].project)
    requires forall key :: key in s.redis && s.redis[key].value.Json? ==> key in s.origins
    ensures CanMove(c, s, r, ok)
  {
    hide AfterVersion, AfterPage, AfterUnlink, AfterCount, AfterItems, AfterStore, Current, VersionKey, DrawnFrom, Covers,
      VersionEntry, UpToDateAt, NotOlderThan, Printable, IsVersionKey;
    match s.readers[r].phase
    case WantVersion => VersionCanBeRead(c, s, r, ok);
    case WantPage(_) => PageCanBeRead(c, s, r, ok);
    case _ =>
      OthersCanMove(c, s, r, ok);
      OthersStep(c, s, r, ok);
  }

  /** For these phases the action is enabled when its function says so. */
  lemma OthersStep(c: Config, s: State, r: nat, ok: bool)
    requires r in s.readers && ReaderOk(c, s, s.readers[r])
    requires !s.readers[r].phase.WantVersion? && !s.readers[r].phase.WantPage?
    requires s.readers[r].phase.WantUnlink? ==> AfterUnlink(c, s, r, ok).Some?
    requires s.readers[r].phase.WantCount? ==> AfterCount(s, r).Some?
    requires s.readers[r].phase.WantItems? ==> AfterItems(s, r).Some?
    requires s.readers[r].phase.WantStore? ==> AfterStore(c, s, r, ok).Some?
    ensures CanMove(c, s, r, ok)
  {
    hide AfterVersion, AfterPage, AfterUnlink, AfterCount, AfterItems, AfterStore, AfterStart, AfterCommit, AfterCallback,
      DrawnFrom, Covers, UpToDateAt, NotOlderThan, Printable, IsVersionKey;
  }

  lemma VersionCanBeRead(c: Config, s: State, r: nat, ok: bool)
    requires r in s.readers && s.readers[r].phase.WantVersion? && VersionEntry(s, s.readers[r].project)
    ensures AfterVersion(c, s, r, ok).Some?
  {
    hide VersionKey, Printable;
  }

  lemma PageCanBeRead(c: Config, s: State, r: nat, ok: bool)
    requires r in s.readers && s.readers[r].phase.WantPage? && Printable(s.readers[r].query)
    requires forall key :: key in s.redis && s.redis[key].value.Json? ==> key in s.origins
    ensures AfterPage(c, s, r, ok).Some?
  {
    hide ResponseKey, Printable;
  }

  lemma OthersCanMove(c: Config, s: State, r: nat, ok: bool)
    requires |s.commits| > 0 && r in s.readers && ReaderOk(c, s, s.readers[r])
    ensures s.readers[r].phase.WantUnlink? ==> AfterUnlink(c, s, r, ok).Some?
    ensures s.readers[r].phase.WantCount? ==> AfterCount(s, r).Some?
    ensures s.readers[r].phase.WantItems? ==> AfterItems(s, r).Some?
    ensures s.readers[r].phase.WantStore? ==> AfterStore(c, s, r, ok).Some?
  {
    hide CountStatement, PageStatement, ResponseKey, DrawnFrom, Covers, UpToDateAt, Printable;
  }
}
