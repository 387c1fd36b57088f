/** Each step of the cache protocol keeps the invariant. */
module CacheSteps {
  import opened Wrappers
  import opened Text
  import opened Clock
  import opened Domain
  import opened TaskListing
  import opened TaskListKeys
  import opened Redis
  import opened CacheProtocol
  import opened CacheCoherence

  // ---------------------------------------------------------------- listings

  lemma GrowsRefl(s: State, t: State)
    requires s.commits == t.commits && s.bumps == t.bumps && s.homes == t.homes
    requires s.slowest <= t.slowest && s.now <= t.now
    ensures Grows(s, t)
  {
    assert forall p :: Bumps(t, p) == Bumps(s, p);
  }

  /** Accounting depends only on commits, bumps, lost commits and writers. */
  lemma AccountsCarry(s: State, t: State)
    requires s.commits == t.commits && s.bumps == t.bumps && s.lost <= t.lost && s.writers == t.writers
    requires forall k :: 1 <= k < |s.commits| ==> Accounted(s, k)
    ensures forall k :: 1 <= k < |t.commits| ==> Accounted(t, k)
  {
    forall k | 1 <= k < |t.commits| ensures Accounted(t, k) {
      assert Accounted(s, k);
      assert Bumps(t, t.commits[k].project) == Bumps(s, s.commits[k].project);
      if InFlight(s, k) {
        var w :| w in s.writers && Owes(s.writers[w], k);
        assert w in t.writers && Owes(t.writers[w], k);
      }
    }
  }

  /** A step of reader `r` alone. */
  lemma ReaderStepKeeps(c: Config, s: State, r: nat, reader: Reader)
    requires Inv(c, s) && ReaderOk(c, s, reader)
    ensures Inv(c, WithReader(s, r, reader))
  {
    hide ReaderOk, WriterOk, GoodOrigin, VersionEntry, Accounted;
    var t := WithReader(s, r, reader);
    GrowsRefl(s, t);
    ReaderSurvives(c, s, t, reader);
    OthersSurvive(c, s, t, r, 0);
    WritersCarry(c, s, t);
    PagesSurvive(c, s, t);
    AccountsCarry(s, t);
  }

  lemma WritersCarry(c: Config, s: State, t: State)
    requires Inv(c, s) && Grows(s, t) && s.writers == t.writers
    ensures forall w :: w in t.writers ==> WriterOk(t, t.writers[w])
  {
  }

  lemma ReadersCarry(c: Config, s: State, t: State)
    requires Inv(c, s) && Grows(s, t) && s.readers == t.readers
    ensures forall r :: r in t.readers ==> ReaderOk(c, t, t.readers[r])
  {
    forall r | r in t.readers ensures ReaderOk(c, t, t.readers[r]) {
      ReaderSurvives(c, s, t, s.readers[r]);
    }
  }

  lemma VersionReadOk(c: Config, s: State, r: nat, ok: bool)
    requires AfterVersion(c, s, r, ok).Some? && ReaderOk(c, s, s.readers[r]) && VersionEntry(s, s.readers[r].project)
    ensures var t := AfterVersion(c, s, r, ok).value;
      r in t.readers && t == WithReader(s, r, t.readers[r]) && ReaderOk(c, s, t.readers[r])
  {
  }

  lemma VersionReadKeeps(c: Config, s: State, r: nat, ok: bool)
    requires Inv(c, s) && AfterVersion(c, s, r, ok).Some?
    ensures Inv(c, AfterVersion(c, s, r, ok).value)
  {
    hide ReaderOk, VersionKey, GoodOrigin;
    assert VersionEntry(s, s.readers[r].project);
    VersionReadOk(c, s, r, ok);
    ReaderStepKeeps(c, s, r, AfterVersion(c, s, r, ok).value.readers[r]);
  }

  /** The page found under a key answers the query that printed the key. */
  lemma HitIsDrawn(c: Config, s: State, queries: set<Query>, reader: Reader, key: string)
    requires Inv(c, s) && CollisionFree(c.digest, queries) && ReaderOk(c, s, reader) && reader.phase.WantPage?
    requires Within(s, queries) && reader.query in queries
    requires ResponseKey(c.digest, reader.project, reader.phase.version, reader.query) == Some(key)
    requires key in s.redis && s.redis[key].value.Json?
    ensures var o := s.origins[key];
      && key in s.origins && GoodOrigin(c, s, key, s.redis[key], o)
      && o.project == reader.project && o.version == reader.seen.value && SameQuery(o.query, reader.query)
      && DrawnFrom(s, reader.project, reader.query, s.redis[key].value.page, o.countAt, o.itemsAt)
  {
    var o := s.origins[key];
    assert GoodOrigin(c, s, key, s.redis[key], o);
    ResponseKeySound(c.digest, o.project, o.version, o.query, reader.project, reader.seen.value, reader.query);
    SameQueryDrawn(s, o.project, o.query, reader.query, s.redis[key].value.page, o.countAt, o.itemsAt);
  }

  lemma SameQueryDrawn(s: State, project: Uuid, q: Query, r: Query, response: TaskPage, i: nat, j: nat)
    requires SameQuery(q, r) && DrawnFrom(s, project, q, response, i, j)
    ensures DrawnFrom(s, project, r, response, i, j)
  {
    StatementsDependOn(s.commits[i].tasks, s.commits[i].tasks, project, q, r);
    StatementsDependOn(s.commits[j].tasks, s.commits[j].tasks, project, q, r);
  }

  /** A live entry is younger than its lifetime, and its count is at most `slowest` older than the entry. */
  lemma HitIsRecent(c: Config, s: State, key: string)
    requires Inv(c, s) && key in s.redis && s.redis[key].value.Json? && Lookup(s.redis, s.now, key).Some?
    ensures key in s.origins && NotOlderThan(c, s, s.origins[key].countAt, s.now)
  {
    var o := s.origins[key];
    assert GoodOrigin(c, s, key, s.redis[key], o);
    forall k | o.countAt < k < |s.commits| ensures s.commits[k].at + c.ttl + s.slowest > s.now {
      assert o.countTime <= s.commits[k].at;
    }
  }

  lemma HitAnswerOk(c: Config, s: State, queries: set<Query>, reader: Reader, key: string)
    requires Inv(c, s) && CollisionFree(c.digest, queries) && ReaderOk(c, s, reader) && reader.phase.WantPage?
    requires Within(s, queries) && reader.query in queries
    requires ResponseKey(c.digest, reader.project, reader.phase.version, reader.query) == Some(key)
    requires key in s.redis && s.redis[key].value.Json? && Lookup(s.redis, s.now, key).Some? && key in s.origins
    ensures var o := s.origins[key];
      ReaderOk(c, s, reader.(phase := Answered(s.redis[key].value.page), hitAt := Some(s.now),
                             countAt := o.countAt, itemsAt := o.itemsAt, countTime := o.countTime))
  {
    HitIsDrawn(c, s, queries, reader, key);
    HitIsRecent(c, s, key);
  }

  lemma PageReadShape(c: Config, s: State, r: nat, ok: bool)
    requires AfterPage(c, s, r, ok).Some?
    ensures var t := AfterPage(c, s, r, ok).value;
      var reader := s.readers[r];
      var key := ResponseKey(c.digest, reader.project, reader.phase.version, reader.query).value;
      && r in t.readers && t == WithReader(s, r, t.readers[r])
      && if t.readers[r].phase.Answered? then
           && Lookup(s.redis, s.now, key).Some? && s.redis[key].value.Json? && key in s.origins
           && var o := s.origins[key];
              t.readers[r] == reader.(phase := Answered(s.redis[key].value.page), hitAt := Some(s.now),
                                      countAt := o.countAt, itemsAt := o.itemsAt, countTime := o.countTime)
         else
           && t.readers[r] == reader.(phase := t.readers[r].phase)
           && t.readers[r].phase in {WantCount(None), WantCount(Some(reader.phase.version)), WantUnlink(reader.phase.version)}
  {
    hide ResponseKey, Printable;
  }

  lemma PageReadOk(c: Config, s: State, queries: set<Query>, r: nat, ok: bool)
    requires Inv(c, s) && CollisionFree(c.digest, queries) && Within(s, queries) && AfterPage(c, s, r, ok).Some?
    ensures var t := AfterPage(c, s, r, ok).value;
      r in t.readers && t == WithReader(s, r, t.readers[r]) && ReaderOk(c, s, t.readers[r])
  {
    hide ReaderOk, RedisOk, HistoryOk, BumpsOk, WriterOk, Accounted, ResponseKey, Printable;
    PageReadShape(c, s, r, ok);
    var t := AfterPage(c, s, r, ok).value;
    var reader := s.readers[r];
    if t.readers[r].phase.Answered? {
      HitAnswerOk(c, s, queries, reader, ResponseKey(c.digest, reader.project, reader.phase.version, reader.query).value);
    } else {
      MissOk(c, s, reader, t.readers[r]);
    }
  }

  lemma PageReadKeeps(c: Config, s: State, queries: set<Query>, r: nat, ok: bool)
    requires Inv(c, s) && CollisionFree(c.digest, queries) && Within(s, queries) && AfterPage(c, s, r, ok).Some?
    ensures Inv(c, AfterPage(c, s, r, ok).value)
  {
    hide ReaderOk, AfterPage;
    PageReadOk(c, s, queries, r, ok);
    ReaderStepKeeps(c, s, r, AfterPage(c, s, r, ok).value.readers[r]);
  }

  lemma MissOk(c: Config, s: State, reader: Reader, next: Reader)
    requires ReaderOk(c, s, reader) && reader.phase.WantPage?
    requires next == reader.(phase := next.phase)
    requires next.phase in {WantCount(None), WantCount(Some(reader.phase.version)), WantUnlink(reader.phase.version)}
    ensures ReaderOk(c, s, next)
  {
  }

  lemma UnlinkKeeps(c: Config, s: State, r: nat, applied: bool)
    requires Inv(c, s) && AfterUnlink(c, s, r, applied).Some?
    ensures Inv(c, AfterUnlink(c, s, r, applied).value)
  {
    hide ReaderOk, GoodOrigin, WriterOk, Accounted, HistoryOk, BumpsOk, VersionEntry, ResponseKey, VersionKey, Printable;
    var t := AfterUnlink(c, s, r, applied).value;
    var reader := s.readers[r];
    UnlinkReaderOk(c, s, r, applied);
    var u := WithReader(s, r, t.readers[r]);
    ReaderStepKeeps(c, s, r, t.readers[r]);
    if applied {
      var key := ResponseKey(c.digest, reader.project, reader.phase.version, reader.query).value;
      forall p ensures key != VersionKey(p) {
        ResponseKeyIsNoVersionKey(c.digest, reader.project, reader.phase.version, reader.query, p);
      }
      DropKeeps(c, u, key);
    }
  }

  lemma UnlinkReaderOk(c: Config, s: State, r: nat, applied: bool)
    requires AfterUnlink(c, s, r, applied).Some? && ReaderOk(c, s, s.readers[r])
    ensures ReaderOk(c, s, AfterUnlink(c, s, r, applied).value.readers[r])
  {
    hide ResponseKey, Printable;
  }

  lemma DropKeeps(c: Config, s: State, key: string)
    requires Inv(c, s) && !IsVersionKey(key)
    ensures Inv(c, s.(redis := s.redis - {key}))
  {
    hide ReaderOk, GoodOrigin, WriterOk, Accounted;
    var t := s.(redis := s.redis - {key});
    GrowsRefl(s, t);
    ReadersCarry(c, s, t);
    WritersCarry(c, s, t);
    PagesSurvive(c, s, t);
    AccountsCarry(s, t);
  }

  lemma SpoilKeeps(c: Config, s: State, key: string, text: string)
    requires Inv(c, s) && key in s.redis && !IsVersionKey(key)
    ensures Inv(c, s.(redis := s.redis[key := s.redis[key].(value := Garbage(text))]))
  {
    hide ReaderOk, GoodOrigin, WriterOk, Accounted;
    var t := s.(redis := s.redis[key := s.redis[key].(value := Garbage(text))]);
    GrowsRefl(s, t);
    ReadersCarry(c, s, t);
    WritersCarry(c, s, t);
    PagesSurvive(c, s, t);
    AccountsCarry(s, t);
  }

  lemma TickKeeps(c: Config, s: State, elapsed: nat)
    requires Inv(c, s)
    ensures Inv(c, s.(now := s.now + elapsed))
  {
    var t := s.(now := s.now + elapsed);
    GrowsRefl(s, t);
    ReadersCarry(c, s, t);
    WritersCarry(c, s, t);
    PagesSurvive(c, s, t);
    AccountsCarry(s, t);
  }

  lemma CountOk(c: Config, s: State, r: nat)
    requires HistoryOk(s) && BumpsOk(s) && AfterCount(s, r).Some? && ReaderOk(c, s, s.readers[r])
    ensures var t := AfterCount(s, r).value;
      r in t.readers && t == WithReader(s, r, t.readers[r]) && ReaderOk(c, s, t.readers[r])
  {
    hide CountStatement, PageStatement, Response, Printable;
    var reader := s.readers[r];
    assert Covers(s, reader.project, SeenOrZero(reader), |s.commits| - 1);
  }

  lemma CountKeeps(c: Config, s: State, r: nat)
    requires Inv(c, s) && AfterCount(s, r).Some?
    ensures Inv(c, AfterCount(s, r).value)
  {
    hide ReaderOk;
    CountOk(c, s, r);
    ReaderStepKeeps(c, s, r, AfterCount(s, r).value.readers[r]);
  }

  lemma ItemsOk(c: Config, s: State, r: nat)
    requires HistoryOk(s) && AfterItems(s, r).Some? && ReaderOk(c, s, s.readers[r])
    ensures var t := AfterItems(s, r).value;
      r in t.readers && t == WithReader(s, r, t.readers[r]) && ReaderOk(c, s, t.readers[r])
  {
    hide CountStatement, PageStatement, Response;
  }

  lemma ItemsKeeps(c: Config, s: State, r: nat)
    requires Inv(c, s) && AfterItems(s, r).Some?
    ensures Inv(c, AfterItems(s, r).value)
  {
    hide ReaderOk;
    ItemsOk(c, s, r);
    ReaderStepKeeps(c, s, r, AfterItems(s, r).value.readers[r]);
  }

  // ---------------------------------------------------------------- storing a page

  lemma StoreKeepsRedis(c: Config, s: State, t: State, r: nat)
    requires Inv(c, s) && AfterStore(c, s, r, true) == Some(t)
    ensures RedisOk(c, t)
  {
    hide GoodOrigin, DrawnFrom, ReaderOk, WriterOk, Accounted, HistoryOk, BumpsOk, ResponseKey, VersionKey, Printable;
    var reader := s.readers[r];
    var key := ResponseKey(c.digest, reader.project, reader.phase.version, reader.query).value;
    GrowsRefl(s, t);
    forall p ensures VersionEntry(t, p) {
      ResponseKeyIsNoVersionKey(c.digest, reader.project, reader.phase.version, reader.query, p);
      assert VersionEntry(s, p);
    }
    NewPageOk(c, s, t, r, key);
    forall other | other in t.redis && t.redis[other].value.Json?
      ensures other in t.origins && GoodOrigin(c, t, other, t.redis[other], t.origins[other])
    {
      if other != key {
        OriginSurvives(c, s, t, other, s.redis[other], s.origins[other]);
      }
    }
  }

  lemma NewPageOk(c: Config, s: State, t: State, r: nat, key: string)
    requires Inv(c, s) && AfterStore(c, s, r, true) == Some(t) && Grows(s, t)
    requires key == ResponseKey(c.digest, s.readers[r].project, s.readers[r].phase.version, s.readers[r].query).value
    ensures key in t.redis && key in t.origins && GoodOrigin(c, t, key, t.redis[key], t.origins[key])
  {
    hide Response, CountStatement, PageStatement, VersionedName, ProjectPrefix, Decimal, Printable, DrawnFrom, Covers,
      UpToDateAt, WriterOk, Accounted, VersionEntry, HistoryOk, BumpsOk, Grows, CollisionFree;
    var reader := s.readers[r];
    assert ReaderOk(c, s, reader);
    DrawnSurvives(s, t, reader.project, reader.query, reader.phase.response, reader.countAt, reader.itemsAt);
    CoversSurvives(s, t, reader.project, reader.seen.value, reader.countAt);
    UpToDateSurvives(s, t, reader.countAt, reader.countTime);
  }

  lemma StoreAnswerOk(c: Config, s: State, reader: Reader)
    requires ReaderOk(c, s, reader) && reader.phase.WantStore?
    ensures ReaderOk(c, s, reader.(phase := Answered(reader.phase.response)))
  {
  }

  lemma StoreShape(c: Config, s: State, r: nat)
    requires AfterStore(c, s, r, true).Some?
    ensures r in s.readers && s.readers[r].phase.WantStore? && Printable(s.readers[r].query)
    ensures var t := AfterStore(c, s, r, true).value;
      && s.commits == t.commits && s.bumps == t.bumps && s.homes == t.homes && s.lost == t.lost && s.writers == t.writers
      && s.slowest <= t.slowest && s.now == t.now
      && t.readers == s.readers[r := s.readers[r].(phase := Answered(s.readers[r].phase.response))]
  {
    hide ResponseKey;
  }

  lemma StoreAppliedKeeps(c: Config, s: State, t: State, r: nat)
    requires Inv(c, s) && AfterStore(c, s, r, true) == Some(t)
    ensures Inv(c, t)
  {
    hide ReaderOk, WriterOk, RedisOk, Accounted, AfterStore, Grows, VersionEntry;
    StoreShape(c, s, r);
    GrowsRefl(s, t);
    StoreAnswerOk(c, s, s.readers[r]);
    StoreKeepsRedis(c, s, t, r);
    OthersSurvive(c, s, t, r, 0);
    ReaderSurvives(c, s, t, t.readers[r]);
    WritersCarry(c, s, t);
    AccountsCarry(s, t);
    StoreKeepsBumps(s, t);
  }

  lemma StoreKeepsBumps(s: State, t: State)
    requires BumpsOk(s) && s.commits == t.commits && s.bumps == t.bumps
    ensures BumpsOk(t)
  {
    assert forall p :: Bumps(t, p) == Bumps(s, p);
  }

  lemma StoreKeeps(c: Config, s: State, r: nat, applied: bool)
    requires Inv(c, s) && AfterStore(c, s, r, applied).Some?
    ensures Inv(c, AfterStore(c, s, r, applied).value)
  {
    hide ReaderOk, Inv, ResponseKey;
    if applied {
      StoreAppliedKeeps(c, s, AfterStore(c, s, r, applied).value, r);
    } else {
      StoreFailedKeeps(c, s, r);
    }
  }

  lemma StoreFailedKeeps(c: Config, s: State, r: nat)
    requires Inv(c, s) && AfterStore(c, s, r, false).Some?
    ensures Inv(c, AfterStore(c, s, r, false).value)
  {
    hide ReaderOk, ResponseKey;
    StoreAnswerOk(c, s, s.readers[r]);
    ReaderStepKeeps(c, s, r, s.readers[r].(phase := Answered(s.readers[r].phase.response)));
  }

  // ---------------------------------------------------------------- mutating requests

  lemma StartGrows(s: State, t: State, w: nat, project: Uuid, m: Mutation, notifies: Option<Notification>)
    requires HistoryOk(s) && BumpsOk(s) && AfterStart(s, w, project, m, notifies) == Some(t)
    ensures Grows(s, t) && HistoryOk(t) && BumpsOk(t) && WriterOk(t, t.writers[w])
  {
  }

  lemma StartKeeps(c: Config, s: State, w: nat, project: Uuid, m: Mutation, notifies: Option<Notification>)
    requires Inv(c, s) && AfterStart(s, w, project, m, notifies).Some?
    ensures Inv(c, AfterStart(s, w, project, m, notifies).value)
  {
    hide ReaderOk, WriterOk, GoodOrigin, VersionEntry, HistoryOk;
    var t := AfterStart(s, w, project, m, notifies).value;
    StartGrows(s, t, w, project, m, notifies);
    ReadersCarry(c, s, t);
    OthersSurvive(c, s, t, 0, w);
    PagesSurvive(c, s, t);
    forall k | 1 <= k < |t.commits| ensures Accounted(t, k) {
      assert Accounted(s, k);
      InFlightCarries(s, t, w, k);
    }
  }

  /** A request other than `w` that owes an INCR still owes it. */
  lemma InFlightCarries(s: State, t: State, w: nat, k: nat)
    requires forall x :: x in s.writers && x != w ==> x in t.writers && t.writers[x] == s.writers[x]
    requires w in s.writers && Owes(s.writers[w], k) ==> w in t.writers && Owes(t.writers[w], k)
    ensures InFlight(s, k) ==> InFlight(t, k)
  {
  }

  lemma AppliedStaysHome(s: State, writer: Writer)
    requires HistoryOk(s) && WriterOk(s, writer) && Applied(Current(s), writer.mutation).Some?
    ensures AtHome(s, Applied(Current(s), writer.mutation).value)
    ensures forall p :: p != writer.project ==>
              TasksOf(Applied(Current(s), writer.mutation).value, p) == TasksOf(Current(s), p)
  {
  }

  lemma CommitGrows(s: State, t: State, w: nat)
    requires HistoryOk(s) && AfterCommit(s, w) == Some(t)
    ensures Grows(s, t)
  {
    assert forall p :: Bumps(t, p) == Bumps(s, p);
  }

  lemma CommitKeepsHistory(c: Config, s: State, t: State, w: nat)
    requires Inv(c, s) && AfterCommit(s, w) == Some(t)
    ensures HistoryOk(t) && BumpsOk(t)
  {
    hide ReaderOk, GoodOrigin, VersionEntry, Accounted, Patched;
    assert WriterOk(s, s.writers[w]);
    AppliedStaysHome(s, s.writers[w]);
    assert forall k :: 0 <= k < |s.commits| ==> t.commits[k] == s.commits[k];
    assert forall p :: Bumps(t, p) == Bumps(s, p);
  }

  lemma CommitKeepsAccounts(c: Config, s: State, t: State, w: nat)
    requires Inv(c, s) && AfterCommit(s, w) == Some(t)
    ensures forall k :: 1 <= k < |t.commits| ==> Accounted(t, k)
  {
    assert WriterOk(s, s.writers[w]);
    forall k | 1 <= k < |t.commits| ensures Accounted(t, k) {
      if k < |s.commits| {
        assert Accounted(s, k);
        InFlightCarries(s, t, w, k);
      } else {
        assert Owes(t.writers[w], k);
      }
    }
  }

  lemma CommitKeeps(c: Config, s: State, w: nat)
    requires Inv(c, s) && AfterCommit(s, w).Some?
    ensures Inv(c, AfterCommit(s, w).value)
  {
    hide ReaderOk, GoodOrigin, WriterOk, Accounted, HistoryOk, BumpsOk, Applied, Grows;
    var t := AfterCommit(s, w).value;
    CommitGrows(s, t, w);
    CommitKeepsHistory(c, s, t, w);
    CommitKeepsAccounts(c, s, t, w);
    ReadersCarry(c, s, t);
    CommitKeepsWriters(c, s, t, w);
    PagesSurvive(c, s, t);
  }

  lemma CommitKeepsWriters(c: Config, s: State, t: State, w: nat)
    requires Inv(c, s) && AfterCommit(s, w) == Some(t) && Grows(s, t)
    ensures forall x :: x in t.writers ==> WriterOk(t, t.writers[x])
  {
    hide ReaderOk, GoodOrigin, VersionEntry, Accounted, Applied, BumpsOk;
    OthersSurvive(c, s, t, 0, w);
    WriterSurvives(s, t, s.writers[w]);
  }

  lemma ProgressKeeps(c: Config, s: State, w: nat, from: Progress, to: Progress)
    requires Inv(c, s) && WithProgress(s, w, from, to).Some?
    requires (from.InTransaction? && to.RolledBack?) || (from.Committed? && to.Closed?)
    ensures Inv(c, WithProgress(s, w, from, to).value)
  {
    hide ReaderOk, GoodOrigin, Accounted, VersionEntry, WriterOk, VersionKey;
    var t := WithProgress(s, w, from, to).value;
    GrowsRefl(s, t);
    ReadersCarry(c, s, t);
    ProgressKeepsWriters(c, s, w, from, to);
    PagesSurvive(c, s, t);
    ProgressKeepsAccounts(c, s, w, from, to);
  }

  lemma ProgressKeepsWriters(c: Config, s: State, w: nat, from: Progress, to: Progress)
    requires Inv(c, s) && WithProgress(s, w, from, to).Some?
    requires (from.InTransaction? && to.RolledBack?) || (from.Committed? && to.Closed?)
    ensures var t := WithProgress(s, w, from, to).value;
            forall x :: x in t.writers ==> WriterOk(t, t.writers[x])
  {
    hide ReaderOk, GoodOrigin, Accounted, VersionEntry, HistoryOk, BumpsOk;
    var t := WithProgress(s, w, from, to).value;
    GrowsRefl(s, t);
    OthersSurvive(c, s, t, 0, w);
    WriterSurvives(s, t, s.writers[w]);
  }

  lemma ProgressKeepsAccounts(c: Config, s: State, w: nat, from: Progress, to: Progress)
    requires Inv(c, s) && WithProgress(s, w, from, to).Some?
    requires (from.InTransaction? && to.RolledBack?) || (from.Committed? && to.Closed?)
    ensures var t := WithProgress(s, w, from, to).value;
            forall k :: 1 <= k < |t.commits| ==> Accounted(t, k)
  {
    hide ReaderOk, GoodOrigin, VersionEntry, HistoryOk, BumpsOk, WriterOk;
    var t := WithProgress(s, w, from, to).value;
    forall k | 1 <= k < |t.commits| ensures Accounted(t, k) {
      assert Accounted(s, k);
      InFlightCarries(s, t, w, k);
    }
  }

  // ---------------------------------------------------------------- callbacks

  /** INCR applied a number of times adds that number to one version and touches no other key. */
  lemma {:induction false} BumpedEffect(store: Store, now: Instant, key: string, n: nat, times: nat)
    requires if n == 0 then key !in store else key in store && store[key] == Entry(Number(n), None)
    ensures var after := Bumped(store, now, key, times);
      && (if n + times == 0 then key !in after else key in after && after[key] == Entry(Number(n + times), None))
      && after - {key} == store - {key}
  {
    if times > 0 {
      BumpedEffect(store, now, key, n, times - 1);
    }
  }

  lemma CallbackGrows(s: State, t: State, w: nat, times: nat)
    requires HistoryOk(s) && AfterCallback(s, w, times) == Some(t)
    ensures Grows(s, t)
  {
  }

  lemma BumpTouchesOneKey(s: State, project: Uuid, times: nat)
    requires VersionEntry(s, project)
    ensures var after := Bumped(s.redis, s.now, VersionKey(project), times);
      && (forall key :: key != VersionKey(project) ==>
            (key in after <==> key in s.redis) && (key in after ==> after[key] == s.redis[key]))
      && (var n := |Bumps(s, project)| + times;
          if n == 0 then VersionKey(project) !in after
          else VersionKey(project) in after && after[VersionKey(project)] == Entry(Number(n), None))
  {
    hide VersionKey;
    var key, after := VersionKey(project), Bumped(s.redis, s.now, VersionKey(project), times);
    BumpedEffect(s.redis, s.now, key, |Bumps(s, project)|, times);
    forall other | other != key
      ensures (other in after <==> other in s.redis) && (other in after ==> after[other] == s.redis[other])
    {
      assert other in after <==> other in after - {key};
      assert other in s.redis <==> other in s.redis - {key};
      assert other in after ==> after[other] == (after - {key})[other] == (s.redis - {key})[other];
    }
  }

  lemma CallbackKeepsRedis(c: Config, s: State, t: State, w: nat, times: nat)
    requires Inv(c, s) && AfterCallback(s, w, times) == Some(t) && s.writers[w].queue[0].Invalidate?
    ensures RedisOk(c, t)
  {
    hide GoodOrigin, ReaderOk, WriterOk, VersionKey, Bumped;
    var project := s.writers[w].queue[0].project;
    CallbackGrows(s, t, w, times);
    assert VersionEntry(s, project);
    BumpTouchesOneKey(s, project, times);
    forall p ensures VersionEntry(t, p) {
      assert VersionEntry(s, p);
      if VersionKey(p) == VersionKey(project) {
        VersionKeysDistinct(p, project);
      }
    }
    forall other | other in t.redis && t.redis[other].value.Json?
      ensures other in t.origins && GoodOrigin(c, t, other, t.redis[other], t.origins[other])
    {
      OriginSurvives(c, s, t, other, s.redis[other], s.origins[other]);
    }
  }

  lemma CallbackKeepsAccounts(c: Config, s: State, t: State, w: nat, times: nat)
    requires Inv(c, s) && AfterCallback(s, w, times) == Some(t)
    ensures forall k :: 1 <= k < |t.commits| ==> Accounted(t, k)
  {
    hide ReaderOk, GoodOrigin, VersionEntry, HistoryOk, BumpsOk, RedisOk, Bumped, VersionKey, WriterOk, Accounted;
    assert WriterOk(s, s.writers[w]);
    forall k | 1 <= k < |t.commits| ensures Accounted(t, k) {
      assert Accounted(s, k);
      CallbackAccounts(s, t, w, times, k);
    }
  }

  /** A commit's INCR stays accounted for: still queued, applied now, or lost now. */
  lemma CallbackAccounts(s: State, t: State, w: nat, times: nat, k: nat)
    requires HistoryOk(s) && AfterCallback(s, w, times) == Some(t) && WriterOk(s, s.writers[w])
    requires 1 <= k < |s.commits| && Accounted(s, k)
    ensures Accounted(t, k)
  {
    hide HistoryOk, Bumped, VersionKey, Grows;
    var writer, p := s.writers[w], s.commits[k].project;
    CallbackAppends(s, t, w, times, p);
    if writer.queue[0].Invalidate? && Owes(writer, k) {
      if times > 0 {
        assert Bumps(t, p)[|Bumps(s, p)|] == k;
      }
    } else {
      InFlightCarries(s, t, w, k);
    }
  }

  lemma CallbackAppends(s: State, t: State, w: nat, times: nat, p: Uuid)
    requires HistoryOk(s) && AfterCallback(s, w, times) == Some(t)
    ensures Bumps(s, p) <= Bumps(t, p)
  {
    hide AfterCallback, HistoryOk;
    CallbackGrows(s, t, w, times);
  }

  lemma CallbackKeepsHistory(s: State, t: State, w: nat, times: nat)
    requires HistoryOk(s) && BumpsOk(s) && AfterCallback(s, w, times) == Some(t) && WriterOk(s, s.writers[w])
    ensures HistoryOk(t) && BumpsOk(t)
  {
    hide Bumped, VersionKey, OnlyItsProject, Bumps;
    forall p, k | 0 <= k < |Bumps(t, p)| ensures Bumps(t, p)[k] < |t.commits| {
      CallbackBump(s, t, w, times, p, k);
    }
  }

  /** A new bump is for the commit of the request that runs the callback. */
  lemma CallbackBump(s: State, t: State, w: nat, times: nat, p: Uuid, k: nat)
    requires AfterCallback(s, w, times) == Some(t) && k < |Bumps(t, p)|
    ensures if k < |Bumps(s, p)| then Bumps(t, p)[k] == Bumps(s, p)[k] else Bumps(t, p)[k] == s.writers[w].commitIndex
  {
    hide Bumped, VersionKey;
  }

  lemma CallbackKeepsWriters(c: Config, s: State, t: State, w: nat, times: nat)
    requires Inv(c, s) && AfterCallback(s, w, times) == Some(t) && Grows(s, t)
    ensures forall x :: x in t.writers ==> WriterOk(t, t.writers[x])
  {
    hide ReaderOk, GoodOrigin, VersionEntry, HistoryOk, Accounted, Bumped, BumpsOk, VersionKey, Grows;
    OthersSurvive(c, s, t, 0, w);
    WriterSurvives(s, t, s.writers[w]);
  }

  lemma CallbackKeeps(c: Config, s: State, w: nat, times: nat)
    requires Inv(c, s) && AfterCallback(s, w, times).Some?
    ensures Inv(c, AfterCallback(s, w, times).value)
  {
    hide ReaderOk, GoodOrigin, VersionEntry, HistoryOk, Accounted, Grows, WriterOk, Bumped;
    var t := AfterCallback(s, w, times).value;
    CallbackGrows(s, t, w, times);
    CallbackKeepsHistory(s, t, w, times);
    ReadersCarry(c, s, t);
    CallbackKeepsWriters(c, s, t, w, times);
    CallbackKeepsAccounts(c, s, t, w, times);
    if s.writers[w].queue[0].Invalidate? {
      CallbackKeepsRedis(c, s, t, w, times);
    } else {
      PagesSurvive(c, s, t);
    }
  }

  // ---------------------------------------------------------------- every step, every run

  /** The queries that the actions list. */
  function Started(actions: seq<Action>): set<Query> {
    set a | a in actions && a.StartListing? :: a.query
  }

  /** A step of reader `r` alone keeps its query. */
  ghost predicate SameQueries(s: State, t: State, r: nat) {
    && r in s.readers && r in t.readers && t.readers == s.readers[r := t.readers[r]]
    && t.readers[r].query == s.readers[r].query && t.origins == s.origins
  }

  lemma VersionKeepsQueries(c: Config, s: State, r: nat, ok: bool)
    ensures AfterVersion(c, s, r, ok).Some? ==> SameQueries(s, AfterVersion(c, s, r, ok).value, r)
  {
    hide Printable, Lookup, VersionText, VersionKey;
  }

  lemma PageKeepsQueries(c: Config, s: State, r: nat, ok: bool)
    ensures AfterPage(c, s, r, ok).Some? ==> SameQueries(s, AfterPage(c, s, r, ok).value, r)
    ensures AfterUnlink(c, s, r, ok).Some? ==> SameQueries(s, AfterUnlink(c, s, r, ok).value, r)
  {
    hide ResponseKey, Printable, Lookup;
  }

  lemma StatementsKeepQueries(s: State, r: nat)
    ensures AfterCount(s, r).Some? ==> SameQueries(s, AfterCount(s, r).value, r)
    ensures AfterItems(s, r).Some? ==> SameQueries(s, AfterItems(s, r).value, r)
  {
    hide CountStatement, PageStatement, Response;
  }

  lemma StoreWithin(c: Config, s: State, queries: set<Query>, r: nat, applied: bool)
    requires Within(s, queries) && AfterStore(c, s, r, applied).Some?
    ensures Within(AfterStore(c, s, r, applied).value, queries)
  {
    hide ResponseKey, Printable, Stored;
  }

  lemma SameQueriesWithin(s: State, t: State, queries: set<Query>, r: nat)
    requires Within(s, queries) && SameQueries(s, t, r)
    ensures Within(t, queries)
  {
  }

  lemma StepWithin(c: Config, s: State, queries: set<Query>, a: Action)
    requires Within(s, queries) && (a.StartListing? ==> a.query in queries) && Next(c, s, a).Some?
    ensures Within(Next(c, s, a).value, queries)
  {
    hide AfterVersion, AfterPage, AfterUnlink, AfterCount, AfterItems, AfterStore, SameQueries, AfterStart, AfterCommit,
      AfterCallback, IsVersionKey;
    match a {
      case StorePage(r, applied) => StoreWithin(c, s, queries, r, applied);
      case ReadVersion(r, ok) =>
        VersionKeepsQueries(c, s, r, ok);
        SameQueriesWithin(s, Next(c, s, a).value, queries, r);
      case ReadPage(r, ok) =>
        PageKeepsQueries(c, s, r, ok);
        SameQueriesWithin(s, Next(c, s, a).value, queries, r);
      case UnlinkPage(r, applied) =>
        PageKeepsQueries(c, s, r, applied);
        SameQueriesWithin(s, Next(c, s, a).value, queries, r);
      case RunCount(r) =>
        StatementsKeepQueries(s, r);
        SameQueriesWithin(s, Next(c, s, a).value, queries, r);
      case RunItems(r) =>
        StatementsKeepQueries(s, r);
        SameQueriesWithin(s, Next(c, s, a).value, queries, r);
      case StartMutation(w, project, m, notifies) => WriterStepWithin(c, s, queries, a);
      case CommitMutation(w) => WriterStepWithin(c, s, queries, a);
      case RunCallback(w, times) => WriterStepWithin(c, s, queries, a);
      case _ =>
    }
  }

  lemma WriterStepWithin(c: Config, s: State, queries: set<Query>, a: Action)
    requires Within(s, queries) && Next(c, s, a).Some? && (a.StartMutation? || a.CommitMutation? || a.RunCallback?)
    ensures Within(Next(c, s, a).value, queries)
  {
    hide Applied, Bumped, MayStart, VersionKey;
  }

  lemma NewReaderKeeps(c: Config, s: State, r: nat, project: Uuid, query: Query)
    requires Inv(c, s)
    ensures Inv(c, WithReader(s, r, Reader(project, query, WantVersion, None, 0, 0, s.now, None)))
  {
    ReaderStepKeeps(c, s, r, Reader(project, query, WantVersion, None, 0, 0, s.now, None));
  }

  lemma StepKeeps(c: Config, s: State, queries: set<Query>, a: Action)
    requires Inv(c, s) && CollisionFree(c.digest, queries) && Within(s, queries) && Next(c, s, a).Some?
    ensures Inv(c, Next(c, s, a).value)
  {
    hide Inv, CollisionFree, AfterVersion, AfterPage, AfterUnlink, AfterCount, AfterItems, AfterStore, AfterStart, AfterCommit,
      AfterCallback;
    match a
    case Tick(elapsed) => TickKeeps(c, s, elapsed);
    case DropPage(key) => DropKeeps(c, s, key);
    case SpoilPage(key, text) => SpoilKeeps(c, s, key, text);
    case StartListing(r, project, query) =>
      NewReaderKeeps(c, s, r, project, query);
    case ReadVersion(r, ok) => VersionReadKeeps(c, s, r, ok);
    case ReadPage(r, ok) => PageReadKeeps(c, s, queries, r, ok);
    case UnlinkPage(r, applied) => UnlinkKeeps(c, s, r, applied);
    case RunCount(r) => CountKeeps(c, s, r);
    case RunItems(r) => ItemsKeeps(c, s, r);
    case StorePage(r, applied) => StoreKeeps(c, s, r, applied);
    case StartMutation(w, project, m, notifies) => StartKeeps(c, s, w, project, m, notifies);
    case CommitMutation(w) => CommitKeeps(c, s, w);
    case RollBack(w) => ProgressKeeps(c, s, w, InTransaction, RolledBack);
    case CloseSession(w) => ProgressKeeps(c, s, w, Committed, Closed);
    case RunCallback(w, times) => CallbackKeeps(c, s, w, times);
  }

  lemma {:induction false} RunKeeps(c: Config, queries: set<Query>, tasks: TaskTable, now: Instant, actions: seq<Action>)
    requires CollisionFree(c.digest, queries) && Started(actions) <= queries && Run(c, Initial(tasks, now), actions).Some?
    ensures Inv(c, Run(c, Initial(tasks, now), actions).value)
    ensures Within(Run(c, Initial(tasks, now), actions).value, queries)
  {
    if actions != [] {
      var before, last := actions[..|actions| - 1], actions[|actions| - 1];
      assert last.StartListing? ==> last.query in Started(actions);
      RunKeeps(c, queries, tasks, now, before);
      StepKeeps(c, Run(c, Initial(tasks, now), before).value, queries, last);
      StepWithin(c, Run(c, Initial(tasks, now), before).value, queries, last);
    }
  }
}
