/** The Redis task-list cache as the application uses it, against a server that may fail at every call. */
module TaskListCache {
  import opened Wrappers
  import opened Text
  import opened Clock
  import opened Domain
  import opened TaskListing
  import opened TaskListKeys
  import opened Redis
  import Protocol = CacheProtocol

  // ---------------------------------------------------------------- what a sound cache holds

  ghost predicate VersionsOk(store: Store) {
    forall p: Uuid :: VersionKey(p) in store ==> store[VersionKey(p)].value.Number? && store[VersionKey(p)].expiresAt.None?
  }

  function Version(store: Store, p: Uuid): nat {
    if VersionKey(p) in store && store[VersionKey(p)].value.Number? then store[VersionKey(p)].value.n else 0
  }

  /** No page lies under a version still to come, and a page under the current version is the uncached answer. */
  ghost predicate PageOk(digest: Digest, store: Store, tasks: TaskTable, p: Uuid, v: nat, q: Query) {
    Printable(q) ==>
      var key := ResponseKey(digest, p, Decimal(v), q).value;
      key in store && store[key].value.Json? ==>
        v <= Version(store, p) && (v == Version(store, p) ==> store[key].value.page == Answer(tasks, p, q))
  }

  ghost predicate PagesOk(digest: Digest, queries: set<Query>, store: Store, tasks: TaskTable) {
    forall p: Uuid, v: nat, q: Query :: q in queries ==> PageOk(digest, store, tasks, p, v, q)
  }

  /** The cache is sound for a finite set of queries, the ones that are ever listed. */
  ghost predicate Sound(digest: Digest, queries: set<Query>, store: Store, tasks: TaskTable) {
    VersionsOk(store) && PagesOk(digest, queries, store, tasks)
  }

  /** Losing or spoiling pages is harmless, as long as the counters stay. */
  lemma FewerPagesSound(digest: Digest, queries: set<Query>, store: Store, fewer: Store, tasks: TaskTable)
    requires Sound(digest, queries, store, tasks)
    requires forall p: Uuid :: VersionKey(p) in fewer <==> VersionKey(p) in store
    requires forall p: Uuid :: VersionKey(p) in store ==> fewer[VersionKey(p)] == store[VersionKey(p)]
    requires forall key :: key in fewer && fewer[key].value.Json? ==> key in store && store[key] == fewer[key]
    ensures Sound(digest, queries, fewer, tasks)
  {
    hide Answer, ResponseKey, VersionKey;
    forall p: Uuid, v: nat, q: Query | q in queries
      ensures PageOk(digest, fewer, tasks, p, v, q)
    {
      assert PageOk(digest, store, tasks, p, v, q);
    }
  }

  function PageKey(digest: Digest, store: Store, p: Uuid, q: Query): string
    requires Printable(q)
  {
    ResponseKey(digest, p, Decimal(Version(store, p)), q).value
  }

  lemma CountersApart(digest: Digest, store: Store, p: Uuid, q: Query)
    requires Printable(q)
    ensures forall other: Uuid :: VersionKey(other) != PageKey(digest, store, p, q)
  {
    hide ResponseKey, VersionKey;
    forall other: Uuid
      ensures VersionKey(other) != PageKey(digest, store, p, q)
    {
      ResponseKeyIsNoVersionKey(digest, p, Decimal(Version(store, p)), q, other);
    }
  }

  lemma StoredPageOk(digest: Digest, queries: set<Query>, store: Store, tasks: TaskTable, p: Uuid, q: Query, expiresAt: Instant,
                     p': Uuid, v: nat, q': Query)
    requires q' in queries && PageOk(digest, store, tasks, p', v, q')
    requires CollisionFree(digest, queries) && q in queries && Printable(q)
    requires forall other: Uuid :: VersionKey(other) != PageKey(digest, store, p, q)
    ensures PageOk(digest, Stored(store, PageKey(digest, store, p, q), Answer(tasks, p, q), expiresAt), tasks, p', v, q')
  {
    hide Answer, ResponseKey, VersionKey, Canonical, Decimal, SameQuery;
    if Printable(q') && ResponseKey(digest, p', Decimal(v), q').value == PageKey(digest, store, p, q) {
      ResponseKeySound(digest, p', v, q', p, Version(store, p), q);
      SharedKeySharedAnswer(digest, p', v, q', p, Version(store, p), q, tasks);
    }
  }

  /** Storing the uncached answer under the current version keeps the cache sound for every query that shares its key. */
  lemma StoredPageSound(digest: Digest, queries: set<Query>, store: Store, tasks: TaskTable, p: Uuid, q: Query, expiresAt: Instant)
    requires Sound(digest, queries, store, tasks) && CollisionFree(digest, queries) && q in queries && Printable(q)
    ensures Sound(digest, queries, Stored(store, PageKey(digest, store, p, q), Answer(tasks, p, q), expiresAt), tasks)
  {
    hide Answer, ResponseKey, VersionKey, PageOk, PageKey, CollisionFree, Version;
    var after := Stored(store, PageKey(digest, store, p, q), Answer(tasks, p, q), expiresAt);
    CountersApart(digest, store, p, q);
    forall p': Uuid, v: nat, q': Query | q' in queries
      ensures PageOk(digest, after, tasks, p', v, q')
    {
      assert PageOk(digest, store, tasks, p', v, q');
      StoredPageOk(digest, queries, store, tasks, p, q, expiresAt, p', v, q');
    }
  }

  /** A new version is empty, so bumping the counter of the one project whose rows changed restores soundness. */
  lemma BumpedSound(digest: Digest, queries: set<Query>, store: Store, tasks: TaskTable, changed: TaskTable, p: Uuid, n: nat)
    requires Sound(digest, queries, store, tasks) && n > Version(store, p)
    requires forall other :: other != p ==> TasksOf(changed, other) == TasksOf(tasks, other)
    ensures Sound(digest, queries, store[VersionKey(p) := Entry(Number(n), None)], changed)
  {
    var after := store[VersionKey(p) := Entry(Number(n), None)];
    CountersDistinct(p);
    hide Answer, ResponseKey, VersionKey, PageOk;
    forall p': Uuid, v: nat, q: Query | q in queries
      ensures PageOk(digest, after, changed, p', v, q)
    {
      assert PageOk(digest, store, tasks, p', v, q);
      BumpedPageOk(digest, store, tasks, changed, p, n, p', v, q);
    }
  }

  lemma CountersDistinct(p: Uuid)
    ensures forall other: Uuid :: other != p ==> VersionKey(other) != VersionKey(p)
  {
    hide VersionKey;
    forall other: Uuid | other != p
      ensures VersionKey(other) != VersionKey(p)
    {
      if VersionKey(other) == VersionKey(p) {
        VersionKeysDistinct(other, p);
      }
    }
  }

  lemma BumpedPageOk(digest: Digest, store: Store, tasks: TaskTable, changed: TaskTable, p: Uuid, n: nat,
                     p': Uuid, v: nat, q: Query)
    requires PageOk(digest, store, tasks, p', v, q) && n > Version(store, p)
    requires p' != p ==> TasksOf(changed, p') == TasksOf(tasks, p') && VersionKey(p') != VersionKey(p)
    ensures PageOk(digest, store[VersionKey(p) := Entry(Number(n), None)], changed, p', v, q)
  {
    hide Answer, ResponseKey, VersionKey, TasksOf;
    if p' != p {
      SameAnswer(tasks, changed, p', q);
    }
  }

  lemma SameAnswer(tasks: TaskTable, changed: TaskTable, p: Uuid, q: Query)
    requires TasksOf(changed, p) == TasksOf(tasks, p)
    ensures Answer(changed, p, q) == Answer(tasks, p, q)
  {
    StatementsDependOn(tasks, changed, p, q, q);
  }

  // ---------------------------------------------------------------- the server

  datatype RedisError = RedisError

  /**
   `reliable` says that an INCR always reaches the server, perhaps more than once; every other call may fail. `up` says
   that no call fails, and that each one is applied exactly once. The ghost results say what a call really did, and `answers` records which GETs were answered.
   */
  class RedisServer {
    var store: Store
    var now: Instant
    ghost var answers: seq<bool>
    const reliable: bool
    const up: bool

    constructor (now: Instant, reliable: bool, up: bool)
      ensures store == map[] && this.now == now && this.reliable == reliable && this.up == up && answers == []
    {
      store, this.now, this.reliable, this.up := map[], now, reliable, up;
      answers := [];
    }

    method Get(key: string) returns (reply: Result<Option<Value>, RedisError>)
      modifies this`answers
      ensures reply.Success? ==> reply.value == Lookup(store, now, key)
      ensures up ==> reply.Success?
      ensures answers == old(answers) + [reply.Success?]
    {
      var fails: bool := *;
      if fails && !up {
        reply := Failure(RedisError);
      } else {
        reply := Success(Lookup(store, now, key));
      }
      answers := answers + [reply.Success?];
    }

    /** A failed SET may still have been applied, and so may a failed UNLINK. */
    method Set(key: string, page: TaskPage, ttl: nat) returns (ok: bool, ghost applied: bool)
      modifies this`store
      ensures store == if applied then Stored(old(store), key, page, now + ttl) else old(store)
      ensures (ok ==> applied) && (up ==> ok)
    {
      var reached: bool, answered: bool := *, *;
      reached, answered := reached || up, answered || up;
      ok, applied := reached && answered, reached;
      if reached {
        store := Stored(store, key, page, now + ttl);
      }
    }

    method Unlink(key: string) returns (ok: bool, ghost applied: bool)
      modifies this`store
      ensures store == if applied then old(store) - {key} else old(store)
      ensures (ok ==> applied) && (up ==> ok)
    {
      var reached: bool, answered: bool := *, *;
      reached, answered := reached || up, answered || up;
      ok, applied := reached && answered, reached;
      if reached {
        store := store - {key};
      }
    }

    method Incr(key: string) returns (ok: bool, ghost times: nat)
      modifies this`store
      ensures store == Bumped(old(store), now, key, times)
      ensures ok || reliable ==> times >= 1
      ensures up ==> ok && times == 1
    {
      ok := *;
      ok := ok || up;
      var tries: nat := if ok || reliable then 1 else 0;
      var again: bool := *;
      if again && !up {
        tries := tries + 1;
      }
      times := tries;
      var i := 0;
      while i < tries
        invariant 0 <= i <= tries && store == Bumped(old(store), now, key, i)
      {
        store := Incremented(store, now, key);
        i := i + 1;
      }
    }

    /** Time passes; entries with an expiry may be evicted early or overwritten by text that is no page. */
    method Pass(elapsed: nat, dropped: set<string>, spoiled: map<string, string>)
      modifies this`now, this`store
      ensures now == old(now) + elapsed
      ensures forall key :: key in store <==> key in old(store) && (key in dropped ==> old(store)[key].expiresAt.None?)
      ensures forall key :: key in store ==>
                store[key] == if key in spoiled && old(store)[key].expiresAt.Some?
                              then old(store)[key].(value := Garbage(spoiled[key])) else old(store)[key]
    {
      now := now + elapsed;
      var kept := map key | key in store && (key in dropped ==> store[key].expiresAt.None?) :: store[key];
      store := map key | key in kept ::
        if key in spoiled && kept[key].expiresAt.Some? then kept[key].(value := Garbage(spoiled[key])) else kept[key];
    }
  }

  // ---------------------------------------------------------------- one listing, call by call

  datatype CacheLookup = CacheLookup(version: string, response: Option<TaskPage>)

  datatype OverflowError = OverflowError

  /** What Redis does with the calls of one listing: whether the two GETs are answered, the UNLINK and the SET applied. */
  datatype Calls = Calls(version: bool, page: bool, unlinked: bool, stored: bool)

  /** Every call works. */
  const ALL_WORK := Calls(true, true, true, true)

  datatype Fetched = Fetched(result: Result<Option<CacheLookup>, OverflowError>, store: Store)

  /** What the second GET and the cleanup make of it, under a version that was read. */
  function FetchPage(digest: Digest, store: Store, now: Instant, p: Uuid, q: Query, version: string, calls: Calls): Fetched {
    var key := ResponseKey(digest, p, version, q);
    if key.None? then Fetched(Failure(OverflowError), store)
    else if !calls.page then Fetched(Success(None), store)
    else match Lookup(store, now, key.value)
      case None => Fetched(Success(Some(CacheLookup(version, None))), store)
      case Some(Json(page)) => Fetched(Success(Some(CacheLookup(version, Some(page)))), store)
      case Some(_) => Fetched(Success(Some(CacheLookup(version, None))), if calls.unlinked then store - {key.value} else store)
  }

  /** What `get` returns and leaves behind. */
  function Fetch(digest: Digest, store: Store, now: Instant, p: Uuid, q: Query, calls: Calls): Fetched
    requires Lookup(store, now, VersionKey(p)).Some? ==> !Lookup(store, now, VersionKey(p)).value.Json?
  {
    if !calls.version then Fetched(Success(None), store)
    else FetchPage(digest, store, now, p, q, VersionText(Lookup(store, now, VersionKey(p))), calls)
  }

  datatype Listed = Listed(response: Option<TaskPage>, store: Store)

  /** A whole listing: its answer, none if the key overflows, and the store it leaves behind. */
  function CachedListing(config: Protocol.Config, store: Store, now: Instant, tasks: TaskTable, p: Uuid, q: Query, calls: Calls): Listed
    requires Lookup(store, now, VersionKey(p)).Some? ==> !Lookup(store, now, VersionKey(p)).value.Json?
  {
    var fetched := Fetch(config.digest, store, now, p, q, calls);
    if fetched.result.Failure? then Listed(None, fetched.store)
    else if fetched.result.value.None? then Listed(Some(Answer(tasks, p, q)), fetched.store)
    else
      var lookup := fetched.result.value.value;
      if lookup.response.Some? then Listed(lookup.response, fetched.store)
      else
        var key := ResponseKey(config.digest, p, lookup.version, q);
        Listed(Some(Answer(tasks, p, q)),
               if calls.stored && key.Some? then Stored(fetched.store, key.value, Answer(tasks, p, q), now + config.ttl)
               else fetched.store)
  }

  /** A listing overflows exactly when its first GET is answered and its key cannot be printed. */
  lemma OverflowsExactly(config: Protocol.Config, store: Store, now: Instant, tasks: TaskTable, p: Uuid, q: Query, calls: Calls)
    requires Lookup(store, now, VersionKey(p)).Some? ==> !Lookup(store, now, VersionKey(p)).value.Json?
    ensures CachedListing(config, store, now, tasks, p, q, calls).response.None? <==> calls.version && !Printable(q)
  {
    hide VersionKey, Answer, Printable, Lookup, Fetch, CachedListing;
    FetchFails(config.digest, store, now, p, q, calls);
    ListingFrom(config, store, now, tasks, p, q, calls);
  }

  lemma FetchFails(digest: Digest, store: Store, now: Instant, p: Uuid, q: Query, calls: Calls)
    requires Lookup(store, now, VersionKey(p)).Some? ==> !Lookup(store, now, VersionKey(p)).value.Json?
    ensures Fetch(digest, store, now, p, q, calls).result.Failure? <==> calls.version && !Printable(q)
    ensures Fetch(digest, store, now, p, q, calls).result.Failure? ==> Fetch(digest, store, now, p, q, calls).store == store
  {
    hide VersionKey, Printable, ProjectPrefix, VersionedName, VersionText, Lookup;
  }

  /** What a store may have become after a cleanup attempt on one unreadable page. */
  ghost predicate AtMostUnlinked(before: Store, after: Store, now: Instant, key: string) {
    after == before
    || (after == before - {key} && Lookup(before, now, key).Some? && !Lookup(before, now, key).value.Json?)
  }

  /** No lookup, or the current version with the page stored under it, if there is one that loads. */
  ghost predicate Got(digest: Digest, before: Store, after: Store, now: Instant, p: Uuid, q: Query,
                      lookup: Option<CacheLookup>)
  {
    if lookup.None? then after == before else
      && Printable(q) && lookup.value.version == Decimal(Version(before, p))
      && (lookup.value.response.Some? ==>
            Lookup(before, now, PageKey(digest, before, p, q)) == Some(Json(lookup.value.response.value)))
      && AtMostUnlinked(before, after, now, PageKey(digest, before, p, q))
  }

  lemma VersionReply(store: Store, now: Instant, p: Uuid)
    requires VersionsOk(store)
    ensures Lookup(store, now, VersionKey(p)).Some? ==> !Lookup(store, now, VersionKey(p)).value.Json?
    ensures VersionText(Lookup(store, now, VersionKey(p))) == Decimal(Version(store, p))
  {
    hide VersionKey;
    assert Decimal(0) == "0";
  }

  lemma FetchGot(digest: Digest, store: Store, now: Instant, p: Uuid, q: Query, calls: Calls)
    requires VersionsOk(store)
    ensures var fetched := Fetch(digest, store, now, p, q, calls);
            && (fetched.result.Failure? <==> calls.version && !Printable(q))
            && (fetched.result.Failure? ==> fetched.store == store)
            && (fetched.result.Success? ==> Got(digest, store, fetched.store, now, p, q, fetched.result.value))
  {
    hide VersionKey, Printable, ProjectPrefix, VersionedName, VersionText, VersionsOk, Version, Decimal;
    VersionReply(store, now, p);
    FetchFails(digest, store, now, p, q, calls);
  }

  /** The lookup does not depend on what becomes of the SET after it. */
  lemma SameFetch(digest: Digest, store: Store, now: Instant, p: Uuid, q: Query, calls: Calls, other: Calls)
    requires Lookup(store, now, VersionKey(p)).Some? ==> !Lookup(store, now, VersionKey(p)).value.Json?
    requires other == calls.(stored := other.stored)
    ensures Fetch(digest, store, now, p, q, other) == Fetch(digest, store, now, p, q, calls)
  {
    hide VersionKey, ResponseKey, Lookup;
  }

  lemma LookupHasKey(digest: Digest, before: Store, after: Store, now: Instant, p: Uuid, q: Query, lookup: CacheLookup)
    requires Got(digest, before, after, now, p, q, Some(lookup))
    ensures Printable(q) && ResponseKey(digest, p, lookup.version, q).Some?
  {
    hide Printable;
  }

  lemma UnlinkedSound(digest: Digest, queries: set<Query>, store: Store, key: string, tasks: TaskTable)
    requires VersionsOk(store) && forall p: Uuid :: VersionKey(p) != key
    ensures VersionsOk(store - {key})
    ensures forall p: Uuid :: Version(store - {key}, p) == Version(store, p)
    ensures Sound(digest, queries, store, tasks) ==> Sound(digest, queries, store - {key}, tasks)
  {
    hide VersionKey, PagesOk;
    if Sound(digest, queries, store, tasks) {
      FewerPagesSound(digest, queries, store, store - {key}, tasks);
    }
  }

  /** A hit on a sound cache is the uncached answer, and looking never makes the cache unsound. */
  lemma GetKeeps(digest: Digest, queries: set<Query>, before: Store, after: Store, now: Instant, tasks: TaskTable,
                 p: Uuid, q: Query, lookup: Option<CacheLookup>)
    requires VersionsOk(before) && Got(digest, before, after, now, p, q, lookup) && q in queries
    ensures VersionsOk(after)
    ensures lookup.Some? ==>
      Printable(q) && ResponseKey(digest, p, lookup.value.version, q) == Some(PageKey(digest, after, p, q))
    ensures Sound(digest, queries, before, tasks) ==>
      && Sound(digest, queries, after, tasks)
      && (lookup.Some? && lookup.value.response.Some? ==> lookup.value.response.value == Answer(tasks, p, q))
  {
    hide VersionKey, Answer, VersionsOk, PagesOk;
    if lookup.Some? {
      CountersApart(digest, before, p, q);
      UnlinkedSound(digest, queries, before, PageKey(digest, before, p, q), tasks);
      if Sound(digest, queries, before, tasks) && lookup.value.response.Some? {
        HitIsAnswer(digest, queries, before, now, tasks, p, q, lookup.value.response.value);
      }
    }
  }

  lemma HitIsAnswer(digest: Digest, queries: set<Query>, store: Store, now: Instant, tasks: TaskTable, p: Uuid, q: Query,
                    page: TaskPage)
    requires Sound(digest, queries, store, tasks) && q in queries && Printable(q)
    requires Lookup(store, now, PageKey(digest, store, p, q)) == Some(Json(page))
    ensures page == Answer(tasks, p, q)
  {
    hide VersionKey, Answer, ResponseKey;
    assert PageOk(digest, store, tasks, p, Version(store, p), q);
  }

  lemma SetKeeps(digest: Digest, queries: set<Query>, before: Store, after: Store, tasks: TaskTable, p: Uuid, q: Query,
                 expiresAt: Instant)
    requires VersionsOk(before) && CollisionFree(digest, queries) && q in queries && Printable(q)
    requires after == before || after == Stored(before, PageKey(digest, before, p, q), Answer(tasks, p, q), expiresAt)
    ensures VersionsOk(after)
    ensures Sound(digest, queries, before, tasks) ==> Sound(digest, queries, after, tasks)
  {
    hide VersionKey, Answer, ResponseKey, PagesOk, CollisionFree;
    CountersApart(digest, before, p, q);
    if Sound(digest, queries, before, tasks) {
      StoredPageSound(digest, queries, before, tasks, p, q, expiresAt);
    }
  }

  /** On a sound cache every listing that does not overflow gives the uncached answer, and leaves the cache sound. */
  lemma ListingKeeps(config: Protocol.Config, queries: set<Query>, store: Store, now: Instant, tasks: TaskTable, p: Uuid,
                     q: Query, calls: Calls)
    requires VersionsOk(store) && CollisionFree(config.digest, queries) && q in queries
    ensures var listed := CachedListing(config, store, now, tasks, p, q, calls);
            && VersionsOk(listed.store)
            && (Sound(config.digest, queries, store, tasks) ==>
                  && (listed.response.Some? ==> listed.response.value == Answer(tasks, p, q))
                  && Sound(config.digest, queries, listed.store, tasks))
  {
    hide Answer, Sound, VersionsOk, VersionKey, Got, ResponseKey, Printable, CollisionFree, Fetch, Lookup, CachedListing, PagesOk;
    VersionReply(store, now, p);
    FetchGot(config.digest, store, now, p, q, calls);
    ListingFrom(config, store, now, tasks, p, q, calls);
    var fetched := Fetch(config.digest, store, now, p, q, calls);
    if fetched.result.Success? {
      LookupKeeps(config.digest, queries, store, fetched.store, now, tasks, p, q, fetched.result.value,
                  CachedListing(config, store, now, tasks, p, q, calls), now + config.ttl);
    }
  }

  lemma LookupKeeps(digest: Digest, queries: set<Query>, before: Store, after: Store, now: Instant, tasks: TaskTable,
                    p: Uuid, q: Query, lookup: Option<CacheLookup>, listed: Listed, expiresAt: Instant)
    requires VersionsOk(before) && Got(digest, before, after, now, p, q, lookup)
    requires CollisionFree(digest, queries) && q in queries
    requires listed.response
               == if lookup.Some? && lookup.value.response.Some? then lookup.value.response else Some(Answer(tasks, p, q))
    requires lookup.None? ==> listed.store == after
    requires lookup.Some? && listed.store != after ==>
               && ResponseKey(digest, p, lookup.value.version, q).Some?
               && listed.store == Stored(after, ResponseKey(digest, p, lookup.value.version, q).value, Answer(tasks, p, q), expiresAt)
    ensures VersionsOk(listed.store)
    ensures Sound(digest, queries, before, tasks) ==>
      listed.response.value == Answer(tasks, p, q) && Sound(digest, queries, listed.store, tasks)
  {
    hide Answer, Sound, VersionsOk, VersionKey, Got, PageKey, ResponseKey, Printable, CollisionFree, Stored;
    GetKeeps(digest, queries, before, after, now, tasks, p, q, lookup);
    if lookup.Some? {
      SetKeeps(digest, queries, after, listed.store, tasks, p, q, expiresAt);
    }
  }

  /** A listing in terms of its lookup. */
  lemma ListingFrom(config: Protocol.Config, store: Store, now: Instant, tasks: TaskTable, p: Uuid, q: Query, calls: Calls)
    requires Lookup(store, now, VersionKey(p)).Some? ==> !Lookup(store, now, VersionKey(p)).value.Json?
    ensures var fetched := Fetch(config.digest, store, now, p, q, calls);
            var listed := CachedListing(config, store, now, tasks, p, q, calls);
            && (fetched.result.Failure? ==> listed.response.None?)
            && (fetched.result.Failure? || fetched.result.value.None? ==> listed.store == fetched.store)
            && (fetched.result.Success? ==> listed.response.Some?)
            && (fetched.result.Success? && (fetched.result.value.None? || fetched.result.value.value.response.None?) ==>
                  listed.response == Some(Answer(tasks, p, q)))
            && (fetched.result.Success? && fetched.result.value.Some? ==>
                  var lookup := fetched.result.value.value;
                  var key := ResponseKey(config.digest, p, lookup.version, q);
                  && (lookup.response.Some? ==> listed.response == lookup.response)
                  && listed.store == if lookup.response.None? && calls.stored && key.Some?
                                     then Stored(fetched.store, key.value, Answer(tasks, p, q), now + config.ttl)
                                     else fetched.store)
  {
    hide Answer, VersionKey, ResponseKey, Fetch, Lookup;
  }

  /** A listing that has no lookup, hits or overflows is over once it has looked. */
  lemma EndedListing(config: Protocol.Config, queries: set<Query>, store: Store, now: Instant, tasks: TaskTable, p: Uuid,
                     q: Query, calls: Calls)
    requires VersionsOk(store) && CollisionFree(config.digest, queries) && q in queries && VersionReadable(store, now, p)
    ensures var fetched := Fetch(config.digest, store, now, p, q, calls);
            var response := if fetched.result.Failure? then None
                            else if fetched.result.value.Some? then fetched.result.value.value.response
                            else Some(Answer(tasks, p, q));
            fetched.result.Failure? || response.Some? ==>
              && Listed(response, fetched.store) == CachedListing(config, store, now, tasks, p, q, calls)
              && Served(config.digest, queries, store, tasks, p, q, Listed(response, fetched.store))
  {
    hide Answer, VersionKey, Fetch, Lookup, CachedListing, Sound, VersionsOk, CollisionFree, ResponseKey;
    ListingFrom(config, store, now, tasks, p, q, calls);
    ListingKeeps(config, queries, store, now, tasks, p, q, calls);
  }

  /** One that misses goes on to answer from the rows and to store that answer under the version it has read. */
  lemma MissedListing(config: Protocol.Config, queries: set<Query>, store: Store, now: Instant, tasks: TaskTable, p: Uuid,
                      q: Query, calls: Calls, applied: bool, after: Store)
    requires VersionsOk(store) && CollisionFree(config.digest, queries) && q in queries && VersionReadable(store, now, p)
    requires var fetched := Fetch(config.digest, store, now, p, q, calls);
             && fetched.result.Success? && fetched.result.value.Some? && fetched.result.value.value.response.None?
             && var key := ResponseKey(config.digest, p, fetched.result.value.value.version, q);
                && key.Some?
                && after == if applied then Stored(fetched.store, key.value, Answer(tasks, p, q), now + config.ttl)
                            else fetched.store
    ensures var listed := Listed(Some(Answer(tasks, p, q)), after);
            && listed == CachedListing(config, store, now, tasks, p, q, calls.(stored := applied))
            && Served(config.digest, queries, store, tasks, p, q, listed)
  {
    hide Answer, VersionKey, Fetch, Lookup, CachedListing, Sound, VersionsOk, CollisionFree, ResponseKey, Stored;
    SameFetch(config.digest, store, now, p, q, calls, calls.(stored := applied));
    ListingFrom(config, store, now, tasks, p, q, calls.(stored := applied));
    ListingKeeps(config, queries, store, now, tasks, p, q, calls.(stored := applied));
  }

  /** What every listing keeps, and what it answers from a sound cache. */
  ghost predicate Served(digest: Digest, queries: set<Query>, before: Store, tasks: TaskTable, p: Uuid, q: Query, listed: Listed) {
    && VersionsOk(listed.store)
    && (Sound(digest, queries, before, tasks) ==>
          && (listed.response.Some? ==> listed.response.value == Answer(tasks, p, q))
          && Sound(digest, queries, listed.store, tasks))
  }

  lemma NothingServed(digest: Digest, queries: set<Query>, store: Store, tasks: TaskTable, p: Uuid, q: Query)
    requires VersionsOk(store)
    ensures Served(digest, queries, store, tasks, p, q, Listed(None, store))
  {
    hide Sound, VersionsOk;
  }

  /**
   The cache does cache: a listing that misses on a Redis that works stores its answer, and the same listing is answered
   from it for the whole lifetime of the page, whatever has become of the rows, as long as nothing is invalidated.
   */
  lemma RepeatIsHit(config: Protocol.Config, store: Store, now: Instant, tasks: TaskTable, p: Uuid, q: Query,
                    later: Instant, newer: TaskTable)
    requires VersionsOk(store) && Printable(q) && now <= later < now + config.ttl
    requires var page := Lookup(store, now, PageKey(config.digest, store, p, q)); page.Some? ==> !page.value.Json?
    ensures VersionReadable(store, now, p)
    ensures var first := CachedListing(config, store, now, tasks, p, q, ALL_WORK);
            && first.response == Some(Answer(tasks, p, q)) && VersionReadable(first.store, later, p)
            && CachedListing(config, first.store, later, newer, p, q, ALL_WORK) == first
  {
    hide VersionKey, Answer, ResponseKey, Printable, CachedListing, VersionsOk, AtMostUnlinked;
    VersionReply(store, now, p);
    CountersApart(config.digest, store, p, q);
    VersionStored(store, p);
    MissStores(config, store, now, tasks, p, q);
    var first := CachedListing(config, store, now, tasks, p, q, ALL_WORK);
    HitReturns(config, first.store, later, newer, p, q, Answer(tasks, p, q));
  }

  lemma VersionStored(store: Store, p: Uuid)
    requires VersionsOk(store)
    ensures VersionNumber(store, p)
  {
    hide VersionKey;
  }

  predicate VersionNumber(store: Store, p: Uuid) {
    VersionKey(p) in store ==> store[VersionKey(p)].value.Number? && store[VersionKey(p)].expiresAt.None?
  }

  lemma MissStores(config: Protocol.Config, store: Store, now: Instant, tasks: TaskTable, p: Uuid, q: Query)
    requires VersionNumber(store, p) && VersionReadable(store, now, p) && Printable(q)
    requires VersionKey(p) != PageKey(config.digest, store, p, q)
    requires var page := Lookup(store, now, PageKey(config.digest, store, p, q)); page.Some? ==> !page.value.Json?
    ensures var first := CachedListing(config, store, now, tasks, p, q, ALL_WORK);
            var key := PageKey(config.digest, store, p, q);
            && first.response == Some(Answer(tasks, p, q)) && VersionNumber(first.store, p)
            && Version(first.store, p) == Version(store, p)
            && key in first.store && first.store[key] == Entry(Json(Answer(tasks, p, q)), Some(now + config.ttl))
  {
    hide VersionKey, Answer, ResponseKey, Printable;
    VersionIsDecimal(store, now, p);
  }

  lemma HitReturns(config: Protocol.Config, store: Store, now: Instant, tasks: TaskTable, p: Uuid, q: Query, page: TaskPage)
    requires VersionNumber(store, p) && Printable(q)
    requires Lookup(store, now, PageKey(config.digest, store, p, q)) == Some(Json(page))
    ensures VersionReadable(store, now, p)
    ensures CachedListing(config, store, now, tasks, p, q, ALL_WORK) == Listed(Some(page), store)
  {
    hide VersionKey, Answer, ResponseKey, Printable;
    VersionIsDecimal(store, now, p);
  }

  predicate VersionReadable(store: Store, now: Instant, p: Uuid) {
    Lookup(store, now, VersionKey(p)).Some? ==> !Lookup(store, now, VersionKey(p)).value.Json?
  }

  lemma VersionIsDecimal(store: Store, now: Instant, p: Uuid)
    requires VersionNumber(store, p)
    ensures VersionReadable(store, now, p) && VersionText(Lookup(store, now, VersionKey(p))) == Decimal(Version(store, p))
  {
    hide VersionKey;
    assert Decimal(0) == "0";
  }

  // ---------------------------------------------------------------- the cache

  class RedisTaskListCache {
    const redis: RedisServer
    const config: Protocol.Config

    constructor (redis: RedisServer, config: Protocol.Config)
      ensures this.redis == redis && this.config == config
    {
      this.redis, this.config := redis, config;
    }

    /**
     Reads the version, then the page under that version. A Redis error gives no lookup at all; a page that does not
     load is removed if possible and counts as a miss. The overflow of an unprintable key is no Redis error, so it
     escapes whenever the first GET was answered.
     */
    method Get(projectId: Uuid, q: Query)
      returns (result: Result<Option<CacheLookup>, OverflowError>, ghost calls: Calls)
      requires VersionsOk(redis.store)
      modifies redis`store, redis`answers
      ensures Fetched(result, redis.store) == Fetch(config.digest, old(redis.store), redis.now, projectId, q, calls)
      ensures |redis.answers| > |old(redis.answers)| && redis.answers[..|old(redis.answers)|] == old(redis.answers)
      ensures calls.version == redis.answers[|old(redis.answers)|]
      ensures redis.up ==> calls == ALL_WORK
      ensures result.Failure? <==> redis.answers[|old(redis.answers)|] && !Printable(q)
      ensures result.Failure? ==> redis.store == old(redis.store)
      ensures result.Success? ==> Got(config.digest, old(redis.store), redis.store, redis.now, projectId, q, result.value)
    {
      hide VersionKey, Printable, VersionText, Got, VersionsOk, Lookup, FetchPage;
      VersionReply(redis.store, redis.now, projectId);
      calls := if redis.up then ALL_WORK else Calls(false, false, false, false);
      var reply := redis.Get(VersionKey(projectId));
      calls := calls.(version := reply.Success?);
      if reply.Failure? {
        result := Success(None);
      } else {
        var version := VersionText(reply.value);
        result, calls := GetPage(projectId, q, version, calls);
      }
      FetchGot(config.digest, old(redis.store), redis.now, projectId, q, calls);
    }

    /** The second half, under the version just read. */
    method GetPage(projectId: Uuid, q: Query, version: string, ghost begun: Calls)
      returns (result: Result<Option<CacheLookup>, OverflowError>, ghost calls: Calls)
      requires begun.version
      modifies redis`store, redis`answers
      ensures Fetched(result, redis.store) == FetchPage(config.digest, old(redis.store), redis.now, projectId, q, version, calls)
      ensures calls.version && old(redis.answers) <= redis.answers
      ensures redis.up && begun == ALL_WORK ==> calls == ALL_WORK
    {
      hide Printable, ProjectPrefix, VersionedName, Lookup;
      calls := begun;
      var key := ResponseKey(config.digest, projectId, version, q);
      if key.None? {
        return Failure(OverflowError), calls;
      }
      var cached := redis.Get(key.value);
      calls := calls.(page := cached.Success?);
      if cached.Failure? {
        return Success(None), calls;
      }
      if cached.value.None? {
        return Success(Some(CacheLookup(version, None))), calls;
      }
      if cached.value.value.Json? {
        return Success(Some(CacheLookup(version, Some(cached.value.value.page)))), calls;
      }
      var _, applied := redis.Unlink(key.value);
      calls := calls.(unlinked := applied);
      return Success(Some(CacheLookup(version, None))), calls;
    }

    method Set(projectId: Uuid, q: Query, version: string, response: TaskPage) returns (ghost applied: bool)
      requires Printable(q)
      modifies redis`store
      ensures redis.store == if applied
                             then Stored(old(redis.store), ResponseKey(config.digest, projectId, version, q).value, response,
                                         redis.now + config.ttl)
                             else old(redis.store)
      ensures redis.up ==> applied
    {
      hide ProjectPrefix, VersionedName, Fingerprint, Stored, Printable;
      var _, reached := redis.Set(ResponseKey(config.digest, projectId, version, q).value, response, config.ttl);
      applied := reached;
    }

    /** A failed INCR is logged and otherwise ignored. */
    method InvalidateProject(projectId: Uuid) returns (ghost times: nat)
      modifies redis`store
      ensures redis.store == Bumped(old(redis.store), redis.now, VersionKey(projectId), times)
      ensures redis.reliable ==> times >= 1
      ensures redis.up ==> times == 1
    {
      var _, applied := redis.Incr(VersionKey(projectId));
      times := applied;
    }
  }

  /** Bumping a well-formed counter adds to it and touches nothing else. */
  lemma {:induction false} BumpedCounter(store: Store, now: Instant, p: Uuid, times: nat)
    requires VersionsOk(store) && times >= 1
    ensures Bumped(store, now, VersionKey(p), times)
              == store[VersionKey(p) := Entry(Number(Version(store, p) + times), None)]
  {
    hide VersionKey;
    if times > 1 {
      BumpedCounter(store, now, p, times - 1);
    }
  }
}
