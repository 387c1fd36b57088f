/** Whole requests, one after the other: session scope, services, callbacks, and the cache between them. */
module Application {
  import opened Wrappers
  import opened Clock
  import opened Domain
  import opened TaskListing
  import opened TaskListKeys
  import opened Redis
  import opened ServiceRules
  import opened ServiceProperties
  import opened TaskListCache
  import opened PostCommit
  import opened Services
  import opened RequestRuns

  /** One invalidation, or none, restores soundness after a commit that changed at most the target's rows. */
  lemma CommittedSound(digest: Digest, queries: set<Query>, store: Store, now: Instant, before: Database, actor: User, op: Operation, newId: Uuid,
                       at: Instant, times: seq<nat>, reliable: bool)
    requires FreshId(before, newId) && Execute(before, actor, op, newId, at).Performed? && VersionsOk(store)
    requires |times| == |Execute(before, actor, op, newId, at).callbacks|
    requires reliable ==> forall i :: 0 <= i < |times| ==> times[i] >= 1
    ensures var outcome := Execute(before, actor, op, newId, at);
            var after := AfterCalls(store, now, outcome.callbacks, times);
            && VersionsOk(after)
            && (reliable && Sound(digest, queries, store, before.tasks) ==> Sound(digest, queries, after, outcome.db.tasks))
  {
    hide Execute, TasksOf, AfterCalls, Target, VersionsOk, Sound;
    var outcome := Execute(before, actor, op, newId, at);
    QueueShape(before, actor, op, newId, at);
    CallsBumpOnce(store, now, outcome.callbacks, times);
    if outcome.callbacks == [] {
      LabelsLeaveTasks(before, actor, op, newId, at);
    } else {
      var p := Target(before, op).value;
      BumpKeepsVersions(store, now, p, times[0]);
      if reliable && Sound(digest, queries, store, before.tasks) {
        forall other | other != p
          ensures TasksOf(outcome.db.tasks, other) == TasksOf(before.tasks, other)
        {
          OthersKeepTasks(before, actor, op, newId, at, other);
        }
        BumpedOnceSound(digest, queries, store, now, before.tasks, outcome.db.tasks, p, times[0]);
      }
    }
  }

  lemma BumpedOnceSound(digest: Digest, queries: set<Query>, store: Store, now: Instant, tasks: TaskTable, changed: TaskTable, p: Uuid, times: nat)
    requires Sound(digest, queries, store, tasks) && times >= 1
    requires forall other :: other != p ==> TasksOf(changed, other) == TasksOf(tasks, other)
    ensures Sound(digest, queries, Bumped(store, now, VersionKey(p), times), changed)
  {
    hide TasksOf, VersionKey, PagesOk, VersionsOk, Version;
    BumpedCounter(store, now, p, times);
    BumpedSound(digest, queries, store, tasks, changed, p, Version(store, p) + times);
  }

  lemma BumpKeepsVersions(store: Store, now: Instant, p: Uuid, times: nat)
    requires VersionsOk(store)
    ensures VersionsOk(Bumped(store, now, VersionKey(p), times))
  {
  }

  lemma CallsBumpOnce(store: Store, now: Instant, callbacks: seq<Callback>, times: seq<nat>)
    requires |times| == |callbacks| <= 2 && (callbacks == [] || callbacks[0].Invalidate?)
    requires |callbacks| == 2 ==> callbacks[1].Dispatch?
    ensures AfterCalls(store, now, callbacks, times)
              == if callbacks == [] then store else Bumped(store, now, VersionKey(callbacks[0].project), times[0])
  {
    hide Bumped, VersionKey;
    if callbacks != [] {
      assert callbacks[..1][..0] == [] && times[..1][..0] == [];
      if |callbacks| == 2 {
        assert callbacks[..1][0] == callbacks[0] && times[..1][0] == times[0];
      }
    }
  }

  class Application {
    var committed: Database
    const effects: Effects
    ghost const queries: set<Query>       // the listing queries in use

    ghost predicate Valid()
      reads this, effects.cache.redis
    {
      && VersionsOk(effects.cache.redis.store)
      && CollisionFree(effects.cache.config.digest, queries)
      && (effects.cache.redis.reliable ==> Sound(effects.cache.config.digest, queries, effects.cache.redis.store, committed.tasks))
    }

    /** An empty Redis is sound for any rows. */
    constructor (committed: Database, effects: Effects, ghost queries: set<Query>)
      requires effects.cache.redis.store == map[] && CollisionFree(effects.cache.config.digest, queries)
      ensures this.committed == committed && this.effects == effects && this.queries == queries && Valid()
    {
      this.committed, this.effects, this.queries := committed, effects, queries;
    }

    /**
     `get_db` around a service call: an exception rolls back and closes; otherwise commit, close and then callbacks.
     A failed commit rolls back, and its callbacks never run.
     */
    method GetDb(session: Session, postCommit: PostCommitActions, raised: bool)
      returns (delivered: bool, ghost times: seq<nat>)
      modifies this, postCommit, effects, effects.cache.redis`store, effects.dispatcher
      ensures raised ==> !delivered
      ensures committed == if delivered then session.db else old(committed)
      ensures effects.events == old(effects.events) + Concluded(delivered, old(postCommit.callbacks))
      ensures delivered ==> |times| == |old(postCommit.callbacks)|
      ensures delivered ==>
                effects.cache.redis.store
                  == AfterCalls(old(effects.cache.redis.store), effects.cache.redis.now, old(postCommit.callbacks), times)
      ensures delivered && effects.cache.redis.reliable ==> forall i :: 0 <= i < |times| ==> times[i] >= 1
      ensures !delivered ==> effects.cache.redis.store == old(effects.cache.redis.store)
    {
      hide Notices, AfterCalls, Bumped, VersionKey;
      times := [];
      delivered := false;
      if !raised {
        delivered := *;
      }
      if !delivered {
        effects.Note(TransactionRolledBack);
        effects.Note(SessionClosed);
        return;
      }
      committed := session.db;
      effects.Note(TransactionCommitted);
      effects.Note(SessionClosed);
      var _, applied := postCommit.Run(effects);
      times := applied;
    }

    /** Routes an operation to its service. */
    method CallService(session: Session, postCommit: PostCommitActions, actor: User, op: Operation, newId: Uuid, now: Instant)
      returns (error: Option<ServiceError>)
      requires FreshId(session.db, newId) && postCommit.callbacks == []
      modifies session, postCommit
      ensures Follows(Execute(old(session.db), actor, op, newId, now), old(session.db), session.db, [],
                      postCommit.callbacks, error)
    {
      var access := new AccessChecks(session);
      var labels := new LabelService(session, access);
      var tasks := new TaskService(session, access, effects.cache, postCommit);
      var pairs := new TaskLabelService(session, access, postCommit);
      match op {
        case CreateTask(projectId, draft) =>
          var created := tasks.CreateTask(projectId, actor, draft, newId, now);
          return ErrorOf(created);
        case UpdateTask(taskId, patch) =>
          var updated := tasks.UpdateTask(taskId, actor, patch, now);
          return ErrorOf(updated);
        case DeleteTask(taskId) =>
          var deleted := tasks.DeleteTask(taskId, actor);
          return ErrorOf(deleted);
        case CreateLabel(projectId, name, color) =>
          var created := labels.CreateLabel(projectId, actor, name, color, newId);
          return ErrorOf(created);
        case UpdateLabel(labelId, change) =>
          var updated := labels.UpdateLabel(labelId, actor, change);
          return ErrorOf(updated);
        case DeleteLabel(labelId) =>
          var deleted := labels.DeleteLabel(labelId, actor);
          return ErrorOf(deleted);
        case AssignLabel(taskId, labelId) =>
          var added := pairs.AssignLabel(taskId, labelId, actor);
          return ErrorOf(added);
        case RemoveLabel(taskId, labelId) =>
          var removed := pairs.RemoveLabel(taskId, labelId, actor);
          return ErrorOf(removed);
      }
    }

    /** What a committed operation leaves in Redis: its callbacks' INCRs, each applied the given number of times. */
    ghost predicate LeftInRedis(outcome: Outcome, delivered: bool, before: Store, after: Store, now: Instant, times: seq<nat>) {
      if outcome.Performed? && delivered
      then |times| == |outcome.callbacks| && after == AfterCalls(before, now, outcome.callbacks, times)
      else after == before
    }

    method Mutate(actor: User, op: Operation, newId: Uuid, now: Instant)
      returns (reply: Reply, ghost fate: Fate, ghost times: seq<nat>)
      requires Valid() && FreshId(committed, newId)
      modifies this, effects, effects.cache.redis`store, effects.dispatcher
      ensures Valid()
      ensures !fate.answered
      ensures Handled(committed, reply, effects.events)
                == var h := Handle(old(committed), Mutation(actor, op, newId, now), fate);
                   h.(events := old(effects.events) + h.events)
      ensures LeftInRedis(Execute(old(committed), actor, op, newId, now), fate.commits, old(effects.cache.redis.store),
                     effects.cache.redis.store, effects.cache.redis.now, times)
    {
      hide Execute, Sound, VersionsOk, CollisionFree, AfterCalls;
      var session := new Session(committed);
      var postCommit := new PostCommitActions();
      var error := CallService(session, postCommit, actor, op, newId, now);
      ghost var queue := postCommit.callbacks;
      ghost var store := effects.cache.redis.store;
      var delivered, applied := GetDb(session, postCommit, error.Some?);
      reply := if error.Some? then Failed(error.value) else Finished;
      fate, times := Fate(delivered, false), applied;
      if delivered {
        assert queue == Execute(old(committed), actor, op, newId, now).callbacks;
        CommittedSound(effects.cache.config.digest, queries, store, effects.cache.redis.now, old(committed), actor, op, newId,
                       now, times, effects.cache.redis.reliable);
      }
    }

    /** Whether the first GET since `before` GETs were logged has been answered. */
    ghost predicate FirstAnswered(before: seq<bool>, after: seq<bool>) {
      |after| > |before| && after[|before|]
    }

    method List(userId: Uuid, projectId: Uuid, query: Query) returns (reply: Reply, ghost fate: Fate)
      requires Valid() && query in queries
      modifies this, effects, effects.cache.redis`store, effects.cache.redis`answers, effects.dispatcher
      ensures Valid() && committed == old(committed)
      ensures old(effects.cache.redis.answers) <= effects.cache.redis.answers
      ensures fate.answered == FirstAnswered(old(effects.cache.redis.answers), effects.cache.redis.answers)
      ensures AsksRedis(committed, Listing(userId, projectId, query)) <==>
                effects.cache.redis.answers != old(effects.cache.redis.answers)
      ensures var h := Handle(committed, Listing(userId, projectId, query), fate);
              && effects.events == old(effects.events) + h.events
              && reply.Page? == h.reply.Page?
              && (effects.cache.redis.reliable || !reply.Page? ==> reply == h.reply)
    {
      hide Sound, VersionsOk, CollisionFree, Answer, CachedListing;
      var session := new Session(committed);
      var postCommit := new PostCommitActions();
      var access := new AccessChecks(session);
      var tasks := new TaskService(session, access, effects.cache, postCommit);
      var result, calls := tasks.ListTasks(projectId, userId, query, queries);
      fate := Fate(false, FirstAnswered(old(effects.cache.redis.answers), effects.cache.redis.answers));
      var delivered, times := GetDb(session, postCommit, result.Failure?);
      fate := fate.(commits := delivered);
      match result {
        case Success(page) => reply := Page(page);
        case Failure(Denied(error)) => reply := Failed(error);
        case Failure(KeyOverflow) => reply := Overflowed;
      }
    }

    /** Another service commits; no callback is queued. */
    method Otherwise(r: Request) returns (reply: Reply, ghost fate: Fate)
      requires Valid() && r.Elsewhere?
      modifies this, effects, effects.cache.redis`store, effects.dispatcher
      ensures Valid() && !fate.answered
      ensures Handled(committed, reply, effects.events)
                == var h := Handle(old(committed), r, fate); h.(events := old(effects.events) + h.events)
    {
      hide Sound, VersionsOk, CollisionFree;
      var session := new Session(WithElsewhere(committed, r));
      var postCommit := new PostCommitActions();
      var delivered, times := GetDb(session, postCommit, false);
      reply := Finished;
      fate := Fate(delivered, false);
    }

    /** Between requests Redis may lose and spoil pages as it likes. */
    method Weather()
      requires Valid()
      modifies effects.cache.redis`now, effects.cache.redis`store
      ensures Valid()
    {
      var elapsed: nat, dropped: set<string>, spoiled: map<string, string> := *, *, *;
      ghost var before := effects.cache.redis.store;
      effects.cache.redis.Pass(elapsed, dropped, spoiled);
      WeatherSound(effects.cache.config.digest, queries, before, effects.cache.redis.store, committed.tasks);
    }

    /**
     The cached application refines the uncached one. Over any sequence of complete requests, with evictions, spoiled
     payloads and failing GET, SET and UNLINK, the rows and the callbacks are those of the reference run; every answer
     is the reference answer too, as long as no INCR is lost. `windows` splits the log of GETs by request: empty unless the
     request is a listing of a project its user can see. So a listing overflows exactly when its own first GET was answered
     and its key cannot be printed.
     */
    method Serve(requests: seq<Request>)
      returns (replies: seq<Reply>, ghost fates: seq<Fate>, ghost windows: seq<seq<bool>>)
      requires Valid() && DistinctIds(committed, requests)
      requires forall i :: 0 <= i < |requests| && requests[i].Listing? ==> requests[i].query in queries
      modifies this, effects, effects.cache.redis, effects.dispatcher
      ensures Valid() && |replies| == |fates| == |windows| == |requests|
      ensures effects.cache.redis.answers == old(effects.cache.redis.answers) + Joined(windows)
      ensures WindowsFit(old(committed), requests, fates, windows)
      ensures committed == Replay(old(committed), requests, fates).db
      ensures effects.events == old(effects.events) + Replay(old(committed), requests, fates).events
      ensures var reference := Replay(old(committed), requests, fates).replies;
              forall i :: 0 <= i < |requests| ==> Matched(effects.cache.redis.reliable, replies[i], reference[i])
    {
      hide Handle, Valid, Matched, FreshId, Replay, Joined, AsksRedis, WindowsFit;
      replies, fates, windows := [], [], [];
      assert requests[..0] == [];
      NoWindowsFit(committed, requests);
      NothingReplayed(committed);
      var i := 0;
      while i < |requests|
        invariant 0 <= i <= |requests| && |replies| == |fates| == |windows| == i && Valid()
        invariant effects.cache.redis.answers == old(effects.cache.redis.answers) + Joined(windows)
        invariant WindowsFit(old(committed), requests, fates, windows)
        invariant committed == Replay(old(committed), requests[..i], fates).db
        invariant effects.events == old(effects.events) + Replay(old(committed), requests[..i], fates).events
        invariant var reference := Replay(old(committed), requests[..i], fates).replies;
                  forall k :: 0 <= k < i ==> Matched(effects.cache.redis.reliable, replies[k], reference[k])
      {
        Weather();
        if requests[i].Mutation? {
          IdIsFresh(old(committed), requests, fates, i);
        }
        var reply, fate, window := HandleOne(requests[i]);
        OneMoreReplayed(old(committed), requests, fates, i, fate);
        OneMoreJoined(windows, window);
        OneMoreFits(old(committed), requests, fates, windows, fate, window);
        replies, fates, windows := replies + [reply], fates + [fate], windows + [window];
        i := i + 1;
      }
      assert requests[..i] == requests;
    }

    method HandleOne(r: Request) returns (reply: Reply, ghost fate: Fate, ghost window: seq<bool>)
      requires Valid() && (r.Mutation? ==> FreshId(committed, r.newId)) && (r.Listing? ==> r.query in queries)
      modifies this, effects, effects.cache.redis`store, effects.cache.redis`answers, effects.dispatcher
      ensures Valid()
      ensures effects.cache.redis.answers == old(effects.cache.redis.answers) + window
      ensures fate.answered == (window != [] && window[0])
      ensures window != [] <==> AsksRedis(old(committed), r)
      ensures var h := Handle(old(committed), r, fate);
              && committed == h.db && effects.events == old(effects.events) + h.events
              && Matched(effects.cache.redis.reliable, reply, h.reply)
    {
      window := [];
      match r {
        case Mutation(actor, op, newId, now) =>
          ghost var times;
          reply, fate, times := Mutate(actor, op, newId, now);
        case Listing(userId, projectId, query) =>
          reply, fate := List(userId, projectId, query);
          window := effects.cache.redis.answers[|old(effects.cache.redis.answers)|..];
        case Elsewhere(_, _, _, _) =>
          reply, fate := Otherwise(r);
      }
    }
  }

  lemma NothingReplayed(db: Database)
    ensures Replay(db, [], []) == Replayed(db, [], []) && Joined([]) == []
  {
  }

  lemma OneMoreReplayed(db: Database, requests: seq<Request>, fates: seq<Fate>, i: nat, fate: Fate)
    requires i < |requests| && |fates| == i
    ensures var before := Replay(db, requests[..i], fates);
            var step := Handle(before.db, requests[i], fate);
            Replay(db, requests[..i + 1], fates + [fate])
              == Replayed(step.db, before.replies + [step.reply], before.events + step.events)
  {
    hide Handle;
    assert requests[..i + 1][..i] == requests[..i] && (fates + [fate])[..i] == fates;
  }

  /** The GETs of each request so far: some exactly for a listing of a project its user can see, with the fate of the first. */
  ghost predicate WindowsFit(db: Database, requests: seq<Request>, fates: seq<Fate>, windows: seq<seq<bool>>)
    requires |windows| == |fates| <= |requests|
  {
    forall i :: 0 <= i < |windows| ==>
      && (windows[i] != [] <==> AsksRedis(Replay(db, requests[..i], fates[..i]).db, requests[i]))
      && fates[i].answered == (windows[i] != [] && windows[i][0])
  }

  lemma NoWindowsFit(db: Database, requests: seq<Request>)
    ensures WindowsFit(db, requests, [], [])
  {
  }

  lemma OneMoreFits(db: Database, requests: seq<Request>, fates: seq<Fate>, windows: seq<seq<bool>>, fate: Fate, window: seq<bool>)
    requires |windows| == |fates| < |requests| && WindowsFit(db, requests, fates, windows)
    requires window != [] <==> AsksRedis(Replay(db, requests[..|fates|], fates).db, requests[|fates|])
    requires fate.answered == (window != [] && window[0])
    ensures WindowsFit(db, requests, fates + [fate], windows + [window])
  {
    hide AsksRedis, Replay;
    assert fates[..|fates|] == fates;
    assert forall i :: 0 <= i <= |fates| ==> (fates + [fate])[..i] == fates[..i];
  }

  lemma OneMoreJoined(windows: seq<seq<bool>>, window: seq<bool>)
    ensures Joined(windows + [window]) == Joined(windows) + window
  {
    assert (windows + [window])[..|windows|] == windows;
  }

  function Joined(windows: seq<seq<bool>>): seq<bool> {
    if windows == [] then [] else Joined(windows[..|windows| - 1]) + windows[|windows| - 1]
  }

  /** A page may only differ from the reference when INCRs can be lost. */
  predicate Matched(reliable: bool, reply: Reply, reference: Reply) {
    reply.Page? == reference.Page? && (reliable || !reply.Page? ==> reply == reference)
  }

  lemma IdIsFresh(db: Database, requests: seq<Request>, fates: seq<Fate>, i: nat)
    requires DistinctIds(db, requests) && i < |requests| && |fates| == i && requests[i].Mutation?
    ensures FreshId(Replay(db, requests[..i], fates).db, requests[i].newId)
  {
    StaysFresh(db, requests[..i], fates, requests[i].newId);
  }

  lemma WeatherSound(digest: Digest, queries: set<Query>, before: Store, after: Store, tasks: TaskTable)
    requires VersionsOk(before)
    requires forall key :: key in after ==> key in before
    requires forall key :: key in before && before[key].expiresAt.None? ==> key in after && after[key] == before[key]
    requires forall key :: key in after && after[key].value.Json? ==> after[key] == before[key]
    ensures VersionsOk(after) && (Sound(digest, queries, before, tasks) ==> Sound(digest, queries, after, tasks))
  {
    hide VersionKey, PagesOk;
    if Sound(digest, queries, before, tasks) {
      FewerPagesSound(digest, queries, before, after, tasks);
    }
  }
}
