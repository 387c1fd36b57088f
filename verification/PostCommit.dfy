/** Callbacks that a request queues while it works and that run only after its transaction has been committed. */
module PostCommit {
  import opened Clock
  import opened Domain
  import opened TaskListKeys
  import opened Redis
  import TaskListCache
  import Background

  /** What a request does once its service call has ended, in order. */
  datatype Event = TransactionCommitted | TransactionRolledBack | SessionClosed | Called(callback: Callback)

  function Calls(callbacks: seq<Callback>): (events: seq<Event>)
    ensures |events| == |callbacks| && forall i :: 0 <= i < |callbacks| ==> events[i] == Called(callbacks[i])
  {
    seq(|callbacks|, i requires 0 <= i < |callbacks| => Called(callbacks[i]))
  }

  function Notices(callbacks: seq<Callback>): seq<Notification> {
    if callbacks == [] then []
    else Notices(callbacks[..|callbacks| - 1])
         + if callbacks[|callbacks| - 1].Dispatch? then [callbacks[|callbacks| - 1].notice] else []
  }

  /** What one callback does to Redis when its INCR is applied the given number of times. */
  function AfterCall(store: Store, now: Instant, callback: Callback, times: nat): Store {
    match callback
    case Dispatch(_) => store
    case Invalidate(project) => Bumped(store, now, VersionKey(project), times)
  }

  function AfterCalls(store: Store, now: Instant, callbacks: seq<Callback>, times: seq<nat>): Store
    requires |times| == |callbacks|
  {
    if callbacks == [] then store else
      var last := |callbacks| - 1;
      AfterCall(AfterCalls(store, now, callbacks[..last], times[..last]), now, callbacks[last], times[last])
  }

  /** Where callbacks take effect: the cache, and the dispatcher with the mails it has accepted. */
  class Effects {
    const cache: TaskListCache.RedisTaskListCache
    const dispatcher: Background.BackgroundTaskDispatcher
    var mails: seq<Notification>
    ghost var events: seq<Event>

    constructor (cache: TaskListCache.RedisTaskListCache, dispatcher: Background.BackgroundTaskDispatcher)
      ensures this.cache == cache && this.dispatcher == dispatcher && mails == [] && events == []
    {
      this.cache, this.dispatcher := cache, dispatcher;
      mails, events := [], [];
    }

    ghost method Note(event: Event)
      modifies this`events
      ensures events == old(events) + [event]
    {
      events := events + [event];
    }

    /** One callback. A dispatch raises when the dispatcher is shutting down; an invalidation never raises. */
    method Call(callback: Callback) returns (raised: bool, ghost times: nat)
      modifies this, cache.redis`store, dispatcher
      ensures events == old(events) + [Called(callback)]
      ensures raised <==> callback.Dispatch? && !old(dispatcher.accepting)
      ensures dispatcher.accepting == old(dispatcher.accepting)
      ensures mails == old(mails) + if callback.Dispatch? && !raised then [callback.notice] else []
      ensures cache.redis.store == AfterCall(old(cache.redis.store), cache.redis.now, callback, times)
      ensures cache.redis.reliable ==> times >= 1
      ensures cache.redis.up ==> times == 1
      ensures if callback.Dispatch? && !raised
              then exists j :: j !in old(dispatcher.jobs) && Submits(old(dispatcher.View()), j, dispatcher.View())
              else dispatcher.View() == old(dispatcher.View())
      ensures |dispatcher.jobs| == |old(dispatcher.jobs)| + if callback.Dispatch? && !raised then 1 else 0
    {
      Note(Called(callback));
      match callback {
        case Invalidate(project) =>
          times := cache.InvalidateProject(project);
          raised := false;
        case Dispatch(notice) =>
          FreshJob(dispatcher.jobs.Keys);
          var j: nat :| j !in dispatcher.jobs;
          var submitted := dispatcher.Submit(j);
          raised, times := submitted.Failure?, 1;
          assert !raised ==> Submits(old(dispatcher.View()), j, dispatcher.View());
          assert !raised ==> dispatcher.jobs == old(dispatcher.jobs)[j := dispatcher.jobs[j]];
          if !raised {
            mails := mails + [notice];
          }
      }
    }
  }

  /** The dispatcher has accepted one more task. */
  ghost predicate Submits(before: Background.State, j: nat, after: Background.State) {
    Background.Next(before, Background.Submit(j)).Some? && Background.Next(before, Background.Submit(j)).value == after
  }

  lemma {:induction false} FreshJob(taken: set<nat>)
    ensures exists j: nat :: j !in taken
  {
    var top := Above(taken);
    assert top !in taken;
  }

  lemma {:induction false} Above(taken: set<nat>) returns (top: nat)
    ensures forall j :: j in taken ==> j < top
  {
    if taken == {} {
      top := 0;
    } else {
      var some :| some in taken;
      var rest := Above(taken - {some});
      top := if rest > some then rest else some + 1;
      assert forall j :: j in taken ==> j == some || j in taken - {some};
    }
  }

  lemma NoCalls(store: Store, now: Instant, callbacks: seq<Callback>)
    ensures Calls(callbacks[..0]) == [] && Notices(callbacks[..0]) == [] && AfterCalls(store, now, callbacks[..0], []) == store
  {
  }

  /** One more callback of the queue has been called. */
  lemma OneMoreCall(store: Store, now: Instant, callbacks: seq<Callback>, i: nat, times: seq<nat>, applied: nat)
    requires i < |callbacks| && |times| == i
    ensures Calls(callbacks[..i + 1]) == Calls(callbacks[..i]) + [Called(callbacks[i])]
    ensures Notices(callbacks[..i + 1])
              == Notices(callbacks[..i]) + if callbacks[i].Dispatch? then [callbacks[i].notice] else []
    ensures AfterCalls(store, now, callbacks[..i + 1], times + [applied])
              == AfterCall(AfterCalls(store, now, callbacks[..i], times), now, callbacks[i], applied)
  {
    hide AfterCall;
    assert callbacks[..i + 1][..i] == callbacks[..i] && (times + [applied])[..i] == times;
  }

  class PostCommitActions {
    var callbacks: seq<Callback>

    constructor ()
      ensures callbacks == []
    {
      callbacks := [];
    }

    method Add(callback: Callback)
      modifies this
      ensures callbacks == old(callbacks) + [callback]
    {
      callbacks := callbacks + [callback];
    }

    /** Swaps the queue out, then calls every callback once, in order, whether or not earlier ones raised. */
    method Run(effects: Effects) returns (raised: nat, ghost times: seq<nat>)
      modifies this, effects, effects.cache.redis`store, effects.dispatcher
      ensures callbacks == []
      ensures effects.events == old(effects.events) + Calls(old(callbacks))
      ensures effects.mails == old(effects.mails) + if old(effects.dispatcher.accepting) then Notices(old(callbacks)) else []
      ensures effects.dispatcher.accepting == old(effects.dispatcher.accepting)
      ensures raised == if old(effects.dispatcher.accepting) then 0 else |Notices(old(callbacks))|
      ensures |effects.dispatcher.jobs| - |old(effects.dispatcher.jobs)| == |effects.mails| - |old(effects.mails)|
      ensures |times| == |old(callbacks)|
      ensures effects.cache.redis.up ==> forall i :: 0 <= i < |times| ==> times[i] == 1 || old(callbacks)[i].Dispatch?
      ensures effects.cache.redis.store
                == AfterCalls(old(effects.cache.redis.store), effects.cache.redis.now, old(callbacks), times)
      ensures effects.cache.redis.reliable ==> forall i :: 0 <= i < |times| ==> times[i] >= 1
    {
      hide Calls, Notices, AfterCalls, AfterCall;
      var queue := callbacks;
      callbacks := [];
      raised, times := 0, [];
      NoCalls(effects.cache.redis.store, effects.cache.redis.now, queue);
      var i := 0;
      while i < |queue|
        invariant 0 <= i <= |queue| && callbacks == []
        invariant effects.events == old(effects.events) + Calls(queue[..i])
        invariant effects.mails == old(effects.mails) + if old(effects.dispatcher.accepting) then Notices(queue[..i]) else []
        invariant effects.dispatcher.accepting == old(effects.dispatcher.accepting)
        invariant raised == if old(effects.dispatcher.accepting) then 0 else |Notices(queue[..i])|
        invariant |effects.dispatcher.jobs| - |old(effects.dispatcher.jobs)| == |effects.mails| - |old(effects.mails)|
        invariant |times| == i && (effects.cache.redis.up ==> forall k :: 0 <= k < i ==> times[k] == 1 || queue[k].Dispatch?)
        invariant effects.cache.redis.reliable ==> forall k :: 0 <= k < i ==> times[k] >= 1
        invariant effects.cache.redis.store
                    == AfterCalls(old(effects.cache.redis.store), effects.cache.redis.now, queue[..i], times)
      {
        var failed, applied := effects.Call(queue[i]);
        if failed {
          raised := raised + 1;
        }
        OneMoreCall(old(effects.cache.redis.store), effects.cache.redis.now, queue, i, times, applied);
        times := times + [applied];
        i := i + 1;
      }
      assert queue[..i] == queue;
    }
  }
}
