/** The shared Redis connection: concurrent calls of `init_redis`, with double-checked locking across awaits. */
module RedisClient {
  import opened Wrappers

  type Client = nat

  datatype Call =
    | WantLock
    | Pinging(client: Client)          // holds the lock
    | Closing(client: Client)          // holds the lock, the ping has failed
    | Returned(client: Client)
    | Raised

  datatype State = State(
    shared: Option<Client>,            // `redis_client`
    holder: Option<nat>,               // who holds `redis_init_lock`
    calls: map<nat, Call>,
    created: set<Client>,
    closed: set<Client>,
    published: seq<Client>)            // history: every assignment to `redis_client`

  function Initial(): State {
    State(None, None, map[], {}, {}, [])
  }

  datatype Action =
    | Start(i: nat)
    | Acquire(i: nat, creates: Option<Client>)
    | Ping(i: nat, ok: bool)
    | Close(i: nat)

  function With(s: State, i: nat, call: Call): State {
    s.(calls := s.calls[i := call])
  }

  /** The check outside the lock. */
  function AfterStart(s: State, i: nat): Option<State> {
    if i in s.calls then None
    else Some(With(s, i, if s.shared.Some? then Returned(s.shared.value) else WantLock))
  }

  /** The lock is granted, the check is repeated, and a client is built; building it may raise. */
  function AfterAcquire(s: State, i: nat, creates: Option<Client>): Option<State> {
    if i !in s.calls || !s.calls[i].WantLock? || s.holder.Some? then None
    else if s.shared.Some? then Some(With(s, i, Returned(s.shared.value)))
    else if creates.None? then Some(With(s, i, Raised))
    else if creates.value in s.created then None
    else Some(With(s, i, Pinging(creates.value)).(holder := Some(i), created := s.created + {creates.value}))
  }

  function AfterPing(s: State, i: nat, ok: bool): Option<State> {
    if i !in s.calls || !s.calls[i].Pinging? then None else
      var client := s.calls[i].client;
      if !ok then Some(With(s, i, Closing(client)))
      else Some(With(s, i, Returned(client)).(shared := Some(client), holder := None, published := s.published + [client]))
  }

  function AfterClose(s: State, i: nat): Option<State> {
    if i !in s.calls || !s.calls[i].Closing? then None
    else Some(With(s, i, Raised).(holder := None, closed := s.closed + {s.calls[i].client}))
  }

  function Next(s: State, a: Action): Option<State> {
    match a
    case Start(i) => AfterStart(s, i)
    case Acquire(i, creates) => AfterAcquire(s, i, creates)
    case Ping(i, ok) => AfterPing(s, i, ok)
    case Close(i) => AfterClose(s, i)
  }

  function Run(s: State, actions: seq<Action>): Option<State> {
    if actions == [] then Some(s) else
      var before := Run(s, actions[..|actions| - 1]);
      if before.None? then None else Next(before.value, actions[|actions| - 1])
  }

  // ---------------------------------------------------------------- the invariant

  /** Only the lock holder has a client of its own, and only while nothing is published. */
  ghost predicate CallOk(s: State, i: nat)
    requires i in s.calls
  {
    match s.calls[i]
    case WantLock => true
    case Pinging(client) => s.holder == Some(i) && s.shared.None? && client in s.created && client !in s.closed
    case Closing(client) => s.holder == Some(i) && s.shared.None? && client in s.created && client !in s.closed
    case Returned(client) => s.shared == Some(client)
    case Raised => true
  }

  ghost predicate InHand(s: State, client: Client) {
    && s.holder.Some? && s.holder.value in s.calls
    && (s.calls[s.holder.value] == Pinging(client) || s.calls[s.holder.value] == Closing(client))
  }

  ghost predicate Inv(s: State) {
    && s.published == (if s.shared.Some? then [s.shared.value] else [])
    && (s.shared.Some? ==> s.shared.value in s.created && s.shared.value !in s.closed)
    && s.closed <= s.created
    && (forall client :: client in s.created ==> client in s.closed || s.shared == Some(client) || InHand(s, client))
    && (forall i :: i in s.calls ==> CallOk(s, i))
  }

  lemma {:induction false} RunKeeps(actions: seq<Action>)
    requires Run(Initial(), actions).Some?
    ensures Inv(Run(Initial(), actions).value)
  {
    if actions != [] {
      RunKeeps(actions[..|actions| - 1]);
      StepKeeps(Run(Initial(), actions[..|actions| - 1]).value, actions[|actions| - 1]);
    }
  }

  lemma StepKeeps(s: State, a: Action)
    requires Inv(s) && Next(s, a).Some?
    ensures Inv(Next(s, a).value)
  {
  }

  // ---------------------------------------------------------------- main result

  /**
   Single shared client. Whatever the interleaving and whichever pings fail, at most one client is ever published,
   every successful call has returned that one, it is open, and every other client has been closed, or is in the
   hands of the one call that holds the lock.
   */
  lemma SingleSharedClient(actions: seq<Action>, i: nat, client: Client)
    requires Run(Initial(), actions).Some?
    ensures var s := Run(Initial(), actions).value;
            && |s.published| <= 1
            && (i in s.calls && s.calls[i].Returned? ==> s.published == [s.calls[i].client] && s.calls[i].client !in s.closed)
            && (client in s.closed ==> client !in s.published)
            && (client in s.created && client !in s.published ==> client in s.closed || InHand(s, client))
  {
    RunKeeps(actions);
    var s := Run(Initial(), actions).value;
    if i in s.calls {
      assert CallOk(s, i);
    }
  }

  /** Once a client is published, no later step changes it, and a call that starts then returns it at once. */
  lemma {:induction false} PublishedForGood(actions: seq<Action>, more: seq<Action>, i: nat)
    requires Run(Initial(), actions).Some? && Run(Initial(), actions).value.shared.Some?
    requires Run(Run(Initial(), actions).value, more).Some?
    ensures var s := Run(Initial(), actions).value;
            var t := Run(s, more).value;
            && t.shared == s.shared && t.published == s.published && t.created == s.created && Inv(t)
            && (i !in t.calls ==> Next(t, Start(i)).value.calls[i] == Returned(s.shared.value))
  {
    RunKeeps(actions);
    if more != [] {
      PublishedForGood(actions, more[..|more| - 1], i);
      var s := Run(Initial(), actions).value;
      var before := Run(s, more[..|more| - 1]).value;
      StepKeeps(before, more[|more| - 1]);
      PublishedStep(before, more[|more| - 1]);
    }
  }

  lemma PublishedStep(s: State, a: Action)
    requires Inv(s) && s.shared.Some? && Next(s, a).Some?
    ensures var t := Next(s, a).value;
            t.shared == s.shared && t.published == s.published && t.created == s.created
  {
    assert forall i :: i in s.calls ==> CallOk(s, i) && !s.calls[i].Pinging?;
  }

  // ---------------------------------------------------------------- what each call gets

  /** A call that waited while another one published gets that client, and builds none of its own. */
  lemma WaiterGetsPublished(actions: seq<Action>, i: nat, creates: Option<Client>)
    requires Run(Initial(), actions).Some? && Run(Initial(), actions).value.shared.Some?
    requires i in Run(Initial(), actions).value.calls && Run(Initial(), actions).value.calls[i].WantLock?
    ensures var s := Run(Initial(), actions).value;
            Next(s, Acquire(i, creates)) == Some(With(s, i, Returned(s.shared.value)))
  {
    RunKeeps(actions);
    HolderHasClient(actions);
  }

  /** The lock is only ever held by a call that is pinging or closing its own client. */
  lemma {:induction false} HolderHasClient(actions: seq<Action>)
    requires Run(Initial(), actions).Some?
    ensures var s := Run(Initial(), actions).value;
            s.holder.Some? ==> s.holder.value in s.calls && (s.calls[s.holder.value].Pinging? || s.calls[s.holder.value].Closing?)
  {
    if actions != [] {
      HolderHasClient(actions[..|actions| - 1]);
      RunKeeps(actions[..|actions| - 1]);
      HolderStep(Run(Initial(), actions[..|actions| - 1]).value, actions[|actions| - 1]);
    }
  }

  lemma HolderStep(s: State, a: Action)
    requires Inv(s) && Next(s, a).Some?
    requires s.holder.Some? ==> s.holder.value in s.calls && (s.calls[s.holder.value].Pinging? || s.calls[s.holder.value].Closing?)
    ensures var t := Next(s, a).value;
            t.holder.Some? ==> t.holder.value in t.calls && (t.calls[t.holder.value].Pinging? || t.calls[t.holder.value].Closing?)
  {
  }

  /**
   While nothing is published and the lock is free, a call that nobody overtakes builds a client and pings it: if that
   works, its client is published and returned, else it is closed, nothing is published, and the next call may try.
   */
  lemma UninterruptedCall(s: State, i: nat, client: Client, pings: bool)
    requires i !in s.calls && s.shared.None? && s.holder.None? && client !in s.created
    ensures var begun := [Start(i)] + [Acquire(i, Some(client))] + [Ping(i, pings)];
            var end := Run(s, if pings then begun else begun + [Close(i)]);
            && end.Some? && end.value.holder.None? && end.value.created == s.created + {client}
            && end.value.calls == s.calls[i := if pings then Returned(client) else Raised]
            && end.value.shared == (if pings then Some(client) else None)
            && end.value.published == s.published + (if pings then [client] else [])
            && end.value.closed == s.closed + (if pings then {} else {client})
  {
    hide Run;
    NoSteps(s);
    Extend(s, [], Start(i));
    assert [] + [Start(i)] == [Start(i)];
    Extend(s, [Start(i)], Acquire(i, Some(client)));
    Extend(s, [Start(i)] + [Acquire(i, Some(client))], Ping(i, pings));
    if !pings {
      Extend(s, [Start(i)] + [Acquire(i, Some(client))] + [Ping(i, pings)], Close(i));
    }
  }

  lemma NoSteps(s: State)
    ensures Run(s, []) == Some(s)
  {
  }

  lemma Extend(s: State, actions: seq<Action>, a: Action)
    requires Run(s, actions).Some?
    ensures Run(s, actions + [a]) == Next(Run(s, actions).value, a)
  {
    assert (actions + [a])[..|actions|] == actions;
  }

  // ---------------------------------------------------------------- the module globals as an object

  datatype ConnectError = ConnectionFailed

  class Connection {
    var shared: Option<Client>
    var created: set<Client>
    var closed: set<Client>

    constructor ()
      ensures shared.None? && created == {} && closed == {}
    {
      shared, created, closed := None, {}, {};
    }

    /** One call that no other call overlaps: `builds` and `pings` say what the server does. */
    method Init(newClient: Client, builds: bool, pings: bool) returns (result: Result<Client, ConnectError>)
      requires newClient !in created
      modifies this
      ensures result.Success? <==> old(shared).Some? || (builds && pings)
      ensures result.Success? ==> shared == Some(result.value)
      ensures old(shared).Some? ==> shared == old(shared) && created == old(created) && closed == old(closed)
      ensures old(shared).None? ==> shared == if builds && pings then Some(newClient) else None
      ensures old(shared).None? ==> created == old(created) + if builds then {newClient} else {}
      ensures old(shared).None? ==> closed == old(closed) + if builds && !pings then {newClient} else {}
    {
      if shared.Some? {
        return Success(shared.value);
      }
      if !builds {
        return Failure(ConnectionFailed);
      }
      created := created + {newClient};
      if !pings {
        closed := closed + {newClient};
        return Failure(ConnectionFailed);
      }
      shared := Some(newClient);
      return Success(newClient);
    }
  }
}
