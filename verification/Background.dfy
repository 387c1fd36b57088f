/**
 The background dispatcher composed with the mail notifier that its tasks run. One step is what the event loop
 runs between two awaits; the mail itself is sent by a thread that no cancellation can stop.
 */
module Background {
  import opened Wrappers

  // ---------------------------------------------------------------- tasks

  /** `send_task` of `notify_task_assigned`. */
  datatype Send = NotCreated | Scheduled | Sending | Sent

  datatype Stage =
    | Created                      // submitted, first step not run yet
    | Shielding                    // awaiting shield(send_task)
    | Draining                     // cancellation caught, awaiting gather(send_task)
    | Finished(cancelled: bool)

  /** A dispatcher task; `cancelling` is a cancellation that was requested and not delivered yet. */
  datatype Job = Job(stage: Stage, send: Send, cancelling: bool)

  predicate Done(job: Job) {
    job.stage.Finished?
  }

  /**
   The next step of a task, when it has one. A task cancelled before its first step never starts; building the
   message may fail, which the dispatcher logs; a cancelled notifier first waits for its send.
   */
  function Step(job: Job, builds: bool): Option<Job> {
    match job.stage
    case Created =>
      if job.cancelling then Some(Job(Finished(true), NotCreated, false))
      else if builds then Some(Job(Shielding, Scheduled, false))
      else Some(Job(Finished(false), NotCreated, false))
    case Shielding =>
      if job.cancelling then Some(Job(Draining, job.send, false))
      else if job.send.Sent? then Some(Job(Finished(false), Sent, false))
      else None
    case Draining => if job.send.Sent? then Some(Job(Finished(true), Sent, false)) else None
    case Finished(_) => None
  }

  /** The sending thread starts, then ends. */
  function Advance(send: Send): Option<Send> {
    match send
    case NotCreated => None
    case Scheduled => Some(Sending)
    case Sending => Some(Sent)
    case Sent => None
  }

  /** `task.cancel()`; no effect on a finished task. */
  function Cancel(job: Job): Job {
    if Done(job) then job else job.(cancelling := true)
  }

  // ---------------------------------------------------------------- the dispatcher

  datatype Shutdown = NotCalled | Waiting(snapshot: set<nat>) | Gathering(pending: set<nat>) | Returned

  datatype State = State(
    jobs: map<nat, Job>,               // every task ever accepted
    tasks: set<nat>,                   // `_tasks`
    accepting: bool,                   // `_accepting_tasks`
    shutdown: Shutdown,
    cancelled: set<nat>,               // history: tasks whose cancellation was requested
    unfinished: Option<set<nat>>)      // history: tasks not done when the grace period ended

  function Initial(): State {
    State(map[], {}, true, NotCalled, {}, None)
  }

  function Unfinished(jobs: map<nat, Job>): set<nat> {
    set j | j in jobs && !Done(jobs[j])
  }

  function WithCancelled(jobs: map<nat, Job>, pending: set<nat>): map<nat, Job> {
    map j | j in jobs :: if j in pending then Cancel(jobs[j]) else jobs[j]
  }

  datatype Action =
    | Submit(j: nat)
    | RunTask(j: nat, builds: bool)
    | RunSend(j: nat)
    | DoneCallback(j: nat)
    | CallShutdown
    | WaitReturns(timedOut: bool)
    | GatherReturns

  /** A submit after shutdown began raises and changes nothing. */
  function AfterSubmit(s: State, j: nat): Option<State> {
    if j in s.jobs then None
    else if !s.accepting then Some(s)
    else Some(s.(jobs := s.jobs[j := Job(Created, NotCreated, false)], tasks := s.tasks + {j}))
  }

  function AfterRunTask(s: State, j: nat, builds: bool): Option<State> {
    if j !in s.jobs || Step(s.jobs[j], builds).None? then None
    else Some(s.(jobs := s.jobs[j := Step(s.jobs[j], builds).value]))
  }

  function AfterRunSend(s: State, j: nat): Option<State> {
    if j !in s.jobs || Advance(s.jobs[j].send).None? then None
    else Some(s.(jobs := s.jobs[j := s.jobs[j].(send := Advance(s.jobs[j].send).value)]))
  }

  function AfterDoneCallback(s: State, j: nat): Option<State> {
    if j !in s.jobs || !Done(s.jobs[j]) then None else Some(s.(tasks := s.tasks - {j}))
  }

  function AfterCallShutdown(s: State): Option<State> {
    if !s.shutdown.NotCalled? then None
    else Some(s.(accepting := false, shutdown := if s.tasks == {} then Returned else Waiting(s.tasks)))
  }

  function Pending(s: State, snapshot: set<nat>): set<nat> {
    set j | j in snapshot && j in s.jobs && !Done(s.jobs[j])
  }

  /** `asyncio.wait` returns when every task of the snapshot is done or when the grace period is over. */
  function AfterWait(s: State, timedOut: bool): Option<State> {
    if !s.shutdown.Waiting? then None else
      var pending := Pending(s, s.shutdown.snapshot);
      if pending != {} && !timedOut then None
      else if pending == {} then Some(s.(shutdown := Returned, unfinished := Some(Unfinished(s.jobs))))
      else Some(s.(jobs := WithCancelled(s.jobs, pending), shutdown := Gathering(pending),
                   cancelled := s.cancelled + pending, unfinished := Some(Unfinished(s.jobs))))
  }

  function AfterGather(s: State): Option<State> {
    if !s.shutdown.Gathering? || Pending(s, s.shutdown.pending) != {} then None
    else Some(s.(shutdown := Returned))
  }

  function Next(s: State, a: Action): Option<State> {
    match a
    case Submit(j) => AfterSubmit(s, j)
    case RunTask(j, builds) => AfterRunTask(s, j, builds)
    case RunSend(j) => AfterRunSend(s, j)
    case DoneCallback(j) => AfterDoneCallback(s, j)
    case CallShutdown => AfterCallShutdown(s)
    case WaitReturns(timedOut) => AfterWait(s, timedOut)
    case GatherReturns => AfterGather(s)
  }

  function Run(s: State, actions: seq<Action>): Option<State> {
    if actions == [] then Some(s) else
      var before := Run(s, actions[..|actions| - 1]);
      if before.None? then None else Next(before.value, actions[|actions| - 1])
  }

  // ---------------------------------------------------------------- the invariant

  /** A task is finished only when its send is: that is what shield and gather are for. */
  ghost predicate JobOk(s: State, j: nat)
    requires j in s.jobs
  {
    var job := s.jobs[j];
    && (job.stage.Created? ==> job.send.NotCreated?)
    && (job.stage.Shielding? || job.stage.Draining? ==> !job.send.NotCreated?)
    && (Done(job) ==> !job.cancelling && (job.send.NotCreated? || job.send.Sent?))
    && (!Done(job) ==> j in s.tasks)
    && (job.cancelling || job.stage.Draining? || job.stage == Finished(true) ==> j in s.cancelled)
  }

  ghost predicate ShutdownOk(s: State) {
    match s.shutdown
    case NotCalled => s.accepting && s.cancelled == {} && s.unfinished.None?
    case Waiting(snapshot) =>
      !s.accepting && s.cancelled == {} && s.unfinished.None? && Unfinished(s.jobs) <= snapshot <= s.jobs.Keys
    case Gathering(pending) =>
      !s.accepting && Unfinished(s.jobs) <= pending <= s.jobs.Keys && s.cancelled == pending && s.unfinished == Some(pending)
    case Returned =>
      && !s.accepting && Unfinished(s.jobs) == {}
      && (s.unfinished.Some? ==> s.cancelled == s.unfinished.value) && (s.unfinished.None? ==> s.cancelled == {})
  }

  ghost predicate Inv(s: State) {
    s.tasks <= s.jobs.Keys && ShutdownOk(s) && forall j :: j in s.jobs ==> JobOk(s, j)
  }

  lemma RunTaskKeeps(s: State, j: nat, builds: bool)
    requires Inv(s) && AfterRunTask(s, j, builds).Some?
    ensures Inv(AfterRunTask(s, j, builds).value)
  {
    assert JobOk(s, j);
  }

  lemma RunSendKeeps(s: State, j: nat)
    requires Inv(s) && AfterRunSend(s, j).Some?
    ensures Inv(AfterRunSend(s, j).value)
  {
    assert JobOk(s, j);
  }

  lemma WaitKeeps(s: State, timedOut: bool)
    requires Inv(s) && AfterWait(s, timedOut).Some?
    ensures Inv(AfterWait(s, timedOut).value)
  {
    var t := AfterWait(s, timedOut).value;
    var pending := Pending(s, s.shutdown.snapshot);
    assert pending == Unfinished(s.jobs);
    forall j | j in t.jobs
      ensures JobOk(t, j)
    {
      assert JobOk(s, j);
    }
    assert Unfinished(t.jobs) == Unfinished(s.jobs);
  }

  lemma GatherKeeps(s: State)
    requires Inv(s) && AfterGather(s).Some?
    ensures Inv(AfterGather(s).value)
  {
    assert forall j :: j in Unfinished(s.jobs) ==> j in Pending(s, s.shutdown.pending);
  }

  lemma StepKeeps(s: State, a: Action)
    requires Inv(s) && Next(s, a).Some?
    ensures Inv(Next(s, a).value)
  {
    match a
    case Submit(j) =>
    case RunTask(j, builds) => RunTaskKeeps(s, j, builds);
    case RunSend(j) => RunSendKeeps(s, j);
    case DoneCallback(j) =>
    case CallShutdown =>
    case WaitReturns(timedOut) => WaitKeeps(s, timedOut);
    case GatherReturns => GatherKeeps(s);
  }

  lemma {:induction false} RunKeeps(actions: seq<Action>)
    requires Run(Initial(), actions).Some?
    ensures Inv(Run(Initial(), actions).value)
  {
    hide Inv, Next;
    if actions == [] {
      InitialOk();
    } else {
      RunKeeps(actions[..|actions| - 1]);
      StepKeeps(Run(Initial(), actions[..|actions| - 1]).value, actions[|actions| - 1]);
    }
  }

  lemma InitialOk()
    ensures Inv(Initial())
  {
  }

  // ---------------------------------------------------------------- main results

  /**
   Drain. When `shutdown` has returned, every task ever accepted is done, later submits are refused, and the
   tasks that were cancelled are exactly those unfinished at the end of the grace period.
   */
  lemma Drain(actions: seq<Action>, j: nat)
    requires Run(Initial(), actions).Some? && Run(Initial(), actions).value.shutdown.Returned?
    ensures var s := Run(Initial(), actions).value;
            && (j in s.jobs ==> Done(s.jobs[j]))
            && (j in s.jobs && s.jobs[j].stage.cancelled ==> j in s.cancelled)
            && (j !in s.jobs ==> Next(s, Submit(j)) == Some(s))
            && s.cancelled == if s.unfinished.Some? then s.unfinished.value else {}
  {
    RunKeeps(actions);
    var s := Run(Initial(), actions).value;
    if j in s.jobs {
      assert JobOk(s, j);
      assert j !in Unfinished(s.jobs);
    }
  }

  /** Nothing is accepted from the moment `shutdown` is called. */
  lemma {:induction false} NothingAcceptedAfterwards(actions: seq<Action>, more: seq<Action>)
    requires Run(Initial(), actions).Some? && !Run(Initial(), actions).value.shutdown.NotCalled?
    requires Run(Run(Initial(), actions).value, more).Some?
    ensures var s := Run(Initial(), actions).value;
            var t := Run(s, more).value;
            t.jobs.Keys == s.jobs.Keys && !t.accepting && !t.shutdown.NotCalled?
  {
    RunKeeps(actions);
    if more != [] {
      NothingAcceptedAfterwards(actions, more[..|more| - 1]);
    }
  }

  /**
   No abandoned send. Whatever step the one cancellation reaches, when `shutdown` has returned every mail thread
   that was ever started, or only scheduled, has ended.
   */
  lemma NoAbandonedSend(actions: seq<Action>, j: nat)
    requires Run(Initial(), actions).Some? && j in Run(Initial(), actions).value.jobs
    ensures var s := Run(Initial(), actions).value;
            && (Done(s.jobs[j]) ==> s.jobs[j].send.NotCreated? || s.jobs[j].send.Sent?)
            && (s.shutdown.Returned? ==> s.jobs[j].send.NotCreated? || s.jobs[j].send.Sent?)
  {
    RunKeeps(actions);
    var s := Run(Initial(), actions).value;
    assert JobOk(s, j);
    assert s.shutdown.Returned? ==> j !in Unfinished(s.jobs);
  }

  /** How many steps a task is from its end. */
  function Distance(job: Job): nat {
    (match job.stage case Created => 10 case Shielding => 3 case Draining => 2 case Finished(_) => 0)
    + (match job.send case NotCreated => 0 case Scheduled => 4 case Sending => 2 case Sent => 0)
  }

  /** Draining cannot get stuck: an unfinished task always has a step, and every step brings it nearer its end. */
  lemma UnfinishedTasksMove(actions: seq<Action>, j: nat, builds: bool)
    requires Run(Initial(), actions).Some? && j in Run(Initial(), actions).value.jobs
    ensures var s := Run(Initial(), actions).value;
            && (!Done(s.jobs[j]) ==> Next(s, RunTask(j, builds)).Some? || Next(s, RunSend(j)).Some?)
            && (Next(s, RunTask(j, builds)).Some? ==>
                  Distance(Next(s, RunTask(j, builds)).value.jobs[j]) < Distance(s.jobs[j]))
            && (Next(s, RunSend(j)).Some? ==> Distance(Next(s, RunSend(j)).value.jobs[j]) < Distance(s.jobs[j]))
  {
    RunKeeps(actions);
    assert JobOk(Run(Initial(), actions).value, j);
  }

  // ---------------------------------------------------------------- the dispatcher as a class

  datatype SubmitError = ShuttingDown

  /** The dispatcher together with the tasks that the event loop runs for it. */
  class BackgroundTaskDispatcher {
    var jobs: map<nat, Job>
    var tasks: set<nat>
    var accepting: bool
    ghost var shutdown: Shutdown
    ghost var cancelled: set<nat>
    ghost var unfinished: Option<set<nat>>

    ghost function View(): State
      reads this
    {
      State(jobs, tasks, accepting, shutdown, cancelled, unfinished)
    }

    constructor ()
      ensures View() == Initial()
    {
      jobs, tasks, accepting := map[], {}, true;
      shutdown, cancelled, unfinished := NotCalled, {}, None;
    }

    method Submit(j: nat) returns (result: Result<(), SubmitError>)
      requires j !in jobs
      modifies this
      ensures Some(View()) == Next(old(View()), Action.Submit(j))
      ensures result.Failure? <==> !old(accepting)
    {
      if !accepting {
        return Failure(ShuttingDown);
      }
      jobs := jobs[j := Job(Created, NotCreated, false)];
      tasks := tasks + {j};
      return Success(());
    }

    /** From the call of `shutdown` to its first await. */
    method BeginShutdown() returns (snapshot: set<nat>)
      requires shutdown.NotCalled?
      modifies this
      ensures Some(View()) == Next(old(View()), CallShutdown)
      ensures snapshot == old(tasks) && (snapshot == {} <==> shutdown.Returned?)
    {
      accepting := false;
      snapshot := tasks;
      shutdown := if snapshot == {} then Returned else Waiting(snapshot);
    }

    /** From the return of `asyncio.wait` to the next await or to the end of `shutdown`. */
    method EndGrace(snapshot: set<nat>, timedOut: bool) returns (draining: bool)
      requires shutdown == Waiting(snapshot) && Inv(View())
      requires timedOut || Pending(View(), snapshot) == {}
      modifies this
      ensures Some(View()) == Next(old(View()), WaitReturns(timedOut))
      ensures draining <==> shutdown.Gathering?
    {
      var pending := set j | j in snapshot && j in jobs && !Done(jobs[j]);
      assert pending == Pending(View(), snapshot);
      unfinished := Some(Unfinished(jobs));
      if pending == {} {
        shutdown := Returned;
        return false;
      }
      CancelAll(pending);
      shutdown := Gathering(pending);
      return true;
    }

    /** The loop of `_cancel_and_drain`. */
    method CancelAll(pending: set<nat>)
      requires pending <= jobs.Keys
      modifies this`jobs, this`cancelled
      ensures jobs == WithCancelled(old(jobs), pending) && cancelled == old(cancelled) + pending
    {
      var rest := pending;
      assert jobs == WithCancelled(jobs, {});
      while rest != {}
        invariant rest <= pending
        invariant jobs == WithCancelled(old(jobs), pending - rest)
        invariant cancelled == old(cancelled) + (pending - rest)
        decreases rest
      {
        var j :| j in rest;
        jobs := jobs[j := Cancel(jobs[j])];
        cancelled := cancelled + {j};
        rest := rest - {j};
      }
      assert pending - rest == pending;
    }
  }
}
