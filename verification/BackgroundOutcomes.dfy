/** What becomes of a submitted task: accepted and tracked, its mail sent if it can be built, and forgotten when done. */
module BackgroundOutcomes {
  import opened Wrappers
  import opened Background

  /** An accepted submit adds one task that has not started; a refused one changes nothing. */
  lemma SubmitTracks(s: State, j: nat)
    requires j !in s.jobs
    ensures var t := Next(s, Submit(j));
            && t.Some? && (!s.accepting ==> t.value == s)
            && (s.accepting ==>
                  && j in t.value.tasks && t.value.tasks == s.tasks + {j}
                  && t.value.jobs.Keys == s.jobs.Keys + {j} && t.value.jobs[j] == Job(Created, NotCreated, false)
                  && (forall k :: k in s.jobs ==> t.value.jobs[k] == s.jobs[k])
                  && t.value.accepting && t.value.shutdown == s.shutdown)
  {
  }

  // ---------------------------------------------------------------- whether a mail is sent

  lemma StepKeepsSend(s: State, a: Action, j: nat)
    requires Inv(s) && j in s.jobs && Next(s, a).Some? && !s.jobs[j].stage.Created?
    ensures var t := Next(s, a).value;
            && j in t.jobs && !t.jobs[j].stage.Created? && (t.jobs[j].send.NotCreated? <==> s.jobs[j].send.NotCreated?)
  {
    assert JobOk(s, j);
  }

  lemma {:induction false} SendIsDecidedAtStart(s: State, more: seq<Action>, j: nat)
    requires Inv(s) && j in s.jobs && !s.jobs[j].stage.Created? && Run(s, more).Some?
    ensures var u := Run(s, more).value;
            && Inv(u) && j in u.jobs && !u.jobs[j].stage.Created?
            && (u.jobs[j].send.NotCreated? <==> s.jobs[j].send.NotCreated?)
  {
    hide Inv, Next;
    if more != [] {
      var before := more[..|more| - 1];
      SendIsDecidedAtStart(s, before, j);
      StepKeepsSend(Run(s, before).value, more[|more| - 1], j);
      StepKeeps(Run(s, before).value, more[|more| - 1]);
    }
  }

  /**
   A task that starts before it is cancelled and whose message builds has sent its mail by the time it is done, however it
   is cancelled meanwhile; one that is cancelled first, or whose message does not build, is done at once and never sends.
   */
  lemma SentExactlyIfStarted(actions: seq<Action>, s: State, j: nat, builds: bool, t: State, more: seq<Action>, u: State)
    requires Run(Initial(), actions) == Some(s) && j in s.jobs && s.jobs[j].stage.Created?
    requires Next(s, RunTask(j, builds)) == Some(t) && Run(t, more) == Some(u)
    ensures j in t.jobs && j in u.jobs
    ensures Done(t.jobs[j]) <==> s.jobs[j].cancelling || !builds
    ensures Done(u.jobs[j]) ==> (u.jobs[j].send.Sent? <==> builds && !s.jobs[j].cancelling)
    ensures s.jobs[j].cancelling || !builds ==> u.jobs[j].send.NotCreated?
  {
    RunKeeps(actions);
    StepKeeps(s, RunTask(j, builds));
    SendIsDecidedAtStart(t, more, j);
    assert JobOk(s, j) && JobOk(u, j);
  }

  lemma Extend(s: State, actions: seq<Action>, a: Action)
    requires Run(s, actions).Some?
    ensures Run(s, actions + [a]) == Next(Run(s, actions).value, a)
  {
    assert (actions + [a])[..|actions|] == actions;
  }

  /** Undisturbed, a task submitted to an accepting dispatcher sends its mail, ends uncancelled and is forgotten. */
  lemma UndisturbedTaskSends(s: State, j: nat)
    requires s.accepting && j !in s.jobs && j !in s.tasks
    ensures var steps := [Submit(j)] + [RunTask(j, true)] + [RunSend(j)] + [RunSend(j)] + [RunTask(j, true)] + [DoneCallback(j)];
            var t := Run(s, steps);
            && t.Some? && t.value.jobs == s.jobs[j := Job(Finished(false), Sent, false)] && t.value.tasks == s.tasks
            && t.value.accepting && t.value.shutdown == s.shutdown && t.value.cancelled == s.cancelled
  {
    hide Run;
    var steps := [Submit(j)];
    OneStep(s, Submit(j));
    Extend(s, steps, RunTask(j, true));
    steps := steps + [RunTask(j, true)];
    Extend(s, steps, RunSend(j));
    steps := steps + [RunSend(j)];
    Extend(s, steps, RunSend(j));
    steps := steps + [RunSend(j)];
    Extend(s, steps, RunTask(j, true));
    steps := steps + [RunTask(j, true)];
    Extend(s, steps, DoneCallback(j));
    assert s.tasks + {j} - {j} == s.tasks;
  }

  lemma OneStep(s: State, a: Action)
    ensures Run(s, [a]) == Next(s, a)
  {
    assert [a][..0] == [];
  }

  // ---------------------------------------------------------------- when shutdown returns

  /** With no task at the call `shutdown` returns at once; otherwise it waits for exactly the tasks of that moment. */
  lemma ShutdownWaits(s: State)
    requires s.shutdown.NotCalled?
    ensures var t := Next(s, CallShutdown);
            && t.Some? && !t.value.accepting && t.value.jobs == s.jobs && t.value.tasks == s.tasks
            && t.value.shutdown == if s.tasks == {} then Returned else Waiting(s.tasks)
  {
  }

  /**
   In every reachable state that waits: before the grace period is over it goes on exactly when every accepted task is
   done, and then returns without cancelling; at its end the unfinished tasks, and only they, are told to cancel.
   */
  lemma GraceEndsExactly(actions: seq<Action>, s: State, timedOut: bool)
    requires Run(Initial(), actions) == Some(s) && s.shutdown.Waiting?
    ensures var t, finished := Next(s, WaitReturns(timedOut)), forall j :: j in s.jobs ==> Done(s.jobs[j]);
            && (t.Some? <==> finished || timedOut)
            && (finished ==> t.value.shutdown.Returned? && t.value.jobs == s.jobs && t.value.cancelled == s.cancelled)
            && (t.Some? && !finished ==>
                  && t.value.shutdown.Gathering? && t.value.jobs.Keys == s.jobs.Keys
                  && forall j :: j in s.jobs ==>
                       t.value.jobs[j] == if Done(s.jobs[j]) then s.jobs[j] else s.jobs[j].(cancelling := true))
  {
    RunKeeps(actions);
    assert Pending(s, s.shutdown.snapshot) == Unfinished(s.jobs);
    assert Unfinished(s.jobs) == {} <==> forall j :: j in s.jobs ==> Done(s.jobs[j]) by {
      UnfinishedIsEmpty(s.jobs);
    }
  }

  lemma UnfinishedIsEmpty(jobs: map<nat, Job>)
    ensures Unfinished(jobs) == {} <==> forall j :: j in jobs ==> Done(jobs[j])
  {
    forall j | j in jobs && !Done(jobs[j])
      ensures j in Unfinished(jobs)
    {
    }
  }

  /** And after a cancellation it returns exactly when the last task is done. */
  lemma GatherEndsExactly(actions: seq<Action>, s: State)
    requires Run(Initial(), actions) == Some(s) && s.shutdown.Gathering?
    ensures var t := Next(s, GatherReturns);
            && (t.Some? <==> forall j :: j in s.jobs ==> Done(s.jobs[j]))
            && (t.Some? ==> t.value == s.(shutdown := Returned))
  {
    RunKeeps(actions);
    UnfinishedIsEmpty(s.jobs);
    assert Pending(s, s.shutdown.pending) == Unfinished(s.jobs);
  }
}
