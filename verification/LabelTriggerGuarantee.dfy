/** Exactly when the triggers keep every committed pair inside one project, whatever else happens at the same time. */
module LabelTriggerGuarantee {
  import opened Wrappers
  import opened Domain
  import opened LabelTriggers
  import opened LabelTriggerSafety
  import opened LabelTriggerCallers

  ghost predicate Kept(db: Database) {
    SameProject(db.tasks, db.labels, db.taskLabels)
  }

  predicate ParentsCommitted(db: Database, pair: Pair) {
    pair.0 in db.tasks && pair.1 in db.labels
  }

  /** Every statement of the run that writes a pair writes one of these. */
  ghost predicate WritesOnly(actions: seq<Action>, pairs: set<Pair>) {
    forall a :: a in actions && (a.InsertPair? || a.RetargetPair?) ==> a.pair in pairs
  }

  /** Whichever way transactions that write only these pairs interleave, all committed pairs stay inside one project. */
  ghost predicate Guaranteed(db: Database, pairs: set<Pair>) {
    forall actions ::
      WritesOnly(actions, pairs) && Run(Initial(db), actions).Some? ==> Kept(Run(Initial(db), actions).value.db)
  }

  // ---------------------------------------------------------------- committed parents are enough

  lemma StepKeepsRows(s: State, a: Action)
    requires Next(s, a).Some?
    ensures s.db.tasks.Keys <= Next(s, a).value.db.tasks.Keys && s.db.labels.Keys <= Next(s, a).value.db.labels.Keys
  {
    hide TxNext, WritesUnchecked;
  }

  lemma {:induction false} RunKeepsRows(db: Database, actions: seq<Action>)
    requires Run(Initial(db), actions).Some?
    ensures var s := Run(Initial(db), actions).value; db.tasks.Keys <= s.db.tasks.Keys && db.labels.Keys <= s.db.labels.Keys
  {
    hide Next;
    if actions != [] {
      var earlier := actions[..|actions| - 1];
      RunKeepsRows(db, earlier);
      StepKeepsRows(Run(Initial(db), earlier).value, actions[|actions| - 1]);
    }
  }

  lemma {:induction false} CommittedParentsAreCareful(db: Database, pairs: set<Pair>, actions: seq<Action>)
    requires WritesOnly(actions, pairs) && forall pair :: pair in pairs ==> ParentsCommitted(db, pair)
    ensures CarefulRun(db, actions)
  {
    hide Next, Run;
    if actions != [] {
      var earlier := actions[..|actions| - 1];
      CommittedParentsAreCareful(db, pairs, earlier);
      if Run(Initial(db), earlier).Some? {
        RunKeepsRows(db, earlier);
      }
    }
  }

  // ---------------------------------------------------------------- and needed

  lemma {:induction false} RunAppend(s: State, a: seq<Action>, b: seq<Action>)
    requires Run(s, a).Some?
    ensures Run(s, a + b) == Run(Run(s, a).value, b)
  {
    hide Next;
    if b == [] {
      assert a + b == a;
    } else {
      var earlier, last := b[..|b| - 1], b[|b| - 1];
      RunAppend(s, a, earlier);
      assert a + b == (a + earlier) + [last];
      RunSnoc(s, a + earlier, last);
    }
  }

  function OtherProject(p: Uuid): (r: Uuid)
    ensures r != p
  {
    if p == 0 then 1 else 0
  }

  function SomeTask(id: Uuid, p: Uuid): Task {
    Task(id, p, None, 0, "", None, TODO, LOW, None, 0, 0)
  }

  function SomeLabel(id: Uuid, p: Uuid): Label {
    Label(id, p, "", "")
  }

  /** First the label is created and committed, if it is missing too. */
  function LabelFirst(row: Label): seq<Action> {
    [Begin(2)] + [CreateLabel(2, row)] + [Commit(2)]
  }

  function WithLabel(db: Database, row: Label): Database {
    db.(labels := db.labels[row.id := row])
  }

  lemma LabelFirstCommits(db: Database, row: Label)
    requires row.id !in db.labels
    ensures Run(Initial(db), LabelFirst(row)) == Some(Initial(WithLabel(db, row)))
  {
    hide Next;
    RunSnoc(Initial(db), [], Begin(2));
    assert [] + [Begin(2)] == [Begin(2)];
    RunSnoc(Initial(db), [Begin(2)], CreateLabel(2, row));
    RunSnoc(Initial(db), [Begin(2)] + [CreateLabel(2, row)], Commit(2));
    LabelFirstBegins(db);
    LabelFirstCreates(db, row);
    LabelFirstEnds(db, row);
  }

  lemma LabelFirstBegins(db: Database)
    ensures Next(Initial(db), Begin(2)) == Some(State(db, map[2 := FRESH_TX], false))
  {
    assert Initial(db).txs[2 := FRESH_TX] == map[2 := FRESH_TX];
  }

  lemma LabelFirstCreates(db: Database, row: Label)
    requires row.id !in db.labels
    ensures Next(State(db, map[2 := FRESH_TX], false), CreateLabel(2, row)) == Some(State(db, map[2 := LabelCreator(row)], false))
  {
    hide WritesUnchecked;
    var s := State(db, map[2 := FRESH_TX], false);
    var made := AfterCreateLabel(s, FRESH_TX, row);
    assert s.txs[2] == FRESH_TX;
    assert made.Some?;
    assert made.value.labelWrites == LabelCreator(row).labelWrites && made.value.labelLocks == LabelCreator(row).labelLocks;
    assert s.txs[2 := LabelCreator(row)] == map[2 := LabelCreator(row)];
    assert !WritesUnchecked(FRESH_TX, LabelCreator(row), CreateLabel(2, row)) by {
      NoPairWritten(FRESH_TX, LabelCreator(row), row);
    }
  }

  lemma NoPairWritten(x: Tx, y: Tx, row: Label)
    ensures !WritesUnchecked(x, y, CreateLabel(2, row))
  {
  }

  lemma LabelFirstEnds(db: Database, row: Label)
    ensures Next(State(db, map[2 := LabelCreator(row)], false), Commit(2)) == Some(Initial(WithLabel(db, row)))
  {
    assert Tasks(db, LabelCreator(row)) == db.tasks && Pairs(db, LabelCreator(row)) == db.taskLabels;
    assert Labels(db, LabelCreator(row)) == db.labels[row.id := row];
    assert map[2 := LabelCreator(row)] - {2} == map[];
  }

  /** A run that writes only this pair and ends with a committed cross-project pair. */
  function BreakingRun(db: Database, pair: Pair): seq<Action>
    requires !ParentsCommitted(db, pair)
  {
    if pair.1 in db.labels then GapRun(pair.1, SomeTask(pair.0, OtherProject(db.labels[pair.1].projectId)))
    else if pair.0 in db.tasks then LabelGapRun(pair.0, SomeLabel(pair.1, OtherProject(db.tasks[pair.0].projectId)))
    else LabelFirst(SomeLabel(pair.1, 0)) + GapRun(pair.1, SomeTask(pair.0, 1))
  }

  lemma BreakingRunWritesOnly(db: Database, pair: Pair)
    requires !ParentsCommitted(db, pair)
    ensures WritesOnly(BreakingRun(db, pair), {pair})
  {
  }

  lemma MissingParentsBreak(db: Database, pair: Pair)
    requires Kept(db) && !ParentsCommitted(db, pair)
    ensures var end := Run(Initial(db), BreakingRun(db, pair)); end.Some? && !Kept(end.value.db)
  {
    hide Run, Next, GapRun, LabelGapRun, LabelFirst;
    if pair.1 in db.labels {
      MissingParentBreaksIt(db, pair.1, SomeTask(pair.0, OtherProject(db.labels[pair.1].projectId)));
    } else if pair.0 in db.tasks {
      MissingLabelBreaksIt(db, pair.0, SomeLabel(pair.1, OtherProject(db.tasks[pair.0].projectId)));
    } else {
      var row, task := SomeLabel(pair.1, 0), SomeTask(pair.0, 1);
      LabelFirstCommits(db, row);
      MissingParentBreaksIt(WithLabel(db, row), pair.1, task);
      RunAppend(Initial(db), LabelFirst(row), GapRun(pair.1, task));
    }
  }

  lemma NotGuaranteed(db: Database, pairs: set<Pair>, pair: Pair)
    requires Kept(db) && pair in pairs && !ParentsCommitted(db, pair)
    ensures !Guaranteed(db, pairs)
  {
    hide Run;
    MissingParentsBreak(db, pair);
    BreakingRunWritesOnly(db, pair);
    assert WritesOnly(BreakingRun(db, pair), pairs);
  }

  /**
   The triggers guarantee one project per pair exactly for callers whose pairs have both rows committed from the start.
   For those, every interleaving keeps it, wherever the rows move meanwhile; for any other pair some interleaving
   commits it across projects. No database, and no set of pairs, is left out.
   */
  lemma GuaranteedExactly(db: Database, pairs: set<Pair>)
    ensures Guaranteed(db, pairs) <==> Kept(db) && forall pair :: pair in pairs ==> ParentsCommitted(db, pair)
  {
    hide Run, Next, CarefulRun;
    if Kept(db) && forall pair :: pair in pairs ==> ParentsCommitted(db, pair) {
      forall actions | WritesOnly(actions, pairs) && Run(Initial(db), actions).Some?
        ensures Kept(Run(Initial(db), actions).value.db)
      {
        CommittedParentsAreCareful(db, pairs, actions);
        SameProjectForCarefulCallers(db, actions);
      }
    }
    if Guaranteed(db, pairs) {
      NothingRun(db);
      assert WritesOnly([], pairs);
      forall pair | pair in pairs
        ensures ParentsCommitted(db, pair)
      {
        if !ParentsCommitted(db, pair) {
          NotGuaranteed(db, pairs, pair);
        }
      }
    }
  }

  lemma NothingRun(db: Database)
    ensures Run(Initial(db), []) == Some(Initial(db))
  {
  }
}
