/** What a caller has to check for the triggers to be enough: that both rows of the pair are there. */
module LabelTriggerCallers {
  import opened Domain
  import opened LabelTriggers
  import opened LabelTriggerSafety

  predicate ParentsVisible(db: Database, x: Tx, pair: Pair) {
    pair.0 in Tasks(db, x) && pair.1 in Labels(db, x)
  }

  /** A statement that writes a pair is only begun when its transaction can see both parent rows. */
  predicate Careful(s: State, a: Action) {
    (a.InsertPair? || a.RetargetPair?) && a.x in s.txs ==> ParentsVisible(s.db, s.txs[a.x], a.pair)
  }

  predicate CarefulRun(db: Database, actions: seq<Action>) {
    actions == [] ||
    var earlier := actions[..|actions| - 1];
    CarefulRun(db, earlier) && (Run(Initial(db), earlier).Some? ==> Careful(Run(Initial(db), earlier).value, actions[|actions| - 1]))
  }

  /** Mid-statement, the parents are still visible and no read has come back empty. */
  ghost predicate CarefulTx(db: Database, x: Tx) {
    match x.statement
    case PairWantsTask(pair, _) => ParentsVisible(db, x, pair)
    case PairWantsLabel(pair, _, taskProject) => ParentsVisible(db, x, pair) && taskProject.Some?
    case PairAccepted(_, _, checked) => checked
    case _ => true
  }

  ghost predicate CarefulState(s: State) {
    !s.unchecked && forall r :: r in s.txs ==> CarefulTx(s.db, s.txs[r])
  }

  lemma OwnStepCareful(s: State, me: nat, x: Tx, a: Action)
    requires CarefulTx(s.db, x) && TxNext(s, me, x, a).Some? && a.x == me && me in s.txs && s.txs[me] == x && Careful(s, a)
    ensures CarefulTx(s.db, TxNext(s, me, x, a).value) && !WritesUnchecked(x, TxNext(s, me, x, a).value, a)
  {
    match a {
      case ReadTask(_) => ReadTaskCareful(s, me, x);
      case ReadLabel(_) => ReadLabelCareful(s, me, x);
      case _ => OtherStepCareful(s, me, x, a);
    }
  }

  lemma ReadTaskCareful(s: State, me: nat, x: Tx)
    requires CarefulTx(s.db, x) && AfterReadTask(s, me, x).Some?
    ensures CarefulTx(s.db, AfterReadTask(s, me, x).value)
  {
    hide OthersHoldNoTaskLock;
  }

  lemma ReadLabelCareful(s: State, me: nat, x: Tx)
    requires CarefulTx(s.db, x) && AfterReadLabel(s, me, x).Some?
    ensures CarefulTx(s.db, AfterReadLabel(s, me, x).value)
  {
    hide OthersHoldNoLabelLock;
  }

  lemma OtherStepCareful(s: State, me: nat, x: Tx, a: Action)
    requires CarefulTx(s.db, x) && TxNext(s, me, x, a).Some? && !a.ReadTask? && !a.ReadLabel?
    requires a.InsertPair? || a.RetargetPair? ==> ParentsVisible(s.db, x, a.pair)
    ensures CarefulTx(s.db, TxNext(s, me, x, a).value) && !WritesUnchecked(x, TxNext(s, me, x, a).value, a)
  {
    hide PairFree, TaskFree, LabelFree, OthersHoldNoTaskLock, OthersHoldNoLabelLock, Pairs, TaskProject, LabelProject;
  }

  /** Rows are only ever added, so what was visible stays visible when someone else commits. */
  lemma CommitCareful(db: Database, x: Tx, y: Tx)
    requires CarefulTx(db, y)
    ensures CarefulTx(Merged(db, x), y)
  {
  }

  lemma StepCareful(s: State, a: Action)
    requires CarefulState(s) && Careful(s, a) && Next(s, a).Some?
    ensures CarefulState(Next(s, a).value)
  {
    hide CarefulTx, TxNext, WritesUnchecked, Merged, Careful;
    if a.Begin? {
      FreshCareful(s.db);
    } else if a.Commit? {
      forall r | r in s.txs
        ensures CarefulTx(Merged(s.db, s.txs[a.x]), s.txs[r])
      {
        CommitCareful(s.db, s.txs[a.x], s.txs[r]);
      }
    } else if !a.Abort? {
      OwnStepCareful(s, a.x, s.txs[a.x], a);
    }
  }

  lemma FreshCareful(db: Database)
    ensures CarefulTx(db, FRESH_TX)
  {
  }

  lemma {:induction false} RunCareful(db: Database, actions: seq<Action>)
    requires CarefulRun(db, actions) && Run(Initial(db), actions).Some?
    ensures CarefulState(Run(Initial(db), actions).value)
  {
    hide Next, Careful;
    if actions != [] {
      var earlier := actions[..|actions| - 1];
      RunCareful(db, earlier);
      StepCareful(Run(Initial(db), earlier).value, actions[|actions| - 1]);
    }
  }

  /**
   The triggers are enough for callers that look first: if every statement that writes a pair is begun by a
   transaction that sees both rows, as `_validate_assignment` makes sure, then every interleaving keeps every
   committed pair inside one project, wherever those rows move meanwhile.
   */
  lemma SameProjectForCarefulCallers(db: Database, actions: seq<Action>)
    requires SameProject(db.tasks, db.labels, db.taskLabels)
    requires CarefulRun(db, actions) && Run(Initial(db), actions).Some?
    ensures var s := Run(Initial(db), actions).value; SameProject(s.db.tasks, s.db.labels, s.db.taskLabels)
  {
    RunCareful(db, actions);
    SameProjectAlways(db, actions);
  }
}
