/** Every run of concurrent transactions keeps every committed task-label pair inside one project. */
module LabelTriggerSafety {
  import opened Wrappers
  import opened Domain
  import opened LabelTriggers

  // ---------------------------------------------------------------- the invariant

  ghost predicate HoldsTask(x: Tx, id: Uuid) {
    id in x.taskShares || id in x.taskLocks
  }

  ghost predicate HoldsLabel(x: Tx, id: Uuid) {
    id in x.labelShares || id in x.labelLocks
  }

  /** Two open transactions never hold conflicting locks. */
  ghost predicate Apart(x: Tx, y: Tx) {
    && x.taskLocks !! y.taskLocks && x.taskLocks !! y.taskShares && x.taskShares !! y.taskLocks
    && x.labelLocks !! y.labelLocks && x.labelLocks !! y.labelShares && x.labelShares !! y.labelLocks
    && x.pairLocks !! y.pairLocks
  }

  ghost function TaskIds(db: Database, x: Tx): set<Uuid> {
    db.tasks.Keys + x.taskWrites.Keys
  }

  ghost function LabelIds(db: Database, x: Tx): set<Uuid> {
    db.labels.Keys + x.labelWrites.Keys
  }

  /** What a transaction has written, it has locked; and only existing rows are locked. */
  ghost predicate LocksOk(db: Database, x: Tx) {
    && x.taskWrites.Keys <= x.taskLocks
    && x.labelWrites.Keys <= x.labelLocks
    && x.added <= x.pairLocks && x.removed <= x.pairLocks
    && x.taskShares <= TaskIds(db, x) && x.taskLocks <= TaskIds(db, x)
    && x.labelShares <= LabelIds(db, x) && x.labelLocks <= LabelIds(db, x)
    && (forall pair: Pair :: pair in x.added ==> HoldsTask(x, pair.0) && HoldsLabel(x, pair.1))
  }

  /** The rows a transaction would commit now are valid, and its moved rows carry no pair but its own new ones. */
  ghost predicate ViewOk(db: Database, x: Tx) {
    && SameProject(Tasks(db, x), Labels(db, x), Pairs(db, x))
    && (forall pair: Pair :: pair in Pairs(db, x) && (pair.0 in x.taskWrites || pair.1 in x.labelWrites) ==> pair in x.added)
  }

  ghost predicate StatementOk(db: Database, x: Tx) {
    match x.statement
    case Idle => true
    case Failed => true
    case PairWantsTask(pair, from) => true
    case PairWantsLabel(pair, from, taskProject) =>
      taskProject.Some? ==> HoldsTask(x, pair.0) && TaskProject(db, x, pair.0) == taskProject
    case PairAccepted(pair, from, checked) =>
      checked ==> HoldsTask(x, pair.0) && HoldsLabel(x, pair.1)
                  && TaskProject(db, x, pair.0).Some? && TaskProject(db, x, pair.0) == LabelProject(db, x, pair.1)
    case TaskLocked(id, target) => id in x.taskLocks && TaskProject(db, x, id) != Some(target)
    case TaskChecking(id, target, todo) =>
      && id in x.taskLocks && TaskProject(db, x, id) != Some(target)
      && (forall pair: Pair :: pair in Pairs(db, x) && pair.0 == id ==> pair.1 in todo)
    case LabelLocked(id, target) => id in x.labelLocks && LabelProject(db, x, id) != Some(target)
    case LabelChecking(id, target, todo) =>
      && id in x.labelLocks && LabelProject(db, x, id) != Some(target)
      && (forall pair: Pair :: pair in Pairs(db, x) && pair.1 == id ==> pair.0 in todo)
  }

  ghost predicate RetargetOk(x: Tx) {
    match x.statement
    case PairWantsTask(_, from) => from.Some? ==> from.value in x.pairLocks
    case PairWantsLabel(_, from, _) => from.Some? ==> from.value in x.pairLocks
    case PairAccepted(_, from, _) => from.Some? ==> from.value in x.pairLocks
    case _ => true
  }

  ghost predicate TxOk(db: Database, x: Tx) {
    LocksOk(db, x) && ViewOk(db, x) && StatementOk(db, x) && RetargetOk(x)
  }

  ghost predicate Inv(s: State) {
    && SameProject(s.db.tasks, s.db.labels, s.db.taskLabels)
    && (forall x :: x in s.txs ==> TxOk(s.db, s.txs[x]))
    && (forall x, y :: x in s.txs && y in s.txs && x != y ==> Apart(s.txs[x], s.txs[y]))
  }

  // ---------------------------------------------------------------- a commit seen by another transaction

  lemma CommitKeepsTasks(db: Database, x: Tx, y: Tx)
    requires LocksOk(db, x) && LocksOk(db, y) && Apart(x, y)
    ensures forall id :: HoldsTask(y, id) ==> TaskProject(Merged(db, x), y, id) == TaskProject(db, y, id)
    ensures TaskIds(db, y) <= TaskIds(Merged(db, x), y)
  {
  }

  lemma CommitKeepsLabels(db: Database, x: Tx, y: Tx)
    requires LocksOk(db, x) && LocksOk(db, y) && Apart(x, y)
    ensures forall id :: HoldsLabel(y, id) ==> LabelProject(Merged(db, x), y, id) == LabelProject(db, y, id)
    ensures LabelIds(db, y) <= LabelIds(Merged(db, x), y)
  {
  }

  /** A pair the other transaction sees after the commit is one it saw before, or one the commit has just added. */
  lemma CommitPairs(db: Database, x: Tx, y: Tx, pair: Pair)
    requires LocksOk(db, x) && LocksOk(db, y) && Apart(x, y) && pair in Pairs(Merged(db, x), y)
    ensures pair in y.added || pair in x.added || (pair in db.taskLabels && pair in Pairs(db, y) && pair in Pairs(db, x))
    ensures pair in Pairs(db, y) || (pair in x.added && pair in Pairs(db, x))
  {
    hide Tasks, Labels;
  }

  ghost predicate GoodPair(db: Database, y: Tx, pair: Pair) {
    && TaskProject(db, y, pair.0).Some?
    && TaskProject(db, y, pair.0) == LabelProject(db, y, pair.1)
    && (pair.0 in y.taskWrites || pair.1 in y.labelWrites ==> pair in y.added)
  }

  lemma ViewOkByPairs(db: Database, y: Tx)
    ensures ViewOk(db, y) <==> forall pair: Pair :: pair in Pairs(db, y) ==> GoodPair(db, y, pair)
  {
  }

  /** Rows neither transaction writes read the same everywhere. */
  lemma UnwrittenReads(db: Database, x: Tx, y: Tx, pair: Pair)
    requires pair.0 !in y.taskWrites && pair.1 !in y.labelWrites
    ensures TaskProject(Merged(db, x), y, pair.0) == TaskProject(db, x, pair.0)
    ensures LabelProject(Merged(db, x), y, pair.1) == LabelProject(db, x, pair.1)
  {
    hide Pairs;
  }

  lemma CommitKeepsPair(db: Database, x: Tx, y: Tx, pair: Pair)
    requires LocksOk(db, x) && LocksOk(db, y) && Apart(x, y) && pair in Pairs(Merged(db, x), y)
    requires forall p: Pair :: p in Pairs(db, x) ==> GoodPair(db, x, p)
    requires forall p: Pair :: p in Pairs(db, y) ==> GoodPair(db, y, p)
    ensures GoodPair(Merged(db, x), y, pair)
  {
    hide TaskProject, LabelProject, Tasks, Labels, Merged;
    CommitPairs(db, x, y, pair);
    if pair in y.added {
      assert pair in Pairs(db, y);
      CommitKeepsTasks(db, x, y);
      CommitKeepsLabels(db, x, y);
    } else {
      assert pair in Pairs(db, x);
      if pair in x.added {
        assert pair.0 !in y.taskLocks && pair.1 !in y.labelLocks;
      }
      UnwrittenReads(db, x, y, pair);
    }
  }

  lemma CommitKeepsView(db: Database, x: Tx, y: Tx)
    requires LocksOk(db, x) && LocksOk(db, y) && ViewOk(db, x) && ViewOk(db, y) && Apart(x, y)
    ensures ViewOk(Merged(db, x), y)
  {
    hide LocksOk, Apart, ViewOk, GoodPair, Pairs, Merged;
    ViewOkByPairs(db, x);
    ViewOkByPairs(db, y);
    forall pair: Pair | pair in Pairs(Merged(db, x), y) ensures GoodPair(Merged(db, x), y, pair) {
      CommitKeepsPair(db, x, y, pair);
    }
    ViewOkByPairs(Merged(db, x), y);
  }

  lemma CommitKeepsLocks(db: Database, x: Tx, y: Tx)
    requires LocksOk(db, x) && LocksOk(db, y) && Apart(x, y)
    ensures LocksOk(Merged(db, x), y)
  {
  }

  lemma NewPairsAreElsewhere(db: Database, x: Tx, y: Tx, pair: Pair)
    requires LocksOk(db, x) && LocksOk(db, y) && Apart(x, y)
    requires pair in Pairs(Merged(db, x), y) && pair !in Pairs(db, y)
    ensures pair.0 !in y.taskLocks && pair.1 !in y.labelLocks
  {
  }

  lemma CommitKeepsStatement(db: Database, x: Tx, y: Tx)
    requires LocksOk(db, x) && LocksOk(db, y) && Apart(x, y) && StatementOk(db, y)
    ensures StatementOk(Merged(db, x), y)
  {
    hide LocksOk, Apart, Tasks, Labels, Pairs, TaskProject, LabelProject, Merged;
    CommitKeepsTasks(db, x, y);
    CommitKeepsLabels(db, x, y);
    forall pair: Pair | pair in Pairs(Merged(db, x), y) && pair !in Pairs(db, y)
      ensures pair.0 !in y.taskLocks && pair.1 !in y.labelLocks
    {
      NewPairsAreElsewhere(db, x, y, pair);
    }
  }

  lemma CommitKeeps(s: State, me: nat)
    requires Inv(s) && Next(s, Commit(me)).Some?
    ensures Inv(Next(s, Commit(me)).value)
  {
    hide LocksOk, StatementOk, RetargetOk, Apart, Tasks, Labels, Pairs;
    var x := s.txs[me];
    var t := Next(s, Commit(me)).value;
    assert TxOk(s.db, x);
    forall y | y in t.txs ensures TxOk(t.db, t.txs[y]) {
      assert TxOk(s.db, s.txs[y]) && Apart(x, s.txs[y]);
      CommitKeepsLocks(s.db, x, s.txs[y]);
      CommitKeepsView(s.db, x, s.txs[y]);
      CommitKeepsStatement(s.db, x, s.txs[y]);
    }
  }

  // ---------------------------------------------------------------- steps inside one transaction

  ghost predicate SameWrites(x: Tx, y: Tx) {
    y.taskWrites == x.taskWrites && y.labelWrites == x.labelWrites && y.added == x.added && y.removed == x.removed
  }

  ghost predicate MoreLocks(x: Tx, y: Tx) {
    && x.taskShares <= y.taskShares && x.taskLocks <= y.taskLocks
    && x.labelShares <= y.labelShares && x.labelLocks <= y.labelLocks && x.pairLocks <= y.pairLocks
  }

  /** A step that writes nothing keeps the transaction good if its new locks are on existing rows. */
  lemma QuietOk(db: Database, x: Tx, y: Tx)
    requires LocksOk(db, x) && ViewOk(db, x) && SameWrites(x, y) && MoreLocks(x, y)
    requires y.taskShares <= TaskIds(db, x) && y.taskLocks <= TaskIds(db, x)
    requires y.labelShares <= LabelIds(db, x) && y.labelLocks <= LabelIds(db, x)
    ensures LocksOk(db, y) && ViewOk(db, y)
    ensures forall id :: TaskProject(db, y, id) == TaskProject(db, x, id)
    ensures forall id :: LabelProject(db, y, id) == LabelProject(db, x, id)
    ensures Pairs(db, y) == Pairs(db, x)
  {
    assert Tasks(db, y) == Tasks(db, x) && Labels(db, y) == Labels(db, x) && Pairs(db, y) == Pairs(db, x);
  }

  lemma ReadableIsThere(db: Database, x: Tx)
    ensures forall id :: TaskProject(db, x, id).Some? <==> id in TaskIds(db, x)
    ensures forall id :: LabelProject(db, x, id).Some? <==> id in LabelIds(db, x)
  {
  }

  /** The locks a step adds were free, so the transactions stay apart. */
  ghost predicate Granted(s: State, me: nat, x: Tx, y: Tx) {
    && (forall id :: id in y.taskShares && id !in x.taskShares ==> OthersHoldNoTaskLock(s, me, id))
    && (forall id :: id in y.taskLocks && id !in x.taskLocks ==> TaskFree(s, me, id))
    && (forall id :: id in y.labelShares && id !in x.labelShares ==> OthersHoldNoLabelLock(s, me, id))
    && (forall id :: id in y.labelLocks && id !in x.labelLocks ==> LabelFree(s, me, id))
    && (forall pair :: pair in y.pairLocks && pair !in x.pairLocks ==> PairFree(s, me, pair))
  }

  lemma GrantedStaysApart(s: State, me: nat, y: Tx, z: nat)
    requires me in s.txs && z in s.txs && z != me && Apart(s.txs[me], s.txs[z]) && Granted(s, me, s.txs[me], y)
    ensures Apart(y, s.txs[z]) && Apart(s.txs[z], y)
  {
  }

  lemma InsideKeeps(s: State, me: nat, y: Tx, t: State)
    requires Inv(s) && me in s.txs && t.db == s.db && t.txs == s.txs[me := y]
    requires TxOk(s.db, y) && Granted(s, me, s.txs[me], y)
    ensures Inv(t)
  {
    hide TxOk, Apart, Granted;
    forall a, b | a in t.txs && b in t.txs && a != b ensures Apart(t.txs[a], t.txs[b]) {
      if a == me {
        assert Apart(s.txs[me], s.txs[b]);
        GrantedStaysApart(s, me, y, b);
      } else if b == me {
        assert Apart(s.txs[me], s.txs[a]);
        GrantedStaysApart(s, me, y, a);
      } else {
        assert Apart(s.txs[a], s.txs[b]);
      }
    }
  }

  lemma StartPairOk(s: State, me: nat, x: Tx, a: Action)
    requires TxOk(s.db, x) && TxNext(s, me, x, a).Some? && (a.InsertPair? || a.RetargetPair?)
    ensures TxOk(s.db, TxNext(s, me, x, a).value) && Granted(s, me, x, TxNext(s, me, x, a).value)
  {
    QuietOk(s.db, x, TxNext(s, me, x, a).value);
  }

  lemma ReadTaskOk(s: State, me: nat, x: Tx)
    requires TxOk(s.db, x) && AfterReadTask(s, me, x).Some?
    ensures TxOk(s.db, AfterReadTask(s, me, x).value) && Granted(s, me, x, AfterReadTask(s, me, x).value)
  {
    hide ViewOk, Pairs, Tasks, Labels, TaskProject, LabelProject, TaskIds, LabelIds, OthersHoldNoTaskLock, OthersHoldNoLabelLock;
    var y := AfterReadTask(s, me, x).value;
    ReadableIsThere(s.db, x);
    QuietOk(s.db, x, y);
  }

  lemma ReadLabelOk(s: State, me: nat, x: Tx)
    requires TxOk(s.db, x) && AfterReadLabel(s, me, x).Some?
    ensures TxOk(s.db, AfterReadLabel(s, me, x).value) && Granted(s, me, x, AfterReadLabel(s, me, x).value)
  {
    hide ViewOk, Pairs, Tasks, Labels, TaskProject, LabelProject, TaskIds, LabelIds, OthersHoldNoTaskLock, OthersHoldNoLabelLock;
    var y := AfterReadLabel(s, me, x).value;
    ReadableIsThere(s.db, x);
    QuietOk(s.db, x, y);
  }

  lemma MoveTaskOk(s: State, me: nat, x: Tx, id: Uuid, target: Uuid)
    requires TxOk(s.db, x) && AfterMoveTask(s, me, x, id, target).Some?
    ensures TxOk(s.db, AfterMoveTask(s, me, x, id, target).value)
    ensures Granted(s, me, x, AfterMoveTask(s, me, x, id, target).value)
  {
    var y := AfterMoveTask(s, me, x, id, target).value;
    QuietOk(s.db, x, y);
    assert Tasks(s.db, y) == Tasks(s.db, x);
  }

  lemma MoveLabelOk(s: State, me: nat, x: Tx, id: Uuid, target: Uuid)
    requires TxOk(s.db, x) && AfterMoveLabel(s, me, x, id, target).Some?
    ensures TxOk(s.db, AfterMoveLabel(s, me, x, id, target).value)
    ensures Granted(s, me, x, AfterMoveLabel(s, me, x, id, target).value)
  {
    var y := AfterMoveLabel(s, me, x, id, target).value;
    QuietOk(s.db, x, y);
    assert Labels(s.db, y) == Labels(s.db, x);
  }

  /** In a valid view every pair of the moving task is in its old project, so the query finds all of them. */
  lemma FindLabelsOk(s: State, me: nat, x: Tx)
    requires TxOk(s.db, x) && AfterFindLabels(s, x).Some?
    ensures TxOk(s.db, AfterFindLabels(s, x).value) && Granted(s, me, x, AfterFindLabels(s, x).value)
  {
  }

  lemma FindTasksOk(s: State, me: nat, x: Tx)
    requires TxOk(s.db, x) && AfterFindTasks(s, x).Some?
    ensures TxOk(s.db, AfterFindTasks(s, x).value) && Granted(s, me, x, AfterFindTasks(s, x).value)
  {
  }

  /** A label found in the target project on re-reading means that the pair itself has gone meanwhile. */
  lemma CheckLabelOk(s: State, me: nat, x: Tx, id: Uuid)
    requires TxOk(s.db, x) && AfterCheckLabel(s, me, x, id).Some?
    ensures TxOk(s.db, AfterCheckLabel(s, me, x, id).value) && Granted(s, me, x, AfterCheckLabel(s, me, x, id).value)
  {
    var y := AfterCheckLabel(s, me, x, id).value;
    QuietOk(s.db, x, y);
    hide LocksOk, ViewOk, Pairs, Tasks, Labels, TaskProject, LabelProject, TaskIds, LabelIds, OthersHoldNoLabelLock;
    CheckLabelStatement(s, me, x, id);
  }

  lemma CheckLabelStatement(s: State, me: nat, x: Tx, id: Uuid)
    requires TxOk(s.db, x) && AfterCheckLabel(s, me, x, id).Some?
    ensures StatementOk(s.db, AfterCheckLabel(s, me, x, id).value) && RetargetOk(AfterCheckLabel(s, me, x, id).value)
  {
    hide LocksOk, OthersHoldNoLabelLock;
    var y := AfterCheckLabel(s, me, x, id).value;
    assert Tasks(s.db, y) == Tasks(s.db, x) && Labels(s.db, y) == Labels(s.db, x) && Pairs(s.db, y) == Pairs(s.db, x);
    if y.statement.TaskChecking? {
      assert (x.statement.id, id) !in Pairs(s.db, x);
    }
  }

  lemma CheckTaskOk(s: State, me: nat, x: Tx, id: Uuid)
    requires TxOk(s.db, x) && AfterCheckTask(s, me, x, id).Some?
    ensures TxOk(s.db, AfterCheckTask(s, me, x, id).value) && Granted(s, me, x, AfterCheckTask(s, me, x, id).value)
  {
    var y := AfterCheckTask(s, me, x, id).value;
    QuietOk(s.db, x, y);
    hide LocksOk, ViewOk, Pairs, Tasks, Labels, TaskProject, LabelProject, TaskIds, LabelIds, OthersHoldNoTaskLock;
    CheckTaskStatement(s, me, x, id);
  }

  lemma CheckTaskStatement(s: State, me: nat, x: Tx, id: Uuid)
    requires TxOk(s.db, x) && AfterCheckTask(s, me, x, id).Some?
    ensures StatementOk(s.db, AfterCheckTask(s, me, x, id).value) && RetargetOk(AfterCheckTask(s, me, x, id).value)
  {
    hide LocksOk, OthersHoldNoTaskLock;
    var y := AfterCheckTask(s, me, x, id).value;
    assert Tasks(s.db, y) == Tasks(s.db, x) && Labels(s.db, y) == Labels(s.db, x) && Pairs(s.db, y) == Pairs(s.db, x);
    if y.statement.LabelChecking? {
      assert (id, x.statement.id) !in Pairs(s.db, x);
    }
  }

  lemma NewPairLocks(db: Database, x: Tx, pair: Pair, replaced: set<Pair>)
    requires LocksOk(db, x) && HoldsTask(x, pair.0) && HoldsLabel(x, pair.1) && replaced <= x.pairLocks
    ensures LocksOk(db, x.(added := x.added - replaced + {pair}, removed := x.removed + replaced,
                           pairLocks := x.pairLocks + {pair}, statement := Idle))
  {
  }

  lemma WritePairLocksOk(s: State, me: nat, x: Tx)
    requires LocksOk(s.db, x) && StatementOk(s.db, x) && RetargetOk(x) && AfterWritePair(s, me, x).Some?
    requires !WritesUnchecked(x, AfterWritePair(s, me, x).value, WritePair(me))
    ensures var y := AfterWritePair(s, me, x).value;
      LocksOk(s.db, y) && StatementOk(s.db, y) && RetargetOk(y)
  {
    hide LocksOk, Pairs, PairFree, Tasks, Labels, TaskProject, LabelProject;
    var y := AfterWritePair(s, me, x).value;
    var pair := x.statement.pair;
    var replaced := if x.statement.retargets.Some? then {x.statement.retargets.value} else {};
    if y == x.(statement := y.statement) {
      SameLocks(s.db, x, y);
    } else if x.statement.checked {
      NewPairLocks(s.db, x, pair, replaced);
    } else {
      OwnPairAgain(s.db, x, y, replaced);
    }
  }

  lemma SameLocks(db: Database, x: Tx, y: Tx)
    requires LocksOk(db, x) && y == x.(statement := y.statement)
    ensures LocksOk(db, y)
  {
  }

  lemma OwnPairAgain(db: Database, x: Tx, y: Tx, replaced: set<Pair>)
    requires LocksOk(db, x) && SameWrites(x, y.(removed := x.removed)) && MoreLocks(x, y)
    requires y.taskShares == x.taskShares && y.taskLocks == x.taskLocks && y.labelShares == x.labelShares && y.labelLocks == x.labelLocks
    requires y.removed == x.removed + replaced && replaced <= x.pairLocks
    ensures LocksOk(db, y)
  {
  }

  lemma WritePairGranted(s: State, me: nat, x: Tx)
    requires AfterWritePair(s, me, x).Some?
    ensures Granted(s, me, x, AfterWritePair(s, me, x).value)
  {
    hide Pairs, TaskProject, LabelProject, PairFree;
  }

  lemma WritePairViewOk(s: State, me: nat, x: Tx)
    requires ViewOk(s.db, x) && StatementOk(s.db, x) && AfterWritePair(s, me, x).Some?
    requires !WritesUnchecked(x, AfterWritePair(s, me, x).value, WritePair(me))
    ensures ViewOk(s.db, AfterWritePair(s, me, x).value)
  {
    hide ViewOk;
    var y := AfterWritePair(s, me, x).value;
    ViewOkByPairs(s.db, x);
    ViewOkByPairs(s.db, y);
    hide AfterWritePair, StatementOk, GoodPair;
    forall pair: Pair | pair in Pairs(s.db, y) ensures GoodPair(s.db, y, pair) {
      WrittenPairGood(s, me, x, pair);
    }
  }

  /** A checked write adds no pair but one that the transaction sees to be good. */
  lemma WrittenPairGood(s: State, me: nat, x: Tx, pair: Pair)
    requires StatementOk(s.db, x) && AfterWritePair(s, me, x).Some?
    requires !WritesUnchecked(x, AfterWritePair(s, me, x).value, WritePair(me))
    requires forall p: Pair :: p in Pairs(s.db, x) ==> GoodPair(s.db, x, p)
    requires pair in Pairs(s.db, AfterWritePair(s, me, x).value)
    ensures GoodPair(s.db, AfterWritePair(s, me, x).value, pair)
  {
    var y := AfterWritePair(s, me, x).value;
    WritePairEffect(s, me, x);
    SameRowsRead(s.db, x, y, pair);
    hide AfterWritePair, StatementOk, TaskProject, LabelProject, WritesUnchecked;
    if pair in Pairs(s.db, x) {
      assert GoodPair(s.db, x, pair);
    }
  }

  lemma WritePairEffect(s: State, me: nat, x: Tx)
    requires StatementOk(s.db, x) && AfterWritePair(s, me, x).Some?
    requires !WritesUnchecked(x, AfterWritePair(s, me, x).value, WritePair(me))
    ensures var y := AfterWritePair(s, me, x).value;
      && y.taskWrites == x.taskWrites && y.labelWrites == x.labelWrites
      && (y.added != x.added || y.removed != x.removed ==>
            && x.statement.pair in y.added && y.added <= x.added + {x.statement.pair} && x.removed <= y.removed
            && TaskProject(s.db, x, x.statement.pair.0).Some?
            && (y.added != x.added ==>
                  TaskProject(s.db, x, x.statement.pair.0) == LabelProject(s.db, x, x.statement.pair.1)))
  {
    hide PairFree, Pairs, TaskProject, LabelProject;
  }

  lemma SameRowsRead(db: Database, x: Tx, y: Tx, pair: Pair)
    requires y.taskWrites == x.taskWrites && y.labelWrites == x.labelWrites
    ensures TaskProject(db, y, pair.0) == TaskProject(db, x, pair.0)
    ensures LabelProject(db, y, pair.1) == LabelProject(db, x, pair.1)
  {
  }

  lemma WritePairOk(s: State, me: nat, x: Tx)
    requires TxOk(s.db, x) && AfterWritePair(s, me, x).Some?
    requires !WritesUnchecked(x, AfterWritePair(s, me, x).value, WritePair(me))
    ensures TxOk(s.db, AfterWritePair(s, me, x).value) && Granted(s, me, x, AfterWritePair(s, me, x).value)
  {
    hide LocksOk, ViewOk, StatementOk, RetargetOk, Granted, AfterWritePair, WritesUnchecked;
    WritePairLocksOk(s, me, x);
    WritePairGranted(s, me, x);
    WritePairViewOk(s, me, x);
  }

  lemma DeletePairOk(s: State, me: nat, x: Tx, pair: Pair)
    requires TxOk(s.db, x) && AfterDeletePair(s, me, x, pair).Some?
    ensures TxOk(s.db, AfterDeletePair(s, me, x, pair).value)
    ensures Granted(s, me, x, AfterDeletePair(s, me, x, pair).value)
  {
    var y := AfterDeletePair(s, me, x, pair).value;
    assert Tasks(s.db, y) == Tasks(s.db, x) && Labels(s.db, y) == Labels(s.db, x);
    assert Pairs(s.db, y) == Pairs(s.db, x) - {pair};
  }

  /** With nothing left to check, no visible pair names the task, so moving it breaks none. */
  lemma FinishTaskOk(s: State, me: nat, x: Tx)
    requires TxOk(s.db, x) && AfterFinishTask(s, x).Some?
    ensures TxOk(s.db, AfterFinishTask(s, x).value) && Granted(s, me, x, AfterFinishTask(s, x).value)
  {
    hide LocksOk, ViewOk, Pairs, Tasks, Labels, TaskProject, LabelProject;
    var row := FinishedTask(s, x);
    FinishTaskWrites(s, x);
    WriteTaskOk(s.db, x, row);
  }

  function FinishedTask(s: State, x: Tx): Task
    requires AfterFinishTask(s, x).Some?
  {
    Tasks(s.db, x)[x.statement.id].(projectId := x.statement.target)
  }

  /** A task that passed its check is written under the lock it already has, and no visible pair names it. */
  lemma FinishTaskWrites(s: State, x: Tx)
    requires StatementOk(s.db, x) && AfterFinishTask(s, x).Some?
    ensures var row := FinishedTask(s, x);
      && AfterFinishTask(s, x).value
           == x.(taskWrites := x.taskWrites[row.id := row], taskLocks := x.taskLocks + {row.id}, statement := Idle)
      && forall pair: Pair :: pair in Pairs(s.db, x) ==> pair.0 != row.id
  {
    hide Pairs, TaskProject;
    assert x.taskLocks + {x.statement.id} == x.taskLocks;
  }

  /** Writing a row of a locked or brand-new task that no visible pair names. */
  lemma WriteTaskOk(db: Database, x: Tx, row: Task)
    requires LocksOk(db, x) && ViewOk(db, x)
    requires forall pair: Pair :: pair in Pairs(db, x) ==> pair.0 != row.id
    ensures var y := x.(taskWrites := x.taskWrites[row.id := row], taskLocks := x.taskLocks + {row.id}, statement := Idle);
      LocksOk(db, y) && ViewOk(db, y)
  {
    hide LocksOk, ViewOk, Pairs;
    var y := x.(taskWrites := x.taskWrites[row.id := row], taskLocks := x.taskLocks + {row.id}, statement := Idle);
    WriteTaskLocks(db, x, y, row);
    SamePairs(db, x, y);
    ViewOkByPairs(db, x);
    ViewOkByPairs(db, y);
    forall pair: Pair | pair in Pairs(db, y) ensures GoodPair(db, y, pair) {
      assert GoodPair(db, x, pair);
    }
  }

  lemma WriteTaskLocks(db: Database, x: Tx, y: Tx, row: Task)
    requires LocksOk(db, x)
    requires y == x.(taskWrites := x.taskWrites[row.id := row], taskLocks := x.taskLocks + {row.id}, statement := Idle)
    ensures LocksOk(db, y)
  {
    assert LabelIds(db, y) == LabelIds(db, x) && TaskIds(db, y) == TaskIds(db, x) + {row.id};
  }

  lemma SamePairs(db: Database, x: Tx, y: Tx)
    requires x.added == y.added && x.removed == y.removed
    ensures Pairs(db, y) == Pairs(db, x)
  {
  }

  lemma FinishLabelOk(s: State, me: nat, x: Tx)
    requires TxOk(s.db, x) && AfterFinishLabel(s, x).Some?
    ensures TxOk(s.db, AfterFinishLabel(s, x).value) && Granted(s, me, x, AfterFinishLabel(s, x).value)
  {
    hide LocksOk, ViewOk, Pairs, Tasks, Labels, TaskProject, LabelProject;
    var row := FinishedLabel(s, x);
    FinishLabelWrites(s, x);
    WriteLabelOk(s.db, x, row);
  }

  function FinishedLabel(s: State, x: Tx): Label
    requires AfterFinishLabel(s, x).Some?
  {
    Labels(s.db, x)[x.statement.id].(projectId := x.statement.target)
  }

  lemma FinishLabelWrites(s: State, x: Tx)
    requires StatementOk(s.db, x) && AfterFinishLabel(s, x).Some?
    ensures var row := FinishedLabel(s, x);
      && AfterFinishLabel(s, x).value
           == x.(labelWrites := x.labelWrites[row.id := row], labelLocks := x.labelLocks + {row.id}, statement := Idle)
      && forall pair: Pair :: pair in Pairs(s.db, x) ==> pair.1 != row.id
  {
    hide Pairs, LabelProject;
    assert x.labelLocks + {x.statement.id} == x.labelLocks;
  }

  lemma WriteLabelOk(db: Database, x: Tx, row: Label)
    requires LocksOk(db, x) && ViewOk(db, x)
    requires forall pair: Pair :: pair in Pairs(db, x) ==> pair.1 != row.id
    ensures var y := x.(labelWrites := x.labelWrites[row.id := row], labelLocks := x.labelLocks + {row.id}, statement := Idle);
      LocksOk(db, y) && ViewOk(db, y)
  {
    hide LocksOk, ViewOk, Pairs;
    var y := x.(labelWrites := x.labelWrites[row.id := row], labelLocks := x.labelLocks + {row.id}, statement := Idle);
    WriteLabelLocks(db, x, y, row);
    SamePairs(db, x, y);
    ViewOkByPairs(db, x);
    ViewOkByPairs(db, y);
    forall pair: Pair | pair in Pairs(db, y) ensures GoodPair(db, y, pair) {
      assert GoodPair(db, x, pair);
    }
  }

  lemma WriteLabelLocks(db: Database, x: Tx, y: Tx, row: Label)
    requires LocksOk(db, x)
    requires y == x.(labelWrites := x.labelWrites[row.id := row], labelLocks := x.labelLocks + {row.id}, statement := Idle)
    ensures LocksOk(db, y)
  {
    assert TaskIds(db, y) == TaskIds(db, x) && LabelIds(db, y) == LabelIds(db, x) + {row.id};
  }

  lemma CreateTaskOk(s: State, me: nat, x: Tx, row: Task)
    requires Inv(s) && me in s.txs && s.txs[me] == x && AfterCreateTask(s, x, row).Some?
    ensures TxOk(s.db, AfterCreateTask(s, x, row).value) && Granted(s, me, x, AfterCreateTask(s, x, row).value)
  {
    hide Apart, LocksOk, ViewOk, RetargetOk, StatementOk;
    assert TxOk(s.db, x);
    NewTaskIsUnnamed(s.db, x, row.id);
    WriteTaskOk(s.db, x, row);
    IdleOk(s.db, AfterCreateTask(s, x, row).value);
    forall z | z in s.txs ensures row.id !in s.txs[z].taskLocks && row.id !in s.txs[z].taskShares {
      assert TxOk(s.db, s.txs[z]);
      NewTaskIsUnlocked(s.db, s.txs[z], row.id);
    }
  }

  lemma IdleOk(db: Database, x: Tx)
    requires LocksOk(db, x) && ViewOk(db, x) && x.statement.Idle?
    ensures TxOk(db, x)
  {
  }

  lemma NewTaskIsUnnamed(db: Database, x: Tx, id: Uuid)
    requires ViewOk(db, x) && id !in db.tasks && id !in x.taskWrites
    ensures forall pair: Pair :: pair in Pairs(db, x) ==> pair.0 != id
  {
  }

  lemma NewTaskIsUnlocked(db: Database, x: Tx, id: Uuid)
    requires LocksOk(db, x) && id !in db.tasks && id !in x.taskWrites
    ensures id !in x.taskLocks && id !in x.taskShares
  {
  }

  lemma CreateLabelOk(s: State, me: nat, x: Tx, row: Label)
    requires Inv(s) && me in s.txs && s.txs[me] == x && AfterCreateLabel(s, x, row).Some?
    ensures TxOk(s.db, AfterCreateLabel(s, x, row).value) && Granted(s, me, x, AfterCreateLabel(s, x, row).value)
  {
    hide Apart, LocksOk, ViewOk, RetargetOk, StatementOk;
    assert TxOk(s.db, x);
    NewLabelIsUnnamed(s.db, x, row.id);
    WriteLabelOk(s.db, x, row);
    IdleOk(s.db, AfterCreateLabel(s, x, row).value);
    forall z | z in s.txs ensures row.id !in s.txs[z].labelLocks && row.id !in s.txs[z].labelShares {
      assert TxOk(s.db, s.txs[z]);
      NewLabelIsUnlocked(s.db, s.txs[z], row.id);
    }
  }

  lemma NewLabelIsUnnamed(db: Database, x: Tx, id: Uuid)
    requires ViewOk(db, x) && id !in db.labels && id !in x.labelWrites
    ensures forall pair: Pair :: pair in Pairs(db, x) ==> pair.1 != id
  {
  }

  lemma NewLabelIsUnlocked(db: Database, x: Tx, id: Uuid)
    requires LocksOk(db, x) && id !in db.labels && id !in x.labelWrites
    ensures id !in x.labelLocks && id !in x.labelShares
  {
  }

  // ---------------------------------------------------------------- every step, every run

  lemma TxNextOk(s: State, me: nat, a: Action)
    requires Inv(s) && me in s.txs && a.x == me && TxNext(s, me, s.txs[me], a).Some?
    requires !WritesUnchecked(s.txs[me], TxNext(s, me, s.txs[me], a).value, a)
    ensures TxOk(s.db, TxNext(s, me, s.txs[me], a).value)
    ensures Granted(s, me, s.txs[me], TxNext(s, me, s.txs[me], a).value)
  {
    hide TxOk, Granted, Apart;
    var x := s.txs[me];
    match a
    case InsertPair(_, _) => StartPairOk(s, me, x, a);
    case RetargetPair(_, _, _) => StartPairOk(s, me, x, a);
    case ReadTask(_) => ReadTaskOk(s, me, x);
    case ReadLabel(_) => ReadLabelOk(s, me, x);
    case WritePair(_) => WritePairOk(s, me, x);
    case DeletePair(_, pair) => DeletePairOk(s, me, x, pair);
    case MoveTask(_, id, target) => MoveTaskOk(s, me, x, id, target);
    case FindLabels(_) => FindLabelsOk(s, me, x);
    case CheckLabel(_, id) => CheckLabelOk(s, me, x, id);
    case FinishTask(_) => FinishTaskOk(s, me, x);
    case MoveLabel(_, id, target) => MoveLabelOk(s, me, x, id, target);
    case FindTasks(_) => FindTasksOk(s, me, x);
    case CheckTask(_, id) => CheckTaskOk(s, me, x, id);
    case FinishLabel(_) => FinishLabelOk(s, me, x);
    case CreateTask(_, row) => CreateTaskOk(s, me, x, row);
    case CreateLabel(_, row) => CreateLabelOk(s, me, x, row);
    case _ =>
  }

  lemma FreshOk(db: Database)
    requires SameProject(db.tasks, db.labels, db.taskLabels)
    ensures TxOk(db, FRESH_TX) && forall y :: Apart(FRESH_TX, y) && Apart(y, FRESH_TX)
  {
  }

  lemma BeginKeeps(s: State, me: nat)
    requires Inv(s) && me !in s.txs
    ensures Inv(s.(txs := s.txs[me := FRESH_TX]))
  {
    hide TxOk, Apart;
    FreshOk(s.db);
  }

  lemma StepKeeps(s: State, a: Action)
    requires Inv(s) && Next(s, a).Some? && !Next(s, a).value.unchecked
    ensures Inv(Next(s, a).value) && !s.unchecked
  {
    hide TxOk, Apart, Granted, Inv, TxNext;
    if a.Begin? {
      BeginKeeps(s, a.x);
    } else if a.Abort? {
      AbortKeeps(s, a.x);
    } else if a.Commit? {
      CommitKeeps(s, a.x);
    } else {
      TxNextOk(s, a.x, a);
      InsideKeeps(s, a.x, TxNext(s, a.x, s.txs[a.x], a).value, Next(s, a).value);
    }
  }

  lemma AbortKeeps(s: State, me: nat)
    requires Inv(s) && me in s.txs
    ensures Inv(s.(txs := s.txs - {me}))
  {
    hide TxOk, Apart;
  }

  lemma {:induction false} RunKeeps(db: Database, actions: seq<Action>)
    requires SameProject(db.tasks, db.labels, db.taskLabels)
    requires Run(Initial(db), actions).Some? && !Run(Initial(db), actions).value.unchecked
    ensures Inv(Run(Initial(db), actions).value)
  {
    if actions != [] {
      var before := actions[..|actions| - 1];
      var last := actions[|actions| - 1];
      UncheckedIsForGood(Run(Initial(db), before).value, last);
      RunKeeps(db, before);
      StepKeeps(Run(Initial(db), before).value, last);
    }
  }

  lemma UncheckedIsForGood(s: State, a: Action)
    requires Next(s, a).Some?
    ensures s.unchecked ==> Next(s, a).value.unchecked
  {
  }

  /**
   From a valid database, for every interleaving of transactions that create tasks and labels, insert, retarget
   and delete pairs, and move tasks and labels between projects, with aborts anywhere: as long as no pair is
   written whose trigger missed a parent row, every committed pair joins a task and a label of one project.
   */
  lemma SameProjectAlways(db: Database, actions: seq<Action>)
    requires SameProject(db.tasks, db.labels, db.taskLabels)
    requires Run(Initial(db), actions).Some? && !Run(Initial(db), actions).value.unchecked
    ensures var s := Run(Initial(db), actions).value; SameProject(s.db.tasks, s.db.labels, s.db.taskLabels)
  {
    RunKeeps(db, actions);
  }

  // ---------------------------------------------------------------- the gap

  /** A run in which transaction 0 pairs a task that transaction 1 is only just creating in another project. */
  function GapRun(labelId: Uuid, row: Task): seq<Action> {
    [Begin(0)] + [InsertPair(0, (row.id, labelId))] + [ReadTask(0)] + [ReadLabel(0)]
    + [Begin(1)] + [CreateTask(1, row)] + [Commit(1)] + [WritePair(0)] + [Commit(0)]
  }

  lemma RunSnoc(s: State, actions: seq<Action>, a: Action)
    ensures Run(s, actions + [a]) == if Run(s, actions).None? then None else Next(Run(s, actions).value, a)
  {
    assert (actions + [a])[..|actions|] == actions;
  }

  /** The inserting transaction once its trigger has looked for a task that is not there. */
  function Misled(labelId: Uuid, pair: Pair): Tx {
    FRESH_TX.(labelShares := {labelId}, statement := PairAccepted(pair, None, false))
  }

  ghost predicate GapData(db: Database, labelId: Uuid, row: Task) {
    && SameProject(db.tasks, db.labels, db.taskLabels)
    && labelId in db.labels && row.id !in db.tasks && db.labels[labelId].projectId != row.projectId
  }

  lemma GapReadsNull(db: Database, labelId: Uuid, row: Task)
    requires GapData(db, labelId, row)
    ensures var pair := (row.id, labelId);
      Run(Initial(db), [Begin(0)] + [InsertPair(0, pair)] + [ReadTask(0)] + [ReadLabel(0)])
      == Some(State(db, map[0 := Misled(labelId, pair)], false))
  {
    var pair := (row.id, labelId);
    var s0 := Initial(db);
    RunSnoc(s0, [], Begin(0));
    assert [] + [Begin(0)] == [Begin(0)];
    RunSnoc(s0, [Begin(0)], InsertPair(0, pair));
    RunSnoc(s0, [Begin(0)] + [InsertPair(0, pair)], ReadTask(0));
    RunSnoc(s0, [Begin(0)] + [InsertPair(0, pair)] + [ReadTask(0)], ReadLabel(0));
    GapFirstSteps(db, labelId, row);
  }

  lemma GapFirstSteps(db: Database, labelId: Uuid, row: Task)
    requires GapData(db, labelId, row)
    ensures var pair := (row.id, labelId);
      var x1 := FRESH_TX.(statement := PairWantsTask(pair, None));
      var x2 := FRESH_TX.(statement := PairWantsLabel(pair, None, None));
      && Next(Initial(db), Begin(0)) == Some(State(db, map[0 := FRESH_TX], false))
      && Next(State(db, map[0 := FRESH_TX], false), InsertPair(0, pair)) == Some(State(db, map[0 := x1], false))
      && Next(State(db, map[0 := x1], false), ReadTask(0)) == Some(State(db, map[0 := x2], false))
      && Next(State(db, map[0 := x2], false), ReadLabel(0)) == Some(State(db, map[0 := Misled(labelId, pair)], false))
  {
    var pair := (row.id, labelId);
    var x1 := FRESH_TX.(statement := PairWantsTask(pair, None));
    var x2 := FRESH_TX.(statement := PairWantsLabel(pair, None, None));
    assert Initial(db).txs[0 := FRESH_TX] == map[0 := FRESH_TX];
    AloneStep(db, FRESH_TX, x1, InsertPair(0, pair));
    assert TaskProject(db, x1, row.id) == None;
    AloneStep(db, x1, x2, ReadTask(0));
    assert LabelProject(db, x2, labelId) == Some(db.labels[labelId].projectId);
    var s := State(db, map[0 := x2], false);
    assert AfterReadLabel(s, 0, x2).value.labelShares == {labelId};
    AloneStep(db, x2, Misled(labelId, pair), ReadLabel(0));
  }

  lemma AloneStep(db: Database, x: Tx, y: Tx, a: Action)
    requires a.x == 0 && !a.Begin? && !a.Commit? && !a.Abort? && y.added == x.added
    requires TxNext(State(db, map[0 := x], false), 0, x, a) == Some(y)
    ensures Next(State(db, map[0 := x], false), a) == Some(State(db, map[0 := y], false))
  {
    assert map[0 := x][0 := y] == map[0 := y];
  }

  function Creator(row: Task): Tx {
    FRESH_TX.(taskWrites := map[row.id := row], taskLocks := {row.id})
  }

  /** Meanwhile the task appears, committed by the other transaction. */
  lemma GapBegins(db: Database, x: Tx)
    ensures Next(State(db, map[0 := x], false), Begin(1)) == Some(State(db, map[0 := x, 1 := FRESH_TX], false))
  {
    assert map[0 := x][1 := FRESH_TX] == map[0 := x, 1 := FRESH_TX];
  }

  lemma GapCreates(db: Database, x: Tx, row: Task)
    requires row.id !in db.tasks && x.taskWrites == map[]
    ensures Next(State(db, map[0 := x, 1 := FRESH_TX], false), CreateTask(1, row))
            == Some(State(db, map[0 := x, 1 := Creator(row)], false))
  {
    var s := State(db, map[0 := x, 1 := FRESH_TX], false);
    var made := AfterCreateTask(s, FRESH_TX, row);
    assert s.txs[0] == x && s.txs[1] == FRESH_TX;
    assert made.Some?;
    assert made.value.taskWrites == Creator(row).taskWrites && made.value.taskLocks == Creator(row).taskLocks;
    assert s.txs[1 := Creator(row)] == map[0 := x, 1 := Creator(row)];
  }

  lemma GapCommits(db: Database, x: Tx, row: Task)
    ensures Next(State(db, map[0 := x, 1 := Creator(row)], false), Commit(1))
            == Some(State(db.(tasks := db.tasks[row.id := row]), map[0 := x], false))
  {
    assert map[0 := x, 1 := Creator(row)] - {1} == map[0 := x];
    assert Tasks(db, Creator(row)) == db.tasks[row.id := row];
    assert Labels(db, Creator(row)) == db.labels && Pairs(db, Creator(row)) == db.taskLabels;
  }

  lemma GapWrites(db: Database, labelId: Uuid, row: Task)
    requires GapData(db, labelId, row)
    ensures var pair := (row.id, labelId);
      var after := db.(tasks := db.tasks[row.id := row]);
      var s7 := State(after, map[0 := Misled(labelId, pair)], false);
      var s8 := Next(s7, WritePair(0));
      && s8.Some? && s8.value.unchecked && 0 in s8.value.txs && s8.value.db == after
      && s8.value.txs[0] == FRESH_TX.(labelShares := {labelId}, added := {pair}, pairLocks := {pair})
  {
    assert (row.id, labelId) !in db.taskLabels;
    MisledWrites(db.(tasks := db.tasks[row.id := row]), Misled(labelId, (row.id, labelId)), (row.id, labelId));
  }

  /** By the time the pair is written, both rows are there and the foreign keys are satisfied. */
  lemma MisledWrites(db: Database, x: Tx, pair: Pair)
    requires x.statement == PairAccepted(pair, None, false) && x.taskWrites == map[] && x.labelWrites == map[]
    requires x.added == {} && x.removed == {} && x.pairLocks == {}
    requires pair !in db.taskLabels && pair.0 in db.tasks && pair.1 in db.labels
    ensures Next(State(db, map[0 := x], false), WritePair(0))
              == Some(State(db, map[0 := x.(added := {pair}, pairLocks := {pair}, statement := Idle)], true))
  {
    hide TaskProject, LabelProject;
    var s := State(db, map[0 := x], false);
    ParentsFound(db, x, pair);
    assert x.added - {} + {pair} == {pair} && x.removed + {} == {} && x.pairLocks + {pair} == {pair};
    var y := x.(added := {pair}, pairLocks := {pair}, statement := Idle);
    assert AfterWritePair(s, 0, x) == Some(y);
    assert s.txs[0 := y] == map[0 := y];
  }

  lemma ParentsFound(db: Database, x: Tx, pair: Pair)
    requires x.taskWrites == map[] && x.labelWrites == map[] && pair.0 in db.tasks && pair.1 in db.labels
    ensures TaskProject(db, x, pair.0).Some? && LabelProject(db, x, pair.1).Some?
  {
  }

  /**
   The condition on parent rows cannot be dropped: the trigger lets a pair through when it reads null for a row
   that is not yet there, while the foreign key, checked later, already finds it. For every database, every label
   and every new task of another project there is a run that commits a cross-project pair. `LabelTriggerCallers`
   shows that callers who read both rows first never get here.
   */
  lemma MissingParentBreaksIt(db: Database, labelId: Uuid, row: Task)
    requires SameProject(db.tasks, db.labels, db.taskLabels)
    requires labelId in db.labels && row.id !in db.tasks && db.labels[labelId].projectId != row.projectId
    ensures var end := Run(Initial(db), GapRun(labelId, row));
      && end.Some? && end.value.unchecked
      && !SameProject(end.value.db.tasks, end.value.db.labels, end.value.db.taskLabels)
  {
    hide Next;
    var s0 := Initial(db);
    var pair := (row.id, labelId);
    var a4 := [Begin(0)] + [InsertPair(0, pair)] + [ReadTask(0)] + [ReadLabel(0)];
    GapReadsNull(db, labelId, row);
    GapBegins(db, Misled(labelId, pair));
    GapCreates(db, Misled(labelId, pair), row);
    GapCommits(db, Misled(labelId, pair), row);
    GapWrites(db, labelId, row);
    RunSnoc(s0, a4, Begin(1));
    RunSnoc(s0, a4 + [Begin(1)], CreateTask(1, row));
    RunSnoc(s0, a4 + [Begin(1)] + [CreateTask(1, row)], Commit(1));
    RunSnoc(s0, a4 + [Begin(1)] + [CreateTask(1, row)] + [Commit(1)], WritePair(0));
    RunSnoc(s0, a4 + [Begin(1)] + [CreateTask(1, row)] + [Commit(1)] + [WritePair(0)], Commit(0));
    var s8 := Run(s0, a4 + [Begin(1)] + [CreateTask(1, row)] + [Commit(1)] + [WritePair(0)]).value;
    CommitsPair(s8, pair);
  }

  lemma CommitsPair(s: State, pair: Pair)
    requires 0 in s.txs && s.txs[0].statement.Idle? && pair in s.txs[0].added
    requires s.txs[0].taskWrites == map[] && s.txs[0].labelWrites == map[]
    requires pair.0 in s.db.tasks && pair.1 in s.db.labels && s.db.tasks[pair.0].projectId != s.db.labels[pair.1].projectId
    ensures var end := Next(s, Commit(0));
      && end.Some? && end.value.unchecked == s.unchecked
      && !SameProject(end.value.db.tasks, end.value.db.labels, end.value.db.taskLabels)
  {
  }

  // ---------------------------------------------------------------- the same gap for labels

  /** A run in which transaction 0 pairs a label that transaction 1 is only just creating in another project. */
  function LabelGapRun(taskId: Uuid, row: Label): seq<Action> {
    [Begin(0)] + [InsertPair(0, (taskId, row.id))] + [ReadTask(0)] + [ReadLabel(0)]
    + [Begin(1)] + [CreateLabel(1, row)] + [Commit(1)] + [WritePair(0)] + [Commit(0)]
  }

  /** The inserting transaction once its trigger has locked the task and looked for a label that is not there. */
  function MisledByLabel(taskId: Uuid, pair: Pair): Tx {
    FRESH_TX.(taskShares := {taskId}, statement := PairAccepted(pair, None, false))
  }

  ghost predicate LabelGapData(db: Database, taskId: Uuid, row: Label) {
    && SameProject(db.tasks, db.labels, db.taskLabels)
    && taskId in db.tasks && row.id !in db.labels && db.tasks[taskId].projectId != row.projectId
  }

  lemma LabelGapFirstSteps(db: Database, taskId: Uuid, row: Label)
    requires LabelGapData(db, taskId, row)
    ensures var pair := (taskId, row.id);
      var x1 := FRESH_TX.(statement := PairWantsTask(pair, None));
      var x2 := FRESH_TX.(taskShares := {taskId}, statement := PairWantsLabel(pair, None, Some(db.tasks[taskId].projectId)));
      && Next(Initial(db), Begin(0)) == Some(State(db, map[0 := FRESH_TX], false))
      && Next(State(db, map[0 := FRESH_TX], false), InsertPair(0, pair)) == Some(State(db, map[0 := x1], false))
      && Next(State(db, map[0 := x1], false), ReadTask(0)) == Some(State(db, map[0 := x2], false))
      && Next(State(db, map[0 := x2], false), ReadLabel(0)) == Some(State(db, map[0 := MisledByLabel(taskId, pair)], false))
  {
    var pair := (taskId, row.id);
    var x1 := FRESH_TX.(statement := PairWantsTask(pair, None));
    var x2 := FRESH_TX.(taskShares := {taskId}, statement := PairWantsLabel(pair, None, Some(db.tasks[taskId].projectId)));
    assert Initial(db).txs[0 := FRESH_TX] == map[0 := FRESH_TX];
    AloneStep(db, FRESH_TX, x1, InsertPair(0, pair));
    assert TaskProject(db, x1, taskId) == Some(db.tasks[taskId].projectId);
    assert AfterReadTask(State(db, map[0 := x1], false), 0, x1).value.taskShares == {taskId};
    AloneStep(db, x1, x2, ReadTask(0));
    assert LabelProject(db, x2, row.id) == None;
    AloneStep(db, x2, MisledByLabel(taskId, pair), ReadLabel(0));
  }

  lemma LabelGapReadsNull(db: Database, taskId: Uuid, row: Label)
    requires LabelGapData(db, taskId, row)
    ensures var pair := (taskId, row.id);
      Run(Initial(db), [Begin(0)] + [InsertPair(0, pair)] + [ReadTask(0)] + [ReadLabel(0)])
      == Some(State(db, map[0 := MisledByLabel(taskId, pair)], false))
  {
    hide Next;
    var pair := (taskId, row.id);
    var s0 := Initial(db);
    RunSnoc(s0, [], Begin(0));
    assert [] + [Begin(0)] == [Begin(0)];
    RunSnoc(s0, [Begin(0)], InsertPair(0, pair));
    RunSnoc(s0, [Begin(0)] + [InsertPair(0, pair)], ReadTask(0));
    RunSnoc(s0, [Begin(0)] + [InsertPair(0, pair)] + [ReadTask(0)], ReadLabel(0));
    LabelGapFirstSteps(db, taskId, row);
  }

  function LabelCreator(row: Label): Tx {
    FRESH_TX.(labelWrites := map[row.id := row], labelLocks := {row.id})
  }

  /** Meanwhile the label appears, committed by the other transaction. */
  lemma LabelGapCreates(db: Database, x: Tx, row: Label)
    requires row.id !in db.labels && x.labelWrites == map[]
    ensures Next(State(db, map[0 := x, 1 := FRESH_TX], false), CreateLabel(1, row))
            == Some(State(db, map[0 := x, 1 := LabelCreator(row)], false))
  {
    var s := State(db, map[0 := x, 1 := FRESH_TX], false);
    var made := AfterCreateLabel(s, FRESH_TX, row);
    assert s.txs[0] == x && s.txs[1] == FRESH_TX;
    assert made.Some?;
    assert made.value.labelWrites == LabelCreator(row).labelWrites && made.value.labelLocks == LabelCreator(row).labelLocks;
    assert s.txs[1 := LabelCreator(row)] == map[0 := x, 1 := LabelCreator(row)];
  }

  lemma LabelGapCommits(db: Database, x: Tx, row: Label)
    ensures Next(State(db, map[0 := x, 1 := LabelCreator(row)], false), Commit(1))
            == Some(State(db.(labels := db.labels[row.id := row]), map[0 := x], false))
  {
    assert map[0 := x, 1 := LabelCreator(row)] - {1} == map[0 := x];
    assert Labels(db, LabelCreator(row)) == db.labels[row.id := row];
    assert Tasks(db, LabelCreator(row)) == db.tasks && Pairs(db, LabelCreator(row)) == db.taskLabels;
  }

  lemma LabelGapWrites(db: Database, taskId: Uuid, row: Label)
    requires LabelGapData(db, taskId, row)
    ensures var pair := (taskId, row.id);
      var after := db.(labels := db.labels[row.id := row]);
      var s7 := State(after, map[0 := MisledByLabel(taskId, pair)], false);
      var s8 := Next(s7, WritePair(0));
      && s8.Some? && s8.value.unchecked && 0 in s8.value.txs && s8.value.db == after
      && s8.value.txs[0] == FRESH_TX.(taskShares := {taskId}, added := {pair}, pairLocks := {pair})
  {
    assert (taskId, row.id) !in db.taskLabels;
    MisledWrites(db.(labels := db.labels[row.id := row]), MisledByLabel(taskId, (taskId, row.id)), (taskId, row.id));
  }

  /** The other half: for every database, every task and every new label of another project there is such a run too. */
  lemma MissingLabelBreaksIt(db: Database, taskId: Uuid, row: Label)
    requires SameProject(db.tasks, db.labels, db.taskLabels)
    requires taskId in db.tasks && row.id !in db.labels && db.tasks[taskId].projectId != row.projectId
    ensures var end := Run(Initial(db), LabelGapRun(taskId, row));
      && end.Some? && end.value.unchecked
      && !SameProject(end.value.db.tasks, end.value.db.labels, end.value.db.taskLabels)
  {
    hide Next;
    var s0 := Initial(db);
    var pair := (taskId, row.id);
    var a4 := [Begin(0)] + [InsertPair(0, pair)] + [ReadTask(0)] + [ReadLabel(0)];
    LabelGapReadsNull(db, taskId, row);
    GapBegins(db, MisledByLabel(taskId, pair));
    LabelGapCreates(db, MisledByLabel(taskId, pair), row);
    LabelGapCommits(db, MisledByLabel(taskId, pair), row);
    LabelGapWrites(db, taskId, row);
    RunSnoc(s0, a4, Begin(1));
    RunSnoc(s0, a4 + [Begin(1)], CreateLabel(1, row));
    RunSnoc(s0, a4 + [Begin(1)] + [CreateLabel(1, row)], Commit(1));
    RunSnoc(s0, a4 + [Begin(1)] + [CreateLabel(1, row)] + [Commit(1)], WritePair(0));
    RunSnoc(s0, a4 + [Begin(1)] + [CreateLabel(1, row)] + [Commit(1)] + [WritePair(0)], Commit(0));
    CommitsPair(Run(s0, a4 + [Begin(1)] + [CreateLabel(1, row)] + [Commit(1)] + [WritePair(0)]).value, pair);
  }
}
