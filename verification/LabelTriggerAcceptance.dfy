/**
 What the triggers let through. The safety results say that nothing wrong is committed; these say that everything right
 is, and that a refusal always has its reason in the rows. All of them hold in any state, beside any other open
 transactions that do not hold the locks the statement needs.
 */
module LabelTriggerAcceptance {
  import opened Wrappers
  import opened Domain
  import opened LabelTriggers
  import opened LabelTriggerSafety
  import opened LabelTriggerGuarantee

  // ---------------------------------------------------------------- one transaction beside others

  /** The state with one more open transaction. */
  function Beside(s: State, me: nat, x: Tx): State {
    s.(txs := s.txs[me := x])
  }

  lemma Begins(s: State, me: nat)
    requires me !in s.txs
    ensures Run(s, [Begin(me)]) == Some(Beside(s, me, FRESH_TX))
  {
    assert [Begin(me)][..0] == [];
  }

  lemma Steps(s: State, me: nat, actions: seq<Action>, x: Tx, a: Action)
    requires Run(s, actions) == Some(Beside(s, me, x)) && a.x == me && !a.Begin? && !a.Commit? && !a.Abort?
    ensures var y := TxNext(Beside(s, me, x), me, x, a);
            && (y.None? ==> Run(s, actions + [a]).None?)
            && (y.Some? && !WritesUnchecked(x, y.value, a) ==> Run(s, actions + [a]) == Some(Beside(s, me, y.value)))
            && (y.Some? ==> Run(s, actions + [a]).Some? && me in Run(s, actions + [a]).value.txs
                            && Run(s, actions + [a]).value.txs[me] == y.value)
  {
    hide TxNext, WritesUnchecked;
    RunSnoc(s, actions, a);
    var y := TxNext(Beside(s, me, x), me, x, a);
    if y.Some? {
      assert s.txs[me := x][me := y.value] == s.txs[me := y.value];
    }
  }

  lemma Commits(s: State, me: nat, actions: seq<Action>, x: Tx)
    requires Run(s, actions) == Some(Beside(s, me, x)) && me !in s.txs && x.statement.Idle?
    ensures Run(s, actions + [Commit(me)]) == Some(s.(db := Merged(s.db, x)))
  {
    hide Merged;
    RunSnoc(s, actions, Commit(me));
    assert s.txs[me := x] - {me} == s.txs;
  }

  lemma StaysImpossible(s: State, actions: seq<Action>, a: Action)
    requires Run(s, actions).None?
    ensures Run(s, actions + [a]).None?
  {
    RunSnoc(s, actions, a);
  }

  // ---------------------------------------------------------------- writing a pair

  /** The statement that writes a pair: an INSERT, or an UPDATE of another pair's row. */
  function WriteStatement(me: nat, source: Option<Pair>, pair: Pair): Action {
    if source.Some? then RetargetPair(me, source.value, pair) else InsertPair(me, pair)
  }

  function ReadSteps(me: nat, source: Option<Pair>, pair: Pair): seq<Action> {
    ([Begin(me)] + [WriteStatement(me, source, pair)]) + [ReadTask(me)] + [ReadLabel(me)]
  }

  /** A whole transaction that writes one pair. */
  function WriteSteps(me: nat, source: Option<Pair>, pair: Pair): seq<Action> {
    ReadSteps(me, source, pair) + [WritePair(me)] + [Commit(me)]
  }

  /** Nobody else is changing the two rows or the pairs. Shared locks of others do no harm. */
  predicate Unlocked(s: State, source: Option<Pair>, pair: Pair) {
    forall y :: y in s.txs ==>
      && pair.0 !in s.txs[y].taskLocks && pair.1 !in s.txs[y].labelLocks
      && pair !in s.txs[y].pairLocks && (source.Some? ==> source.value !in s.txs[y].pairLocks)
  }

  function Wanting(source: Option<Pair>, pair: Pair): Tx {
    FRESH_TX.(pairLocks := if source.Some? then {source.value} else {}, statement := PairWantsTask(pair, source))
  }

  function WithTask(db: Database, source: Option<Pair>, pair: Pair): Tx {
    Wanting(source, pair).(taskShares := if pair.0 in db.tasks then {pair.0} else {},
                           statement := PairWantsLabel(pair, source, ProjectOfTask(db, pair.0)))
  }

  function ProjectOfTask(db: Database, id: Uuid): Option<Uuid> {
    if id in db.tasks then Some(db.tasks[id].projectId) else None
  }

  predicate Mismatched(db: Database, pair: Pair) {
    pair.0 in db.tasks && pair.1 in db.labels && db.tasks[pair.0].projectId != db.labels[pair.1].projectId
  }

  /** Once both rows have been read: raised exactly if both are there and their projects differ. */
  function BothRead(db: Database, source: Option<Pair>, pair: Pair): Tx {
    WithTask(db, source, pair).(labelShares := if pair.1 in db.labels then {pair.1} else {},
                                statement := if Mismatched(db, pair) then Failed
                                             else PairAccepted(pair, source, pair.0 in db.tasks && pair.1 in db.labels))
  }

  lemma OpensWrite(s: State, me: nat, source: Option<Pair>, pair: Pair)
    requires me !in s.txs && Unlocked(s, source, pair) && (source.Some? ==> source.value in s.db.taskLabels)
    ensures Run(s, [Begin(me)] + [WriteStatement(me, source, pair)]) == Some(Beside(s, me, Wanting(source, pair)))
  {
    hide Run;
    Begins(s, me);
    Steps(s, me, [Begin(me)], FRESH_TX, WriteStatement(me, source, pair));
    if source.Some? {
      assert FRESH_TX.pairLocks + {source.value} == {source.value};
    }
  }

  lemma ReadsTask(s: State, me: nat, source: Option<Pair>, pair: Pair)
    requires me !in s.txs && Unlocked(s, source, pair)
    ensures AfterReadTask(Beside(s, me, Wanting(source, pair)), me, Wanting(source, pair)) == Some(WithTask(s.db, source, pair))
  {
    assert Wanting(source, pair).taskShares + {pair.0} == {pair.0};
  }

  lemma ReadsLabel(s: State, me: nat, source: Option<Pair>, pair: Pair)
    requires me !in s.txs && Unlocked(s, source, pair)
    ensures AfterReadLabel(Beside(s, me, WithTask(s.db, source, pair)), me, WithTask(s.db, source, pair))
              == Some(BothRead(s.db, source, pair))
  {
    assert WithTask(s.db, source, pair).labelShares + {pair.1} == {pair.1};
  }

  lemma ReadsBoth(s: State, me: nat, source: Option<Pair>, pair: Pair)
    requires me !in s.txs && Unlocked(s, source, pair) && (source.Some? ==> source.value in s.db.taskLabels)
    ensures Run(s, ReadSteps(me, source, pair)) == Some(Beside(s, me, BothRead(s.db, source, pair)))
  {
    hide Run, AfterReadTask, AfterReadLabel, Unlocked, Wanting, WithTask, BothRead;
    OpensWrite(s, me, source, pair);
    var front := [Begin(me)] + [WriteStatement(me, source, pair)];
    ReadsTask(s, me, source, pair);
    Steps(s, me, front, Wanting(source, pair), ReadTask(me));
    ReadsLabel(s, me, source, pair);
    Steps(s, me, front + [ReadTask(me)], WithTask(s.db, source, pair), ReadLabel(me));
  }

  /** What the statement leaves: the pair in place of the one it replaces. */
  function PairsAfter(db: Database, source: Option<Pair>, pair: Pair): set<Pair> {
    db.taskLabels - (if source.Some? then {source.value} else {}) + {pair}
  }

  lemma WritesAccepted(s: State, me: nat, source: Option<Pair>, pair: Pair)
    requires me !in s.txs && Unlocked(s, source, pair) && (source.Some? ==> source.value in s.db.taskLabels)
    requires ParentsCommitted(s.db, pair) && !Mismatched(s.db, pair)
    ensures var x := BothRead(s.db, source, pair);
            var y := AfterWritePair(Beside(s, me, x), me, x);
            && y.Some?
            && (pair in s.db.taskLabels && source.Some? && source.value != pair ==> y.value.statement.Failed?)
            && (!(pair in s.db.taskLabels && source.Some? && source.value != pair) ==>
                  && y.value.statement.Idle? && y.value.taskWrites == map[] && y.value.labelWrites == map[]
                  && s.db.taskLabels - y.value.removed + y.value.added == PairsAfter(s.db, source, pair))
  {
  }

  lemma RefusesTheRest(s: State, me: nat, source: Option<Pair>, pair: Pair)
    requires me !in s.txs && Unlocked(s, source, pair) && Kept(s.db)
    requires !(ParentsCommitted(s.db, pair) && !Mismatched(s.db, pair))
    ensures var x := BothRead(s.db, source, pair);
            var y := AfterWritePair(Beside(s, me, x), me, x);
            y.None? || y.value.statement.Failed?
  {
  }

  lemma CannotCommit(s: State, me: nat, actions: seq<Action>)
    requires Run(s, actions).Some? && me in Run(s, actions).value.txs && Run(s, actions).value.txs[me].statement.Failed?
    ensures Run(s, actions + [Commit(me)]).None?
  {
    RunSnoc(s, actions, Commit(me));
  }

  /** The commit of a transaction that has written nothing but pairs. */
  lemma MergesPairs(db: Database, x: Tx)
    requires x.taskWrites == map[] && x.labelWrites == map[]
    ensures Merged(db, x) == db.(taskLabels := db.taskLabels - x.removed + x.added)
  {
    assert db.tasks + map[] == db.tasks && db.labels + map[] == db.labels;
  }

  /**
   A pair is written exactly when both its rows are there and share a project, and no other row already holds it. Then the
   transaction commits that pair and nothing else; otherwise it cannot commit.
   */
  lemma WrittenExactly(s: State, me: nat, source: Option<Pair>, pair: Pair)
    requires me !in s.txs && Unlocked(s, source, pair) && Kept(s.db) && (source.Some? ==> source.value in s.db.taskLabels)
    ensures var end := Run(s, WriteSteps(me, source, pair));
            && (end.Some? <==>
                  && pair.0 in s.db.tasks && pair.1 in s.db.labels
                  && s.db.tasks[pair.0].projectId == s.db.labels[pair.1].projectId
                  && (source.Some? && source.value != pair ==> pair !in s.db.taskLabels))
            && (end.Some? ==> end.value == s.(db := s.db.(taskLabels := PairsAfter(s.db, source, pair))))
  {
    hide Run, AfterWritePair, BothRead, Unlocked, Kept, Merged, WritesUnchecked;
    var x := BothRead(s.db, source, pair);
    var read := ReadSteps(me, source, pair);
    ReadsBoth(s, me, source, pair);
    Steps(s, me, read, x, WritePair(me));
    var y := AfterWritePair(Beside(s, me, x), me, x);
    if ParentsCommitted(s.db, pair) && !Mismatched(s.db, pair) {
      WritesAccepted(s, me, source, pair);
      AcceptedIsChecked(s, me, source, pair, y.value);
      if y.value.statement.Failed? {
        CannotCommit(s, me, read + [WritePair(me)]);
      } else {
        Commits(s, me, read + [WritePair(me)], y.value);
        MergesPairs(s.db, y.value);
      }
    } else {
      RefusesTheRest(s, me, source, pair);
      if y.None? {
        StaysImpossible(s, read + [WritePair(me)], Commit(me));
      } else {
        CannotCommit(s, me, read + [WritePair(me)]);
      }
    }
  }

  lemma AcceptedIsChecked(s: State, me: nat, source: Option<Pair>, pair: Pair, y: Tx)
    requires ParentsCommitted(s.db, pair) && !Mismatched(s.db, pair)
    ensures !WritesUnchecked(BothRead(s.db, source, pair), y, WritePair(me))
  {
  }

  /** What `assign_label` relies on: alone, a pair of one project is accepted, whether or not it is there already. */
  lemma ValidPairIsAccepted(db: Database, pair: Pair)
    requires Kept(db) && pair.0 in db.tasks && pair.1 in db.labels && db.tasks[pair.0].projectId == db.labels[pair.1].projectId
    ensures var steps := [Begin(0), InsertPair(0, pair), ReadTask(0), ReadLabel(0), WritePair(0), Commit(0)];
            Run(Initial(db), steps) == Some(Initial(db.(taskLabels := db.taskLabels + {pair})))
  {
    hide Run, Kept;
    WrittenExactly(Initial(db), 0, None, pair);
    assert WriteSteps(0, None, pair) == [Begin(0), InsertPair(0, pair), ReadTask(0), ReadLabel(0), WritePair(0), Commit(0)];
    assert db.taskLabels - {} + {pair} == db.taskLabels + {pair};
  }

  // ---------------------------------------------------------------- why a trigger raises

  /** The row that a statement of the transaction sees: its own version first. */
  function SeenTask(db: Database, x: Tx, id: Uuid): Option<Task> {
    if id in x.taskWrites then Some(x.taskWrites[id]) else if id in db.tasks then Some(db.tasks[id]) else None
  }

  function SeenLabel(db: Database, x: Tx, id: Uuid): Option<Label> {
    if id in x.labelWrites then Some(x.labelWrites[id]) else if id in db.labels then Some(db.labels[id]) else None
  }

  /** The first read of the pair trigger never raises, and remembers the project of the row it sees, if there is one. */
  lemma FirstReadRemembers(s: State, me: nat, t: State)
    requires Next(s, ReadTask(me)) == Some(t)
    ensures me in s.txs && s.txs[me].statement.PairWantsTask? && me in t.txs && t.txs[me].statement.PairWantsLabel?
    ensures var row := SeenTask(s.db, s.txs[me], s.txs[me].statement.pair.0);
            t.txs[me].statement.taskProject == if row.Some? then Some(row.value.projectId) else None
  {
    hide OthersHoldNoTaskLock;
  }

  /**
   In every reachable state, the pair trigger raises exactly when it has read the task, reads the label, and sees them in
   different projects.
   */
  lemma PairRaisesExactly(db: Database, actions: seq<Action>, me: nat, t: State)
    requires Kept(db) && Run(Initial(db), actions).Some? && !Run(Initial(db), actions).value.unchecked
    requires Next(Run(Initial(db), actions).value, ReadLabel(me)) == Some(t)
    ensures var s := Run(Initial(db), actions).value;
            && me in s.txs && s.txs[me].statement.PairWantsLabel? && me in t.txs
            && var pair := s.txs[me].statement.pair;
               var task, row := SeenTask(s.db, s.txs[me], pair.0), SeenLabel(s.db, s.txs[me], pair.1);
               && (s.txs[me].statement.taskProject.Some? ==> task.Some?)
               && (t.txs[me].statement.Failed? <==>
                     s.txs[me].statement.taskProject.Some? && row.Some? && task.value.projectId != row.value.projectId)
               && (!t.txs[me].statement.Failed? ==> t.txs[me].statement.PairAccepted? && t.txs[me].statement.pair == pair)
  {
    hide Run, Next, SeenTask, SeenLabel, StatementOk;
    RunKeeps(db, actions);
    var s := Run(Initial(db), actions).value;
    OpenStatementOk(s, me, t);
    SecondReadRaises(s, me, t);
  }

  lemma OpenStatementOk(s: State, me: nat, t: State)
    requires Inv(s) && Next(s, ReadLabel(me)) == Some(t)
    ensures me in s.txs && StatementOk(s.db, s.txs[me])
  {
    hide LocksOk, ViewOk, StatementOk, RetargetOk, Apart, OthersHoldNoLabelLock, LabelProject;
    assert TxOk(s.db, s.txs[me]);
  }

  lemma SecondReadRaises(s: State, me: nat, t: State)
    requires Next(s, ReadLabel(me)) == Some(t) && me in s.txs && StatementOk(s.db, s.txs[me])
    ensures s.txs[me].statement.PairWantsLabel? && me in t.txs
    ensures var pair := s.txs[me].statement.pair;
            var task, row := SeenTask(s.db, s.txs[me], pair.0), SeenLabel(s.db, s.txs[me], pair.1);
            && (s.txs[me].statement.taskProject.Some? ==> task.Some?)
            && (t.txs[me].statement.Failed? <==>
                  s.txs[me].statement.taskProject.Some? && row.Some? && task.value.projectId != row.value.projectId)
            && (!t.txs[me].statement.Failed? ==> t.txs[me].statement.PairAccepted? && t.txs[me].statement.pair == pair)
  {
    hide OthersHoldNoLabelLock;
  }

  /** The task trigger raises exactly for a label that it re-reads and does not see in the new project. */
  lemma TaskMoveRaisesExactly(s: State, me: nat, labelId: Uuid, t: State)
    requires Next(s, CheckLabel(me, labelId)) == Some(t)
    ensures me in s.txs && s.txs[me].statement.TaskChecking? && me in t.txs
    ensures var row := SeenLabel(s.db, s.txs[me], labelId);
            t.txs[me].statement.Failed? <==> row.None? || row.value.projectId != s.txs[me].statement.target
  {
    hide OthersHoldNoLabelLock;
  }

  lemma LabelMoveRaisesExactly(s: State, me: nat, taskId: Uuid, t: State)
    requires Next(s, CheckTask(me, taskId)) == Some(t)
    ensures me in s.txs && s.txs[me].statement.LabelChecking? && me in t.txs
    ensures var row := SeenTask(s.db, s.txs[me], taskId);
            t.txs[me].statement.Failed? <==> row.None? || row.value.projectId != s.txs[me].statement.target
  {
    hide OthersHoldNoTaskLock;
  }

  // ---------------------------------------------------------------- moving a task

  predicate TaskUnlocked(s: State, id: Uuid) {
    forall y :: y in s.txs ==> id !in s.txs[y].taskLocks && id !in s.txs[y].taskShares
  }

  /** A transaction that gives one task a project, when no label has to be re-read. */
  function MoveTaskSteps(db: Database, me: nat, id: Uuid, target: Uuid): seq<Action>
    requires id in db.tasks
  {
    [Begin(me)] + [MoveTask(me, id, target)]
    + (if db.tasks[id].projectId == target then [] else [FindLabels(me)] + [FinishTask(me)]) + [Commit(me)]
  }

  function TaskMoving(id: Uuid, statement: Statement): Tx {
    FRESH_TX.(taskLocks := {id}, statement := statement)
  }

  /** The labels of the task that are elsewhere. */
  function Strangers(db: Database, id: Uuid, target: Uuid): set<Uuid> {
    set pair | pair in db.taskLabels && pair.0 == id && pair.1 in db.labels && db.labels[pair.1].projectId != target :: pair.1
  }

  lemma OpensTaskMove(s: State, me: nat, id: Uuid, target: Uuid)
    requires me !in s.txs && TaskUnlocked(s, id) && id in s.db.tasks
    ensures Run(s, [Begin(me)] + [MoveTask(me, id, target)])
              == Some(Beside(s, me, TaskMoving(id, if s.db.tasks[id].projectId == target then Idle else TaskLocked(id, target))))
  {
    hide Run;
    Begins(s, me);
    Steps(s, me, [Begin(me)], FRESH_TX, MoveTask(me, id, target));
    assert s.db.tasks + map[] == s.db.tasks && {} + {id} == {id};
  }

  lemma FindsStrangers(s: State, me: nat, id: Uuid, target: Uuid)
    ensures var x := TaskMoving(id, TaskLocked(id, target));
            AfterFindLabels(Beside(s, me, x), x) == Some(TaskMoving(id, TaskChecking(id, target, Strangers(s.db, id, target))))
  {
    assert s.db.labels + map[] == s.db.labels && s.db.taskLabels - {} + {} == s.db.taskLabels;
    var x := TaskMoving(id, TaskLocked(id, target));
    assert AfterFindLabels(Beside(s, me, x), x).value.statement.todo == Strangers(s.db, id, target);
  }

  function TaskMoved(id: Uuid, row: Task): Tx
    requires row.id == id
  {
    TaskMoving(id, Idle).(taskWrites := map[id := row])
  }

  lemma FinishesTask(s: State, me: nat, id: Uuid, target: Uuid, todo: set<Uuid>)
    requires id in s.db.tasks
    ensures var x := TaskMoving(id, TaskChecking(id, target, todo));
            AfterFinishTask(Beside(s, me, x), x)
              == if todo == {} then Some(TaskMoved(id, s.db.tasks[id].(projectId := target))) else None
  {
    assert s.db.tasks + map[] == s.db.tasks;
  }

  lemma MergesTask(db: Database, id: Uuid, row: Task)
    requires row.id == id
    ensures Merged(db, TaskMoved(id, row)) == db.(tasks := db.tasks[id := row])
    ensures Merged(db, TaskMoving(id, Idle)) == db
  {
    assert db.labels + map[] == db.labels && db.taskLabels - {} + {} == db.taskLabels && db.tasks + map[] == db.tasks;
    assert db.tasks + map[id := row] == db.tasks[id := row];
  }

  /**
   A task moves exactly when it stays in its project or none of its labels is elsewhere; among valid rows that means it
   has no label at all. Then its project changes and nothing else does.
   */
  lemma TaskMovesExactly(s: State, me: nat, id: Uuid, target: Uuid)
    requires me !in s.txs && TaskUnlocked(s, id) && id in s.db.tasks
    ensures var end, row := Run(s, MoveTaskSteps(s.db, me, id, target)), s.db.tasks[id];
            && (end.Some? <==> row.projectId == target
                               || forall l :: (id, l) in s.db.taskLabels && l in s.db.labels ==> s.db.labels[l].projectId == target)
            && (Kept(s.db) && row.projectId != target ==> (end.Some? <==> forall l :: (id, l) !in s.db.taskLabels))
            && (end.Some? ==> end.value == s.(db := s.db.(tasks := s.db.tasks[id := row.(projectId := target)])))
  {
    hide Run, Merged, Kept, TaskUnlocked, AfterFindLabels, AfterFinishTask, TaskMoving, TaskMoved, WritesUnchecked, Strangers;
    var row := s.db.tasks[id];
    var front := [Begin(me)] + [MoveTask(me, id, target)];
    OpensTaskMove(s, me, id, target);
    MergesTask(s.db, id, row.(projectId := target));
    MovingStatements(id, row.(projectId := target));
    if row.projectId == target {
      assert front + [] == front;
      Commits(s, me, front, TaskMoving(id, Idle));
      assert s.db.tasks[id := row] == s.db.tasks;
    } else {
      StrangersExactly(s.db, id, target);
      FindsStrangers(s, me, id, target);
      NoPairWrite(me);
      Steps(s, me, front, TaskMoving(id, TaskLocked(id, target)), FindLabels(me));
      FinishesTask(s, me, id, target, Strangers(s.db, id, target));
      Steps(s, me, front + [FindLabels(me)], TaskMoving(id, TaskChecking(id, target, Strangers(s.db, id, target))), FinishTask(me));
      assert front + ([FindLabels(me)] + [FinishTask(me)]) == (front + [FindLabels(me)]) + [FinishTask(me)];
      if Strangers(s.db, id, target) == {} {
        Commits(s, me, front + [FindLabels(me)] + [FinishTask(me)], TaskMoved(id, row.(projectId := target)));
      } else {
        StaysImpossible(s, front + [FindLabels(me)] + [FinishTask(me)], Commit(me));
      }
    }
  }

  lemma MovingStatements(id: Uuid, row: Task)
    requires row.id == id
    ensures TaskMoving(id, Idle).statement.Idle? && TaskMoved(id, row).statement.Idle?
  {
  }

  lemma NoPairWrite(me: nat)
    ensures forall x, y :: !WritesUnchecked(x, y, FindLabels(me)) && !WritesUnchecked(x, y, FinishTask(me))
    ensures forall x, y :: !WritesUnchecked(x, y, FindTasks(me)) && !WritesUnchecked(x, y, FinishLabel(me))
  {
  }

  lemma StrangersExactly(db: Database, id: Uuid, target: Uuid)
    ensures Strangers(db, id, target) == {} <==>
              forall l :: (id, l) in db.taskLabels && l in db.labels ==> db.labels[l].projectId == target
    ensures Kept(db) && id in db.tasks && db.tasks[id].projectId != target ==>
              (Strangers(db, id, target) == {} <==> forall l :: (id, l) !in db.taskLabels)
  {
    forall l | (id, l) in db.taskLabels && l in db.labels && db.labels[l].projectId != target
      ensures l in Strangers(db, id, target)
    {
      assert (id, l).0 == id && (id, l).1 == l;
    }
  }

  // ---------------------------------------------------------------- moving a label

  predicate LabelUnlocked(s: State, id: Uuid) {
    forall y :: y in s.txs ==> id !in s.txs[y].labelLocks && id !in s.txs[y].labelShares
  }

  function MoveLabelSteps(db: Database, me: nat, id: Uuid, target: Uuid): seq<Action>
    requires id in db.labels
  {
    [Begin(me)] + [MoveLabel(me, id, target)]
    + (if db.labels[id].projectId == target then [] else [FindTasks(me)] + [FinishLabel(me)]) + [Commit(me)]
  }

  function LabelMoving(id: Uuid, statement: Statement): Tx {
    FRESH_TX.(labelLocks := {id}, statement := statement)
  }

  /** The tasks of the label that are elsewhere. */
  function StrangeTasks(db: Database, id: Uuid, target: Uuid): set<Uuid> {
    set pair | pair in db.taskLabels && pair.1 == id && pair.0 in db.tasks && db.tasks[pair.0].projectId != target :: pair.0
  }

  lemma OpensLabelMove(s: State, me: nat, id: Uuid, target: Uuid)
    requires me !in s.txs && LabelUnlocked(s, id) && id in s.db.labels
    ensures Run(s, [Begin(me)] + [MoveLabel(me, id, target)])
              == Some(Beside(s, me, LabelMoving(id, if s.db.labels[id].projectId == target then Idle else LabelLocked(id, target))))
  {
    hide Run;
    Begins(s, me);
    Steps(s, me, [Begin(me)], FRESH_TX, MoveLabel(me, id, target));
    assert s.db.labels + map[] == s.db.labels && {} + {id} == {id};
  }

  lemma FindsStrangeTasks(s: State, me: nat, id: Uuid, target: Uuid)
    ensures var x := LabelMoving(id, LabelLocked(id, target));
            AfterFindTasks(Beside(s, me, x), x) == Some(LabelMoving(id, LabelChecking(id, target, StrangeTasks(s.db, id, target))))
  {
    assert s.db.tasks + map[] == s.db.tasks && s.db.taskLabels - {} + {} == s.db.taskLabels;
    var x := LabelMoving(id, LabelLocked(id, target));
    assert AfterFindTasks(Beside(s, me, x), x).value.statement.todo == StrangeTasks(s.db, id, target);
  }

  function LabelMoved(id: Uuid, row: Label): Tx
    requires row.id == id
  {
    LabelMoving(id, Idle).(labelWrites := map[id := row])
  }

  lemma FinishesLabel(s: State, me: nat, id: Uuid, target: Uuid, todo: set<Uuid>)
    requires id in s.db.labels
    ensures var x := LabelMoving(id, LabelChecking(id, target, todo));
            AfterFinishLabel(Beside(s, me, x), x)
              == if todo == {} then Some(LabelMoved(id, s.db.labels[id].(projectId := target))) else None
  {
    assert s.db.labels + map[] == s.db.labels;
  }

  lemma MergesLabel(db: Database, id: Uuid, row: Label)
    requires row.id == id
    ensures Merged(db, LabelMoved(id, row)) == db.(labels := db.labels[id := row])
    ensures Merged(db, LabelMoving(id, Idle)) == db
  {
    assert db.labels + map[] == db.labels && db.taskLabels - {} + {} == db.taskLabels && db.tasks + map[] == db.tasks;
    assert db.labels + map[id := row] == db.labels[id := row];
  }

  lemma LabelMovingStatements(id: Uuid, row: Label)
    requires row.id == id
    ensures LabelMoving(id, Idle).statement.Idle? && LabelMoved(id, row).statement.Idle?
  {
  }

  lemma StrangeTasksExactly(db: Database, id: Uuid, target: Uuid)
    ensures StrangeTasks(db, id, target) == {} <==>
              forall t :: (t, id) in db.taskLabels && t in db.tasks ==> db.tasks[t].projectId == target
    ensures Kept(db) && id in db.labels && db.labels[id].projectId != target ==>
              (StrangeTasks(db, id, target) == {} <==> forall t :: (t, id) !in db.taskLabels)
  {
    forall t | (t, id) in db.taskLabels && t in db.tasks && db.tasks[t].projectId != target
      ensures t in StrangeTasks(db, id, target)
    {
      assert (t, id).0 == t && (t, id).1 == id;
    }
  }

  /** The same for labels: exactly when none of the label's tasks is elsewhere. */
  lemma LabelMovesExactly(s: State, me: nat, id: Uuid, target: Uuid)
    requires me !in s.txs && LabelUnlocked(s, id) && id in s.db.labels
    ensures var end, row := Run(s, MoveLabelSteps(s.db, me, id, target)), s.db.labels[id];
            && (end.Some? <==> row.projectId == target
                               || forall t :: (t, id) in s.db.taskLabels && t in s.db.tasks ==> s.db.tasks[t].projectId == target)
            && (Kept(s.db) && row.projectId != target ==> (end.Some? <==> forall t :: (t, id) !in s.db.taskLabels))
            && (end.Some? ==> end.value == s.(db := s.db.(labels := s.db.labels[id := row.(projectId := target)])))
  {
    hide Run, Merged, Kept, LabelUnlocked, AfterFindTasks, AfterFinishLabel, LabelMoving, LabelMoved, WritesUnchecked, StrangeTasks;
    var row := s.db.labels[id];
    var front := [Begin(me)] + [MoveLabel(me, id, target)];
    OpensLabelMove(s, me, id, target);
    MergesLabel(s.db, id, row.(projectId := target));
    LabelMovingStatements(id, row.(projectId := target));
    if row.projectId == target {
      assert front + [] == front;
      Commits(s, me, front, LabelMoving(id, Idle));
      assert s.db.labels[id := row] == s.db.labels;
    } else {
      StrangeTasksExactly(s.db, id, target);
      FindsStrangeTasks(s, me, id, target);
      NoPairWrite(me);
      Steps(s, me, front, LabelMoving(id, LabelLocked(id, target)), FindTasks(me));
      FinishesLabel(s, me, id, target, StrangeTasks(s.db, id, target));
      Steps(s, me, front + [FindTasks(me)], LabelMoving(id, LabelChecking(id, target, StrangeTasks(s.db, id, target))), FinishLabel(me));
      assert front + ([FindTasks(me)] + [FinishLabel(me)]) == (front + [FindTasks(me)]) + [FinishLabel(me)];
      if StrangeTasks(s.db, id, target) == {} {
        Commits(s, me, front + [FindTasks(me)] + [FinishLabel(me)], LabelMoved(id, row.(projectId := target)));
      } else {
        StaysImpossible(s, front + [FindTasks(me)] + [FinishLabel(me)], Commit(me));
      }
    }
  }

  // ---------------------------------------------------------------- deleting a pair

  /** A pair that nobody else is writing can be deleted, and then it alone is gone. */
  lemma PairIsDeleted(s: State, me: nat, pair: Pair)
    requires me !in s.txs && pair in s.db.taskLabels && forall y :: y in s.txs ==> pair !in s.txs[y].pairLocks
    ensures Run(s, [Begin(me)] + [DeletePair(me, pair)] + [Commit(me)])
              == Some(s.(db := s.db.(taskLabels := s.db.taskLabels - {pair})))
  {
    hide Run, Merged, WritesUnchecked;
    var front := [Begin(me)] + [DeletePair(me, pair)];
    Begins(s, me);
    DeletesPair(s, me, pair);
    NoPairDeletedUnchecked(me, pair);
    var y := FRESH_TX.(removed := {pair}, pairLocks := {pair});
    Steps(s, me, [Begin(me)], FRESH_TX, DeletePair(me, pair));
    Commits(s, me, front, y);
    MergesPairs(s.db, y);
    assert s.db.taskLabels - {pair} + {} == s.db.taskLabels - {pair};
  }

  lemma DeletesPair(s: State, me: nat, pair: Pair)
    requires me !in s.txs && pair in s.db.taskLabels && forall y :: y in s.txs ==> pair !in s.txs[y].pairLocks
    ensures AfterDeletePair(Beside(s, me, FRESH_TX), me, FRESH_TX, pair)
              == Some(FRESH_TX.(removed := {pair}, pairLocks := {pair}))
  {
    assert {} - {pair} == {} && {} + {pair} == {pair};
    assert FRESH_TX.added - {pair} == {} && FRESH_TX.removed + {pair} == {pair} && FRESH_TX.pairLocks + {pair} == {pair};
  }

  lemma NoPairDeletedUnchecked(me: nat, pair: Pair)
    ensures forall x, y :: !WritesUnchecked(x, y, DeletePair(me, pair))
  {
  }
}
