/**
 The three triggers that keep a task and its labels in one project, under concurrent transactions.

 What is assumed of PostgreSQL at READ COMMITTED, stated by the guards below:
 FOR SHARE on a row waits for any other transaction that has updated it; an UPDATE waits for any other lock on
 its row; a waiter reads the newest committed version; a BEFORE UPDATE row trigger runs with its row already
 locked; each statement, a trigger's included, sees what was committed before it started plus its own
 transaction's writes; row and unique-index entries written by an unfinished transaction make others wait; locks
 are held until the transaction ends.
 */
module LabelTriggers {
  import opened Wrappers
  import opened Domain

  type Pair = (Uuid, Uuid)        // (task, label)

  // ---------------------------------------------------------------- transactions

  /** Where a transaction stands inside a statement whose trigger has to wait for locks. */
  datatype Statement =
    | Idle
    | Failed                                                                 // raised: only an abort can follow
    | PairWantsTask(pair: Pair, retargets: Option<Pair>)
    | PairWantsLabel(pair: Pair, retargets: Option<Pair>, taskProject: Option<Uuid>)
    | PairAccepted(pair: Pair, retargets: Option<Pair>, checked: bool)        // the trigger returned NEW
    | TaskLocked(id: Uuid, target: Uuid)
    | TaskChecking(id: Uuid, target: Uuid, todo: set<Uuid>)                  // labels still to lock and re-read
    | LabelLocked(id: Uuid, target: Uuid)
    | LabelChecking(id: Uuid, target: Uuid, todo: set<Uuid>)                 // tasks still to lock and re-read

  datatype Tx = Tx(
    taskWrites: TaskTable,
    labelWrites: LabelTable,
    added: set<Pair>,
    removed: set<Pair>,
    taskShares: set<Uuid>,
    taskLocks: set<Uuid>,
    labelShares: set<Uuid>,
    labelLocks: set<Uuid>,
    pairLocks: set<Pair>,
    statement: Statement)

  const FRESH_TX := Tx(map[], map[], {}, {}, {}, {}, {}, {}, {}, Idle)

  /** `unchecked` is history: some pair was written although its trigger had not seen both parent rows. */
  datatype State = State(db: Database, txs: map<nat, Tx>, unchecked: bool)

  // What a statement of the transaction sees.
  function Tasks(db: Database, x: Tx): TaskTable {
    db.tasks + x.taskWrites
  }

  function Labels(db: Database, x: Tx): LabelTable {
    db.labels + x.labelWrites
  }

  function Pairs(db: Database, x: Tx): set<Pair> {
    db.taskLabels - x.removed + x.added
  }

  function TaskProject(db: Database, x: Tx, id: Uuid): Option<Uuid> {
    if id in Tasks(db, x) then Some(Tasks(db, x)[id].projectId) else None
  }

  function LabelProject(db: Database, x: Tx, id: Uuid): Option<Uuid> {
    if id in Labels(db, x) then Some(Labels(db, x)[id].projectId) else None
  }

  function Merged(db: Database, x: Tx): Database {
    db.(tasks := Tasks(db, x), labels := Labels(db, x), taskLabels := Pairs(db, x))
  }

  // ---------------------------------------------------------------- locks

  predicate OthersHoldNoTaskLock(s: State, me: nat, id: Uuid) {
    forall y :: y in s.txs && y != me ==> id !in s.txs[y].taskLocks
  }

  predicate OthersHoldNoLabelLock(s: State, me: nat, id: Uuid) {
    forall y :: y in s.txs && y != me ==> id !in s.txs[y].labelLocks
  }

  predicate TaskFree(s: State, me: nat, id: Uuid) {
    forall y :: y in s.txs && y != me ==> id !in s.txs[y].taskLocks && id !in s.txs[y].taskShares
  }

  predicate LabelFree(s: State, me: nat, id: Uuid) {
    forall y :: y in s.txs && y != me ==> id !in s.txs[y].labelLocks && id !in s.txs[y].labelShares
  }

  predicate PairFree(s: State, me: nat, pair: Pair) {
    forall y :: y in s.txs && y != me ==> pair !in s.txs[y].pairLocks
  }

  // ---------------------------------------------------------------- steps

  datatype Action =
    | Begin(x: nat)
    | InsertPair(x: nat, pair: Pair)
    | RetargetPair(x: nat, source: Pair, pair: Pair)
    | ReadTask(x: nat)
    | ReadLabel(x: nat)
    | WritePair(x: nat)
    | DeletePair(x: nat, pair: Pair)
    | MoveTask(x: nat, id: Uuid, target: Uuid)
    | FindLabels(x: nat)
    | CheckLabel(x: nat, labelId: Uuid)
    | FinishTask(x: nat)
    | MoveLabel(x: nat, id: Uuid, target: Uuid)
    | FindTasks(x: nat)
    | CheckTask(x: nat, taskId: Uuid)
    | FinishLabel(x: nat)
    | CreateTask(x: nat, row: Task)
    | CreateLabel(x: nat, newLabel: Label)
    | Commit(x: nat)
    | Abort(x: nat)

  /** `SELECT project_id INTO task_project_id ... FOR SHARE`: a row that is not there is not locked and reads null. */
  function AfterReadTask(s: State, me: nat, x: Tx): Option<Tx> {
    if !x.statement.PairWantsTask? then None else
      var id := x.statement.pair.0;
      var seen := TaskProject(s.db, x, id);
      if seen.None? then Some(x.(statement := PairWantsLabel(x.statement.pair, x.statement.retargets, None)))
      else if !OthersHoldNoTaskLock(s, me, id) then None
      else Some(x.(taskShares := x.taskShares + {id},
                   statement := PairWantsLabel(x.statement.pair, x.statement.retargets, seen)))
  }

  /** The label likewise; then the check, which two non-null different projects fail. */
  function AfterReadLabel(s: State, me: nat, x: Tx): Option<Tx> {
    if !x.statement.PairWantsLabel? then None else
      var id := x.statement.pair.1;
      var taskProject := x.statement.taskProject;
      var seen := LabelProject(s.db, x, id);
      if seen.None? then Some(x.(statement := PairAccepted(x.statement.pair, x.statement.retargets, false)))
      else if !OthersHoldNoLabelLock(s, me, id) then None
      else
        var next := if taskProject.Some? && taskProject != seen then Failed
                    else PairAccepted(x.statement.pair, x.statement.retargets, taskProject.Some?);
        Some(x.(labelShares := x.labelShares + {id}, statement := next))
  }

  /** The row itself: unique index, ON CONFLICT DO NOTHING for an insert, then the two foreign keys. */
  function AfterWritePair(s: State, me: nat, x: Tx): Option<Tx> {
    if !x.statement.PairAccepted? || !PairFree(s, me, x.statement.pair) then None else
      var pair := x.statement.pair;
      var replaced := if x.statement.retargets.Some? then {x.statement.retargets.value} else {};
      if pair in Pairs(s.db, x) && pair !in replaced then
        Some(x.(statement := if x.statement.retargets.Some? then Failed else Idle))
      else if TaskProject(s.db, x, pair.0).None? || LabelProject(s.db, x, pair.1).None? then
        Some(x.(statement := Failed))
      else
        Some(x.(added := x.added - replaced + {pair}, removed := x.removed + replaced,
                pairLocks := x.pairLocks + {pair}, statement := Idle))
  }

  function AfterDeletePair(s: State, me: nat, x: Tx, pair: Pair): Option<Tx> {
    if !x.statement.Idle? || pair !in Pairs(s.db, x) || !PairFree(s, me, pair) then None
    else Some(x.(added := x.added - {pair}, removed := x.removed + {pair}, pairLocks := x.pairLocks + {pair}))
  }

  /** UPDATE of a task's project: the row is locked, and an unchanged project returns at once. */
  function AfterMoveTask(s: State, me: nat, x: Tx, id: Uuid, target: Uuid): Option<Tx> {
    if !x.statement.Idle? || id !in Tasks(s.db, x) || !TaskFree(s, me, id) then None
    else Some(x.(taskLocks := x.taskLocks + {id},
                 statement := if Tasks(s.db, x)[id].projectId == target then Idle else TaskLocked(id, target)))
  }

  /** PERFORM: the labels of the task that this statement sees in another project. */
  function AfterFindLabels(s: State, x: Tx): Option<Tx> {
    if !x.statement.TaskLocked? then None else
      var id, target := x.statement.id, x.statement.target;
      var labels := Labels(s.db, x);
      var todo := set pair | pair in Pairs(s.db, x) && pair.0 == id && pair.1 in labels
                             && labels[pair.1].projectId != target :: pair.1;
      Some(x.(statement := TaskChecking(id, target, todo)))
  }

  /** FOR SHARE OF label: wait, re-read the newest version, and raise if it is still elsewhere. */
  function AfterCheckLabel(s: State, me: nat, x: Tx, id: Uuid): Option<Tx> {
    if !x.statement.TaskChecking? || id !in x.statement.todo || !OthersHoldNoLabelLock(s, me, id) then None else
      var st := x.statement;
      Some(x.(labelShares := x.labelShares + if id in Labels(s.db, x) then {id} else {},
              statement := if LabelProject(s.db, x, id) != Some(st.target) then Failed
                           else TaskChecking(st.id, st.target, st.todo - {id})))
  }

  function AfterFinishTask(s: State, x: Tx): Option<Tx> {
    if !x.statement.TaskChecking? || x.statement.todo != {} || x.statement.id !in Tasks(s.db, x) then None else
      var row := Tasks(s.db, x)[x.statement.id].(projectId := x.statement.target);
      Some(x.(taskWrites := x.taskWrites[row.id := row], statement := Idle))
  }

  function AfterMoveLabel(s: State, me: nat, x: Tx, id: Uuid, target: Uuid): Option<Tx> {
    if !x.statement.Idle? || id !in Labels(s.db, x) || !LabelFree(s, me, id) then None
    else Some(x.(labelLocks := x.labelLocks + {id},
                 statement := if Labels(s.db, x)[id].projectId == target then Idle else LabelLocked(id, target)))
  }

  function AfterFindTasks(s: State, x: Tx): Option<Tx> {
    if !x.statement.LabelLocked? then None else
      var id, target := x.statement.id, x.statement.target;
      var tasks := Tasks(s.db, x);
      var todo := set pair | pair in Pairs(s.db, x) && pair.1 == id && pair.0 in tasks
                             && tasks[pair.0].projectId != target :: pair.0;
      Some(x.(statement := LabelChecking(id, target, todo)))
  }

  function AfterCheckTask(s: State, me: nat, x: Tx, id: Uuid): Option<Tx> {
    if !x.statement.LabelChecking? || id !in x.statement.todo || !OthersHoldNoTaskLock(s, me, id) then None else
      var st := x.statement;
      Some(x.(taskShares := x.taskShares + if id in Tasks(s.db, x) then {id} else {},
              statement := if TaskProject(s.db, x, id) != Some(st.target) then Failed
                           else LabelChecking(st.id, st.target, st.todo - {id})))
  }

  function AfterFinishLabel(s: State, x: Tx): Option<Tx> {
    if !x.statement.LabelChecking? || x.statement.todo != {} || x.statement.id !in Labels(s.db, x) then None else
      var row := Labels(s.db, x)[x.statement.id].(projectId := x.statement.target);
      Some(x.(labelWrites := x.labelWrites[x.statement.id := row], statement := Idle))
  }

  /** A new row has an id no committed row and no open transaction uses. */
  function AfterCreateTask(s: State, x: Tx, row: Task): Option<Tx> {
    if !x.statement.Idle? || row.id in s.db.tasks || (exists y :: y in s.txs && row.id in s.txs[y].taskWrites) then None
    else Some(x.(taskWrites := x.taskWrites[row.id := row], taskLocks := x.taskLocks + {row.id}))
  }

  function AfterCreateLabel(s: State, x: Tx, row: Label): Option<Tx> {
    if !x.statement.Idle? || row.id in s.db.labels || (exists y :: y in s.txs && row.id in s.txs[y].labelWrites) then None
    else Some(x.(labelWrites := x.labelWrites[row.id := row], labelLocks := x.labelLocks + {row.id}))
  }

  /** A step inside transaction `me`. */
  function TxNext(s: State, me: nat, x: Tx, a: Action): Option<Tx> {
    match a
    case InsertPair(_, pair) => if x.statement.Idle? then Some(x.(statement := PairWantsTask(pair, None))) else None
    case RetargetPair(_, source, pair) =>
      if x.statement.Idle? && source in Pairs(s.db, x) && PairFree(s, me, source)
      then Some(x.(pairLocks := x.pairLocks + {source}, statement := PairWantsTask(pair, Some(source)))) else None
    case ReadTask(_) => AfterReadTask(s, me, x)
    case ReadLabel(_) => AfterReadLabel(s, me, x)
    case WritePair(_) => AfterWritePair(s, me, x)
    case DeletePair(_, pair) => AfterDeletePair(s, me, x, pair)
    case MoveTask(_, id, target) => AfterMoveTask(s, me, x, id, target)
    case FindLabels(_) => AfterFindLabels(s, x)
    case CheckLabel(_, id) => AfterCheckLabel(s, me, x, id)
    case FinishTask(_) => AfterFinishTask(s, x)
    case MoveLabel(_, id, target) => AfterMoveLabel(s, me, x, id, target)
    case FindTasks(_) => AfterFindTasks(s, x)
    case CheckTask(_, id) => AfterCheckTask(s, me, x, id)
    case FinishLabel(_) => AfterFinishLabel(s, x)
    case CreateTask(_, row) => AfterCreateTask(s, x, row)
    case CreateLabel(_, row) => AfterCreateLabel(s, x, row)
    case Begin(_) => None
    case Commit(_) => None
    case Abort(_) => None
  }

  predicate WritesUnchecked(x: Tx, y: Tx, a: Action) {
    a.WritePair? && x.statement.PairAccepted? && !x.statement.checked && y.added != x.added
  }

  function Next(s: State, a: Action): Option<State> {
    if a.Begin? then
      if a.x in s.txs then None else Some(s.(txs := s.txs[a.x := FRESH_TX]))
    else if a.x !in s.txs then None
    else if a.Abort? then Some(s.(txs := s.txs - {a.x}))
    else if a.Commit? then
      if !s.txs[a.x].statement.Idle? then None
      else Some(s.(db := Merged(s.db, s.txs[a.x]), txs := s.txs - {a.x}))
    else
      var x := s.txs[a.x];
      var y := TxNext(s, a.x, x, a);
      if y.None? then None
      else Some(s.(txs := s.txs[a.x := y.value], unchecked := s.unchecked || WritesUnchecked(x, y.value, a)))
  }

  function Run(s: State, actions: seq<Action>): Option<State> {
    if actions == [] then Some(s) else
      var before := Run(s, actions[..|actions| - 1]);
      if before.None? then None else Next(before.value, actions[|actions| - 1])
  }

  function Initial(db: Database): State {
    State(db, map[], false)
  }
}
