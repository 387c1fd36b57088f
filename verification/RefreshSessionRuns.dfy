/** Refresh-session rotation over whole runs: at most one rotation, disjoint chains, ordered times. */
module RefreshSessionRuns {
  import opened Wrappers
  import opened Clock
  import opened Domain
  import opened RefreshSessions
  import opened RefreshSessionSafety

  // ---------------------------------------------------------------- one rotation per session

  /**
   However many refreshes and logouts of one token interleave, its row is written at most once: the log has one
   event per revoked row, a rotation exactly when the row has a successor.
   */
  lemma RotatesAtMostOnce(now: Instant, lifetime: nat, actions: seq<Action>, id: Uuid)
    requires Run(Initial(now), lifetime, actions).Some?
    ensures var s := Run(Initial(now), lifetime, actions).value;
            && (forall i, j :: 0 <= i < j < |s.log| ==> s.log[i].row != s.log[j].row)
            && (Rotated(id) in s.log <==> id in s.rows && s.rows[id].replacedBy.Some?)
            && (LoggedOut(id) in s.log <==> id in s.rows && s.rows[id].revokedAt.Some? && s.rows[id].replacedBy.None?)
            && !(Rotated(id) in s.log && LoggedOut(id) in s.log)
  {
    Reachable(now, lifetime, actions);
  }

  lemma Reachable(now: Instant, lifetime: nat, actions: seq<Action>)
    requires Run(Initial(now), lifetime, actions).Some?
    ensures Inv(Run(Initial(now), lifetime, actions).value, lifetime)
  {
    InitialOk(now, lifetime);
    RunKeeps(Initial(now), lifetime, actions);
  }

  /** What later steps may do to a row: nothing at all once it is revoked, and never to its owner or its token. */
  ghost predicate Later(row: Session, next: Session) {
    && next == row.(revokedAt := next.revokedAt, replacedBy := next.replacedBy)
    && (row.revokedAt.Some? ==> next == row)
  }

  ghost predicate RowsLater(rows: Rows, next: Rows) {
    forall id :: id in rows ==> id in next && Later(rows[id], next[id])
  }

  lemma StepLater(s: State, lifetime: nat, a: Action)
    requires Inv(s, lifetime) && Next(s, lifetime, a).Some?
    ensures RowsLater(s.rows, Next(s, lifetime, a).value.rows)
  {
    hide Inv, WritesOk, RowsLater;
    if a.Commit? {
      StagedWrites(s, lifetime, a.r);
      WritesLater(s, lifetime, a.r, s.requests[a.r].phase.row, s.requests[a.r].phase.writes);
    } else {
      RowsStay(s, lifetime, a);
      SameRowsLater(s.rows);
    }
  }

  lemma WritesLater(s: State, lifetime: nat, r: nat, row: Option<Uuid>, writes: Rows)
    requires WritesOk(s, lifetime, r, row, writes)
    ensures RowsLater(s.rows, s.rows + writes)
  {
    hide NewRowOk;
  }

  lemma RowsStay(s: State, lifetime: nat, a: Action)
    requires Next(s, lifetime, a).Some? && !a.Commit?
    ensures Next(s, lifetime, a).value.rows == s.rows
  {
    hide Rotatable, Rotation, Revocation, Fresh, RowFree, Finds;
  }

  lemma SameRowsLater(rows: Rows)
    ensures RowsLater(rows, rows)
  {
  }

  /** `revoked_at` and `replaced_by_id` are final: no continuation of a run changes a revoked row. */
  lemma {:induction false} RevocationIsFinal(now: Instant, lifetime: nat, actions: seq<Action>, more: seq<Action>)
    requires Run(Initial(now), lifetime, actions).Some?
    requires Run(Run(Initial(now), lifetime, actions).value, lifetime, more).Some?
    ensures var s := Run(Initial(now), lifetime, actions).value;
            RowsLater(s.rows, Run(s, lifetime, more).value.rows)
  {
    var s := Run(Initial(now), lifetime, actions).value;
    Reachable(now, lifetime, actions);
    hide Inv, Next;
    if more != [] {
      var prefix := more[..|more| - 1];
      RevocationIsFinal(now, lifetime, actions, prefix);
      RunKeeps(s, lifetime, prefix);
      StepLater(Run(s, lifetime, prefix).value, lifetime, more[|more| - 1]);
    }
  }

  lemma HolderIsOpen(s: State, lifetime: nat, r: nat)
    requires RowsOk(s, lifetime) && r in s.requests && RequestOk(s, lifetime, r, s.requests[r])
    requires s.requests[r].kind.Refresh? && (s.requests[r].phase.Validated? || s.requests[r].phase.Staged?)
    ensures var held := Held(s.requests[r].phase);
            && held.Some? && held.value in s.rows
            && s.rows[held.value].revokedAt.None? && s.rows[held.value].replacedBy.None?
            && (s.requests[r].phase.Staged? ==>
                  forall id :: id in s.requests[r].phase.writes && id != held.value ==> id !in s.rows)
  {
    assert RowOk(s, lifetime, Held(s.requests[r].phase).value);
  }

  /** The run `actions`, from an empty table, ends in state `s`. */
  ghost predicate Reached(now: Instant, lifetime: nat, actions: seq<Action>, s: State) {
    Run(Initial(now), lifetime, actions) == Some(s)
  }

  /** A refresh that has passed validation and then rolls back leaves its session open, unlinked and unlogged. */
  lemma RolledBackRefreshLeavesNoTrace(now: Instant, lifetime: nat, actions: seq<Action>, s: State, r: nat, t: State)
    requires Reached(now, lifetime, actions, s) && Next(s, lifetime, Rollback(r)) == Some(t)
    requires s.requests[r].kind.Refresh? && (s.requests[r].phase.Validated? || s.requests[r].phase.Staged?)
    ensures var held := Held(s.requests[r].phase);
            && t.rows == s.rows && held.Some? && held.value in t.rows
            && t.rows[held.value].revokedAt.None? && t.rows[held.value].replacedBy.None?
            && Rotated(held.value) !in t.log && LoggedOut(held.value) !in t.log
            && (s.requests[r].phase.Staged? ==>
                  forall id :: id in s.requests[r].phase.writes && id != held.value ==> id !in t.rows)
  {
    Reachable(now, lifetime, actions);
    HolderIsOpen(s, lifetime, r);
    hide RowsOk, RequestsOk, RequestOk, TokensDistinct, SuccessorsDistinct, LocksDistinct, LogDistinct;
  }

  // ---------------------------------------------------------------- chains

  /** Rows linked by `replaced_by_id`, oldest first. */
  predicate Chain(rows: Rows, path: seq<Uuid>) {
    && path != []
    && (forall i :: 0 <= i < |path| ==> path[i] in rows)
    && (forall i :: 0 <= i < |path| - 1 ==> rows[path[i]].replacedBy == Some(path[i + 1]))
  }

  lemma {:induction false} ChainAges(s: State, lifetime: nat, path: seq<Uuid>, i: nat, j: nat)
    requires RowsOk(s, lifetime) && Chain(s.rows, path) && i < j < |path|
    ensures path[i] in s.born && path[j] in s.born && s.born[path[i]] < s.born[path[j]]
    ensures s.rows[path[i]].userId == s.rows[path[j]].userId
    decreases j
  {
    assert RowOk(s, lifetime, path[j - 1]) && RowOk(s, lifetime, path[j]);
    if i < j - 1 {
      ChainAges(s, lifetime, path, i, j - 1);
    }
  }

  /**
   In every reachable state a chain is acyclic and belongs to one user, and only its last row can be open. Each
   replaced row was revoked before its own expiry and no later than its successor was; the successor lives at least
   one full refresh lifetime past that moment.
   */
  lemma ChainsAreOrdered(now: Instant, lifetime: nat, actions: seq<Action>, path: seq<Uuid>, i: nat, j: nat)
    requires Run(Initial(now), lifetime, actions).Some?
    requires Chain(Run(Initial(now), lifetime, actions).value.rows, path) && i < j < |path|
    ensures var rows := Run(Initial(now), lifetime, actions).value.rows;
            var first, later := rows[path[i]], rows[path[j]];
            && path[i] != path[j] && first.userId == later.userId
            && first.revokedAt.Some? && first.revokedAt.value < first.expiresAt
            && (later.revokedAt.Some? ==> first.revokedAt.value <= later.revokedAt.value)
            && later.expiresAt >= first.revokedAt.value + lifetime
  {
    var s := Run(Initial(now), lifetime, actions).value;
    Reachable(now, lifetime, actions);
    ChainAges(s, lifetime, path, i, j);
    ChainTimes(s, lifetime, path, i, j);
  }

  lemma {:induction false} ChainTimes(s: State, lifetime: nat, path: seq<Uuid>, i: nat, j: nat)
    requires RowsOk(s, lifetime) && Chain(s.rows, path) && i < j < |path|
    ensures var first, later := s.rows[path[i]], s.rows[path[j]];
            && first.revokedAt.Some? && first.revokedAt.value < first.expiresAt
            && first.revokedAt.value <= later.token.issuedAt
            && later.expiresAt == later.token.issuedAt + lifetime
            && (later.revokedAt.Some? ==> first.revokedAt.value <= later.revokedAt.value)
    decreases j
  {
    assert RowOk(s, lifetime, path[j - 1]) && RowOk(s, lifetime, path[j]);
    if i < j - 1 {
      ChainTimes(s, lifetime, path, i, j - 1);
    }
  }

  /** Chains do not merge: two chains that end in the same row agree as far back as both of them reach. */
  lemma ChainsAreDisjoint(now: Instant, lifetime: nat, actions: seq<Action>, a: seq<Uuid>, b: seq<Uuid>, back: nat)
    requires Run(Initial(now), lifetime, actions).Some?
    requires Chain(Run(Initial(now), lifetime, actions).value.rows, a) && Chain(Run(Initial(now), lifetime, actions).value.rows, b)
    requires a[|a| - 1] == b[|b| - 1] && back < |a| && back < |b|
    ensures a[|a| - 1 - back] == b[|b| - 1 - back]
  {
    Reachable(now, lifetime, actions);
    SamePast(Run(Initial(now), lifetime, actions).value.rows, a, b, back);
  }

  lemma {:induction false} SamePast(rows: Rows, a: seq<Uuid>, b: seq<Uuid>, back: nat)
    requires SuccessorsDistinct(rows) && Chain(rows, a) && Chain(rows, b)
    requires a[|a| - 1] == b[|b| - 1] && back < |a| && back < |b|
    ensures a[|a| - 1 - back] == b[|b| - 1 - back]
    decreases back
  {
    if back > 0 {
      SamePast(rows, a, b, back - 1);
    }
  }

  /** Rotation never multiplies sessions: no more are open than registrations and logins have committed. */
  lemma OpenSessionsBounded(now: Instant, lifetime: nat, actions: seq<Action>)
    requires Run(Initial(now), lifetime, actions).Some?
    ensures var s := Run(Initial(now), lifetime, actions).value;
            |Open(s.rows)| <= s.openings
  {
    Reachable(now, lifetime, actions);
  }
}
