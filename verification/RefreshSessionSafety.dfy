/** What every run of concurrent sign-ins, refreshes and logouts keeps. */
module RefreshSessionSafety {
  import opened Wrappers
  import opened Clock
  import opened Domain
  import opened RefreshSessions

  // ---------------------------------------------------------------- the invariant

  ghost predicate RowOk(s: State, lifetime: nat, id: Uuid)
    requires id in s.rows
  {
    var row := s.rows[id];
    && row.token in s.issued && id in s.usedIds && id in s.born && s.born[id] < s.commits
    && row.userId == row.token.userId && row.jti == row.token.jti
    && row.expiresAt == row.token.expiresAt == row.token.issuedAt + lifetime
    && row.token.issuedAt <= s.now
    && (row.revokedAt.Some? ==> row.token.issuedAt <= row.revokedAt.value <= s.now)
    && (row.replacedBy.Some? ==> LinkOk(s, id, row.replacedBy.value))
  }

  /** A replaced row: revoked before it expired, and followed by a younger row of the same user. */
  ghost predicate LinkOk(s: State, id: Uuid, next: Uuid)
    requires id in s.rows
  {
    && s.rows[id].revokedAt.Some? && s.rows[id].revokedAt.value < s.rows[id].expiresAt
    && next in s.rows && id in s.born && next in s.born && s.born[id] < s.born[next]
    && s.rows[next].userId == s.rows[id].userId
    && s.rows[id].revokedAt.value <= s.rows[next].token.issuedAt
  }

  ghost predicate TokensDistinct(rows: Rows) {
    forall a, b :: a in rows && b in rows && rows[a].token == rows[b].token ==> a == b
  }

  ghost predicate SuccessorsDistinct(rows: Rows) {
    forall a, b :: a in rows && b in rows && rows[a].replacedBy.Some? && rows[a].replacedBy == rows[b].replacedBy
      ==> a == b
  }

  /** The log has exactly one event for each revoked row: a rotation if the row was replaced, else a logout. */
  ghost predicate LogOk(s: State) {
    && (forall id :: Rotated(id) in s.log ==> id in s.rows && s.rows[id].replacedBy.Some?)
    && (forall id :: LoggedOut(id) in s.log ==> id in s.rows && s.rows[id].revokedAt.Some? && s.rows[id].replacedBy.None?)
    && (forall id :: id in s.rows && s.rows[id].replacedBy.Some? ==> Rotated(id) in s.log)
    && (forall id :: id in s.rows && s.rows[id].revokedAt.Some? && s.rows[id].replacedBy.None? ==> LoggedOut(id) in s.log)
    && LogDistinct(s.log)
  }

  ghost predicate LogDistinct(log: seq<Event>) {
    forall i, j :: 0 <= i < j < |log| ==> log[i].row != log[j].row
  }

  /** A row the open transaction of request `r` is about to insert: unknown to everyone else. */
  ghost predicate NewRowOk(s: State, lifetime: nat, r: nat, id: Uuid, row: Session) {
    && id in s.usedIds && s.usedIds[id] == r && id !in s.rows
    && row == NewSession(row.token) && row.token in s.issued && s.issued[row.token] == r
    && row.token.expiresAt == row.token.issuedAt + lifetime && row.token.issuedAt <= s.now
    && (forall other :: other in s.rows ==> s.rows[other].token != row.token && s.rows[other].replacedBy != Some(id))
  }

  ghost predicate RotationOk(s: State, lifetime: nat, r: nat, id: Uuid, writes: Rows)
    requires id in s.rows && id in writes
  {
    var row, written := s.rows[id], writes[id];
    && row.revokedAt.None? && written.revokedAt.Some? && written.replacedBy.Some?
    && written == row.(revokedAt := written.revokedAt, replacedBy := written.replacedBy)
    && row.token.issuedAt <= written.revokedAt.value <= s.now && written.revokedAt.value < row.expiresAt
    && var next := written.replacedBy.value;
       && next != id && writes.Keys == {id, next} && NewRowOk(s, lifetime, r, next, writes[next])
       && writes[next].userId == row.userId && written.revokedAt.value <= writes[next].token.issuedAt
  }

  ghost predicate Presents(s: State, row: Option<Uuid>, token: Token) {
    row.Some? ==> row.value in s.rows && s.rows[row.value].token == token
  }

  ghost predicate RefreshOk(s: State, lifetime: nat, r: nat, token: Token, phase: Phase) {
    match phase
    case Waiting => true
    case Locked(row) => Presents(s, row, token)
    case Validated(id, at) =>
      Presents(s, Some(id), token) && token.issuedAt <= at <= s.now && Rotatable(Some(s.rows[id]), token, at)
    case Staged(row, writes) =>
      row.Some? && row.value in s.rows && row.value in writes && RotationOk(s, lifetime, r, row.value, writes)
    case Ended => true
  }

  ghost predicate LogoutOk(s: State, token: Token, at: Instant, phase: Phase) {
    match phase
    case Waiting => true
    case Locked(row) => Presents(s, row, token)
    case Validated(_, _) => false
    case Staged(row, writes) => Presents(s, row, token) && writes == Revocation(s.rows, row, at)
    case Ended => true
  }

  ghost predicate SignInOk(s: State, lifetime: nat, r: nat, phase: Phase) {
    match phase
    case Staged(row, writes) =>
      row.None? && |writes| == 1 && forall id :: id in writes ==> NewRowOk(s, lifetime, r, id, writes[id])
    case Ended => true
    case _ => false
  }

  ghost predicate RequestOk(s: State, lifetime: nat, r: nat, request: Request) {
    match request.kind
    case Refresh(token) => token in s.issued && token.issuedAt <= s.now && RefreshOk(s, lifetime, r, token, request.phase)
    case Logout(token, at) => token in s.issued && token.issuedAt <= at <= s.now && LogoutOk(s, token, at, request.phase)
    case SignIn(userId) => SignInOk(s, lifetime, r, request.phase)
  }

  ghost predicate LocksDistinct(s: State) {
    forall r, q :: r in s.requests && q in s.requests && r != q && Held(s.requests[r].phase).Some? ==>
      Held(s.requests[r].phase) != Held(s.requests[q].phase)
  }

  ghost predicate RowsOk(s: State, lifetime: nat) {
    forall id :: id in s.rows ==> RowOk(s, lifetime, id)
  }

  ghost predicate RequestsOk(s: State, lifetime: nat) {
    forall r :: r in s.requests ==> RequestOk(s, lifetime, r, s.requests[r])
  }

  ghost predicate IssuedOk(s: State) {
    forall token :: token in s.issued ==> token.issuedAt <= s.now
  }

  /** The rows nobody has revoked. */
  function Open(rows: Rows): set<Uuid> {
    set id | id in rows && rows[id].revokedAt.None?
  }

  ghost predicate Inv(s: State, lifetime: nat) {
    && RowsOk(s, lifetime) && TokensDistinct(s.rows) && SuccessorsDistinct(s.rows) && LogOk(s)
    && RequestsOk(s, lifetime) && LocksDistinct(s) && IssuedOk(s)
    && s.born.Keys == s.rows.Keys && |Open(s.rows)| <= s.openings
  }

  // ---------------------------------------------------------------- steps that leave the rows alone

  /** `t` has the rows of `s`, and no less of anything else. */
  ghost predicate Extends(s: State, t: State) {
    && t.rows == s.rows && t.born == s.born && t.commits == s.commits && t.openings == s.openings && t.log == s.log
    && s.now <= t.now && s.requests.Keys <= t.requests.Keys
    && (forall token :: token in s.issued ==> token in t.issued && t.issued[token] == s.issued[token])
    && (forall id :: id in s.usedIds ==> id in t.usedIds && t.usedIds[id] == s.usedIds[id])
  }

  lemma RequestExtends(s: State, t: State, lifetime: nat, r: nat, request: Request)
    requires Extends(s, t) && RequestOk(s, lifetime, r, request)
    ensures RequestOk(t, lifetime, r, request)
  {
  }

  lemma RowsExtend(s: State, t: State, lifetime: nat)
    requires Extends(s, t) && RowsOk(s, lifetime)
    ensures RowsOk(t, lifetime)
  {
  }

  /** One request moves; it must be well-formed in the new state and hold a row nobody else holds. */
  lemma MoveKeeps(s: State, t: State, lifetime: nat, r: nat)
    requires Inv(s, lifetime) && Extends(s, t) && r in t.requests && t.requests == s.requests[r := t.requests[r]]
    requires RequestOk(t, lifetime, r, t.requests[r]) && IssuedOk(t)
    requires Held(t.requests[r].phase).Some? ==> RowFree(s, r, Held(t.requests[r].phase).value)
    ensures Inv(t, lifetime)
  {
    hide RequestOk, RowOk;
    RowsExtend(s, t, lifetime);
    forall q | q in t.requests
      ensures RequestOk(t, lifetime, q, t.requests[q])
    {
      if q != r {
        RequestExtends(s, t, lifetime, q, s.requests[q]);
      }
    }
  }

  lemma HeldIsFree(s: State, r: nat)
    requires LocksDistinct(s) && r in s.requests && Held(s.requests[r].phase).Some?
    ensures RowFree(s, r, Held(s.requests[r].phase).value)
  {
  }

  lemma TickKeeps(s: State, lifetime: nat, elapsed: nat)
    requires Inv(s, lifetime)
    ensures Inv(s.(now := s.now + elapsed), lifetime)
  {
    hide RequestOk, RowOk;
    var t := s.(now := s.now + elapsed);
    RowsExtend(s, t, lifetime);
    forall q | q in t.requests
      ensures RequestOk(t, lifetime, q, t.requests[q])
    {
      RequestExtends(s, t, lifetime, q, s.requests[q]);
    }
  }

  lemma StartKeeps(s: State, lifetime: nat, r: nat, kind: Kind)
    requires Inv(s, lifetime) && r !in s.requests
    requires kind.Refresh? || (kind.Logout? && kind.at == s.now)
    requires kind.token in s.issued
    ensures Inv(With(s, r, Request(kind, Waiting)), lifetime)
  {
    hide RowOk;
    MoveKeeps(s, With(s, r, Request(kind, Waiting)), lifetime, r);
  }

  lemma EndKeeps(s: State, lifetime: nat, r: nat)
    requires Inv(s, lifetime) && r in s.requests
    ensures Inv(With(s, r, s.requests[r].(phase := Ended)), lifetime)
  {
    hide RowOk;
    MoveKeeps(s, With(s, r, s.requests[r].(phase := Ended)), lifetime, r);
  }

  lemma LockKeeps(s: State, lifetime: nat, r: nat, row: Option<Uuid>)
    requires Inv(s, lifetime) && AfterLock(s, r, row).Some?
    ensures Inv(AfterLock(s, r, row).value, lifetime)
  {
    hide RowOk;
    MoveKeeps(s, AfterLock(s, r, row).value, lifetime, r);
  }

  lemma ValidateKeeps(s: State, lifetime: nat, r: nat)
    requires Inv(s, lifetime) && AfterValidate(s, r).Some?
    ensures Inv(AfterValidate(s, r).value, lifetime)
  {
    var t := AfterValidate(s, r).value;
    assert RequestOk(s, lifetime, r, s.requests[r]);
    if t.requests[r].phase.Validated? {
      HeldIsFree(s, r);
      assert RowOk(s, lifetime, t.requests[r].phase.id);
    }
    hide RowOk;
    MoveKeeps(s, t, lifetime, r);
  }

  lemma RevokeKeeps(s: State, lifetime: nat, r: nat)
    requires Inv(s, lifetime) && AfterRevoke(s, r).Some?
    ensures Inv(AfterRevoke(s, r).value, lifetime)
  {
    hide RowOk;
    assert RequestOk(s, lifetime, r, s.requests[r]);
    if Held(s.requests[r].phase).Some? {
      HeldIsFree(s, r);
    }
    MoveKeeps(s, AfterRevoke(s, r).value, lifetime, r);
  }

  /** A token and an id that were never handed out before are in no row. */
  lemma FreshIsUnknown(s: State, lifetime: nat, newId: Uuid, token: Token)
    requires Inv(s, lifetime) && Fresh(s, newId, token)
    ensures newId !in s.rows
    ensures forall other :: other in s.rows ==> s.rows[other].token != token && s.rows[other].replacedBy != Some(newId)
  {
  }

  lemma OpenKeeps(s: State, lifetime: nat, r: nat, userId: Uuid, newId: Uuid, jti: Uuid)
    requires Inv(s, lifetime) && AfterOpen(s, lifetime, r, userId, newId, jti).Some?
    ensures Inv(AfterOpen(s, lifetime, r, userId, newId, jti).value, lifetime)
  {
    hide RowOk, RowsOk, RequestsOk, LogOk, TokensDistinct, SuccessorsDistinct, LocksDistinct, NewRowOk;
    var token := NewToken(userId, jti, s.now, lifetime);
    var t := AfterOpen(s, lifetime, r, userId, newId, jti).value;
    FreshIsUnknown(s, lifetime, newId, token);
    NewRowIsOk(s, t, lifetime, r, newId, token);
    MoveKeeps(s, t, lifetime, r);
  }

  /** A row made from a token and an id that nobody has drawn before. */
  lemma NewRowIsOk(s: State, t: State, lifetime: nat, r: nat, newId: Uuid, token: Token)
    requires newId !in s.rows && token.expiresAt == token.issuedAt + lifetime && token.issuedAt <= s.now
    requires forall other :: other in s.rows ==> s.rows[other].token != token && s.rows[other].replacedBy != Some(newId)
    requires t.rows == s.rows && t.now == s.now && t.usedIds == s.usedIds[newId := r] && t.issued == s.issued[token := r]
    ensures NewRowOk(t, lifetime, r, newId, NewSession(token))
  {
  }

  lemma RotateKeeps(s: State, lifetime: nat, r: nat, userUsable: bool, newId: Uuid, jti: Uuid)
    requires Inv(s, lifetime) && AfterRotate(s, lifetime, r, userUsable, newId, jti).Some?
    ensures Inv(AfterRotate(s, lifetime, r, userUsable, newId, jti).value, lifetime)
  {
    hide RowOk, RequestOk, RowsOk, RequestsOk, LogOk, TokensDistinct, SuccessorsDistinct, Rotation;
    if !userUsable {
      EndKeeps(s, lifetime, r);
    } else {
      StagedRotationIsOk(s, lifetime, r, newId, jti);
      HeldIsFree(s, r);
      MoveKeeps(s, AfterRotate(s, lifetime, r, true, newId, jti).value, lifetime, r);
    }
  }

  lemma StagedRotationIsOk(s: State, lifetime: nat, r: nat, newId: Uuid, jti: Uuid)
    requires Inv(s, lifetime) && AfterRotate(s, lifetime, r, true, newId, jti).Some?
    ensures var t := AfterRotate(s, lifetime, r, true, newId, jti).value;
            RequestOk(t, lifetime, r, t.requests[r])
  {
    hide LogOk, TokensDistinct, SuccessorsDistinct, LocksDistinct, NewRowOk, RotationOk, Rotation;
    var t := AfterRotate(s, lifetime, r, true, newId, jti).value;
    var request := s.requests[r];
    var token := NewToken(request.kind.token.userId, jti, s.now, lifetime);
    FreshIsUnknown(s, lifetime, newId, token);
    NewRowIsOk(s, t, lifetime, r, newId, token);
    assert RequestOk(s, lifetime, r, request);
    assert RowOk(s, lifetime, request.phase.id);
    RotationIsOk(t, lifetime, r, request.phase.id, request.phase.at, newId, token);
  }

  /** The staged writes of a rotation of a validated row. */
  lemma RotationIsOk(t: State, lifetime: nat, r: nat, id: Uuid, at: Instant, newId: Uuid, token: Token)
    requires id in t.rows && newId != id && NewRowOk(t, lifetime, r, newId, NewSession(token))
    requires t.rows[id].revokedAt.None? && t.rows[id].token.issuedAt <= at <= token.issuedAt && at <= t.now
    requires at < t.rows[id].expiresAt && token.userId == t.rows[id].userId
    ensures var writes := Rotation(t.rows[id], id, at, newId, token);
            id in writes && RotationOk(t, lifetime, r, id, writes)
  {
    hide NewRowOk;
    assert Rotation(t.rows[id], id, at, newId, token).Keys == {id, newId};
  }

  // ---------------------------------------------------------------- commits

  /** An update of the locked row: revoked now, for the first time, and perhaps linked to a row inserted with it. */
  ghost predicate UpdateOk(s: State, id: Uuid, writes: Rows)
    requires id in s.rows && id in writes
  {
    var row, written := s.rows[id], writes[id];
    && written == row.(revokedAt := written.revokedAt, replacedBy := written.replacedBy)
    && row.revokedAt.None? && row.replacedBy.None?
    && written.revokedAt.Some? && row.token.issuedAt <= written.revokedAt.value <= s.now
    && (written.replacedBy.Some? ==>
          && written.replacedBy.value in writes && written.replacedBy.value !in s.rows
          && written.revokedAt.value < row.expiresAt
          && writes[written.replacedBy.value].userId == row.userId
          && written.revokedAt.value <= writes[written.replacedBy.value].token.issuedAt)
  }

  /** What any staged transaction writes: at most the row it has locked, and at most one new row. */
  ghost predicate WritesOk(s: State, lifetime: nat, r: nat, row: Option<Uuid>, writes: Rows) {
    && (forall id :: id in writes && id in s.rows ==> row == Some(id) && UpdateOk(s, id, writes))
    && (forall id :: id in writes && id !in s.rows ==> NewRowOk(s, lifetime, r, id, writes[id]))
    && (forall a, b :: a in writes && a !in s.rows && b in writes && b !in s.rows ==> a == b)
  }

  lemma Singleton<T>(items: set<T>, a: T, b: T)
    requires |items| == 1 && a in items && b in items
    ensures a == b
  {
    assert |items - {a}| == 0;
  }

  lemma StagedWrites(s: State, lifetime: nat, r: nat)
    requires Inv(s, lifetime) && r in s.requests && s.requests[r].phase.Staged?
    ensures WritesOk(s, lifetime, r, s.requests[r].phase.row, s.requests[r].phase.writes)
  {
    hide LogOk, TokensDistinct, SuccessorsDistinct, LocksDistinct, RowOk, NewRowOk, WritesOk;
    var row, writes := s.requests[r].phase.row, s.requests[r].phase.writes;
    assert RequestOk(s, lifetime, r, s.requests[r]);
    match s.requests[r].kind {
      case Refresh(token) =>
        assert RowOk(s, lifetime, row.value);
        RotationWrites(s, lifetime, r, row.value, writes);
      case Logout(token, at) =>
        if row.Some? {
          assert RowOk(s, lifetime, row.value);
        }
        RevocationWrites(s, lifetime, r, row, at);
      case SignIn(userId) =>
        InsertionWrites(s, lifetime, r, writes);
    }
  }

  lemma RotationWrites(s: State, lifetime: nat, r: nat, id: Uuid, writes: Rows)
    requires id in s.rows && id in writes && RowOk(s, lifetime, id) && RotationOk(s, lifetime, r, id, writes)
    ensures WritesOk(s, lifetime, r, Some(id), writes)
  {
  }

  lemma RevocationWrites(s: State, lifetime: nat, r: nat, row: Option<Uuid>, at: Instant)
    requires row.Some? ==> row.value in s.rows && RowOk(s, lifetime, row.value) && s.rows[row.value].token.issuedAt <= at <= s.now
    ensures WritesOk(s, lifetime, r, row, Revocation(s.rows, row, at))
  {
  }

  lemma InsertionWrites(s: State, lifetime: nat, r: nat, writes: Rows)
    requires |writes| == 1 && forall id :: id in writes ==> NewRowOk(s, lifetime, r, id, writes[id])
    ensures WritesOk(s, lifetime, r, None, writes)
  {
    hide NewRowOk;
    assert |writes.Keys| == 1;
    forall a, b | a in writes && b in writes
      ensures a == b
    {
      Singleton(writes.Keys, a, b);
    }
    forall id | id in writes
      ensures id !in s.rows
    {
      InsertIsNew(s, lifetime, r, id, writes[id]);
    }
  }

  lemma InsertIsNew(s: State, lifetime: nat, r: nat, id: Uuid, row: Session)
    requires NewRowOk(s, lifetime, r, id, row)
    ensures id !in s.rows
  {
  }

  lemma CommittedRowOk(s: State, t: State, lifetime: nat, r: nat, id: Uuid)
    requires Inv(s, lifetime) && AfterCommit(s, r) == Some(t) && id in t.rows
    requires WritesOk(s, lifetime, r, s.requests[r].phase.row, s.requests[r].phase.writes)
    ensures RowOk(t, lifetime, id)
  {
    hide LogOk, TokensDistinct, SuccessorsDistinct, LocksDistinct, RequestsOk, RowOk;
    if id !in s.rows {
      InsertedRowOk(s, t, lifetime, r, id);
    } else {
      assert RowOk(s, lifetime, id);
      if id in s.requests[r].phase.writes {
        UpdatedRowOk(s, t, lifetime, r, id);
      } else {
        KeptRowOk(s, t, lifetime, r, id);
      }
    }
  }

  lemma InsertedRowOk(s: State, t: State, lifetime: nat, r: nat, id: Uuid)
    requires AfterCommit(s, r) == Some(t) && id in t.rows && id !in s.rows && s.born.Keys == s.rows.Keys
    requires NewRowOk(s, lifetime, r, id, s.requests[r].phase.writes[id])
    ensures RowOk(t, lifetime, id)
  {
  }

  lemma UpdatedRowOk(s: State, t: State, lifetime: nat, r: nat, id: Uuid)
    requires AfterCommit(s, r) == Some(t) && id in s.rows && id in s.requests[r].phase.writes && RowOk(s, lifetime, id)
    requires s.born.Keys == s.rows.Keys && UpdateOk(s, id, s.requests[r].phase.writes)
    ensures RowOk(t, lifetime, id)
  {
  }

  /** A row that is not written; its successor, if it has one, keeps owner and token. */
  lemma KeptRowOk(s: State, t: State, lifetime: nat, r: nat, id: Uuid)
    requires AfterCommit(s, r) == Some(t) && id in s.rows && id !in s.requests[r].phase.writes && RowOk(s, lifetime, id)
    requires s.born.Keys == s.rows.Keys
    requires WritesOk(s, lifetime, r, s.requests[r].phase.row, s.requests[r].phase.writes)
    ensures RowOk(t, lifetime, id)
  {
    hide NewRowOk;
  }

  lemma CommittedTokensDistinct(s: State, lifetime: nat, r: nat, row: Option<Uuid>, writes: Rows)
    requires TokensDistinct(s.rows) && WritesOk(s, lifetime, r, row, writes)
    ensures TokensDistinct(s.rows + writes)
  {
    var rows := s.rows + writes;
    forall a, b | a in rows && b in rows && rows[a].token == rows[b].token
      ensures a == b
    {
      assert a in s.rows ==> rows[a].token == s.rows[a].token;
      assert b in s.rows ==> rows[b].token == s.rows[b].token;
    }
  }

  lemma CommittedSuccessorsDistinct(s: State, lifetime: nat, r: nat, row: Option<Uuid>, writes: Rows)
    requires SuccessorsDistinct(s.rows) && WritesOk(s, lifetime, r, row, writes)
    ensures SuccessorsDistinct(s.rows + writes)
  {
    var rows := s.rows + writes;
    forall a, b | a in rows && b in rows && rows[a].replacedBy.Some? && rows[a].replacedBy == rows[b].replacedBy
      ensures a == b
    {
      SuccessorIsOldOrNew(s, lifetime, r, row, writes, a);
      SuccessorIsOldOrNew(s, lifetime, r, row, writes, b);
    }
  }

  lemma SuccessorIsOldOrNew(s: State, lifetime: nat, r: nat, row: Option<Uuid>, writes: Rows, id: Uuid)
    requires WritesOk(s, lifetime, r, row, writes) && id in s.rows + writes
    requires (s.rows + writes)[id].replacedBy.Some?
    ensures id in s.rows
    ensures id in writes ==>
      && row == Some(id)
      && forall other :: other in s.rows ==> s.rows[other].replacedBy != writes[id].replacedBy
  {
  }

  /** A new row of another transaction stays unknown: its id and its token were drawn by someone else. */
  lemma NewRowStays(s: State, t: State, lifetime: nat, r: nat, q: nat, id: Uuid, row: Session)
    requires AfterCommit(s, r) == Some(t) && q != r && NewRowOk(s, lifetime, q, id, row)
    requires WritesOk(s, lifetime, r, s.requests[r].phase.row, s.requests[r].phase.writes)
    ensures NewRowOk(t, lifetime, q, id, row)
  {
  }

  /** A row that another transaction has locked is not written. */
  lemma LockedRowStays(s: State, t: State, lifetime: nat, r: nat, q: nat)
    requires AfterCommit(s, r) == Some(t) && q != r && q in s.requests && LocksDistinct(s)
    requires WritesOk(s, lifetime, r, s.requests[r].phase.row, s.requests[r].phase.writes)
    ensures var held := Held(s.requests[q].phase);
            held.Some? && held.value in s.rows ==> held.value in t.rows && t.rows[held.value] == s.rows[held.value]
  {
  }

  /** What a request in flight relies on: its own locked row, its own new rows, and values that only grow. */
  ghost predicate Undisturbed(s: State, t: State, lifetime: nat, q: nat, phase: Phase) {
    && t.now == s.now && t.issued == s.issued && t.usedIds == s.usedIds
    && (Held(phase).Some? && Held(phase).value in s.rows ==>
          Held(phase).value in t.rows && t.rows[Held(phase).value] == s.rows[Held(phase).value])
    && (phase.Staged? ==> forall id :: id in phase.writes && NewRowOk(s, lifetime, q, id, phase.writes[id]) ==>
          NewRowOk(t, lifetime, q, id, phase.writes[id]))
  }

  lemma UndisturbedRequest(s: State, t: State, lifetime: nat, q: nat, request: Request)
    requires RequestOk(s, lifetime, q, request) && Undisturbed(s, t, lifetime, q, request.phase)
    ensures RequestOk(t, lifetime, q, request)
  {
  }

  lemma OthersUndisturbed(s: State, t: State, lifetime: nat, r: nat, q: nat)
    requires AfterCommit(s, r) == Some(t) && q != r && q in s.requests && LocksDistinct(s)
    requires WritesOk(s, lifetime, r, s.requests[r].phase.row, s.requests[r].phase.writes)
    ensures Undisturbed(s, t, lifetime, q, s.requests[q].phase)
  {
    LockedRowStays(s, t, lifetime, r, q);
    CommitKeepsClock(s, t, r);
    hide WritesOk, NewRowOk, AfterCommit;
    var phase := s.requests[q].phase;
    if phase.Staged? {
      forall id | id in phase.writes && NewRowOk(s, lifetime, q, id, phase.writes[id])
        ensures NewRowOk(t, lifetime, q, id, phase.writes[id])
      {
        NewRowStays(s, t, lifetime, r, q, id, phase.writes[id]);
      }
    }
  }

  lemma OtherRequestsOk(s: State, t: State, lifetime: nat, r: nat)
    requires Inv(s, lifetime) && AfterCommit(s, r) == Some(t)
    requires WritesOk(s, lifetime, r, s.requests[r].phase.row, s.requests[r].phase.writes)
    ensures RequestsOk(t, lifetime)
  {
    hide LogOk, TokensDistinct, SuccessorsDistinct, LocksDistinct, RowsOk, WritesOk, RequestOk, Undisturbed, AfterCommit;
    CommitKeepsClock(s, t, r);
    forall q | q in t.requests
      ensures RequestOk(t, lifetime, q, t.requests[q])
    {
      if q != r {
        OthersUndisturbed(s, t, lifetime, r, q);
        UndisturbedRequest(s, t, lifetime, q, s.requests[q]);
      } else {
        CommittedRequestOk(s, t, lifetime, r);
      }
    }
  }

  lemma CommittedRequestOk(s: State, t: State, lifetime: nat, r: nat)
    requires RequestsOk(s, lifetime) && AfterCommit(s, r) == Some(t)
    ensures RequestOk(t, lifetime, r, t.requests[r])
  {
    assert RequestOk(s, lifetime, r, s.requests[r]);
  }

  lemma CommitKeepsClock(s: State, t: State, r: nat)
    requires AfterCommit(s, r) == Some(t)
    ensures t.now == s.now && t.issued == s.issued && t.usedIds == s.usedIds
    ensures t.requests == s.requests[r := s.requests[r].(phase := Ended)]
    ensures forall id :: id in s.rows ==> id in t.rows
  {
  }

  /** Each commit logs the one row it revoked, which the log had not named. */
  lemma CommittedLogOk(s: State, t: State, lifetime: nat, r: nat)
    requires LogOk(s) && AfterCommit(s, r) == Some(t) && RequestOk(s, lifetime, r, s.requests[r])
    requires WritesOk(s, lifetime, r, s.requests[r].phase.row, s.requests[r].phase.writes)
    ensures LogOk(t)
  {
    var row, writes := s.requests[r].phase.row, s.requests[r].phase.writes;
    var events := Revoked(s.requests[r].kind, row, writes);
    LoggedRow(s, t, lifetime, r);
    CommitLogs(s, t, r);
    LogStaysDistinct(s, events);
    if events == [] {
      LogWithout(s, t);
    } else {
      LogWith(s, t, events[0]);
    }
  }

  lemma CommitLogs(s: State, t: State, r: nat)
    requires AfterCommit(s, r) == Some(t)
    ensures t.log == s.log + Revoked(s.requests[r].kind, s.requests[r].phase.row, s.requests[r].phase.writes)
  {
  }

  /** A commit that logs nothing revokes nothing; one that logs an event revokes the row it names. */
  lemma LoggedRow(s: State, t: State, lifetime: nat, r: nat)
    requires AfterCommit(s, r) == Some(t) && RequestOk(s, lifetime, r, s.requests[r])
    requires WritesOk(s, lifetime, r, s.requests[r].phase.row, s.requests[r].phase.writes)
    ensures var events := Revoked(s.requests[r].kind, s.requests[r].phase.row, s.requests[r].phase.writes);
            if events == [] then RevokesNothing(s.rows, t.rows) else Revokes(s.rows, t.rows, events[0])
  {
    hide NewRowOk, Revokes, RevokesNothing;
    var row, writes := s.requests[r].phase.row, s.requests[r].phase.writes;
    assert t.rows == s.rows + writes;
    match s.requests[r].kind {
      case Refresh(token) => RotationRevokes(s, lifetime, r, row.value, writes);
      case Logout(token, at) => RevocationRevokes(s.rows, row, at);
      case SignIn(userId) => InsertRevokesNothing(s, lifetime, r, writes);
    }
  }

  lemma RotationRevokes(s: State, lifetime: nat, r: nat, id: Uuid, writes: Rows)
    requires id in s.rows && id in writes && RotationOk(s, lifetime, r, id, writes)
    requires s.rows[id].replacedBy.None?
    ensures Revokes(s.rows, s.rows + writes, Rotated(id))
  {
  }

  lemma RevocationRevokes(rows: Rows, row: Option<Uuid>, at: Instant)
    requires row.Some? && row.value in rows && rows[row.value].revokedAt.None? ==> rows[row.value].replacedBy.None?
    ensures var writes := Revocation(rows, row, at);
            if row.Some? && row.value in writes then Revokes(rows, rows + writes, LoggedOut(row.value))
            else RevokesNothing(rows, rows + writes)
  {
  }

  lemma InsertRevokesNothing(s: State, lifetime: nat, r: nat, writes: Rows)
    requires forall id :: id in writes ==> NewRowOk(s, lifetime, r, id, writes[id])
    ensures RevokesNothing(s.rows, s.rows + writes)
  {
  }

  ghost predicate RevokesNothing(rows: Rows, next: Rows) {
    && (forall id :: id in rows ==> id in next && next[id] == rows[id])
    && (forall id :: id in next && id !in rows ==> next[id].revokedAt.None? && next[id].replacedBy.None?)
  }

  ghost predicate Revokes(rows: Rows, next: Rows, e: Event) {
    && e.row in rows && rows[e.row].revokedAt.None? && rows[e.row].replacedBy.None?
    && e.row in next && next[e.row].revokedAt.Some? && next[e.row].replacedBy.Some? == e.Rotated?
    && (forall id :: id in rows && id != e.row ==> id in next && next[id] == rows[id])
    && (forall id :: id in next && id !in rows ==> next[id].revokedAt.None? && next[id].replacedBy.None?)
  }

  lemma LogWithout(s: State, t: State)
    requires LogOk(s) && t.log == s.log && RevokesNothing(s.rows, t.rows)
    ensures LogOk(t)
  {
  }

  lemma LogWith(s: State, t: State, e: Event)
    requires LogOk(s) && t.log == s.log + [e] && Revokes(s.rows, t.rows, e) && LogDistinct(t.log)
    ensures LogOk(t)
  {
  }

  lemma LogStaysDistinct(s: State, events: seq<Event>)
    requires LogOk(s) && |events| <= 1
    requires |events| == 1 ==> events[0].row in s.rows && s.rows[events[0].row].revokedAt.None? && s.rows[events[0].row].replacedBy.None?
    ensures LogDistinct(s.log + events)
  {
  }

  /** A rotation closes one session and opens one; a logout closes; only a registration or a login adds. */
  lemma CommittedOpen(s: State, t: State, lifetime: nat, r: nat)
    requires AfterCommit(s, r) == Some(t) && RequestOk(s, lifetime, r, s.requests[r]) && |Open(s.rows)| <= s.openings
    requires WritesOk(s, lifetime, r, s.requests[r].phase.row, s.requests[r].phase.writes)
    ensures |Open(t.rows)| <= t.openings
  {
    var row, writes := s.requests[r].phase.row, s.requests[r].phase.writes;
    match s.requests[r].kind {
      case Refresh(token) => RotationOpen(s, lifetime, r, row.value, writes);
      case Logout(token, at) => RevocationOpen(s.rows, row, at);
      case SignIn(userId) => InsertionOpen(s.rows, writes);
    }
  }

  lemma RotationOpen(s: State, lifetime: nat, r: nat, id: Uuid, writes: Rows)
    requires id in s.rows && id in writes && RotationOk(s, lifetime, r, id, writes)
    ensures |Open(s.rows + writes)| <= |Open(s.rows)|
  {
    var next := writes[id].replacedBy.value;
    assert Open(s.rows + writes) == Open(s.rows) - {id} + {next};
  }

  lemma RevocationOpen(rows: Rows, row: Option<Uuid>, at: Instant)
    ensures |Open(rows + Revocation(rows, row, at))| <= |Open(rows)|
  {
    SubsetSize(Open(rows + Revocation(rows, row, at)), Open(rows));
  }

  lemma InsertionOpen(rows: Rows, writes: Rows)
    requires |writes| == 1
    ensures |Open(rows + writes)| <= |Open(rows)| + 1
  {
    assert |writes.Keys| == 1;
    var id :| id in writes.Keys;
    forall other | other in writes.Keys
      ensures other == id
    {
      Singleton(writes.Keys, other, id);
    }
    SubsetSize(Open(rows + writes), Open(rows) + {id});
  }

  lemma {:induction false} SubsetSize<T>(small: set<T>, large: set<T>)
    requires small <= large
    ensures |small| <= |large|
  {
    if small != {} {
      var x :| x in small;
      SubsetSize(small - {x}, large - {x});
    }
  }

  lemma CommittedRowsOk(s: State, t: State, lifetime: nat, r: nat)
    requires Inv(s, lifetime) && AfterCommit(s, r) == Some(t)
    requires WritesOk(s, lifetime, r, s.requests[r].phase.row, s.requests[r].phase.writes)
    ensures RowsOk(t, lifetime) && TokensDistinct(t.rows) && SuccessorsDistinct(t.rows)
  {
    var row, writes := s.requests[r].phase.row, s.requests[r].phase.writes;
    assert t.rows == s.rows + writes;
    hide WritesOk, TokensDistinct, SuccessorsDistinct, LogOk, LocksDistinct, RequestsOk, RowOk;
    CommittedTokensDistinct(s, lifetime, r, row, writes);
    CommittedSuccessorsDistinct(s, lifetime, r, row, writes);
    forall id | id in t.rows
      ensures RowOk(t, lifetime, id)
    {
      CommittedRowOk(s, t, lifetime, r, id);
    }
  }

  lemma CommittedFrame(s: State, t: State, r: nat)
    requires LocksDistinct(s) && s.born.Keys == s.rows.Keys && IssuedOk(s) && AfterCommit(s, r) == Some(t)
    ensures LocksDistinct(t) && t.born.Keys == t.rows.Keys && IssuedOk(t)
  {
  }

  lemma CommitKeeps(s: State, lifetime: nat, r: nat)
    requires Inv(s, lifetime) && AfterCommit(s, r).Some?
    ensures Inv(AfterCommit(s, r).value, lifetime)
  {
    var t := AfterCommit(s, r).value;
    StagedWrites(s, lifetime, r);
    CommittedRowsOk(s, t, lifetime, r);
    OtherRequestsOk(s, t, lifetime, r);
    CommittedFrame(s, t, r);
    assert RequestOk(s, lifetime, r, s.requests[r]);
    hide WritesOk, TokensDistinct, SuccessorsDistinct, LogOk, LocksDistinct, RequestsOk, RowsOk, RequestOk;
    CommittedLogOk(s, t, lifetime, r);
    CommittedOpen(s, t, lifetime, r);
  }

  // ---------------------------------------------------------------- whole runs

  lemma StepKeeps(s: State, lifetime: nat, a: Action)
    requires Inv(s, lifetime) && Next(s, lifetime, a).Some?
    ensures Inv(Next(s, lifetime, a).value, lifetime)
  {
    hide Inv;
    match a
    case Tick(elapsed) => TickKeeps(s, lifetime, elapsed);
    case StartRefresh(r, token) => StartKeeps(s, lifetime, r, Refresh(token));
    case StartLogout(r, token) => StartKeeps(s, lifetime, r, Logout(token, s.now));
    case LockRow(r, row) => LockKeeps(s, lifetime, r, row);
    case Validate(r) => ValidateKeeps(s, lifetime, r);
    case Rotate(r, userUsable, newId, jti) => RotateKeeps(s, lifetime, r, userUsable, newId, jti);
    case Revoke(r) => RevokeKeeps(s, lifetime, r);
    case OpenSession(r, userId, newId, jti) => OpenKeeps(s, lifetime, r, userId, newId, jti);
    case Commit(r) => CommitKeeps(s, lifetime, r);
    case Rollback(r) => EndKeeps(s, lifetime, r);
  }

  lemma {:induction false} RunKeeps(s: State, lifetime: nat, actions: seq<Action>)
    requires Inv(s, lifetime) && Run(s, lifetime, actions).Some?
    ensures Inv(Run(s, lifetime, actions).value, lifetime)
  {
    hide Inv, Next;
    if actions != [] {
      RunKeeps(s, lifetime, actions[..|actions| - 1]);
      StepKeeps(Run(s, lifetime, actions[..|actions| - 1]).value, lifetime, actions[|actions| - 1]);
    }
  }

  lemma InitialOk(now: Instant, lifetime: nat)
    ensures Inv(Initial(now), lifetime)
  {
  }
}
