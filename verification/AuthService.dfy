/** The refresh-session repository and the service on top of it, each request running on its own. */
module AuthService {
  import opened Wrappers
  import opened Clock
  import opened Domain
  import opened RefreshSessions
  import opened RefreshSessionSafety

  datatype AuthError = InvalidToken | InactiveUser

  /** The row a token belongs to; the unique constraint on the hash leaves at most one. */
  ghost predicate BelongsTo(rows: Rows, token: Token, id: Uuid) {
    id in rows && rows[id].token == token
  }

  ghost predicate Usable(rows: Rows, token: Token, now: Instant) {
    exists id :: BelongsTo(rows, token, id) && Rotatable(Some(rows[id]), token, now)
  }

  /** The sessions of `rows` after every open session of `token` has been revoked at `at`. */
  ghost function LoggedOutRows(rows: Rows, token: Token, at: Instant): Rows {
    map id | id in rows ::
      if rows[id].token == token && rows[id].revokedAt.None? then rows[id].(revokedAt := Some(at)) else rows[id]
  }

  class RefreshSessionRepository {
    var rows: Rows

    constructor ()
      ensures rows == map[]
    {
      rows := map[];
    }

    method CreateSession(token: Token, newId: Uuid)
      requires newId !in rows
      modifies this
      ensures rows == old(rows)[newId := NewSession(token)]
    {
      rows := rows[newId := Session(token.userId, token, token.jti, token.expiresAt, None, None)];
    }

    method GetByTokenForUpdate(token: Token) returns (id: Option<Uuid>)
      ensures Finds(rows, token, id)
    {
      if found :| found in rows && rows[found].token == token {
        id := Some(found);
      } else {
        id := None;
      }
    }

    /** Revokes the row, inserts the replacement and links the two, in that order. */
    method Rotate(id: Uuid, newId: Uuid, newToken: Token, at: Instant)
      requires id in rows && newId !in rows && newToken.userId == rows[id].userId
      modifies this
      ensures rows == old(rows) + Rotation(old(rows)[id], id, at, newId, newToken)
    {
      rows := rows[id := rows[id].(revokedAt := Some(at))];
      CreateSession(newToken, newId);
      rows := rows[id := rows[id].(replacedBy := Some(newId))];
    }

    method RevokeByToken(token: Token, at: Instant)
      requires TokensDistinct(rows)
      modifies this
      ensures rows == LoggedOutRows(old(rows), token, at)
    {
      var id := GetByTokenForUpdate(token);
      if id.None? || rows[id.value].revokedAt.Some? {
        return;
      }
      rows := rows[id.value := rows[id.value].(revokedAt := Some(at))];
    }
  }

  class AuthService {
    const sessions: RefreshSessionRepository
    var users: map<Uuid, User>
    const lifetime: nat

    constructor (sessions: RefreshSessionRepository, users: map<Uuid, User>, lifetime: nat)
      ensures this.sessions == sessions && this.users == users && this.lifetime == lifetime
    {
      this.sessions, this.users, this.lifetime := sessions, users, lifetime;
    }

    static method ValidateRefreshSession(session: Option<Session>, userId: Uuid, jti: Uuid, now: Instant)
      returns (result: Result<Session, AuthError>)
      ensures result.Success? <==>
                session.Some? && session.value.userId == userId && session.value.jti == jti
                && session.value.revokedAt.None? && now < session.value.expiresAt
      ensures result.Success? ==> result.value == session.value
      ensures result.Failure? ==> result.error == InvalidToken
    {
      if session.None? || session.value.userId != userId || session.value.jti != jti || session.value.revokedAt.Some?
         || session.value.expiresAt <= now {
        return Failure(InvalidToken);
      }
      return Success(session.value);
    }

    /**
     `now` is the clock after the row was locked, `issueTime` the clock when the replacement is signed, `newId` and
     `jti` are drawn at random. The presented token has already been decoded.
     */
    method Refresh(token: Token, now: Instant, issueTime: Instant, newId: Uuid, jti: Uuid)
      returns (result: Result<Token, AuthError>)
      requires TokensDistinct(sessions.rows) && newId !in sessions.rows && now <= issueTime
      modifies sessions
      ensures result.Success? <==>
                Usable(old(sessions.rows), token, now) && token.userId in users && users[token.userId].isActive
      ensures result == Failure(InactiveUser) <==>
                Usable(old(sessions.rows), token, now) && token.userId in users && !users[token.userId].isActive
      ensures result.Failure? ==> sessions.rows == old(sessions.rows)
      ensures result.Success? ==>
                && result.value == NewToken(token.userId, jti, issueTime, lifetime)
                && forall id :: BelongsTo(old(sessions.rows), token, id) ==>
                     sessions.rows == old(sessions.rows) + Rotation(old(sessions.rows)[id], id, now, newId, result.value)
    {
      var id := sessions.GetByTokenForUpdate(token);
      var session := if id.Some? then Some(sessions.rows[id.value]) else None;
      var valid := ValidateRefreshSession(session, token.userId, token.jti, now);
      if valid.Failure? {
        return Failure(valid.error);
      }
      assert BelongsTo(sessions.rows, token, id.value);
      if token.userId !in users {
        return Failure(InvalidToken);
      }
      if !users[token.userId].isActive {
        return Failure(InactiveUser);
      }
      var newToken := NewToken(token.userId, jti, issueTime, lifetime);
      sessions.Rotate(id.value, newId, newToken, now);
      return Success(newToken);
    }

    /** A missing cookie is no error, and neither is an unknown or revoked token. */
    method Logout(token: Option<Token>, now: Instant)
      requires TokensDistinct(sessions.rows)
      modifies sessions
      ensures sessions.rows ==
                if token.None? then old(sessions.rows) else LoggedOutRows(old(sessions.rows), token.value, now)
    {
      if token.None? {
        return;
      }
      sessions.RevokeByToken(token.value, now);
    }
  }

  // ---------------------------------------------------------------- what these effects mean

  /** Logging out is revoking the one row that the lock protocol finds. */
  lemma LogoutIsRevocation(rows: Rows, token: Token, row: Option<Uuid>, at: Instant)
    requires TokensDistinct(rows) && Finds(rows, token, row)
    ensures LoggedOutRows(rows, token, at) == rows + Revocation(rows, row, at)
    ensures LoggedOutRows(LoggedOutRows(rows, token, at), token, at + 1) == LoggedOutRows(rows, token, at)
  {
  }

  /** After a rotation the old token is refused at every later time, and the new one works until it expires. */
  lemma RotationReplacesTheToken(rows: Rows, id: Uuid, token: Token, at: Instant, newId: Uuid, newToken: Token, later: Instant)
    requires TokensDistinct(rows) && BelongsTo(rows, token, id) && Rotatable(Some(rows[id]), token, at)
    requires newId !in rows && forall other :: other in rows ==> rows[other].token != newToken
    ensures var after := rows + Rotation(rows[id], id, at, newId, newToken);
            && TokensDistinct(after)
            && (forall other :: BelongsTo(after, token, other) ==> !Rotatable(Some(after[other]), token, later))
            && (forall other :: BelongsTo(after, newToken, other) ==>
                  other == newId && (Rotatable(Some(after[other]), newToken, later) <==> later < newToken.expiresAt))
  {
  }

  lemma {:induction false} RunExtends(s: State, lifetime: nat, actions: seq<Action>, a: Action)
    requires Run(s, lifetime, actions).Some?
    ensures Run(s, lifetime, actions + [a]) == Next(Run(s, lifetime, actions).value, lifetime, a)
  {
    assert (actions + [a])[..|actions|] == actions;
  }

  /**
   The concurrent protocol contains the sequential service: a refresh that nobody interrupts commits exactly the
   rows that `Refresh` computes.
   */
  lemma UninterruptedRefresh(s: State, lifetime: nat, r: nat, token: Token, id: Uuid, newId: Uuid, jti: Uuid)
    requires r !in s.requests && token in s.issued && BelongsTo(s.rows, token, id) && RowFree(s, r, id)
    requires Rotatable(Some(s.rows[id]), token, s.now) && Fresh(s, newId, NewToken(token.userId, jti, s.now, lifetime))
    ensures var steps := [StartRefresh(r, token), LockRow(r, Some(id)), Validate(r), Rotate(r, true, newId, jti), Commit(r)];
            && Run(s, lifetime, steps).Some?
            && Run(s, lifetime, steps).value.rows
                 == s.rows + Rotation(s.rows[id], id, s.now, newId, NewToken(token.userId, jti, s.now, lifetime))
  {
    var a, b, c := StartRefresh(r, token), LockRow(r, Some(id)), Validate(r);
    var d, e := Rotate(r, true, newId, jti), Commit(r);
    var validated := With(s, r, Request(Refresh(token), Validated(id, s.now)));
    hide Rotation, NewToken;
    FirstThreeSteps(s, lifetime, r, token, id);
    RunExtends(s, lifetime, [a, b, c], d);
    assert [a, b, c] + [d] == [a, b, c, d];
    LastTwoSteps(validated, lifetime, r, newId, jti);
    RunExtends(s, lifetime, [a, b, c, d], e);
    assert [a, b, c, d] + [e] == [a, b, c, d, e];
  }

  lemma FirstThreeSteps(s: State, lifetime: nat, r: nat, token: Token, id: Uuid)
    requires r !in s.requests && token in s.issued && BelongsTo(s.rows, token, id) && RowFree(s, r, id)
    requires Rotatable(Some(s.rows[id]), token, s.now)
    ensures Run(s, lifetime, [StartRefresh(r, token), LockRow(r, Some(id)), Validate(r)])
              == Some(With(s, r, Request(Refresh(token), Validated(id, s.now))))
  {
    var a, b, c := StartRefresh(r, token), LockRow(r, Some(id)), Validate(r);
    var waiting := With(s, r, Request(Refresh(token), Waiting));
    var locked := With(s, r, Request(Refresh(token), Locked(Some(id))));
    assert Run(s, lifetime, []) == Some(s);
    RunExtends(s, lifetime, [], a);
    assert [] + [a] == [a];
    RunExtends(s, lifetime, [a], b);
    assert [a] + [b] == [a, b];
    assert waiting.requests[r := locked.requests[r]] == locked.requests;
    RunExtends(s, lifetime, [a, b], c);
    assert [a, b] + [c] == [a, b, c];
    assert locked.requests[r := Request(Refresh(token), Validated(id, s.now))]
             == s.requests[r := Request(Refresh(token), Validated(id, s.now))];
  }

  lemma LastTwoSteps(s: State, lifetime: nat, r: nat, newId: Uuid, jti: Uuid)
    requires AfterRotate(s, lifetime, r, true, newId, jti).Some?
    ensures var staged := AfterRotate(s, lifetime, r, true, newId, jti).value;
            var request := s.requests[r];
            && AfterCommit(staged, r).Some?
            && AfterCommit(staged, r).value.rows
                 == s.rows + Rotation(s.rows[request.phase.id], request.phase.id, request.phase.at, newId,
                                      NewToken(request.kind.token.userId, jti, s.now, lifetime))
  {
  }
}
