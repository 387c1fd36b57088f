/** What a sign-in, a refresh and a logout leave in the session rows, column by column, and for how long. */
module RefreshOutcomes {
  import opened Wrappers
  import opened Clock
  import opened Domain
  import opened RefreshSessions
  import opened RefreshSessionSafety
  import opened RefreshSessionRuns
  import opened AuthService

  // ---------------------------------------------------------------- a spent token stays spent

  /**
   Once the row of a token is revoked, by a rotation or by a logout, then in every continuation that row is the only one of
   the token, it is refused at every time, and a refresh that has locked it ends.
   */
  lemma SpentForGood(now: Instant, lifetime: nat, actions: seq<Action>, s: State, more: seq<Action>, u: State, token: Token,
      id: Uuid, r: nat)
    requires Reached(now, lifetime, actions, s) && BelongsTo(s.rows, token, id) && s.rows[id].revokedAt.Some?
    requires Run(s, lifetime, more) == Some(u)
    ensures BelongsTo(u.rows, token, id) && u.rows[id] == s.rows[id]
    ensures forall other :: BelongsTo(u.rows, token, other) ==> other == id
    ensures forall later :: !Rotatable(Some(u.rows[id]), token, later)
    ensures r in u.requests && u.requests[r].kind == Refresh(token) && u.requests[r].phase.Locked? ==>
              Next(u, lifetime, Validate(r)) == Some(With(u, r, u.requests[r].(phase := Ended)))
  {
    hide Inv, Next, Run, Rotatable;
    RevocationIsFinal(now, lifetime, actions, more);
    StillReachable(now, lifetime, actions, s, more, u);
    assert Later(s.rows[id], u.rows[id]);
    OnlyRowOfToken(u, lifetime, token, id);
    RevokedIsRefused(u.rows[id], token);
    if r in u.requests && u.requests[r].kind == Refresh(token) && u.requests[r].phase.Locked? {
      LockedRowIsPresented(u, lifetime, r);
      SpentIsRefused(u, r, token, id);
      ValidateIs(u, lifetime, r);
    }
  }

  lemma StillReachable(now: Instant, lifetime: nat, actions: seq<Action>, s: State, more: seq<Action>, u: State)
    requires Reached(now, lifetime, actions, s) && Run(s, lifetime, more) == Some(u)
    ensures Inv(u, lifetime)
  {
    hide Inv, Next;
    Reachable(now, lifetime, actions);
    RunKeeps(s, lifetime, more);
  }

  lemma OnlyRowOfToken(s: State, lifetime: nat, token: Token, id: Uuid)
    requires Inv(s, lifetime) && BelongsTo(s.rows, token, id)
    ensures forall other :: BelongsTo(s.rows, token, other) ==> other == id
  {
    hide RowsOk, SuccessorsDistinct, LogOk, RequestsOk, LocksDistinct, IssuedOk, Open;
  }

  lemma RevokedIsRefused(row: Session, token: Token)
    ensures row.revokedAt.Some? ==> forall later :: !Rotatable(Some(row), token, later)
  {
  }

  lemma ValidateIs(s: State, lifetime: nat, r: nat)
    ensures Next(s, lifetime, Validate(r)) == AfterValidate(s, r)
  {
    hide AfterValidate;
  }

  lemma LockedRowIsPresented(s: State, lifetime: nat, r: nat)
    requires Inv(s, lifetime) && r in s.requests && s.requests[r].kind.Refresh? && s.requests[r].phase.Locked?
    ensures Presents(s, s.requests[r].phase.row, s.requests[r].kind.token)
  {
    hide RowsOk, TokensDistinct, SuccessorsDistinct, LogOk, LocksDistinct, IssuedOk, Open;
    assert RequestOk(s, lifetime, r, s.requests[r]);
  }

  lemma SpentIsRefused(s: State, r: nat, token: Token, id: Uuid)
    requires r in s.requests && s.requests[r].kind == Refresh(token) && s.requests[r].phase.Locked?
    requires Presents(s, s.requests[r].phase.row, token) && id in s.rows && s.rows[id].revokedAt.Some?
    requires forall other :: BelongsTo(s.rows, token, other) ==> other == id
    ensures AfterValidate(s, r) == Some(With(s, r, s.requests[r].(phase := Ended)))
  {
    if s.requests[r].phase.row.Some? {
      assert BelongsTo(s.rows, token, s.requests[r].phase.row.value);
    }
  }

  // ---------------------------------------------------------------- signing in

  lemma TwoSteps(s: State, lifetime: nat, a: Action, b: Action)
    requires Next(s, lifetime, a).Some?
    ensures Run(s, lifetime, [a, b]) == Next(Next(s, lifetime, a).value, lifetime, b)
  {
    hide Next;
    assert Run(s, lifetime, []) == Some(s);
    RunExtends(s, lifetime, [], a);
    assert [] + [a] == [a];
    RunExtends(s, lifetime, [a], b);
    assert [a] + [b] == [a, b];
  }

  /** A sign-in adds one open row, and its token can be refreshed until a full lifetime has passed. */
  lemma SignInOpensSession(now: Instant, lifetime: nat, actions: seq<Action>, s: State, r: nat, userId: Uuid, newId: Uuid, jti: Uuid)
    requires Reached(now, lifetime, actions, s) && r !in s.requests && Fresh(s, newId, NewToken(userId, jti, s.now, lifetime))
    ensures var end := Run(s, lifetime, [OpenSession(r, userId, newId, jti), Commit(r)]);
            && end.Some? && newId !in s.rows && end.value.rows.Keys == s.rows.Keys + {newId}
            && (forall id :: id in s.rows ==> end.value.rows[id] == s.rows[id])
            && var row := end.value.rows[newId];
               && row.userId == userId && row.jti == jti && row.revokedAt.None? && row.replacedBy.None?
               && row.token.userId == userId && row.token.jti == jti && row.token.issuedAt == s.now
               && row.expiresAt == row.token.expiresAt == s.now + lifetime
               && (forall id :: BelongsTo(end.value.rows, row.token, id) ==> id == newId)
               && (forall later :: Rotatable(Some(row), row.token, later) <==> later < s.now + lifetime)
  {
    hide Fresh, Inv, Next;
    Reachable(now, lifetime, actions);
    NewIdIsUnused(s, lifetime, newId, NewToken(userId, jti, s.now, lifetime));
    OpensAndCommits(s, lifetime, r, userId, newId, jti);
  }

  lemma NewIdIsUnused(s: State, lifetime: nat, newId: Uuid, token: Token)
    requires Inv(s, lifetime) && Fresh(s, newId, token)
    ensures newId !in s.rows && forall id :: id in s.rows ==> s.rows[id].token != token
  {
    hide TokensDistinct, SuccessorsDistinct, LogOk, RequestsOk, LocksDistinct, IssuedOk, Open;
    assert forall id :: id in s.rows ==> RowOk(s, lifetime, id);
  }

  lemma OpensAndCommits(s: State, lifetime: nat, r: nat, userId: Uuid, newId: Uuid, jti: Uuid)
    requires r !in s.requests && Fresh(s, newId, NewToken(userId, jti, s.now, lifetime))
    ensures var end := Run(s, lifetime, [OpenSession(r, userId, newId, jti), Commit(r)]);
            end.Some? && end.value.rows == s.rows + map[newId := NewSession(NewToken(userId, jti, s.now, lifetime))]
  {
    hide Fresh, Run, NewSession, NewToken;
    TwoSteps(s, lifetime, OpenSession(r, userId, newId, jti), Commit(r));
  }

  // ---------------------------------------------------------------- logging out

  /** A logout revokes the token's open row at that moment and touches no other column and no other row. */
  lemma LogoutRevokes(rows: Rows, token: Token, at: Instant, id: Uuid)
    requires TokensDistinct(rows)
    ensures var after := LoggedOutRows(rows, token, at);
            && after.Keys == rows.Keys && TokensDistinct(after)
            && (id in rows && rows[id].token != token ==> after[id] == rows[id])
            && (BelongsTo(rows, token, id) ==>
                  && after[id] == rows[id].(revokedAt := after[id].revokedAt)
                  && after[id].revokedAt == (if rows[id].revokedAt.Some? then rows[id].revokedAt else Some(at))
                  && forall later :: !Rotatable(Some(after[id]), token, later))
  {
  }

  lemma FourSteps(s: State, lifetime: nat, a: Action, b: Action, c: Action, d: Action)
    requires Run(s, lifetime, [a, b]).Some? && Next(Run(s, lifetime, [a, b]).value, lifetime, c).Some?
    ensures Run(s, lifetime, [a, b, c, d]) == Next(Next(Run(s, lifetime, [a, b]).value, lifetime, c).value, lifetime, d)
  {
    hide Next;
    RunExtends(s, lifetime, [a, b], c);
    assert [a, b] + [c] == [a, b, c];
    RunExtends(s, lifetime, [a, b, c], d);
    assert [a, b, c] + [d] == [a, b, c, d];
  }

  /** The protocol's logout, uninterrupted, commits exactly the rows of the service's, whether or not it finds a row. */
  lemma UninterruptedLogout(s: State, lifetime: nat, r: nat, token: Token, row: Option<Uuid>)
    requires r !in s.requests && token in s.issued && TokensDistinct(s.rows) && Finds(s.rows, token, row)
    requires row.Some? ==> RowFree(s, r, row.value)
    ensures var end := Run(s, lifetime, [StartLogout(r, token), LockRow(r, row), Revoke(r), Commit(r)]);
            end.Some? && end.value.rows == LoggedOutRows(s.rows, token, s.now)
  {
    hide Run, TokensDistinct, RowFree, LoggedOutRows, Revocation;
    var waiting := With(s, r, Request(Logout(token, s.now), Waiting));
    var locked := With(s, r, Request(Logout(token, s.now), Locked(row)));
    assert waiting.requests[r := locked.requests[r]] == locked.requests;
    assert AfterLock(waiting, r, row) == Some(locked) by {
      LocksFreeRow(s, waiting, r, Logout(token, s.now), token, row);
    }
    TwoSteps(s, lifetime, StartLogout(r, token), LockRow(r, row));
    FourSteps(s, lifetime, StartLogout(r, token), LockRow(r, row), Revoke(r), Commit(r));
    LogoutIsRevocation(s.rows, token, row, s.now);
  }

  lemma LocksFreeRow(s: State, waiting: State, r: nat, kind: Kind, token: Token, row: Option<Uuid>)
    requires r !in s.requests && Finds(s.rows, token, row) && (row.Some? ==> RowFree(s, r, row.value))
    requires !kind.SignIn? && kind.token == token && waiting == With(s, r, Request(kind, Waiting))
    ensures AfterLock(waiting, r, row) == Some(With(waiting, r, waiting.requests[r].(phase := Locked(row))))
  {
  }

  // ---------------------------------------------------------------- refreshing

  function RefreshSteps(r: nat, token: Token, row: Option<Uuid>, usable: bool, newId: Uuid, jti: Uuid): seq<Action> {
    [StartRefresh(r, token), LockRow(r, row), Validate(r), Rotate(r, usable, newId, jti), Commit(r)]
  }

  /** What a refresh leaves: the presented row revoked and linked, one new open row, everything else as it was. */
  ghost predicate Refreshed(rows: Rows, after: Rows, id: Uuid, at: Instant, newId: Uuid, jti: Uuid, lifetime: nat)
    requires id in rows
  {
    && after.Keys == rows.Keys + {newId}
    && (forall other :: other in rows && other != id ==> after[other] == rows[other])
    && after[id].revokedAt == Some(at) && after[id].replacedBy == Some(newId)
    && after[id].userId == rows[id].userId && after[id].token == rows[id].token && after[id].jti == rows[id].jti
    && after[id].expiresAt == rows[id].expiresAt
    && var row := after[newId];
       && row.userId == rows[id].userId && row.jti == jti && row.revokedAt.None? && row.replacedBy.None?
       && row.token == Token(rows[id].userId, jti, at, at + lifetime) && row.expiresAt == at + lifetime
  }

  /**
   In every reachable state, a refresh that nobody interrupts commits exactly when its token has a row, the row is not
   revoked, the token has not expired and the user is there and active; and it leaves the rows as described.
   */
  lemma RefreshCommitsExactly(now: Instant, lifetime: nat, actions: seq<Action>, s: State, r: nat, token: Token,
      row: Option<Uuid>, usable: bool, newId: Uuid, jti: Uuid)
    requires Reached(now, lifetime, actions, s) && r !in s.requests && token in s.issued && Finds(s.rows, token, row)
    requires (row.Some? ==> RowFree(s, r, row.value)) && Fresh(s, newId, NewToken(token.userId, jti, s.now, lifetime))
    ensures var end := Run(s, lifetime, RefreshSteps(r, token, row, usable, newId, jti));
            && (end.Some? <==> row.Some? && s.rows[row.value].revokedAt.None? && s.now < token.expiresAt && usable)
            && (end.Some? ==> Refreshed(s.rows, end.value.rows, row.value, s.now, newId, jti, lifetime))
  {
    hide Run, Fresh, RowFree, Inv, Next, NewToken;
    Reachable(now, lifetime, actions);
    UntilValidated(s, lifetime, r, token, row);
    RowMatchesToken(s, lifetime, row);
    var start := [StartRefresh(r, token), LockRow(r, row), Validate(r)];
    var d, e := Rotate(r, usable, newId, jti), Commit(r);
    RunExtends(s, lifetime, start, d);
    assert start + [d] == [StartRefresh(r, token), LockRow(r, row), Validate(r), d];
    if row.Some? && s.rows[row.value].revokedAt.None? && s.now < token.expiresAt && usable {
      UninterruptedRefresh(s, lifetime, r, token, row.value, newId, jti);
      NewIdIsUnused(s, lifetime, newId, NewToken(token.userId, jti, s.now, lifetime));
      RotationColumns(s.rows, row.value, s.now, newId, token.userId, jti, lifetime);
    } else {
      EndsOrStops(s, lifetime, r, token, row, usable, newId, jti);
      if Run(s, lifetime, start + [d]).Some? {
        RunExtends(s, lifetime, start + [d], e);
      }
      assert RefreshSteps(r, token, row, usable, newId, jti)[..4] == start + [d];
      PrefixFails(s, lifetime, RefreshSteps(r, token, row, usable, newId, jti));
    }
  }

  lemma PrefixFails(s: State, lifetime: nat, actions: seq<Action>)
    requires actions != []
    requires var before := Run(s, lifetime, actions[..|actions| - 1]);
             before.None? || Next(before.value, lifetime, actions[|actions| - 1]).None?
    ensures Run(s, lifetime, actions).None?
  {
    hide Next;
  }

  lemma RowMatchesToken(s: State, lifetime: nat, row: Option<Uuid>)
    requires Inv(s, lifetime) && (row.Some? ==> row.value in s.rows)
    ensures row.Some? ==> var session := s.rows[row.value];
              forall at :: Rotatable(Some(session), session.token, at) <==> session.revokedAt.None? && at < session.token.expiresAt
    ensures row.Some? ==> s.rows[row.value].userId == s.rows[row.value].token.userId
  {
    hide TokensDistinct, SuccessorsDistinct, LogOk, RequestsOk, LocksDistinct, IssuedOk, Open;
    if row.Some? {
      assert RowOk(s, lifetime, row.value);
    }
  }

  lemma UntilValidated(s: State, lifetime: nat, r: nat, token: Token, row: Option<Uuid>)
    requires r !in s.requests && token in s.issued && Finds(s.rows, token, row) && (row.Some? ==> RowFree(s, r, row.value))
    ensures var session := if row.Some? then Some(s.rows[row.value]) else None;
            Run(s, lifetime, [StartRefresh(r, token), LockRow(r, row), Validate(r)])
              == Some(With(s, r, Request(Refresh(token), if Rotatable(session, token, s.now) then Validated(row.value, s.now) else Ended)))
  {
    hide Run, RowFree, Rotatable;
    var waiting := With(s, r, Request(Refresh(token), Waiting));
    var locked := With(s, r, Request(Refresh(token), Locked(row)));
    assert waiting.requests[r := locked.requests[r]] == locked.requests;
    LocksFreeRow(s, waiting, r, Refresh(token), token, row);
    TwoSteps(s, lifetime, StartRefresh(r, token), LockRow(r, row));
    RunExtends(s, lifetime, [StartRefresh(r, token), LockRow(r, row)], Validate(r));
    assert [StartRefresh(r, token), LockRow(r, row)] + [Validate(r)] == [StartRefresh(r, token), LockRow(r, row), Validate(r)];
    ValidatesLocked(s, locked, r, token, row);
  }

  lemma ValidatesLocked(s: State, locked: State, r: nat, token: Token, row: Option<Uuid>)
    requires locked == With(s, r, Request(Refresh(token), Locked(row))) && (row.Some? ==> row.value in s.rows)
    ensures var session := if row.Some? then Some(s.rows[row.value]) else None;
            AfterValidate(locked, r)
              == Some(With(s, r, Request(Refresh(token), if Rotatable(session, token, s.now) then Validated(row.value, s.now) else Ended)))
  {
    var session := if row.Some? then Some(s.rows[row.value]) else None;
    var phase := if Rotatable(session, token, s.now) then Validated(row.value, s.now) else Ended;
    assert locked.requests[r := Request(Refresh(token), phase)] == s.requests[r := Request(Refresh(token), phase)];
  }

  /** A refused session or user ends the request: there is nothing left to commit. */
  lemma EndsOrStops(s: State, lifetime: nat, r: nat, token: Token, row: Option<Uuid>, usable: bool, newId: Uuid, jti: Uuid)
    requires r !in s.requests && (row.Some? ==> row.value in s.rows)
    requires var session := if row.Some? then Some(s.rows[row.value]) else None;
             var phase := if Rotatable(session, token, s.now) then Validated(row.value, s.now) else Ended;
             Run(s, lifetime, [StartRefresh(r, token), LockRow(r, row), Validate(r)]) == Some(With(s, r, Request(Refresh(token), phase)))
             && (phase.Ended? || !usable)
    ensures var t := Run(s, lifetime, [StartRefresh(r, token), LockRow(r, row), Validate(r)]).value;
            var u := Next(t, lifetime, Rotate(r, usable, newId, jti));
            u.None? || Next(u.value, lifetime, Commit(r)).None?
  {
    hide Run, Rotatable, Fresh;
  }

  lemma RotationColumns(rows: Rows, id: Uuid, at: Instant, newId: Uuid, userId: Uuid, jti: Uuid, lifetime: nat)
    requires id in rows && newId !in rows && rows[id].userId == userId
    ensures Refreshed(rows, rows + Rotation(rows[id], id, at, newId, NewToken(userId, jti, at, lifetime)), id, at, newId, jti, lifetime)
  {
  }
}
