/**
 Refresh-session rotation: sign-ins, refreshes and logouts as concurrent transactions over the session rows,
 serialised on one row by SELECT ... FOR UPDATE.
 */
module RefreshSessions {
  import opened Wrappers
  import opened Clock
  import opened Domain

  // ---------------------------------------------------------------- rows

  /**
   A signed refresh token. Tokens are hashed before they are stored; hashing is idealised as injective, so a row
   carries the token itself and lookup by hash is lookup by token.
   */
  datatype Token = Token(userId: Uuid, jti: Uuid, issuedAt: Instant, expiresAt: Instant)

  datatype Session = Session(
    userId: Uuid,
    token: Token,
    jti: Uuid,
    expiresAt: Instant,
    revokedAt: Option<Instant>,
    replacedBy: Option<Uuid>)

  type Rows = map<Uuid, Session>

  function NewSession(token: Token): Session {
    Session(token.userId, token, token.jti, token.expiresAt, None, None)
  }

  /** `create_token` for a refresh token. */
  function NewToken(userId: Uuid, jti: Uuid, now: Instant, lifetime: nat): Token {
    Token(userId, jti, now, now + lifetime)
  }

  /** `_validate_refresh_session`: true when the session may be rotated. */
  predicate Rotatable(session: Option<Session>, token: Token, now: Instant) {
    && session.Some?
    && session.value.userId == token.userId
    && session.value.jti == token.jti
    && session.value.revokedAt.None?
    && now < session.value.expiresAt
  }

  /** What a rotation writes: the old row revoked and linked, and its replacement. */
  function Rotation(current: Session, id: Uuid, at: Instant, newId: Uuid, newToken: Token): Rows {
    map[newId := NewSession(newToken)][id := current.(revokedAt := Some(at), replacedBy := Some(newId))]
  }

  /** What a logout writes: nothing for a missing or revoked row. */
  function Revocation(rows: Rows, id: Option<Uuid>, at: Instant): Rows {
    if id.Some? && id.value in rows && rows[id.value].revokedAt.None?
    then map[id.value := rows[id.value].(revokedAt := Some(at))] else map[]
  }

  // ---------------------------------------------------------------- requests and state

  datatype Kind = Refresh(token: Token) | Logout(token: Token, at: Instant) | SignIn(userId: Uuid)

  datatype Phase =
    | Waiting                                                       // SELECT ... FOR UPDATE has not returned
    | Locked(row: Option<Uuid>)                                     // it has, with or without a row
    | Validated(id: Uuid, at: Instant)                              // `now` was read and the session accepted
    | Staged(row: Option<Uuid>, writes: Rows)                       // flushed, not committed
    | Ended

  datatype Request = Request(kind: Kind, phase: Phase)

  datatype Event = Rotated(row: Uuid) | LoggedOut(row: Uuid)

  datatype State = State(
    now: Instant,
    rows: Rows,                     // committed
    requests: map<nat, Request>,
    issued: map<Token, nat>,        // every token ever created, with the request that created it
    usedIds: map<Uuid, nat>,        // every row id ever drawn, with the request that drew it
    commits: nat,                   // history: the number of commits
    born: map<Uuid, nat>,           // history: the commit that inserted each row
    openings: nat,                  // history: committed registrations and logins
    log: seq<Event>)                // history: every committed write of `revoked_at`

  function Initial(now: Instant): State {
    State(now, map[], map[], map[], map[], 0, map[], 0, [])
  }

  /** The row lock a request holds. */
  function Held(phase: Phase): Option<Uuid> {
    match phase
    case Waiting => None
    case Locked(row) => row
    case Validated(id, _) => Some(id)
    case Staged(row, _) => row
    case Ended => None
  }

  predicate RowFree(s: State, r: nat, id: Uuid) {
    forall other :: other in s.requests && other != r ==> Held(s.requests[other].phase) != Some(id)
  }

  // ---------------------------------------------------------------- steps

  datatype Action =
    | Tick(elapsed: nat)
    | StartRefresh(r: nat, token: Token)
    | StartLogout(r: nat, token: Token)
    | LockRow(r: nat, row: Option<Uuid>)
    | Validate(r: nat)
    | Rotate(r: nat, userUsable: bool, newId: Uuid, jti: Uuid)
    | Revoke(r: nat)
    | OpenSession(r: nat, userId: Uuid, newId: Uuid, jti: Uuid)
    | Commit(r: nat)
    | Rollback(r: nat)

  function With(s: State, r: nat, request: Request): State {
    s.(requests := s.requests[r := request])
  }

  /** The committed row of the presented token, if there is one; `row` names the answer. */
  predicate Finds(rows: Rows, token: Token, row: Option<Uuid>) {
    if row.Some? then row.value in rows && rows[row.value].token == token
    else forall id :: id in rows ==> rows[id].token != token
  }

  /** FOR UPDATE waits for the holder of the row and then returns its newest committed version. */
  function AfterLock(s: State, r: nat, row: Option<Uuid>): Option<State> {
    if r !in s.requests || !s.requests[r].phase.Waiting? || s.requests[r].kind.SignIn?
       || !Finds(s.rows, s.requests[r].kind.token, row) || (row.Some? && !RowFree(s, r, row.value)) then None
    else Some(With(s, r, s.requests[r].(phase := Locked(row))))
  }

  /** `now` is read after the lock has been granted. A refused session ends the request with a rollback. */
  function AfterValidate(s: State, r: nat): Option<State> {
    if r !in s.requests || !s.requests[r].phase.Locked? || !s.requests[r].kind.Refresh? then None else
      var request := s.requests[r];
      var row := request.phase.row;
      var session := if row.Some? && row.value in s.rows then Some(s.rows[row.value]) else None;
      if Rotatable(session, request.kind.token, s.now)
      then Some(With(s, r, request.(phase := Validated(row.value, s.now))))
      else Some(With(s, r, request.(phase := Ended)))
  }

  predicate Fresh(s: State, newId: Uuid, token: Token) {
    newId !in s.usedIds && token !in s.issued && forall other :: other in s.issued ==> other.jti != token.jti
  }

  /** The user is looked up, the new token is stamped with the clock of that moment, and both rows are flushed. */
  function AfterRotate(s: State, lifetime: nat, r: nat, userUsable: bool, newId: Uuid, jti: Uuid): Option<State> {
    if r !in s.requests || !s.requests[r].phase.Validated? || !s.requests[r].kind.Refresh? then None else
      var request := s.requests[r];
      var id, at := request.phase.id, request.phase.at;
      var token := NewToken(request.kind.token.userId, jti, s.now, lifetime);
      if !userUsable then Some(With(s, r, request.(phase := Ended)))
      else if !Fresh(s, newId, token) || id !in s.rows then None
      else Some(With(s, r, request.(phase := Staged(Some(id), Rotation(s.rows[id], id, at, newId, token))))
                .(issued := s.issued[token := r], usedIds := s.usedIds[newId := r]))
  }

  function AfterRevoke(s: State, r: nat): Option<State> {
    if r !in s.requests || !s.requests[r].phase.Locked? || !s.requests[r].kind.Logout? then None else
      var request := s.requests[r];
      Some(With(s, r, request.(phase := Staged(request.phase.row, Revocation(s.rows, request.phase.row, request.kind.at)))))
  }

  /** `_create_session` of a registration or a login. */
  function AfterOpen(s: State, lifetime: nat, r: nat, userId: Uuid, newId: Uuid, jti: Uuid): Option<State> {
    var token := NewToken(userId, jti, s.now, lifetime);
    if r in s.requests || !Fresh(s, newId, token) then None
    else Some(With(s, r, Request(SignIn(userId), Staged(None, map[newId := NewSession(token)])))
              .(issued := s.issued[token := r], usedIds := s.usedIds[newId := r]))
  }

  function Revoked(kind: Kind, row: Option<Uuid>, writes: Rows): seq<Event> {
    if row.None? || row.value !in writes then []
    else if kind.Refresh? then [Rotated(row.value)] else [LoggedOut(row.value)]
  }

  function AfterCommit(s: State, r: nat): Option<State> {
    if r !in s.requests || !s.requests[r].phase.Staged? then None else
      var request := s.requests[r];
      var writes := request.phase.writes;
      Some(With(s, r, request.(phase := Ended))
           .(rows := s.rows + writes,
             commits := s.commits + 1,
             born := (map id | id in writes :: s.commits) + s.born,
             openings := s.openings + if request.kind.SignIn? then 1 else 0,
             log := s.log + Revoked(request.kind, request.phase.row, writes)))
  }

  function Next(s: State, lifetime: nat, a: Action): Option<State> {
    match a
    case Tick(elapsed) => Some(s.(now := s.now + elapsed))
    case StartRefresh(r, token) =>
      if r in s.requests || token !in s.issued then None else Some(With(s, r, Request(Refresh(token), Waiting)))
    case StartLogout(r, token) =>
      if r in s.requests || token !in s.issued then None else Some(With(s, r, Request(Logout(token, s.now), Waiting)))
    case LockRow(r, row) => AfterLock(s, r, row)
    case Validate(r) => AfterValidate(s, r)
    case Rotate(r, userUsable, newId, jti) => AfterRotate(s, lifetime, r, userUsable, newId, jti)
    case Revoke(r) => AfterRevoke(s, r)
    case OpenSession(r, userId, newId, jti) => AfterOpen(s, lifetime, r, userId, newId, jti)
    case Commit(r) => AfterCommit(s, r)
    case Rollback(r) => if r !in s.requests then None else Some(With(s, r, s.requests[r].(phase := Ended)))
  }

  function Run(s: State, lifetime: nat, actions: seq<Action>): Option<State> {
    if actions == [] then Some(s) else
      var before := Run(s, lifetime, actions[..|actions| - 1]);
      if before.None? then None else Next(before.value, lifetime, actions[|actions| - 1])
  }
}
