/**
  Who gets what: each use case as a decision on the rows, with every answer it can give and every row
  it leaves. `Plain` wires fail without a message of PostgreSQL.
 */
module UseCases {
  import opened Wrappers
  import opened Text
  import opened Tables
  import opened Errors
  import opened Statements
  import opened RepositoryRuns
  import opened Decisions
  import opened Service

  // ---- answers ----

  /** The roles are those the user has been granted. */
  ghost predicate AreRolesOf(rows: Rows, u: Uuid, roles: set<string>) {
    forall role :: role in roles <==> RoleKey(u, role) in rows
  }

  /** The principal is the user's credential as it is stored, with the user's roles. */
  ghost predicate Describes(rows: Rows, u: Uuid, principal: Principal) {
    && CredentialKey(u) in rows && rows[CredentialKey(u)] == CredentialRow(principal.credential)
    && AreRolesOf(rows, u, principal.roles)
  }

  lemma RolesMean(rows: Rows, u: Uuid)
    ensures AreRolesOf(rows, u, RolesOf(rows, u))
  {
    forall role ensures role in RolesOf(rows, u) <==> RoleKey(u, role) in rows {
      if k :| k in rows && rows[k].RoleRow? && rows[k].role.userId == u && rows[k].role.role == role {
        assert KeyOf(rows[k]) == k;
      }
      if RoleKey(u, role) in rows { assert KeyOf(rows[RoleKey(u, role)]) == RoleKey(u, role); }
    }
  }

  /** A write that has answered with a credential, once its roles are read. */
  ghost predicate AnswersPrincipal(rows: Rows, u: Uuid, rolesWire: Option<IoError>, r: Result<Principal, DomainError>) {
    if rolesWire.Some? then r == Err(FailedToFindCredential) else r.Ok? && Describes(rows, u, r.value)
  }

  lemma AttachingRoles(rows: Rows, c: Credential, rolesWire: Option<IoError>)
    requires CredentialKey(c.userId) in rows && rows[CredentialKey(c.userId)] == CredentialRow(c)
    ensures AnswersPrincipal(rows, c.userId, rolesWire, AttachRoles(rows, c, rolesWire))
  {
    RolesMean(rows, c.userId);
  }

  // ---- adding a credential ----

  /** What is wrong with the input, the first thing first. */
  function InputError(userId: string, email: string, username: string, passwordHash: string): Option<DomainError> {
    if userId == "" then Some(InvalidUserId)
    else if TrimSpace(email) == "" then Some(InvalidEmail)
    else if TrimSpace(username) == "" then Some(InvalidUsername)
    else if TrimSpace(passwordHash) == "" then Some(InvalidPasswordHash)
    else None
  }

  /** Why a user cannot be added. */
  ghost function AddingError(rows: Rows, user: Option<Uuid>, email: string): Option<DomainError> {
    if user.None? then Some(InvalidUserId)
    else if CredentialKey(user.value) in rows then Some(CredentialsAlreadyExist)
    else if HasEmail(rows, email) then Some(EmailAlreadyTaken)
    else None
  }

  function Newcomer(u: Uuid, email: string, username: string, passwordHash: string, at: Time): Row {
    CredentialRow(Credential(u, email, username, passwordHash, false, PendingRegistration, at, at))
  }

  lemma AddingDecision(p: Platform, db: Database, userId: string, email: string, username: string,
                       passwordHash: string, e: Env)
    requires Plain(e.wire)
    ensures var r := AddCredential(p, db, userId, email, username, passwordHash, e);
            var user := p.parseUuid(userId);
            if InputError(userId, email, username, passwordHash).Some? then
              r == Ret(db, Err(InputError(userId, email, username, passwordHash).value))
            else if e.wire.Broken? then r == Ret(db, Err(FailedToCreateCredential))
            else if AddingError(db.rows, user, email).Some? then
              r == Ret(db, Err(if e.wire.ReplyLost? then FailedToCreateCredential
                               else AddingError(db.rows, user, email).value))
            else
              && r.db.rows
                 == db.rows[CredentialKey(user.value) := Newcomer(user.value, email, username, passwordHash, e.at)]
              && (if e.wire.ReplyLost? then r.result == Err(FailedToCreateCredential)
                  else AnswersPrincipal(r.db.rows, user.value, e.rolesWire, r.result))
  {
    hide Judge, EffectOf, OrderOf, TrimSpace, AnswersPrincipal;
    var call := Creation(p, userId, email, username, passwordHash, e);
    CreatingCredential(db.rows, call);
    CommittedCall(db, call);
    if Judge(db.rows, call).Allow? && e.wire.Clean? {
      AttachingRoles(Exec(db, call).db.rows, Newcomer(call.user.value, email, username, passwordHash, e.at).credential,
          e.rolesWire);
    }
  }

  // ---- registration ----

  lemma AddedAsGiven(p: Platform, db: Database, userId: string, email: string, username: string,
                     passwordHash: string, e: Env)
    requires Plain(e.wire) && AddCredential(p, db, userId, email, username, passwordHash, e).result.Ok?
    ensures var r, user := AddCredential(p, db, userId, email, username, passwordHash, e), p.parseUuid(userId);
            && user.Some?
            && r.db.rows
               == db.rows[CredentialKey(user.value) := Newcomer(user.value, email, username, passwordHash, e.at)]
            && r.result.value.credential.userId == user.value && r.result.value.credential.email == email
  {
    hide AddCredential, TrimSpace, HasEmail, AreRolesOf;
    AddingDecision(p, db, userId, email, username, passwordHash, e);
  }

  /** Registration on top of a creation that went well. */
  lemma RegistrationDecision(p: Platform, db: Database, userId: string, email: string, username: string,
                             passwordHash: string, e: Env)
    requires Plain(e.wire) && Plain(e.wire2) && EnvOk(e)
    ensures var r := RegisterPending(p, db, userId, email, username, passwordHash, e);
            var added := AddCredential(p, db, userId, email, username, passwordHash, e);
            var code := GenerateCode(p.fixedCode, e.entropy);
            if added.result.Err? then r == Ret(added.db, Err(added.result.error))
            else if code.None? || e.wire2.Broken? || CodeKey(e.id) in db.rows then
              r == Ret(added.db, Err(FailedToCreateVerificationCode))
            else
              && p.parseUuid(userId).Some?
              && var u := p.parseUuid(userId).value;
              && r.db.rows == db.rows[CredentialKey(u) := Newcomer(u, email, username, passwordHash, e.at)][
                   CodeKey(e.id) := CodeRow(
                     Code(e.id, u, Sha256(code.value), e.now + 10 * 60 * 1_000_000, None, e.at2))]
              && r.result == if e.wire2.ReplyLost? then Err(FailedToCreateVerificationCode)
                             else Ok(Pending(u, email, code.value))
  {
    hide Judge, EffectOf, OrderOf, TrimSpace, GenerateCode, AddCredential, Newcomer;
    var added := AddCredential(p, db, userId, email, username, passwordHash, e);
    var code := GenerateCode(p.fixedCode, e.entropy);
    if added.result.Ok? {
      AddedAsGiven(p, db, userId, email, username, passwordHash, e);
      if code.Some? {
        var call := CodeCreation(p, userId, code.value, e);
        CreatingCode(added.db.rows, call);
        CommittedCall(added.db, call);
      }
    }
  }

  // ---- verification ----

  lemma VerificationDecision(p: Platform, db: Database, userId: string, code: string, e: Env)
    requires Admissible(db.rows, Verification(p, userId, code, e)) && Plain(e.wire)
    ensures var r := ConfirmEmail(p, db, userId, code, e);
            var user, hash := p.parseUuid(TrimSpace(userId)), Sha256(TrimSpace(code));
            if TrimSpace(userId) == "" then r == Ret(db, Err(InvalidUserId))
            else if TrimSpace(code) == "" then r == Ret(db, Err(InvalidVerificationCode))
            else if e.wire.Broken? then r == Ret(db, Err(FailedToVerifyEmail))
            else if user.None? then r == Ret(db, Err(if e.wire.ReplyLost? then FailedToVerifyEmail else InvalidUserId))
            else if !exists k :: k in db.rows && Opens(db.rows[k], user.value, hash, e.now) then
              r == Ret(db, Err(if e.wire.ReplyLost? then FailedToVerifyEmail else InvalidVerificationCode))
            else
              && r.db.rows == VerifiedRows(db.rows, user.value, hash, e.now, e.at)
              && (if e.wire.ReplyLost? then r.result == Err(FailedToVerifyEmail)
                  else if CredentialKey(user.value) !in db.rows then r.result == Err(InvalidVerificationCode)
                  else AnswersPrincipal(r.db.rows, user.value, e.rolesWire, r.result))
  {
    hide Judge, EffectOf, OrderOf, TrimSpace, AnswersPrincipal, Admissible;
    var call := Verification(p, userId, code, e);
    Verifying(db.rows, call);
    CommittedCall(db, call);
    if Judge(db.rows, call).Allow? && e.wire.Clean? && CredentialKey(call.user.value) in db.rows {
      assert KeyOf(db.rows[CredentialKey(call.user.value)]) == CredentialKey(call.user.value);
      AttachingRoles(Exec(db, call).db.rows, Exec(db, call).reply.credential, e.rolesWire);
    }
  }

  /** Whoever presents a text that is no code of the user is refused, and nothing changes. */
  lemma WrongCodeIsRefused(p: Platform, db: Database, userId: string, code: string, e: Env, u: Uuid)
    requires Admissible(db.rows, Verification(p, userId, code, e)) && e.wire.Clean?
    requires p.parseUuid(TrimSpace(userId)) == Some(u) && TrimSpace(userId) != ""
    requires forall k :: k in db.rows && db.rows[k].CodeRow? && db.rows[k].code.userId == u ==>
               db.rows[k].code.tokenHash != Sha256(TrimSpace(code))
    ensures ConfirmEmail(p, db, userId, code, e) == Ret(db, Err(InvalidVerificationCode))
  {
    hide Exec, Judge, Admissible, TrimSpace, ConfirmEmail, VerifiedRows, AnswersPrincipal;
    VerificationDecision(p, db, userId, code, e);
  }

  // ---- granting a session ----

  /** A token pair is signed, drawn and stored for a user that has been admitted. */
  ghost predicate Granted(p: Platform, db: Database, u: Uuid, e: Env, r: Ret<TokenPair>) {
    if !e.signs then r == Ret(db, Err(SigningFailed))
    else if e.token.None? || e.wire.Broken? || TokenKey(e.id) in db.rows then
      r == Ret(db, Err(FailedToCreateRefreshToken))
    else
      && r.db.rows == db.rows[TokenKey(e.id) := TokenRow(
           Token(e.id, u, Sha256(e.token.value), e.now + p.refreshTokenTtl, None, e.at))]
      && (if e.wire.ReplyLost? then r.result == Err(FailedToCreateRefreshToken)
          else r.result.Ok? && r.result.value.refreshToken == e.token.value)
  }

  lemma GrantDecision(p: Platform, db: Database, claims: Principal, e: Env)
    requires Plain(e.wire) && CredentialKey(claims.credential.userId) in db.rows
    ensures Granted(p, db, claims.credential.userId, e, Grant(p, db, claims, e))
    ensures Grant(p, db, claims, e).result.Ok? ==> Grant(p, db, claims, e).result.value.claims == claims
  {
    hide Judge, EffectOf, OrderOf;
    if e.token.Some? {
      var call := TokenCreation(p, claims.credential.userId, e.token.value, e);
      CreatingToken(db.rows, call);
      CommittedCall(db, call);
    }
  }

  predicate IsVerifiedRow(row: Row) {
    row.CredentialRow? && row.credential.emailVerified && row.credential.status == EmailVerified
  }

  /** The credential goes by this name. */
  predicate GoesBy(row: Row, identifier: string) {
    row.CredentialRow? && (row.credential.username == identifier || row.credential.email == identifier)
  }

  /** The one at the door is who it claims to be. */
  predicate Admitted(p: Platform, rows: Rows, identifier: string, password: string, e: Env) {
    && TrimSpace(identifier) != "" && TrimSpace(password) != "" && e.readWire.None?
    && e.pick in rows && GoesBy(rows[e.pick], TrimSpace(identifier)) && IsVerifiedRow(rows[e.pick])
    && p.passwordMatches(rows[e.pick].credential.passwordHash, password)
  }

  /**
    Who is let in: exactly someone who names a verified credential and knows its password. Everyone
    else is answered invalid credentials, and nothing changes. The pair given out holds the token
    just drawn, whose digest is stored for that user.
   */
  lemma SignInDecision(p: Platform, db: Database, identifier: string, password: string, e: Env)
    requires PicksIdentified(db.rows, TrimSpace(identifier), e.pick) && Plain(e.wire)
    ensures var r := OpenSession(p, db, identifier, password, e);
            if !Admitted(p, db.rows, identifier, password, e) then r == Ret(db, Err(InvalidCredentials))
            else
              && Granted(p, db, db.rows[e.pick].credential.userId, e, r)
              && (r.result.Ok? ==> r.result.value.claims == Principal(db.rows[e.pick].credential, {}))
    ensures (exists k :: k in db.rows && GoesBy(db.rows[k], TrimSpace(identifier))) ==>
              e.pick in db.rows && GoesBy(db.rows[e.pick], TrimSpace(identifier))
  {
    hide Grant, Granted, TrimSpace, Exec, Judge;
    var name := TrimSpace(identifier);
    forall k ensures k in Identified(db.rows, name) <==> k in db.rows && GoesBy(db.rows[k], name) {
    }
    if e.pick in db.rows && db.rows[e.pick].CredentialRow? {
      assert KeyOf(db.rows[e.pick]) == e.pick;
      GrantDecision(p, db, Principal(db.rows[e.pick].credential, {}), e);
    }
    if k :| k in db.rows && GoesBy(db.rows[k], name) { assert k in Identified(db.rows, name); }
  }

  /** A password that fits no credential opens no session. */
  lemma WrongPasswordIsRefused(p: Platform, db: Database, identifier: string, password: string, e: Env)
    requires PicksIdentified(db.rows, TrimSpace(identifier), e.pick) && Plain(e.wire)
    requires forall k :: k in db.rows && db.rows[k].CredentialRow? ==>
               !p.passwordMatches(db.rows[k].credential.passwordHash, password)
    ensures OpenSession(p, db, identifier, password, e) == Ret(db, Err(InvalidCredentials))
  {
    hide OpenSession, Granted, TrimSpace, Exec, Judge;
    SignInDecision(p, db, identifier, password, e);
  }

  /** Tokens are issued exactly to users that are verified, with the roles they have. */
  lemma IssueDecision(p: Platform, db: Database, userId: string, e: Env)
    requires Plain(e.wire)
    ensures var r, user := IssueTokens(p, db, userId, e), p.parseUuid(TrimSpace(userId));
            if TrimSpace(userId) == "" then r == Ret(db, Err(InvalidUserId))
            else if e.readWire.Some? || user.None? then r == Ret(db, Err(FailedToFindCredential))
            else if CredentialKey(user.value) !in db.rows then r == Ret(db, Err(AuthNotFound))
            else if e.rolesWire.Some? then r == Ret(db, Err(FailedToFindCredential))
            else if !IsVerifiedRow(db.rows[CredentialKey(user.value)]) then r == Ret(db, Err(EmailNotVerified))
            else
              && Granted(p, db, user.value, e, r)
              && (r.result.Ok? ==> Describes(db.rows, user.value, r.result.value.claims))
  {
    hide Grant, Granted, TrimSpace, Exec, Judge, RolesOf;
    var user := p.parseUuid(TrimSpace(userId));
    if user.Some? && CredentialKey(user.value) in db.rows {
      assert KeyOf(db.rows[CredentialKey(user.value)]) == CredentialKey(user.value);
      RolesMean(db.rows, user.value);
      GrantDecision(p, db, Principal(CredentialOf(db.rows, user.value), RolesOf(db.rows, user.value)), e);
    }
  }

  // ---- refreshing a session ----

  /** The rows after a rotation: the token at `k` is revoked, and another of the same user added. */
  function Rolled(rows: Rows, k: Key, now: Time, id: Uuid, hash: Digest, expiresAt: Time, at: Time): Rows
    requires k in rows && rows[k].TokenRow?
  {
    assert KeyOf(rows[k]) == k;
    rows[k := TokenRow(rows[k].token.(revokedAt := Some(now)))][
      TokenKey(id) := TokenRow(Token(id, rows[k].token.userId, hash, expiresAt, None, at))]
  }

  /** What a Refresh answers once its rotation is committed. */
  ghost predicate AnswersSuccessor(rows: Rows, u: Uuid, e: Env, r: Result<TokenPair, DomainError>) {
    if e.wire.ReplyLost? then r == Err(FailedToRotateRefreshToken)
    else if e.rolesWire.Some? then r == Err(FailedToFindCredential)
    else if !e.signs then r == Err(SigningFailed)
    else
      && r.Ok? && e.token.Some? && r.value.refreshToken == e.token.value
      && Describes(rows, u, r.value.claims)
  }

  lemma RotationDecision(p: Platform, db: Database, refreshToken: string, next: string, e: Env)
    requires Admissible(db.rows, Rotation(p, refreshToken, next, e)) && Plain(e.wire)
    ensures var r, hash := Rotated(p, db, refreshToken, next, e), Sha256(TrimSpace(refreshToken));
            var refusal := Refusal(db.rows, e.pick, hash, e.now);
            if e.wire.Broken? && e.wire.stage in {AtBegin, AtLoad} then r == Ret(db, Err(FailedToRotateRefreshToken))
            else if refusal.Some? then r == Ret(db, Err(refusal.value))
            else if e.wire.Broken? || TokenKey(e.id) in db.rows then r == Ret(db, Err(FailedToRotateRefreshToken))
            else
              && e.pick in db.rows && db.rows[e.pick].TokenRow?
              && r.db.rows == Rolled(db.rows, e.pick, e.now, e.id, Sha256(next), e.now + p.refreshTokenTtl, e.at)
              && (if e.wire.ReplyLost? then r.result == Err(FailedToRotateRefreshToken)
                  else AnswersPrincipal(r.db.rows, db.rows[e.pick].token.userId, e.rolesWire, r.result))
  {
    hide Judge, EffectOf, OrderOf, TrimSpace, AnswersPrincipal, Admissible, Refusal, AttachRoles;
    var call := Rotation(p, refreshToken, next, e);
    Rotating(db.rows, call);
    CommittedCall(db, call);
    HonouredIff(db.rows, e.pick, call.hash, e.now);
    if Judge(db.rows, call).Allow? && e.wire.Clean? {
      var owner := CredentialKey(db.rows[e.pick].token.userId);
      assert KeyOf(db.rows[owner]) == owner;
      AttachingRoles(Exec(db, call).db.rows, Exec(db, call).reply.credential, e.rolesWire);
    }
  }

  lemma RenewalDecision(p: Platform, db: Database, refreshToken: string, e: Env)
    requires e.token.Some? ==> Admissible(db.rows, Rotation(p, refreshToken, e.token.value, e))
    requires Plain(e.wire)
    ensures var r, hash := RefreshTokens(p, db, refreshToken, e), Sha256(TrimSpace(refreshToken));
            var refusal := Refusal(db.rows, e.pick, hash, e.now);
            if TrimSpace(refreshToken) == "" then r == Ret(db, Err(InvalidRefreshToken))
            else if e.token.None? then r == Ret(db, Err(FailedToCreateRefreshToken))
            else if e.wire.Broken? && e.wire.stage in {AtBegin, AtLoad} then
              r == Ret(db, Err(FailedToRotateRefreshToken))
            else if refusal.Some? then r == Ret(db, Err(refusal.value))
            else if e.wire.Broken? || TokenKey(e.id) in db.rows then r == Ret(db, Err(FailedToRotateRefreshToken))
            else
              && e.pick in db.rows && db.rows[e.pick].TokenRow?
              && r.db.rows
                 == Rolled(db.rows, e.pick, e.now, e.id, Sha256(e.token.value), e.now + p.refreshTokenTtl, e.at)
              && AnswersSuccessor(r.db.rows, db.rows[e.pick].token.userId, e, r.result)
  {
    hide Rotated, TrimSpace, Describes, Admissible, Refusal, Rolled;
    if e.token.Some? {
      RotationDecision(p, db, refreshToken, e.token.value, e);
    }
  }

  /**
    Whatever token a Refresh hands to the client is the one new row's: live, of the user whose token
    was redeemed, for as long as configured; the claims are that user's credential and roles.
   */
  lemma RefreshHandsSuccessor(p: Platform, db: Database, refreshToken: string, e: Env)
    requires e.token.Some? ==> Admissible(db.rows, Rotation(p, refreshToken, e.token.value, e))
    requires Plain(e.wire) && RefreshTokens(p, db, refreshToken, e).result.Ok?
    ensures var r := RefreshTokens(p, db, refreshToken, e); var pair, k := r.result.value, TokenKey(e.id);
            && r.db.rows.Keys == db.rows.Keys + {k} && k !in db.rows
            && Honoured(db.rows, e.pick, Sha256(TrimSpace(refreshToken)), e.now)
            && Honoured(r.db.rows, k, Sha256(pair.refreshToken), e.now + p.refreshTokenTtl - 1)
            && r.db.rows[e.pick].token.revokedAt.Some?
            && r.db.rows[k].token.userId == db.rows[e.pick].token.userId
            && Describes(db.rows, db.rows[e.pick].token.userId, pair.claims)
  {
    hide RefreshTokens, TrimSpace, Admissible, Exec, Judge;
    RenewalDecision(p, db, refreshToken, e);
  }

  // ---- ending a session, deactivating and deleting ----

  lemma SignOutDecision(db: Database, refreshToken: string, e: Env)
    requires Admissible(db.rows, Revocation(refreshToken, e)) && Plain(e.wire)
    ensures var r, hash := EndSession(db, refreshToken, e), Sha256(TrimSpace(refreshToken));
            var refusal := Refusal(db.rows, e.pick, hash, e.now);
            if TrimSpace(refreshToken) == "" then r == Ret(db, Err(InvalidRefreshToken))
            else if e.wire.Broken? && e.wire.stage in {AtBegin, AtLoad} then
              r == Ret(db, Err(FailedToRotateRefreshToken))
            else if refusal.Some? then r == Ret(db, Err(refusal.value))
            else if e.wire.Broken? then r == Ret(db, Err(FailedToRotateRefreshToken))
            else
              && r.db.rows == db.rows[e.pick := TokenRow(db.rows[e.pick].token.(revokedAt := Some(e.now)))]
              && r.result == if e.wire.ReplyLost? then Err(FailedToRotateRefreshToken)
                             else if e.rolesWire.Some? then Err(FailedToFindCredential)
                             else Ok(())
  {
    hide Judge, EffectOf, OrderOf, TrimSpace, Admissible, Refusal;
    var call := Revocation(refreshToken, e);
    Revoking(db.rows, call);
    CommittedCall(db, call);
    HonouredIff(db.rows, e.pick, call.hash, e.now);
  }

  lemma DeactivationDecision(p: Platform, db: Database, userId: string, e: Env)
    requires Plain(e.wire)
    ensures var r, user := Deactivate(p, db, userId, e), p.parseUuid(TrimSpace(userId));
            if TrimSpace(userId) == "" then r == Ret(db, Err(InvalidUserId))
            else if e.wire.Broken? then r == Ret(db, Err(FailedToDeactivateCredential))
            else if user.None? || CredentialKey(user.value) !in db.rows then
              r == Ret(db, Err(if e.wire.ReplyLost? then FailedToDeactivateCredential
                               else if user.None? then InvalidUserId else AuthNotFound))
            else
              var k := CredentialKey(user.value);
              && db.rows[k].CredentialRow?
              && r.db.rows == db.rows[k := CredentialRow(db.rows[k].credential.(
                   emailVerified := false, status := RegistrationFailed, updatedAt := e.at))]
              && r.result == if e.wire.ReplyLost? then Err(FailedToDeactivateCredential) else Ok(())
  {
    hide Judge, EffectOf, OrderOf, TrimSpace;
    var call := Deactivation(p, userId, e);
    Deactivating(db.rows, call);
    CommittedCall(db, call);
  }

  lemma DeletionDecision(p: Platform, db: Database, userId: string, e: Env)
    requires Admissible(db.rows, Deletion(p, userId, e)) && Plain(e.wire)
    ensures var r, user := RemoveCredential(p, db, userId, e), p.parseUuid(userId);
            if userId == "" then r == Ret(db, Err(InvalidUserId))
            else if e.wire.Broken? then r == Ret(db, Err(FailedToDeleteCredential))
            else if user.None? || CredentialKey(user.value) !in db.rows then
              r == Ret(db, Err(if e.wire.Clean? && user.Some? then AuthNotFound else FailedToDeleteCredential))
            else
              && r.db.rows == (map k | k in db.rows && !BelongsTo(db.rows[k], user.value) :: db.rows[k])
              && r.result == if e.wire.ReplyLost? then Err(FailedToDeleteCredential) else Ok(())
  {
    hide Judge, EffectOf, OrderOf, Admissible;
    var call := Deletion(p, userId, e);
    Deleting(db.rows, call);
    CommittedCall(db, call);
  }
}
