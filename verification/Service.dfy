/** The use cases of the application service, each a short sequence of repository calls. */
module Service {
  import opened Wrappers
  import opened Text
  import opened Tables
  import opened Errors
  import opened Statements
  import opened Repository

  /** What the service is configured with and linked to. */
  datatype Platform = Platform(
    parseUuid: string -> Option<Uuid>,        // how PostgreSQL reads a UUID
    passwordMatches: (string, string) -> bool, // bcrypt: stored hash, password
    refreshTokenTtl: Time,
    fixedCode: Option<string>)                 // AUTH_FIXED_VERIFICATION_CODE, in the local environment only

  /** What the environment contributes to one use case. */
  datatype Env = Env(
    now: Time,                     // the service's clock
    at: Time, at2: Time,           // NOW() of the first and the second write
    id: Uuid,                      // a fresh id
    entropy: Option<seq<byte>>,    // three random bytes, unless the read fails
    token: Option<string>,         // a random token, unless the read fails
    signs: bool,                   // whether the token signer succeeds
    wire: Wire, wire2: Wire,       // the first and the second write
    readWire: Option<IoError>, rolesWire: Option<IoError>,
    order: seq<Key>, pick: Key)

  const TEN_MINUTES: Time := 600_000_000

  datatype Ret<T> = Ret(db: Database, result: Result<T, DomainError>)

  datatype Pending = Pending(userId: Uuid, email: string, code: string)

  /** The claims of the access token are the principal's. */
  datatype TokenPair = TokenPair(claims: Principal, refreshToken: string)

  // ---- reads ----

  function GetByUserID(rows: Rows, user: Option<Uuid>, readWire: Option<IoError>,
                       rolesWire: Option<IoError>): Result<Principal, DomainError> {
    if readWire.Some? then Err(TranslateFindCredential(readWire.value))
    else if user.None? then Err(TranslateFindCredential(MALFORMED_ID))
    else if !HasCredential(rows, user.value) then Err(TranslateFindCredential(NoRows))
    else AttachRoles(rows, CredentialOf(rows, user.value), rolesWire)
  }

  predicate PicksIdentified(rows: Rows, identifier: string, pick: Key) {
    Identified(rows, identifier) != {} ==> pick in Identified(rows, identifier)
  }

  /** LIMIT 1 over usernames and emails: one of the matching rows. Roles are not attached. */
  function GetByIdentifier(rows: Rows, identifier: string, pick: Key,
                           readWire: Option<IoError>): Result<Credential, DomainError>
    requires PicksIdentified(rows, identifier, pick)
  {
    if readWire.Some? then Err(TranslateFindCredential(readWire.value))
    else if Identified(rows, identifier) == {} then Err(TranslateFindCredential(NoRows))
    else Ok(rows[pick].credential)
  }

  // ---- use cases ----

  function CredentialInputError(userId: string, email: string, username: string,
                                passwordHash: string): Option<DomainError> {
    if userId == "" then Some(InvalidUserId)
    else if Blank(email) then Some(InvalidEmail)
    else if Blank(username) then Some(InvalidUsername)
    else if Blank(passwordHash) then Some(InvalidPasswordHash)
    else None
  }

  function Creation(p: Platform, userId: string, email: string, username: string, passwordHash: string, e: Env): Call {
    CreateCredential(p.parseUuid(userId), email, username, passwordHash, e.at, e.wire)
  }

  function AddCredential(p: Platform, db: Database, userId: string, email: string, username: string,
                         passwordHash: string, e: Env): Ret<Principal> {
    var invalid := CredentialInputError(userId, email, username, passwordHash);
    if invalid.Some? then Ret(db, Err(invalid.value))
    else
      var o := Exec(db, Creation(p, userId, email, username, passwordHash, e));
      Ret(o.db, WithRoles(o, e.rolesWire))
  }

  predicate EnvOk(e: Env) {
    e.entropy.Some? ==> |e.entropy.value| == 3
  }

  function CodeCreation(p: Platform, userId: string, code: string, e: Env): Call {
    CreateCode(e.id, p.parseUuid(userId), Sha256(code), e.now + TEN_MINUTES, e.at2, e.wire2)
  }

  function RegisterPending(p: Platform, db: Database, userId: string, email: string, username: string,
                           passwordHash: string, e: Env): Ret<Pending>
    requires EnvOk(e)
  {
    var created := AddCredential(p, db, userId, email, username, passwordHash, e);
    if created.result.Err? then Ret(created.db, Err(created.result.error))
    else
      var code := GenerateCode(p.fixedCode, e.entropy);
      if code.None? then Ret(created.db, Err(FailedToCreateVerificationCode))
      else
        var o := Exec(created.db, CodeCreation(p, userId, code.value, e));
        if o.reply.Rejected? then Ret(o.db, Err(o.reply.error))
        else
          var c := created.result.value.credential;
          Ret(o.db, Ok(Pending(c.userId, c.email, code.value)))
  }

  function Verification(p: Platform, userId: string, code: string, e: Env): Call {
    VerifyEmail(p.parseUuid(TrimSpace(userId)), Sha256(TrimSpace(code)), e.now, e.order, e.at, e.wire)
  }

  function ConfirmEmail(p: Platform, db: Database, userId: string, code: string, e: Env): Ret<Principal>
    requires Admissible(db.rows, Verification(p, userId, code, e))
  {
    if Blank(userId) then Ret(db, Err(InvalidUserId))
    else if Blank(code) then Ret(db, Err(InvalidVerificationCode))
    else
      var o := Exec(db, Verification(p, userId, code, e));
      Ret(o.db, WithRoles(o, e.rolesWire))
  }

  function TokenCreation(p: Platform, user: Uuid, token: string, e: Env): Call {
    CreateToken(e.id, Some(user), Sha256(token), e.now + p.refreshTokenTtl, e.at, e.wire)
  }

  /** Signs an access token and stores a fresh refresh token. */
  function Grant(p: Platform, db: Database, claims: Principal, e: Env): Ret<TokenPair> {
    if !e.signs then Ret(db, Err(SigningFailed))
    else if e.token.None? then Ret(db, Err(FailedToCreateRefreshToken))
    else
      var o := Exec(db, TokenCreation(p, claims.credential.userId, e.token.value, e));
      if o.reply.Rejected? then Ret(o.db, Err(o.reply.error)) else Ret(o.db, Ok(TokenPair(claims, e.token.value)))
  }

  function IssueTokens(p: Platform, db: Database, userId: string, e: Env): Ret<TokenPair> {
    if Blank(userId) then Ret(db, Err(InvalidUserId))
    else
      var found := GetByUserID(db.rows, p.parseUuid(TrimSpace(userId)), e.readWire, e.rolesWire);
      if found.Err? then Ret(db, Err(found.error))
      else if !found.value.credential.emailVerified || found.value.credential.status != EmailVerified then
        Ret(db, Err(EmailNotVerified))
      else Grant(p, db, found.value, e)
  }

  function OpenSession(p: Platform, db: Database, identifier: string, password: string, e: Env): Ret<TokenPair>
    requires PicksIdentified(db.rows, TrimSpace(identifier), e.pick)
  {
    if Blank(identifier) || Blank(password) then Ret(db, Err(InvalidCredentials))
    else
      var found := GetByIdentifier(db.rows, TrimSpace(identifier), e.pick, e.readWire);
      if found.Err? then Ret(db, Err(InvalidCredentials))
      else if !found.value.emailVerified || found.value.status != EmailVerified then Ret(db, Err(InvalidCredentials))
      else if !p.passwordMatches(found.value.passwordHash, password) then Ret(db, Err(InvalidCredentials))
      else Grant(p, db, Principal(found.value, {}), e)
  }

  function Rotation(p: Platform, refreshToken: string, next: string, e: Env): Call {
    RotateToken(Sha256(TrimSpace(refreshToken)), e.id, Sha256(next), e.now + p.refreshTokenTtl, e.now, e.pick, e.at,
        e.wire)
  }

  function Rotated(p: Platform, db: Database, refreshToken: string, next: string, e: Env): Ret<Principal>
    requires Admissible(db.rows, Rotation(p, refreshToken, next, e))
  {
    var o := Exec(db, Rotation(p, refreshToken, next, e));
    Ret(o.db, WithRoles(o, e.rolesWire))
  }

  /** Neither the status of the credential nor its verification is looked at. */
  function RefreshTokens(p: Platform, db: Database, refreshToken: string, e: Env): Ret<TokenPair>
    requires e.token.Some? ==> Admissible(db.rows, Rotation(p, refreshToken, e.token.value, e))
  {
    if Blank(refreshToken) then Ret(db, Err(InvalidRefreshToken))
    else if e.token.None? then Ret(db, Err(FailedToCreateRefreshToken))
    else
      var rotated := Rotated(p, db, refreshToken, e.token.value, e);
      if rotated.result.Err? then Ret(rotated.db, Err(rotated.result.error))
      else if !e.signs then Ret(rotated.db, Err(SigningFailed))
      else Ret(rotated.db, Ok(TokenPair(rotated.result.value, e.token.value)))
  }

  function Revocation(refreshToken: string, e: Env): Call {
    RevokeToken(Sha256(TrimSpace(refreshToken)), e.now, e.pick, e.at, e.wire)
  }

  function EndSession(db: Database, refreshToken: string, e: Env): Ret<()>
    requires Admissible(db.rows, Revocation(refreshToken, e))
  {
    if Blank(refreshToken) then Ret(db, Err(InvalidRefreshToken))
    else
      var o := Exec(db, Revocation(refreshToken, e));
      var revoked := WithRoles(o, e.rolesWire);
      Ret(o.db, if revoked.Err? then Err(revoked.error) else Ok(()))
  }

  function Failure(o: Outcome): Result<(), DomainError> {
    if o.reply.Rejected? then Err(o.reply.error) else Ok(())
  }

  function Deactivation(p: Platform, userId: string, e: Env): Call {
    DeactivateUser(p.parseUuid(TrimSpace(userId)), e.at, e.wire)
  }

  function Deactivate(p: Platform, db: Database, userId: string, e: Env): Ret<()> {
    if Blank(userId) then Ret(db, Err(InvalidUserId))
    else
      var o := Exec(db, Deactivation(p, userId, e));
      Ret(o.db, Failure(o))
  }

  function Deletion(p: Platform, userId: string, e: Env): Call {
    DeleteUser(p.parseUuid(userId), e.order, e.at, e.wire)
  }

  function RemoveCredential(p: Platform, db: Database, userId: string, e: Env): Ret<()>
    requires Admissible(db.rows, Deletion(p, userId, e))
  {
    if userId == "" then Ret(db, Err(InvalidUserId))
    else
      var o := Exec(db, Deletion(p, userId, e));
      Ret(o.db, Failure(o))
  }

  // ---- the service object ----

  function ToResult(err: Option<DomainError>): Result<(), DomainError> {
    if err.Some? then Err(err.value) else Ok(())
  }

  class AuthService {
    const repo: Repo
    const p: Platform

    constructor (repo: Repo, p: Platform)
      ensures this.repo == repo && this.p == p
    {
      this.repo := repo;
      this.p := p;
    }

    method CreateCredential(userId: string, email: string, username: string, passwordHash: string, e: Env)
      returns (r: Result<Principal, DomainError>)
      modifies repo
      ensures Ret(repo.db, r) == AddCredential(p, old(repo.db), userId, email, username, passwordHash, e)
    {
      if userId == "" {
        return Err(InvalidUserId);
      }
      if TrimSpace(email) == "" {
        return Err(InvalidEmail);
      }
      if TrimSpace(username) == "" {
        return Err(InvalidUsername);
      }
      if TrimSpace(passwordHash) == "" {
        return Err(InvalidPasswordHash);
      }
      r := repo.Create(p.parseUuid(userId), email, username, passwordHash, e.at, e.wire, e.rolesWire);
    }

    method CreatePendingRegistration(userId: string, email: string, username: string, passwordHash: string, e: Env)
      returns (r: Result<Pending, DomainError>)
      requires EnvOk(e)
      modifies repo
      ensures Ret(repo.db, r) == RegisterPending(p, old(repo.db), userId, email, username, passwordHash, e)
    {
      hide Exec, Judge, EffectOf, OrderOf, GenerateCode, AddCredential;
      var created := CreateCredential(userId, email, username, passwordHash, e);
      if created.Err? {
        return Err(created.error);
      }
      var code := GenerateCode(p.fixedCode, e.entropy);
      if code.None? {
        return Err(FailedToCreateVerificationCode);
      }
      var expiresAt := e.now + TEN_MINUTES;
      var err := repo.CreateVerificationCode(e.id, p.parseUuid(userId), Sha256(code.value), expiresAt, e.at2, e.wire2);
      if err.Some? {
        return Err(err.value);
      }
      r := Ok(Pending(created.value.credential.userId, created.value.credential.email, code.value));
    }

    method VerifyRegistrationEmail(userId: string, code: string, e: Env) returns (r: Result<Principal, DomainError>)
      requires Admissible(repo.db.rows, Verification(p, userId, code, e))
      modifies repo
      ensures Ret(repo.db, r) == ConfirmEmail(p, old(repo.db), userId, code, e)
    {
      if TrimSpace(userId) == "" {
        return Err(InvalidUserId);
      }
      if TrimSpace(code) == "" {
        return Err(InvalidVerificationCode);
      }
      r := repo.VerifyRegistrationEmail(p.parseUuid(TrimSpace(userId)), Sha256(TrimSpace(code)), e.now, e.order, e.at,
          e.wire, e.rolesWire);
    }

    method StoreRefreshToken(claims: Principal, e: Env) returns (r: Result<TokenPair, DomainError>)
      modifies repo
      ensures Ret(repo.db, r) == Grant(p, old(repo.db), claims, e)
    {
      hide Judge, EffectOf, OrderOf;
      if !e.signs {
        return Err(SigningFailed);
      }
      if e.token.None? {
        return Err(FailedToCreateRefreshToken);
      }
      var err := repo.CreateRefreshToken(e.id, Some(claims.credential.userId), Sha256(e.token.value),
          e.now + p.refreshTokenTtl, e.at, e.wire);
      if err.Some? {
        return Err(err.value);
      }
      r := Ok(TokenPair(claims, e.token.value));
    }

    method IssueRegistrationTokens(userId: string, e: Env) returns (r: Result<TokenPair, DomainError>)
      modifies repo
      ensures Ret(repo.db, r) == IssueTokens(p, old(repo.db), userId, e)
    {
      if TrimSpace(userId) == "" {
        return Err(InvalidUserId);
      }
      var found := GetByUserID(repo.db.rows, p.parseUuid(TrimSpace(userId)), e.readWire, e.rolesWire);
      if found.Err? {
        return Err(found.error);
      }
      if !found.value.credential.emailVerified {
        return Err(EmailNotVerified);
      }
      if found.value.credential.status != EmailVerified {
        return Err(EmailNotVerified);
      }
      r := StoreRefreshToken(found.value, e);
    }

    method SignIn(identifier: string, password: string, e: Env) returns (r: Result<TokenPair, DomainError>)
      requires PicksIdentified(repo.db.rows, TrimSpace(identifier), e.pick)
      modifies repo
      ensures Ret(repo.db, r) == OpenSession(p, old(repo.db), identifier, password, e)
    {
      var name := TrimSpace(identifier);
      if name == "" || TrimSpace(password) == "" {
        return Err(InvalidCredentials);
      }
      var found := GetByIdentifier(repo.db.rows, name, e.pick, e.readWire);
      if found.Err? {
        return Err(InvalidCredentials);
      }
      if !found.value.emailVerified || found.value.status != EmailVerified {
        return Err(InvalidCredentials);
      }
      if !p.passwordMatches(found.value.passwordHash, password) {
        return Err(InvalidCredentials);
      }
      r := StoreRefreshToken(Principal(found.value, {}), e);
    }

    method Rotate(refreshToken: string, next: string, e: Env) returns (r: Result<Principal, DomainError>)
      requires Admissible(repo.db.rows, Rotation(p, refreshToken, next, e))
      modifies repo
      ensures Ret(repo.db, r) == Rotated(p, old(repo.db), refreshToken, next, e)
    {
      hide Judge, EffectOf, OrderOf;
      r := repo.RotateRefreshToken(Sha256(TrimSpace(refreshToken)), e.id, Sha256(next), e.now + p.refreshTokenTtl,
          e.now, e.pick, e.at, e.wire, e.rolesWire);
    }

    method Refresh(refreshToken: string, e: Env) returns (r: Result<TokenPair, DomainError>)
      requires e.token.Some? ==> Admissible(repo.db.rows, Rotation(p, refreshToken, e.token.value, e))
      modifies repo
      ensures Ret(repo.db, r) == RefreshTokens(p, old(repo.db), refreshToken, e)
    {
      if TrimSpace(refreshToken) == "" {
        return Err(InvalidRefreshToken);
      }
      if e.token.None? {
        return Err(FailedToCreateRefreshToken);
      }
      var rotated := Rotate(refreshToken, e.token.value, e);
      if rotated.Err? {
        return Err(rotated.error);
      }
      if !e.signs {
        return Err(SigningFailed);
      }
      r := Ok(TokenPair(rotated.value, e.token.value));
    }

    method SignOut(refreshToken: string, e: Env) returns (r: Result<(), DomainError>)
      requires Admissible(repo.db.rows, Revocation(refreshToken, e))
      modifies repo
      ensures Ret(repo.db, r) == EndSession(old(repo.db), refreshToken, e)
    {
      var current := TrimSpace(refreshToken);
      if current == "" {
        return Err(InvalidRefreshToken);
      }
      var revoked := repo.RevokeRefreshToken(Sha256(current), e.now, e.pick, e.at, e.wire, e.rolesWire);
      if revoked.Err? {
        return Err(revoked.error);
      }
      r := Ok(());
    }

    method DeactivateRegistrationAuth(userId: string, e: Env) returns (r: Result<(), DomainError>)
      modifies repo
      ensures Ret(repo.db, r) == Deactivate(p, old(repo.db), userId, e)
    {
      if TrimSpace(userId) == "" {
        return Err(InvalidUserId);
      }
      var err := repo.DeactivateRegistrationAuth(p.parseUuid(TrimSpace(userId)), e.at, e.wire);
      r := ToResult(err);
    }

    method DeleteCredential(userId: string, e: Env) returns (r: Result<(), DomainError>)
      requires Admissible(repo.db.rows, Deletion(p, userId, e))
      modifies repo
      ensures Ret(repo.db, r) == RemoveCredential(p, old(repo.db), userId, e)
    {
      if userId == "" {
        return Err(InvalidUserId);
      }
      var err := repo.DeleteByUserID(p.parseUuid(userId), e.order, e.at, e.wire);
      r := ToResult(err);
    }
  }
}
