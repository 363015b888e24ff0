/**
  Every repository call as one atomic step on the database. What the environment decides is an
  argument: clocks, fresh ids, the row an ambiguous query returns first, the order in which row
  triggers fire, and what goes wrong on the wire.
 */
module Statements {
  import opened Wrappers
  import opened Tables
  import opened Outbox
  import opened Errors

  datatype Database = Database(rows: Rows, outbox: seq<Event>)

  datatype Stage = AtBegin | AtLoad | AtRevoke | AtInsert | AtCommit

  /** How a call fares on the wire. A lost reply is an error although the write took effect. */
  datatype Wire = Clean | Broken(stage: Stage, error: IoError) | ReplyLost

  /** A user id is `None` when its text is not a UUID the database can read. */
  datatype Call =
    | CreateCredential(user: Option<Uuid>, email: string, username: string, passwordHash: string, at: Time, wire: Wire)
    | CreateCode(id: Uuid, user: Option<Uuid>, hash: Digest, expiresAt: Time, at: Time, wire: Wire)
    | VerifyEmail(user: Option<Uuid>, hash: Digest, now: Time, order: seq<Key>, at: Time, wire: Wire)
    | CreateToken(id: Uuid, user: Option<Uuid>, hash: Digest, expiresAt: Time, at: Time, wire: Wire)
    | RotateToken(hash: Digest, newId: Uuid, newHash: Digest, newExpiresAt: Time, now: Time, pick: Key, at: Time,
                  wire: Wire)
    | RevokeToken(hash: Digest, now: Time, pick: Key, at: Time, wire: Wire)
    | DeactivateUser(user: Option<Uuid>, at: Time, wire: Wire)
    | DeleteUser(user: Option<Uuid>, order: seq<Key>, at: Time, wire: Wire)
    | GrantRole(user: Option<Uuid>, role: string, at: Time, wire: Wire)

  datatype Reply = Acknowledged | Accepted(credential: Credential) | Rejected(error: DomainError)

  /** Whether a call changes the tables, and what it answers. */
  datatype Verdict = Refuse(error: DomainError) | Allow(reply: Reply)

  const MALFORMED_ID := Pg(InvalidTextRepresentation, "", "invalid input syntax for type uuid")
  const MISSING_PARENT := Pg(ForeignKeyViolation, "", "violates foreign key constraint")

  function Duplicate(constraint: string): DriverError {
    Pg(UniqueViolation, constraint, "duplicate key value violates unique constraint")
  }

  // ---- the locked load of rotation and revocation ----

  /** The row `QueryRow` scans first: any matching one. */
  predicate PickOk(rows: Rows, hash: Digest, pick: Key) {
    Matches(rows, hash) != {} ==> pick in Matches(rows, hash)
  }

  function LoadForMutation(rows: Rows, hash: Digest, now: Time, pick: Key): (r: Result<Token, DomainError>)
    requires PickOk(rows, hash, pick)
    ensures r.Ok? <==> Matches(rows, hash) != {} && rows[pick].token.revokedAt.None? && rows[pick].token.expiresAt > now
    ensures r.Ok? ==>
          rows[pick] == TokenRow(r.value) && pick == TokenKey(r.value.id) && HasCredential(rows, r.value.userId)
  {
    if Matches(rows, hash) == {} then Err(InvalidRefreshToken)
    else
      assert KeyOf(rows[pick]) == pick;
      var token := rows[pick].token;
      if token.revokedAt.Some? then Err(RefreshTokenRevoked)
      else if token.expiresAt <= now then Err(RefreshTokenExpired)
      else Ok(token)
  }

  // ---- which calls the tables allow ----

  /** The rows the verification statement updates: the matching codes and their credential. */
  function Verified(rows: Rows, u: Uuid, hash: Digest, now: Time): set<Key> {
    UsableCodes(rows, u, hash, now) + if HasCredential(rows, u) then {CredentialKey(u)} else {}
  }

  /** The transaction fails before it has loaded a row. */
  predicate BreaksEarly(wire: Wire) {
    wire.Broken? && wire.stage in {AtBegin, AtLoad}
  }

  /** The environment's choices are possible ones. */
  ghost predicate Admissible(rows: Rows, call: Call) {
    match call
    case VerifyEmail(user, hash, now, order, _, _) =>
      user.Some? && UsableCodes(rows, user.value, hash, now) != {} ==>
        Enumerates(order, Verified(rows, user.value, hash, now))
    case RotateToken(hash, _, _, _, _, pick, _, wire) => BreaksEarly(wire) || PickOk(rows, hash, pick)
    case RevokeToken(hash, _, pick, _, wire) => BreaksEarly(wire) || PickOk(rows, hash, pick)
    case DeleteUser(user, order, _, _) =>
      user.Some? && HasCredential(rows, user.value) ==> Enumerates(order, Slice(rows, user.value).Keys)
    case _ => true
  }

  /** A single statement in autocommit mode: it fails on the wire, on a constraint, or takes effect. */
  function Autocommit(wire: Wire, violation: Option<DriverError>, reply: Reply,
                      translate: DriverError -> DomainError): (v: Verdict)
    ensures v.Allow? <==> !wire.Broken? && violation.None?
  {
    match wire
    case Broken(_, e) => Refuse(translate(e))
    case ReplyLost => if violation.Some? then Refuse(translate(Io)) else Allow(Rejected(translate(Io)))
    case Clean => if violation.Some? then Refuse(translate(violation.value)) else Allow(reply)
  }

  /** A statement that reports "not found" when it affected no row. */
  function AutocommitAffecting(rows: Rows, user: Option<Uuid>, wire: Wire,
                               translate: DriverError -> DomainError): (v: Verdict)
    ensures v.Allow? <==> !wire.Broken? && user.Some? && HasCredential(rows, user.value)
  {
    if wire.Clean? && user.Some? && !HasCredential(rows, user.value) then Refuse(AuthNotFound)
    else
      var missing := user.None? || !HasCredential(rows, user.value);
      Autocommit(wire, if missing then Some(MALFORMED_ID) else None, Acknowledged, translate)
  }

  function MissingParent(rows: Rows, user: Option<Uuid>): (e: Option<DriverError>)
    ensures e.None? <==> user.Some? && HasCredential(rows, user.value)
  {
    if user.None? then Some(MALFORMED_ID)
    else if !HasCredential(rows, user.value) then Some(MISSING_PARENT)
    else None
  }

  function NewCredential(user: Uuid, email: string, username: string, passwordHash: string, at: Time): Credential {
    Credential(user, email, username, passwordHash, false, PendingRegistration, at, at)
  }

  /** The credential as the verification statement and the update trigger leave it. */
  function VerifiedCredential(c: Credential, at: Time): Credential {
    c.(emailVerified := true, status := EmailVerified, updatedAt := at)
  }

  /** The transaction of rotation and revocation, from its load to the point where it commits or rolls back. */
  function Transact(wire: Wire, load: Result<Token, DomainError>, violation: Option<DriverError>,
                    reply: Reply): (v: Verdict)
    requires !BreaksEarly(wire)
    ensures v.Allow? <==> !wire.Broken? && load.Ok? && violation.None?
  {
    if load.Err? then Refuse(load.error)
    else if wire.Broken? && wire.stage in {AtRevoke, AtInsert} then Refuse(TranslateRotateRefreshToken(wire.error))
    else if violation.Some? then Refuse(TranslateRotateRefreshToken(violation.value))
    else if wire.Broken? then Refuse(TranslateRotateRefreshToken(wire.error))
    else if wire.ReplyLost? then Allow(Rejected(TranslateRotateRefreshToken(Io)))
    else Allow(reply)
  }

  function Judge(rows: Rows, call: Call): Verdict
    requires Admissible(rows, call)
  {
    match call
    case CreateCredential(user, email, username, passwordHash, at, wire) =>
      var violation :=
        if user.None? then Some(MALFORMED_ID)
        else if HasCredential(rows, user.value) then Some(Duplicate(PRIMARY_KEY))
        else if EmailTaken(rows, email) then Some(Duplicate(EMAIL_KEY))
        else None;
      var reply := if user.Some? then Accepted(NewCredential(user.value, email, username, passwordHash, at))
          else Acknowledged;
      Autocommit(wire, violation, reply, TranslateCreateCredential)
    case CreateCode(id, user, _, _, _, wire) =>
      var violation := if user.Some? && CodeKey(id) in rows then Some(Duplicate("email_verification_codes_pkey"))
          else MissingParent(rows, user);
      Autocommit(wire, violation, Acknowledged, TranslateCreateVerificationCode)
    case VerifyEmail(user, hash, now, _, at, wire) =>
      var violation :=
        if user.None? then Some(MALFORMED_ID)
        else if UsableCodes(rows, user.value, hash, now) == {} then Some(NoRows)
        else None;
      var reply := if user.Some? && HasCredential(rows, user.value)
                   then Accepted(VerifiedCredential(CredentialOf(rows, user.value), at))
                   else Rejected(TranslateVerifyEmail(NoRows));
      Autocommit(wire, violation, reply, TranslateVerifyEmail)
    case CreateToken(id, user, _, _, _, wire) =>
      var violation := if user.Some? && TokenKey(id) in rows then Some(Duplicate("refresh_tokens_pkey"))
          else MissingParent(rows, user);
      Autocommit(wire, violation, Acknowledged, TranslateCreateRefreshToken)
    case RotateToken(hash, newId, _, _, now, pick, _, wire) =>
      if BreaksEarly(wire) then Refuse(TranslateRotateRefreshToken(wire.error))
      else
        var load := LoadForMutation(rows, hash, now, pick);
        var violation := if TokenKey(newId) in rows then Some(Duplicate("refresh_tokens_pkey")) else None;
        Transact(wire, load, violation,
            if load.Ok? then Accepted(CredentialOf(rows, load.value.userId)) else Acknowledged)
    case RevokeToken(hash, now, pick, _, wire) =>
      if BreaksEarly(wire) then Refuse(TranslateRotateRefreshToken(wire.error))
      else
        var load := LoadForMutation(rows, hash, now, pick);
        Transact(wire, load, None, if load.Ok? then Accepted(CredentialOf(rows, load.value.userId)) else Acknowledged)
    case DeactivateUser(user, _, wire) =>
      AutocommitAffecting(rows, user, wire, TranslateDeactivateCredential)
    case DeleteUser(user, _, _, wire) =>
      AutocommitAffecting(rows, user, wire, TranslateDeleteCredential)
    case GrantRole(user, role, _, wire) =>
      var violation := if user.Some? && RoleKey(user.value, role) in rows then Some(Duplicate("auth_user_roles_pkey"))
          else MissingParent(rows, user);
      Autocommit(wire, violation, Acknowledged, TranslateFindCredential)
  }

  // ---- what an allowed call changes ----

  function Revoked(row: Row, now: Time): Row
    requires row.TokenRow?
  {
    TokenRow(row.token.(revokedAt := Some(now)))
  }

  /** Updating a credential also fires the trigger that stamps `updated_at`. */
  function EffectOf(rows: Rows, call: Call): (effect: Effect)
    requires Admissible(rows, call) && Judge(rows, call).Allow?
    ensures ValidEffect(rows, effect) && KeepsOwner(rows, effect)
  {
    match call
    case CreateCredential(user, email, username, passwordHash, at, _) =>
      map[CredentialKey(user.value) :=
        Some(CredentialRow(NewCredential(user.value, email, username, passwordHash, at)))]
    case CreateCode(id, user, hash, expiresAt, at, _) =>
      map[CodeKey(id) := Some(CodeRow(Code(id, user.value, hash, expiresAt, None, at)))]
    case VerifyEmail(user, hash, now, _, at, _) =>
      var c := if HasCredential(rows, user.value) then Some(CredentialOf(rows, user.value)) else None;
      map k | k in Verified(rows, user.value, hash, now) ::
        Some(if k.CredentialKey? then CredentialRow(VerifiedCredential(c.value, at))
             else CodeRow(rows[k].code.(usedAt := Some(at))))
    case CreateToken(id, user, hash, expiresAt, at, _) =>
      map[TokenKey(id) := Some(TokenRow(Token(id, user.value, hash, expiresAt, None, at)))]
    case RotateToken(_, newId, newHash, newExpiresAt, now, pick, at, _) =>
      map[pick := Some(Revoked(rows[pick], now)),
          TokenKey(newId) := Some(TokenRow(Token(newId, rows[pick].token.userId, newHash, newExpiresAt, None, at)))]
    case RevokeToken(_, now, pick, _, _) =>
      map[pick := Some(Revoked(rows[pick], now))]
    case DeactivateUser(user, at, _) =>
      var c := CredentialOf(rows, user.value);
      map[CredentialKey(user.value) :=
        Some(CredentialRow(c.(emailVerified := false, status := RegistrationFailed, updatedAt := at)))]
    case DeleteUser(user, _, _, _) =>
      map k | k in Slice(rows, user.value) :: None
    case GrantRole(user, role, at, _) =>
      map[RoleKey(user.value, role) := Some(RoleRow(Role(user.value, role, at)))]
  }

  /** The order in which the row triggers of an allowed call fire. */
  function OrderOf(rows: Rows, call: Call): (order: seq<Key>)
    requires Admissible(rows, call) && Judge(rows, call).Allow?
    ensures Enumerates(order, EffectOf(rows, call).Keys)
  {
    match call
    case CreateCredential(user, _, _, _, _, _) => [CredentialKey(user.value)]
    case CreateCode(id, _, _, _, _, _) => [CodeKey(id)]
    case VerifyEmail(_, _, _, order, _, _) => order
    case CreateToken(id, _, _, _, _, _) => [TokenKey(id)]
    case RotateToken(_, newId, _, _, _, pick, _, _) => [pick, TokenKey(newId)]
    case RevokeToken(_, _, pick, _, _) => [pick]
    case DeactivateUser(user, _, _) => [CredentialKey(user.value)]
    case DeleteUser(_, order, _, _) => order
    case GrantRole(user, role, _, _) => [RoleKey(user.value, role)]
  }

  /** A change of rows together with the events its triggers append. */
  function Apply(db: Database, effect: Effect, order: seq<Key>, at: Time): Database
    requires ValidEffect(db.rows, effect) && Enumerates(order, effect.Keys)
  {
    Database(Overlay(db.rows, effect), db.outbox + Events(db.rows, effect, order, at))
  }

  datatype Outcome = Outcome(db: Database, committed: bool, reply: Reply)

  function Exec(db: Database, call: Call): Outcome
    requires Admissible(db.rows, call)
  {
    match Judge(db.rows, call)
    case Refuse(e) => Outcome(db, false, Rejected(e))
    case Allow(reply) => Outcome(Apply(db, EffectOf(db.rows, call), OrderOf(db.rows, call), call.at), true, reply)
  }

  // ---- roles, read after the write has committed ----

  datatype Principal = Principal(credential: Credential, roles: set<string>)

  /** `attachRoles`: a multi-row select, so its failure is never "no rows". */
  function AttachRoles(rows: Rows, c: Credential, wire: Option<IoError>): Result<Principal, DomainError> {
    if wire.Some? then Err(TranslateFindCredential(wire.value)) else Ok(Principal(c, RolesOf(rows, c.userId)))
  }
}
