/**
  What each repository call needs and leaves, said of the rows themselves: when it takes effect, and
  every row there is afterwards.
 */
module Decisions {
  import opened Wrappers
  import opened Tables
  import opened Outbox
  import opened Errors
  import opened Statements
  import opened RepositoryRuns

  // ---- what a row is to a caller ----

  /** An unused code of the user with this digest, not expired yet. */
  predicate Opens(row: Row, u: Uuid, hash: Digest, now: Time) {
    && row.CodeRow? && row.code.userId == u && row.code.tokenHash == hash
    && row.code.usedAt.None? && row.code.expiresAt > now
  }

  /** A refresh token with this digest, unrevoked and not expired, whose user has a credential. */
  predicate Honoured(rows: Rows, k: Key, hash: Digest, now: Time) {
    && k in rows && rows[k].TokenRow? && rows[k].token.tokenHash == hash && CredentialKey(rows[k].token.userId) in rows
    && rows[k].token.revokedAt.None? && rows[k].token.expiresAt > now
  }

  predicate BelongsTo(row: Row, u: Uuid) {
    || (row.CredentialRow? && row.credential.userId == u)
    || (row.CodeRow? && row.code.userId == u)
    || (row.TokenRow? && row.token.userId == u)
    || (row.RoleRow? && row.role.userId == u)
  }

  ghost predicate HasEmail(rows: Rows, email: string) {
    exists u :: CredentialKey(u) in rows && rows[CredentialKey(u)].CredentialRow?
      && rows[CredentialKey(u)].credential.email == email
  }

  // ---- how the wire colours an answer ----

  /** What goes wrong on the way is no message of PostgreSQL. */
  predicate Plain(wire: Wire) {
    wire.Broken? ==> wire.error.Io?
  }

  /** A single statement: a broken one has no effect, and a lost reply hides refusal and success alike. */
  function Told(wire: Wire, refusal: Option<DomainError>, reply: Reply, failed: DomainError): Verdict {
    if wire.Broken? then Refuse(failed)
    else if refusal.Some? then Refuse(if wire.ReplyLost? then failed else refusal.value)
    else Allow(if wire.ReplyLost? then Rejected(failed) else reply)
  }

  // ---- single inserts ----

  lemma InsertsOne(rows: Rows, k: Key, row: Row)
    requires KeyOf(row) == k
    ensures ValidEffect(rows, map[k := Some(row)]) && Overlay(rows, map[k := Some(row)]) == rows[k := row]
  {
  }

  lemma EmailMeans(rows: Rows, email: string)
    ensures EmailTaken(rows, email) <==> HasEmail(rows, email)
  {
    if k :| k in rows && rows[k].CredentialRow? && rows[k].credential.email == email {
      assert KeyOf(rows[k]) == k;
      assert CredentialKey(k.userId) in rows;
    }
  }

  /** A credential is created exactly for a user and an email that have none, pending and unverified. */
  lemma CreatingCredential(rows: Rows, call: Call)
    requires call.CreateCredential?
    ensures Judge(rows, call).Allow? <==>
              && !call.wire.Broken? && call.user.Some? && CredentialKey(call.user.value) !in rows
              && !HasEmail(rows, call.email)
    ensures Plain(call.wire) ==>
              Judge(rows, call) == Told(
                call.wire,
                if call.user.None? then Some(InvalidUserId)
                else if CredentialKey(call.user.value) in rows then Some(CredentialsAlreadyExist)
                else if HasEmail(rows, call.email) then Some(EmailAlreadyTaken)
                else None,
                if call.user.None? then Acknowledged
                else Accepted(Credential(call.user.value, call.email, call.username, call.passwordHash, false,
                                         PendingRegistration, call.at, call.at)),
                FailedToCreateCredential)
    ensures Judge(rows, call).Allow? ==>
              After(rows, call) == rows[CredentialKey(call.user.value) := CredentialRow(
                Credential(call.user.value, call.email, call.username, call.passwordHash, false, PendingRegistration,
                           call.at, call.at))]
  {
    EmailMeans(rows, call.email);
    if Judge(rows, call).Allow? {
      var c := NewCredential(call.user.value, call.email, call.username, call.passwordHash, call.at);
      InsertsOne(rows, CredentialKey(call.user.value), CredentialRow(c));
    }
  }

  lemma CreatingCode(rows: Rows, call: Call)
    requires call.CreateCode?
    ensures Judge(rows, call).Allow? <==>
              && !call.wire.Broken? && call.user.Some? && CredentialKey(call.user.value) in rows
              && CodeKey(call.id) !in rows
    ensures Plain(call.wire) ==>
              Judge(rows, call) == Told(
                call.wire,
                if call.user.None? then Some(InvalidUserId)
                else if CodeKey(call.id) in rows then Some(FailedToCreateVerificationCode)
                else if CredentialKey(call.user.value) !in rows then Some(AuthNotFound)
                else None,
                Acknowledged, FailedToCreateVerificationCode)
    ensures Judge(rows, call).Allow? ==>
              After(rows, call) == rows[CodeKey(call.id) := CodeRow(
                Code(call.id, call.user.value, call.hash, call.expiresAt, None, call.at))]
  {
    if Judge(rows, call).Allow? {
      InsertsOne(rows, CodeKey(call.id),
          CodeRow(Code(call.id, call.user.value, call.hash, call.expiresAt, None, call.at)));
    }
  }

  lemma CreatingToken(rows: Rows, call: Call)
    requires call.CreateToken?
    ensures Judge(rows, call).Allow? <==>
              && !call.wire.Broken? && call.user.Some? && CredentialKey(call.user.value) in rows
              && TokenKey(call.id) !in rows
    ensures Plain(call.wire) ==>
              Judge(rows, call) == Told(
                call.wire,
                if call.user.None? then Some(InvalidUserId)
                else if TokenKey(call.id) in rows then Some(FailedToCreateRefreshToken)
                else if CredentialKey(call.user.value) !in rows then Some(AuthNotFound)
                else None,
                Acknowledged, FailedToCreateRefreshToken)
    ensures Judge(rows, call).Allow? ==>
              After(rows, call) == rows[TokenKey(call.id) := TokenRow(
                Token(call.id, call.user.value, call.hash, call.expiresAt, None, call.at))]
  {
    if Judge(rows, call).Allow? {
      InsertsOne(rows, TokenKey(call.id),
          TokenRow(Token(call.id, call.user.value, call.hash, call.expiresAt, None, call.at)));
    }
  }

  lemma GrantingRole(rows: Rows, call: Call)
    requires call.GrantRole?
    ensures Judge(rows, call).Allow? <==>
              && !call.wire.Broken? && call.user.Some? && CredentialKey(call.user.value) in rows
              && RoleKey(call.user.value, call.role) !in rows
    ensures Judge(rows, call).Allow? ==>
              After(rows, call) == rows[RoleKey(call.user.value, call.role) := RoleRow(
                Role(call.user.value, call.role, call.at))]
  {
    if Judge(rows, call).Allow? {
      InsertsOne(rows, RoleKey(call.user.value, call.role), RoleRow(Role(call.user.value, call.role, call.at)));
    }
  }

  // ---- verification ----

  /** The rows after a verification: the codes that opened are used, and the credential is verified. */
  function VerifiedRows(rows: Rows, u: Uuid, hash: Digest, now: Time, at: Time): Rows {
    map k | k in rows ::
      if Opens(rows[k], u, hash, now) then CodeRow(rows[k].code.(usedAt := Some(at)))
      else if k == CredentialKey(u) && rows[k].CredentialRow? then
        CredentialRow(rows[k].credential.(emailVerified := true, status := EmailVerified, updatedAt := at))
      else rows[k]
  }

  lemma VerificationChanges(rows: Rows, call: Call)
    requires call.VerifyEmail? && Admissible(rows, call) && Judge(rows, call).Allow?
    ensures After(rows, call) == VerifiedRows(rows, call.user.value, call.hash, call.now, call.at)
  {
    var u := call.user.value;
    var after, spelled := After(rows, call), VerifiedRows(rows, u, call.hash, call.now, call.at);
    forall k ensures Lookup(after, k) == Lookup(spelled, k) {
      if k in rows { assert KeyOf(rows[k]) == k; }
    }
    SameRows(after, spelled);
  }

  /**
    A verification takes effect exactly when some unused, unexpired code of the user has the digest
    presented; it uses up those codes and no other, and verifies the credential of that user alone.
   */
  lemma Verifying(rows: Rows, call: Call)
    requires call.VerifyEmail? && Admissible(rows, call)
    ensures Judge(rows, call).Allow? <==>
              && !call.wire.Broken? && call.user.Some?
              && exists k :: k in rows && Opens(rows[k], call.user.value, call.hash, call.now)
    ensures Plain(call.wire) ==>
              Judge(rows, call) == Told(
                call.wire,
                if call.user.None? then Some(InvalidUserId)
                else if !exists k :: k in rows && Opens(rows[k], call.user.value, call.hash, call.now) then
                  Some(InvalidVerificationCode)
                else None,
                if call.user.Some? && CredentialKey(call.user.value) in rows then
                  Accepted(rows[CredentialKey(call.user.value)].credential.(
                             emailVerified := true, status := EmailVerified, updatedAt := call.at))
                else Rejected(InvalidVerificationCode),
                FailedToVerifyEmail)
    ensures Judge(rows, call).Allow? ==>
              After(rows, call) == VerifiedRows(rows, call.user.value, call.hash, call.now, call.at)
  {
    hide OrderOf;
    if call.user.Some? {
      var u := call.user.value;
      forall k
        ensures k in UsableCodes(rows, u, call.hash, call.now) <==> k in rows && Opens(rows[k], u, call.hash, call.now)
      {
      }
      if k :| k in rows && Opens(rows[k], u, call.hash, call.now) {
        assert k in UsableCodes(rows, u, call.hash, call.now);
      }
      if Judge(rows, call).Allow? {
        VerificationChanges(rows, call);
      }
    }
  }

  // ---- rotation and revocation ----

  /** Why a token is refused. The row the query returns first decides. */
  function Refusal(rows: Rows, pick: Key, hash: Digest, now: Time): Option<DomainError> {
    if !(pick in rows && rows[pick].TokenRow? && rows[pick].token.tokenHash == hash
         && CredentialKey(rows[pick].token.userId) in rows) then Some(InvalidRefreshToken)
    else if rows[pick].token.revokedAt.Some? then Some(RefreshTokenRevoked)
    else if rows[pick].token.expiresAt <= now then Some(RefreshTokenExpired)
    else None
  }

  lemma HonouredIff(rows: Rows, pick: Key, hash: Digest, now: Time)
    ensures Refusal(rows, pick, hash, now).None? <==> Honoured(rows, pick, hash, now)
  {
  }

  lemma LoadMeans(rows: Rows, hash: Digest, now: Time, pick: Key)
    requires PickOk(rows, hash, pick)
    ensures LoadForMutation(rows, hash, now, pick)
            == if Refusal(rows, pick, hash, now).Some? then Err(Refusal(rows, pick, hash, now).value)
               else Ok(rows[pick].token)
    ensures Refusal(rows, pick, hash, now) == Some(InvalidRefreshToken) ==>
              forall k :: k in rows && rows[k].TokenRow? && rows[k].token.tokenHash == hash ==>
                CredentialKey(rows[k].token.userId) !in rows
  {
    assert pick in Matches(rows, hash) <==>
             pick in rows && rows[pick].TokenRow? && rows[pick].token.tokenHash == hash
             && CredentialKey(rows[pick].token.userId) in rows;
    if Matches(rows, hash) == {} {
      forall k | k in rows && rows[k].TokenRow? && rows[k].token.tokenHash == hash
        ensures CredentialKey(rows[k].token.userId) !in rows
      {
        assert k !in Matches(rows, hash);
      }
    }
  }

  /** What a transaction that gets past its load answers. */
  function Settled(wire: Wire, refusal: Option<DomainError>, reply: Reply): Verdict {
    if refusal.Some? then Refuse(refusal.value)
    else if wire.Broken? then Refuse(FailedToRotateRefreshToken)
    else Allow(if wire.ReplyLost? then Rejected(FailedToRotateRefreshToken) else reply)
  }

  /** The credential a token belongs to. */
  function OwnerOf(rows: Rows, k: Key): Reply {
    if k in rows && rows[k].TokenRow? && CredentialKey(rows[k].token.userId) in rows
       && rows[CredentialKey(rows[k].token.userId)].CredentialRow?
    then Accepted(rows[CredentialKey(rows[k].token.userId)].credential) else Acknowledged
  }

  /**
    A rotation takes effect exactly for an honoured token and a free id; it revokes that token and
    adds one with the new digest and expiry for the same user.
   */
  lemma Rotating(rows: Rows, call: Call)
    requires call.RotateToken? && Admissible(rows, call)
    ensures Judge(rows, call).Allow? <==>
              !call.wire.Broken? && Honoured(rows, call.pick, call.hash, call.now) && TokenKey(call.newId) !in rows
    ensures Plain(call.wire) && (call.wire.Broken? ==> call.wire.stage == AtCommit) ==>
              Judge(rows, call) == Settled(
                call.wire,
                if Refusal(rows, call.pick, call.hash, call.now).Some? then
                  Refusal(rows, call.pick, call.hash, call.now)
                else if TokenKey(call.newId) in rows then Some(FailedToRotateRefreshToken)
                else None,
                OwnerOf(rows, call.pick))
    ensures Plain(call.wire) && BreaksEarly(call.wire) ==> Judge(rows, call) == Refuse(FailedToRotateRefreshToken)
    ensures Plain(call.wire) && call.wire.Broken? && call.wire.stage in {AtRevoke, AtInsert} ==>
              Judge(rows, call)
              == Settled(call.wire, Refusal(rows, call.pick, call.hash, call.now), OwnerOf(rows, call.pick))
    ensures Judge(rows, call).Allow? ==>
              After(rows, call) == rows[call.pick := TokenRow(rows[call.pick].token.(revokedAt := Some(call.now)))][
                TokenKey(call.newId) := TokenRow(
                  Token(call.newId, rows[call.pick].token.userId, call.newHash, call.newExpiresAt, None, call.at))]
  {
    hide OrderOf;
    if !BreaksEarly(call.wire) {
      LoadMeans(rows, call.hash, call.now, call.pick);
      HonouredIff(rows, call.pick, call.hash, call.now);
    }
  }

  /** A revocation takes effect exactly for an honoured token, and marks that one row. */
  lemma Revoking(rows: Rows, call: Call)
    requires call.RevokeToken? && Admissible(rows, call)
    ensures Judge(rows, call).Allow? <==> !call.wire.Broken? && Honoured(rows, call.pick, call.hash, call.now)
    ensures Plain(call.wire) && (call.wire.Broken? ==> call.wire.stage == AtCommit) ==>
              Judge(rows, call)
              == Settled(call.wire, Refusal(rows, call.pick, call.hash, call.now), OwnerOf(rows, call.pick))
    ensures Plain(call.wire) && BreaksEarly(call.wire) ==> Judge(rows, call) == Refuse(FailedToRotateRefreshToken)
    ensures Plain(call.wire) && call.wire.Broken? && call.wire.stage in {AtRevoke, AtInsert} ==>
              Judge(rows, call)
              == Settled(call.wire, Refusal(rows, call.pick, call.hash, call.now), OwnerOf(rows, call.pick))
    ensures Judge(rows, call).Allow? ==>
              After(rows, call) == rows[call.pick := TokenRow(rows[call.pick].token.(revokedAt := Some(call.now)))]
  {
    hide OrderOf;
    if !BreaksEarly(call.wire) {
      LoadMeans(rows, call.hash, call.now, call.pick);
      HonouredIff(rows, call.pick, call.hash, call.now);
    }
  }

  // ---- deactivation and deletion ----

  lemma Deactivating(rows: Rows, call: Call)
    requires call.DeactivateUser?
    ensures Judge(rows, call).Allow? <==>
              !call.wire.Broken? && call.user.Some? && CredentialKey(call.user.value) in rows
    ensures Plain(call.wire) ==>
              Judge(rows, call) == Told(
                call.wire,
                if call.user.None? then Some(InvalidUserId)
                else if CredentialKey(call.user.value) !in rows then Some(AuthNotFound)
                else None,
                Acknowledged, FailedToDeactivateCredential)
    ensures Judge(rows, call).Allow? ==>
              var k := CredentialKey(call.user.value);
              && rows[k].CredentialRow?
              && After(rows, call) == rows[k := CredentialRow(rows[k].credential.(
                   emailVerified := false, status := RegistrationFailed, updatedAt := call.at))]
  {
  }

  lemma OwnersMeans(row: Row, u: Uuid)
    ensures UserOf(row) == u <==> BelongsTo(row, u)
  {
  }

  /** A deletion takes effect exactly when the credential is there, and leaves every row of other users only. */
  lemma Deleting(rows: Rows, call: Call)
    requires call.DeleteUser? && Admissible(rows, call)
    ensures Judge(rows, call).Allow? <==>
              !call.wire.Broken? && call.user.Some? && CredentialKey(call.user.value) in rows
    ensures Plain(call.wire) ==>
              Judge(rows, call) == Told(
                call.wire,
                if call.user.None? then Some(FailedToDeleteCredential)
                else if CredentialKey(call.user.value) !in rows then Some(AuthNotFound)
                else None,
                Acknowledged, FailedToDeleteCredential)
    ensures Judge(rows, call).Allow? ==>
              After(rows, call) == map k | k in rows && !BelongsTo(rows[k], call.user.value) :: rows[k]
  {
    hide OrderOf;
    if Judge(rows, call).Allow? {
      var after := After(rows, call);
      var spelled: Rows := map k | k in rows && !BelongsTo(rows[k], call.user.value) :: rows[k];
      forall k ensures Lookup(after, k) == Lookup(spelled, k) {
        if k in rows { OwnersMeans(rows[k], call.user.value); }
      }
      SameRows(after, spelled);
    }
  }

  // ---- the environment always has a choice ----

  lemma {:induction false} SomeOrder(keys: set<Key>) returns (order: seq<Key>)
    ensures Enumerates(order, keys)
  {
    if keys == {} {
      order := [];
    } else {
      var k :| k in keys;
      var rest := SomeOrder(keys - {k});
      order := rest + [k];
    }
  }

  /** The call with the environment's choices left open: the row found first, and the order of the triggers. */
  function Chosen(call: Call, pick: Key, order: seq<Key>): Call {
    match call
    case VerifyEmail(user, hash, now, _, at, wire) => VerifyEmail(user, hash, now, order, at, wire)
    case DeleteUser(user, _, at, wire) => DeleteUser(user, order, at, wire)
    case RotateToken(hash, newId, newHash, newExpiresAt, now, _, at, wire) =>
      RotateToken(hash, newId, newHash, newExpiresAt, now, pick, at, wire)
    case RevokeToken(hash, now, _, at, wire) => RevokeToken(hash, now, pick, at, wire)
    case _ => call
  }

  /** No table keeps a call from being made: for some choice of the environment it is possible. */
  lemma EveryCallIsPossible(rows: Rows, call: Call) returns (possible: Call)
    ensures Admissible(rows, possible) && exists pick, order :: possible == Chosen(call, pick, order)
  {
    var pick, order := TokenKey(0), [];
    match call {
      case VerifyEmail(user, hash, now, _, _, _) =>
        if user.Some? { order := SomeOrder(Verified(rows, user.value, hash, now)); }
      case DeleteUser(user, _, _, _) =>
        if user.Some? { order := SomeOrder(Slice(rows, user.value).Keys); }
      case RotateToken(hash, _, _, _, _, _, _, _) =>
        if Matches(rows, hash) != {} { pick :| pick in Matches(rows, hash); }
      case RevokeToken(hash, _, _, _, _) =>
        if Matches(rows, hash) != {} { pick :| pick in Matches(rows, hash); }
      case _ =>
    }
    possible := Chosen(call, pick, order);
  }

  // ---- the events of a call ----

  /** The event tells truly what became of its row. */
  predicate TellsChange(before: Rows, after: Rows, e: Event) {
    var k := KeyOf(e.payload);
    if k !in before then e.operation.Created? && k in after && e.payload == after[k]
    else if k in after then e.operation.Updated? && e.payload == after[k]
    else e.operation.Deactivated? && e.payload == before[k]
  }

  lemma EventTellsChange(rows: Rows, effect: Effect, k: Key, at: Time)
    requires ValidEffect(rows, effect) && k in effect
    ensures var e := Capture(ChangeOf(Lookup(rows, k), effect[k]), at);
            KeyOf(e.payload) == k && TellsChange(rows, Overlay(rows, effect), e) && e.occurredAt == at
  {
    if k in rows { assert KeyOf(rows[k]) == k; }
  }

  /**
    What a call appends to the outbox: one event for each row it changes, telling its creation,
    its new image or its removal, stamped with the time of the call.
   */
  lemma EventsTellChanges(db: Database, call: Call)
    requires Admissible(db.rows, call)
    ensures var after, events := Exec(db, call).db.rows, Appended(db, call);
            && Exec(db, call).db.outbox == db.outbox + events
            && (forall i :: 0 <= i < |events| ==>
                  TellsChange(db.rows, after, events[i]) && events[i].occurredAt == call.at)
            && (forall i, j :: 0 <= i < j < |events| ==> KeyOf(events[i].payload) != KeyOf(events[j].payload))
            && (forall k :: Lookup(db.rows, k) != Lookup(after, k) ==>
                  exists i :: 0 <= i < |events| && KeyOf(events[i].payload) == k)
  {
    hide Judge, EffectOf, OrderOf, Admissible;
    CommittedCall(db, call);
    if Judge(db.rows, call).Allow? {
      var effect, order, after := EffectOf(db.rows, call), OrderOf(db.rows, call), Exec(db, call).db.rows;
      var events := Appended(db, call);
      forall i | 0 <= i < |events|
        ensures KeyOf(events[i].payload) == order[i]
        ensures TellsChange(db.rows, after, events[i]) && events[i].occurredAt == call.at
      {
        EventTellsChange(db.rows, effect, order[i], call.at);
        assert order[i] in effect.Keys;
      }
      forall k | Lookup(db.rows, k) != Lookup(after, k)
        ensures exists i :: 0 <= i < |events| && KeyOf(events[i].payload) == k
      {
        assert k in effect.Keys;
        var i :| 0 <= i < |order| && order[i] == k;
        assert KeyOf(events[i].payload) == k;
      }
    }
  }
}
