/** What a gRPC status tells the caller of Refresh and SignOut about the tables. */
module Grpc {
  import opened Wrappers
  import opened Text
  import opened Tables
  import opened Errors
  import opened Statements
  import opened RepositoryRuns
  import opened TokenRuns
  import opened Decisions
  import opened Service
  import opened UseCases

  function RefreshCode(r: Result<TokenPair, DomainError>): StatusCode {
    if r.Err? then RefreshStatus(r.error) else OK
  }

  function SignOutCode(r: Result<(), DomainError>): StatusCode {
    if r.Err? then SignOutStatus(r.error) else OK
  }

  class Server {
    const svc: AuthService

    constructor (svc: AuthService)
      ensures this.svc == svc
    {
      this.svc := svc;
    }

    method Refresh(refreshToken: string, e: Env) returns (code: StatusCode, tokens: Option<TokenPair>)
      requires e.token.Some? ==> Admissible(svc.repo.db.rows, Rotation(svc.p, refreshToken, e.token.value, e))
      modifies svc.repo
      ensures var r := RefreshTokens(svc.p, old(svc.repo.db), refreshToken, e);
              svc.repo.db == r.db && code == RefreshCode(r.result)
                  && tokens == if r.result.Ok? then Some(r.result.value) else None
    {
      hide RefreshTokens, Admissible;
      var r := svc.Refresh(refreshToken, e);
      if r.Err? {
        match r.error {
          case InvalidRefreshToken => return Unauthenticated, None;
          case RefreshTokenExpired | RefreshTokenRevoked | InvalidCredentials | AuthNotFound =>
            return Unauthenticated, None;
          case _ => return Internal, None;
        }
      }
      return OK, Some(r.value);
    }

    method SignOut(refreshToken: string, e: Env) returns (code: StatusCode)
      requires Admissible(svc.repo.db.rows, Revocation(refreshToken, e))
      modifies svc.repo
      ensures var r := EndSession(old(svc.repo.db), refreshToken, e);
              svc.repo.db == r.db && code == SignOutCode(r.result)
    {
      hide EndSession, Admissible;
      var r := svc.SignOut(refreshToken, e);
      if r.Err? {
        match r.error {
          case InvalidRefreshToken => return InvalidArgument;
          case RefreshTokenExpired | RefreshTokenRevoked | InvalidCredentials | AuthNotFound => return Unauthenticated;
          case _ => return Internal;
        }
      }
      return OK;
    }
  }

  // ---- answers and effects ----

  /** A committed call that is still refused failed on the way back, never because of the token. */
  lemma RefusalAfterCommit(db: Database, call: Call)
    requires Redeems(call) && Admissible(db.rows, call) && Exec(db, call).committed
    ensures Exec(db, call).reply.Accepted? || Exec(db, call).reply == Rejected(FailedToRotateRefreshToken)
    ensures Exec(db, call).reply.Accepted? <==> call.wire.Clean?
  {
  }

  lemma CommitShows(db: Database, call: Call)
    requires Redeems(call) && Admissible(db.rows, call)
    ensures Exec(db, call).committed <==> Exec(db, call).db != db
    ensures Exec(db, call).committed ==> |Exec(db, call).db.outbox| > |db.outbox|
  {
    CommittedCall(db, call);
  }

  /** Whether the rotation behind a Refresh was committed. */
  function RotationCommitted(p: Platform, db: Database, refreshToken: string, e: Env): bool
    requires e.token.Some? ==> Admissible(db.rows, Rotation(p, refreshToken, e.token.value, e))
  {
    !Blank(refreshToken) && e.token.Some? && Exec(db, Rotation(p, refreshToken, e.token.value, e)).committed
  }

  /**
    A Refresh answered Unauthenticated left every table as it was. One whose rotation was committed
    is answered OK or Internal, and OK exactly when the reply, the roles and the signer all made it.
   */
  lemma RefreshAnswersTellEffect(p: Platform, db: Database, refreshToken: string, e: Env)
    requires e.token.Some? ==> Admissible(db.rows, Rotation(p, refreshToken, e.token.value, e))
    ensures var r := RefreshTokens(p, db, refreshToken, e);
            var code, committed := RefreshCode(r.result), RotationCommitted(p, db, refreshToken, e);
            && code != InvalidArgument
            && (code == Unauthenticated ==> r.db == db)
            && (r.db != db <==> committed)
            && (committed ==> code in {OK, Internal})
            && (code == OK <==> committed && e.wire.Clean? && e.rolesWire.None? && e.signs)
  {
    hide Judge, EffectOf, OrderOf, Admissible, TrimSpace;
    if e.token.Some? {
      var call := Rotation(p, refreshToken, e.token.value, e);
      CommittedCall(db, call);
      CommitShows(db, call);
      if Exec(db, call).committed { RefusalAfterCommit(db, call); }
    }
  }

  function RevocationCommitted(db: Database, refreshToken: string, e: Env): bool
    requires Admissible(db.rows, Revocation(refreshToken, e))
  {
    !Blank(refreshToken) && Exec(db, Revocation(refreshToken, e)).committed
  }

  /**
    A SignOut answered Unauthenticated or InvalidArgument left every table as it was. One whose
    revocation was committed is answered OK or Internal.
   */
  lemma SignOutAnswersTellEffect(db: Database, refreshToken: string, e: Env)
    requires Admissible(db.rows, Revocation(refreshToken, e))
    ensures var r := EndSession(db, refreshToken, e);
            var code, committed := SignOutCode(r.result), RevocationCommitted(db, refreshToken, e);
            && (code in {Unauthenticated, InvalidArgument} ==> r.db == db)
            && (r.db != db <==> committed)
            && (committed ==> code in {OK, Internal})
            && (code == OK <==> committed && e.wire.Clean? && e.rolesWire.None?)
  {
    hide Judge, EffectOf, OrderOf, Admissible, TrimSpace;
    var call := Revocation(refreshToken, e);
    CommittedCall(db, call);
    CommitShows(db, call);
    if Exec(db, call).committed { RefusalAfterCommit(db, call); }
  }

  /** Which status each SignOut is answered. Only here is an unknown or blank token the caller's mistake. */
  lemma SignOutStatuses(db: Database, refreshToken: string, e: Env)
    requires Admissible(db.rows, Revocation(refreshToken, e)) && Plain(e.wire)
    ensures var refusal := Refusal(db.rows, e.pick, Sha256(TrimSpace(refreshToken)), e.now);
            SignOutCode(EndSession(db, refreshToken, e).result)
            == if TrimSpace(refreshToken) == "" then InvalidArgument
               else if e.wire.Broken? && e.wire.stage in {AtBegin, AtLoad} then Internal
               else if refusal == Some(InvalidRefreshToken) then InvalidArgument
               else if refusal.Some? then Unauthenticated
               else if e.wire.Clean? && e.rolesWire.None? then OK
               else Internal
  {
    hide EndSession, TrimSpace, Admissible;
    SignOutDecision(db, refreshToken, e);
  }

  /** Which status each Refresh is answered: every token that is refused is Unauthenticated. */
  lemma RefreshStatuses(p: Platform, db: Database, refreshToken: string, e: Env)
    requires e.token.Some? ==> Admissible(db.rows, Rotation(p, refreshToken, e.token.value, e))
    requires Plain(e.wire)
    ensures RefreshCode(RefreshTokens(p, db, refreshToken, e).result)
            == if TrimSpace(refreshToken) == "" then Unauthenticated
               else if e.token.None? || (e.wire.Broken? && e.wire.stage in {AtBegin, AtLoad}) then Internal
               else if Refusal(db.rows, e.pick, Sha256(TrimSpace(refreshToken)), e.now).Some? then Unauthenticated
               else if e.wire.Clean? && TokenKey(e.id) !in db.rows && e.rolesWire.None? && e.signs then OK
               else Internal
  {
    hide RefreshTokens, TrimSpace, Admissible, Rolled, Describes;
    RenewalDecision(p, db, refreshToken, e);
  }

  // ---- when a refresh token works ----

  /** Nothing fails on the way, and the fresh values are there. */
  predicate Healthy(rows: Rows, e: Env) {
    e.wire.Clean? && e.rolesWire.None? && e.signs && e.token.Some? && TokenKey(e.id) !in rows
  }

  /** The token is known, unrevoked and not expired. The status of its credential does not matter. */
  predicate Redeemable(rows: Rows, refreshToken: string, e: Env) {
    var found := Matches(rows, Sha256(TrimSpace(refreshToken)));
    found != {} && e.pick in found && rows[e.pick].token.revokedAt.None? && rows[e.pick].token.expiresAt > e.now
  }

  /** In good health, Refresh is answered OK exactly for redeemable tokens, and Unauthenticated for all others. */
  lemma RefreshDecision(p: Platform, db: Database, refreshToken: string, e: Env)
    requires e.token.Some? && Admissible(db.rows, Rotation(p, refreshToken, e.token.value, e))
    requires Healthy(db.rows, e)
    ensures RefreshCode(RefreshTokens(p, db, refreshToken, e).result)
            == if !Blank(refreshToken) && Redeemable(db.rows, refreshToken, e) then OK else Unauthenticated
  {
    hide EffectOf, OrderOf, TrimSpace;
  }

  /** Digests of tokens are distinct: a token text names at most one row. */
  predicate DistinctDigests(rows: Rows) {
    forall a, b :: a in rows && b in rows && rows[a].TokenRow? && rows[b].TokenRow? ==>
      rows[a].token.tokenHash == rows[b].token.tokenHash ==> a == b
  }

  /** A rotation adds its new row to the matches of one digest, and changes no other match. */
  lemma MatchAfter(rows: Rows, call: Call, hash: Digest, k: Key)
    requires call.RotateToken? && Admissible(rows, call) && Judge(rows, call).Allow?
    ensures k in Matches(After(rows, call), hash) <==>
          k in Matches(rows, hash) || (NewToken(call) == Some(k) && hash == call.newHash)
    ensures call.pick in Matches(rows, call.hash)
  {
    hide EffectOf, OrderOf;
    if k in rows { assert KeyOf(rows[k]) == k; }
    if k in After(rows, call) { assert KeyOf(After(rows, call)[k]) == k; }
    RedeemedIsToken(rows, call);
    assert KeyOf(rows[call.pick]) == call.pick;
    if k.TokenKey? {
      TokenAfter(rows, call, k);
      if k in After(rows, call) { CredentialAfter(rows, call, UserOf(After(rows, call)[k])); }
      if k in rows { CredentialAfter(rows, call, UserOf(rows[k])); }
    }
  }

  lemma RotationReplaces(rows: Rows, call: Call)
    requires call.RotateToken? && Admissible(rows, call) && Judge(rows, call).Allow? && DistinctDigests(rows)
    requires forall k :: k in rows && rows[k].TokenRow? ==> rows[k].token.tokenHash != call.newHash
    ensures var after, next := After(rows, call), TokenKey(call.newId);
            && Matches(after, call.hash) == {call.pick} && after[call.pick] == Revoked(rows[call.pick], call.now)
            && Matches(after, call.newHash) == {next}
            && after[next].token.revokedAt.None? && after[next].token.expiresAt == call.newExpiresAt
  {
    hide Judge, EffectOf, OrderOf;
    RedeemedIsToken(rows, call);
    TokenAfter(rows, call, call.pick);
    TokenAfter(rows, call, TokenKey(call.newId));
    MatchAfter(rows, call, call.hash, call.pick);
    forall k ensures k in Matches(After(rows, call), call.hash) <==> k == call.pick
             ensures k in Matches(After(rows, call), call.newHash) <==> k == TokenKey(call.newId)
    {
      MatchAfter(rows, call, call.hash, k);
      MatchAfter(rows, call, call.newHash, k);
    }
  }

  lemma RefreshedDatabase(p: Platform, db: Database, refreshToken: string, e: Env)
    requires e.token.Some? && Admissible(db.rows, Rotation(p, refreshToken, e.token.value, e))
    requires RefreshCode(RefreshTokens(p, db, refreshToken, e).result) == OK
    ensures RefreshTokens(p, db, refreshToken, e).db == Exec(db, Rotation(p, refreshToken, e.token.value, e)).db
  {
    hide Exec, TrimSpace, Admissible;
  }

  /** The rows after a Refresh answered OK: the presented token is revoked, its successor is live. */
  lemma RefreshReplaces(p: Platform, db: Database, refreshToken: string, e: Env)
    requires e.token.Some? && Admissible(db.rows, Rotation(p, refreshToken, e.token.value, e))
    requires DistinctDigests(db.rows)
    requires forall k :: k in db.rows && db.rows[k].TokenRow? ==> db.rows[k].token.tokenHash != Sha256(e.token.value)
    requires RefreshCode(RefreshTokens(p, db, refreshToken, e).result) == OK
    ensures var after := RefreshTokens(p, db, refreshToken, e).db.rows;
            && Matches(after, Sha256(TrimSpace(refreshToken))) == {e.pick} && after[e.pick].token.revokedAt.Some?
            && Matches(after, Sha256(e.token.value)) == {TokenKey(e.id)}
            && after[TokenKey(e.id)].token.revokedAt.None?
            && after[TokenKey(e.id)].token.expiresAt == e.now + p.refreshTokenTtl
  {
    hide Exec, Judge, EffectOf, OrderOf, TrimSpace, Admissible, RefreshTokens;
    var call := Rotation(p, refreshToken, e.token.value, e);
    RefreshAnswersTellEffect(p, db, refreshToken, e);
    RefreshedDatabase(p, db, refreshToken, e);
    CommittedCall(db, call);
    RotationReplaces(db.rows, call);
    RedeemedIsToken(db.rows, call);
    TokenAfter(db.rows, call, call.pick);
  }

  /** Deactivating a user for compensation ends none of its sessions: the same tokens stay redeemable. */
  lemma DeactivationKeepsSessions(p: Platform, db: Database, userId: string, e: Env, refreshToken: string, next: Env)
    requires Admissible(db.rows, Deactivation(p, userId, e))
    ensures var after := Deactivate(p, db, userId, e).db.rows;
            Redeemable(after, refreshToken, next) <==> Redeemable(db.rows, refreshToken, next)
  {
    hide EffectOf, OrderOf, Judge, TrimSpace;
    var call := Deactivation(p, userId, e);
    CommittedCall(db, call);
    if Judge(db.rows, call).Allow? {
      var after, hash := After(db.rows, call), Sha256(TrimSpace(refreshToken));
      forall k ensures k in Matches(after, hash) <==> k in Matches(db.rows, hash)
        ensures k in Matches(db.rows, hash) ==> after[k] == db.rows[k]
      {
        if k in after { assert KeyOf(after[k]) == k; }
        if k in db.rows { assert KeyOf(db.rows[k]) == k; }
        if k.TokenKey? {
          TokenAfter(db.rows, call, k);
          if k in db.rows { CredentialAfter(db.rows, call, UserOf(db.rows[k])); }
        }
      }
      assert Matches(after, hash) == Matches(db.rows, hash);
    }
  }
}
