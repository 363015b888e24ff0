/** What becomes of a session's refresh tokens while the service goes on. */
module Sessions {
  import opened Wrappers
  import opened Text
  import opened Tables
  import opened Errors
  import opened Statements
  import opened RepositoryRuns
  import opened TokenRuns
  import opened Service
  import opened ServiceRuns
  import opened Grpc

  /** Whatever token row has this digest is the one at `k`, with this expiry; and revoked, if `spent`. */
  predicate SoleBearer(rows: Rows, hash: Digest, k: Key, expiresAt: Time, spent: bool) {
    forall j :: j in rows && rows[j].TokenRow? && rows[j].token.tokenHash == hash ==>
      j == k && rows[j].token.expiresAt == expiresAt && (spent ==> rows[j].token.revokedAt.Some?)
  }

  lemma CallKeepsSoleBearer(db: Database, call: Call, hash: Digest, k: Key, expiresAt: Time, spent: bool)
    requires Admissible(db.rows, call) && NewDigest(call) != Some(hash)
    requires SoleBearer(db.rows, hash, k, expiresAt, spent)
    ensures SoleBearer(Exec(db, call).db.rows, hash, k, expiresAt, spent)
  {
    hide Judge, EffectOf, OrderOf, Admissible, Exec;
    CommittedCall(db, call);
    if Judge(db.rows, call).Allow? {
      var after := After(db.rows, call);
      forall j | j in after && after[j].TokenRow? && after[j].token.tokenHash == hash
        ensures j == k && after[j].token.expiresAt == expiresAt && (spent ==> after[j].token.revokedAt.Some?)
      {
        assert KeyOf(after[j]) == j;
        TokenAfter(db.rows, call, j);
      }
    }
  }

  lemma UseCaseKeepsSoleBearer(p: Platform, db: Database, c: UseCase, text: string, k: Key, expiresAt: Time,
                               spent: bool)
    requires Possible(p, db.rows, c) && NoOrphans(db.rows) && c.env.token != Some(text)
    requires SoleBearer(db.rows, Sha256(text), k, expiresAt, spent)
    ensures SoleBearer(Serve(p, db, c).rows, Sha256(text), k, expiresAt, spent)
  {
    hide Exec, Judge, Serve, SoleBearer, NoOrphans, Possible, Vouched;
    UseCaseIsShort(p, db, c);
    var t := Serve(p, db, c);
    if t != db {
      if call :| VouchedStep(db, call, t) && !call.CreateCode? && DrawnBy(call, c.env) {
        CallKeepsSoleBearer(db, call, Sha256(text), k, expiresAt, spent);
      } else {
        var a: Call, b: Call :| a.CreateCredential? && b.CreateCode? && a.user == b.user
          && StepsTo(db, a, Exec(db, a).db) && Exec(db, a).committed && VouchedStep(Exec(db, a).db, b, t);
        CallKeepsSoleBearer(db, a, Sha256(text), k, expiresAt, spent);
        CallKeepsSoleBearer(Exec(db, a).db, b, Sha256(text), k, expiresAt, spent);
      }
    }
  }

  /** No use case of the run draws this token. */
  predicate NeverDrawn(cases: seq<UseCase>, text: string) {
    forall i :: 0 <= i < |cases| ==> cases[i].env.token != Some(text)
  }

  lemma {:induction false} RunKeepsSoleBearer(p: Platform, states: seq<Database>, cases: seq<UseCase>, n: nat,
                                              text: string, k: Key, expiresAt: Time, spent: bool)
    requires IsServiceRun(p, states, cases) && CrossTable(states[0].rows) && NeverDrawn(cases, text) && n <= |cases|
    requires SoleBearer(states[0].rows, Sha256(text), k, expiresAt, spent)
    ensures SoleBearer(states[n].rows, Sha256(text), k, expiresAt, spent)
  {
    hide Serve, Possible, CrossTable, SoleBearer;
    if n > 0 {
      RunKeepsSoleBearer(p, states, cases, n - 1, text, k, expiresAt, spent);
      assert Serves(p, states[n - 1], cases[n - 1], states[n]);
      CrossTableAlways(p, states, cases, n - 1);
      CrossTableMeans(states[n - 1].rows);
      UseCaseKeepsSoleBearer(p, states[n - 1], cases[n - 1], text, k, expiresAt, spent);
    }
  }

  lemma HasParent(rows: Rows, k: Key)
    requires NoOrphans(rows) && k in rows
    ensures HasCredential(rows, UserOf(rows[k]))
  {
  }

  /** What a lookup by digest finds of a sole bearer. */
  lemma SoleMatch(rows: Rows, hash: Digest, k: Key, expiresAt: Time, spent: bool)
    requires SoleBearer(rows, hash, k, expiresAt, spent) && NoOrphans(rows)
    ensures Matches(rows, hash) == if k in rows && rows[k].TokenRow? && rows[k].token.tokenHash == hash then {k} else {}
  {
    hide NoOrphans;
    if k in rows { HasParent(rows, k); }
  }

  predicate LiveAt(rows: Rows, k: Key, hash: Digest) {
    k in rows && rows[k].TokenRow? && rows[k].token.tokenHash == hash && rows[k].token.revokedAt.None?
  }

  lemma BearerExpiry(rows: Rows, hash: Digest, k: Key, expiresAt: Time, spent: bool)
    requires SoleBearer(rows, hash, k, expiresAt, spent)
    ensures k in rows && rows[k].TokenRow? && rows[k].token.tokenHash == hash ==>
              rows[k].token.expiresAt == expiresAt && (spent ==> rows[k].token.revokedAt.Some?)
  {
  }

  /** When nothing fails on the way, a sole bearer is redeemed exactly while its row is live and not expired. */
  lemma SoleBearerDecision(p: Platform, db: Database, text: string, k: Key, expiresAt: Time, spent: bool, e: Env)
    requires SoleBearer(db.rows, Sha256(TrimSpace(text)), k, expiresAt, spent) && NoOrphans(db.rows)
    requires e.token.Some? && Admissible(db.rows, Rotation(p, text, e.token.value, e)) && Healthy(db.rows, e)
    ensures RefreshCode(RefreshTokens(p, db, text, e).result)
            == if !Blank(text) && LiveAt(db.rows, k, Sha256(TrimSpace(text))) && e.now < expiresAt then OK
                else Unauthenticated
  {
    hide RefreshTokens, RefreshCode, TrimSpace, Exec, Judge, SoleBearer, NoOrphans;
    RefreshDecision(p, db, text, e);
    SoleMatch(db.rows, Sha256(TrimSpace(text)), k, expiresAt, spent);
    BearerExpiry(db.rows, Sha256(TrimSpace(text)), k, expiresAt, spent);
  }

  lemma MatchIsSoleBearer(rows: Rows, hash: Digest, k: Key, spent: bool)
    requires NoOrphans(rows) && Matches(rows, hash) == {k}
    requires (spent && k in rows && rows[k].TokenRow? ==> rows[k].token.revokedAt.Some?)
    ensures k in rows && rows[k].TokenRow? && SoleBearer(rows, hash, k, rows[k].token.expiresAt, spent)
  {
    hide NoOrphans;
    assert k in Matches(rows, hash);
    forall j | j in rows && rows[j].TokenRow? && rows[j].token.tokenHash == hash ensures j == k {
      HasParent(rows, j);
      assert j in Matches(rows, hash);
    }
  }

  /**
    Right after a Refresh answered OK, both tokens have a sole bearer: the old one spent, the new
    one with its own expiry.
   */
  lemma RefreshLeavesBearers(p: Platform, db: Database, refreshToken: string, e: Env)
    requires e.token.Some? && Admissible(db.rows, Rotation(p, refreshToken, e.token.value, e))
    requires DistinctDigests(db.rows)
    requires forall k :: k in db.rows && db.rows[k].TokenRow? ==> db.rows[k].token.tokenHash != Sha256(e.token.value)
    requires RefreshCode(RefreshTokens(p, db, refreshToken, e).result) == OK
    requires NoOrphans(RefreshTokens(p, db, refreshToken, e).db.rows)
    ensures var after := RefreshTokens(p, db, refreshToken, e).db.rows;
            && e.pick in after && after[e.pick].TokenRow?
            && SoleBearer(after, Sha256(TrimSpace(refreshToken)), e.pick, after[e.pick].token.expiresAt, true)
            && SoleBearer(after, Sha256(e.token.value), TokenKey(e.id), e.now + p.refreshTokenTtl, false)
  {
    hide RefreshTokens, RefreshCode, TrimSpace, Admissible, Matches, SoleBearer, NoOrphans, DistinctDigests;
    RefreshReplaces(p, db, refreshToken, e);
    var after := RefreshTokens(p, db, refreshToken, e).db.rows;
    MatchIsSoleBearer(after, Sha256(TrimSpace(refreshToken)), e.pick, true);
    MatchIsSoleBearer(after, Sha256(e.token.value), TokenKey(e.id), false);
  }

  /** A service run that goes on from a database and draws neither token again. */
  ghost predicate GoesOn(p: Platform, db: Database, states: seq<Database>, cases: seq<UseCase>, oldText: string,
                         newText: string) {
    IsServiceRun(p, states, cases) && states[0] == db && NeverDrawn(cases, oldText) && NeverDrawn(cases, newText)
  }

  /** Nothing fails on the way of a Refresh. */
  ghost predicate Smoothly(p: Platform, db: Database, text: string, e: Env) {
    e.token.Some? && Admissible(db.rows, Rotation(p, text, e.token.value, e)) && Healthy(db.rows, e)
  }

  lemma SpentIsNotLive(rows: Rows, hash: Digest, k: Key, expiresAt: Time)
    requires SoleBearer(rows, hash, k, expiresAt, true)
    ensures !LiveAt(rows, k, hash)
  {
  }

  /** A Refresh that draws a new token and hands out a pair. */
  ghost predicate Refreshed(p: Platform, db: Database, refreshToken: string, e: Env, after: Database, pair: TokenPair) {
    && EnvOk(e) && e.token.Some? && Admissible(db.rows, Rotation(p, refreshToken, e.token.value, e))
    && CrossTable(db.rows) && DistinctDigests(db.rows)
    && (forall k :: k in db.rows && db.rows[k].TokenRow? ==> db.rows[k].token.tokenHash != Sha256(e.token.value))
    && Trimmed(e.token.value) && e.token.value != ""
    && RefreshTokens(p, db, refreshToken, e) == Ret(after, Ok(pair))
  }

  lemma RefreshedLeavesBearers(p: Platform, db: Database, refreshToken: string, e: Env, after: Database,
                               pair: TokenPair)
    requires Refreshed(p, db, refreshToken, e, after, pair)
    ensures CrossTable(after.rows) && e.pick in after.rows && after.rows[e.pick].TokenRow?
    ensures SoleBearer(after.rows, Sha256(TrimSpace(refreshToken)), e.pick, after.rows[e.pick].token.expiresAt, true)
    ensures SoleBearer(after.rows, Sha256(e.token.value), TokenKey(e.id), e.now + p.refreshTokenTtl, false)
    ensures TrimSpace(e.token.value) == e.token.value && !Blank(e.token.value)
  {
    hide RefreshTokens, Exec, Judge, CrossTable, SoleBearer, NoOrphans, DistinctDigests;
    UseCaseKeepsCrossTable(p, db, Refresh(refreshToken, e));
    CrossTableMeans(after.rows);
    RefreshLeavesBearers(p, db, refreshToken, e);
  }

  /** The pair handed out holds the token just drawn. */
  lemma HandsOutDrawnToken(p: Platform, db: Database, refreshToken: string, e: Env, after: Database, pair: TokenPair)
    requires Refreshed(p, db, refreshToken, e, after, pair)
    ensures pair.refreshToken == e.token.value
  {
    hide Rotated, CrossTable, DistinctDigests, TrimSpace, Admissible;
  }

  /**
    The session moves from one token to the next. After a Refresh answered OK, and whatever the
    service has done since, the old token is refused without effect; the one the client was given is
    accepted exactly while its row has not been redeemed or removed, until it expires.
   */
  lemma RefreshHandsOver(p: Platform, db: Database, refreshToken: string, e: Env, after: Database, pair: TokenPair,
                         states: seq<Database>, cases: seq<UseCase>, end: Database, again: Env, next: Env)
    requires Refreshed(p, db, refreshToken, e, after, pair)
    requires GoesOn(p, after, states, cases, TrimSpace(refreshToken), pair.refreshToken) && end == states[|cases|]
    requires Smoothly(p, end, refreshToken, again) && Smoothly(p, end, pair.refreshToken, next)
    ensures RefreshCode(RefreshTokens(p, end, refreshToken, again).result) == Unauthenticated
    ensures RefreshTokens(p, end, refreshToken, again).db == end
    ensures RefreshCode(RefreshTokens(p, end, pair.refreshToken, next).result) == OK <==>
            LiveAt(end.rows, TokenKey(e.id), Sha256(pair.refreshToken)) && next.now < e.now + p.refreshTokenTtl
  {
    hide RefreshTokens, RefreshCode, TrimSpace, Exec, Judge, CrossTable, SoleBearer, Healthy, NoOrphans, LiveAt,
        Admissible;
    var n := |cases|;
    var oldText, newText, k := TrimSpace(refreshToken), pair.refreshToken, TokenKey(e.id);
    HandsOutDrawnToken(p, db, refreshToken, e, after, pair);
    RefreshedLeavesBearers(p, db, refreshToken, e, after, pair);
    var oldExpiry, expiry := after.rows[e.pick].token.expiresAt, e.now + p.refreshTokenTtl;
    RunKeepsSoleBearer(p, states, cases, n, oldText, e.pick, oldExpiry, true);
    RunKeepsSoleBearer(p, states, cases, n, newText, k, expiry, false);
    CrossTableAlways(p, states, cases, n);
    CrossTableMeans(end.rows);
    SoleBearerDecision(p, end, refreshToken, e.pick, oldExpiry, true, again);
    SpentIsNotLive(end.rows, Sha256(oldText), e.pick, oldExpiry);
    RefreshAnswersTellEffect(p, end, refreshToken, again);
    SoleBearerDecision(p, end, newText, k, expiry, false, next);
  }
}
