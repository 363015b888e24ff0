/** From the mail to the verified user: the code a registration hands out works, once, and in time. */
module MailedCode {
  import opened Wrappers
  import opened Text
  import opened Tables
  import opened Errors
  import opened Statements
  import opened RepositoryRuns
  import opened Service
  import opened ServiceRuns
  import opened Saga

  /** An unused code of the user with the given digest and expiry. */
  predicate Waits(rows: Rows, k: Key, u: Uuid, hash: Digest, expiresAt: Time) {
    k in rows && rows[k].CodeRow? && rows[k].code.userId == u && rows[k].code.tokenHash == hash
    && rows[k].code.expiresAt == expiresAt && rows[k].code.usedAt.None?
  }

  /** Not deleted and not verified yet. */
  predicate Unverified(rows: Rows, u: Uuid) {
    HasCredential(rows, u) && !IsVerified(rows, u)
  }

  lemma CallKeepsWaiting(db: Database, call: Call, k: Key, u: Uuid, hash: Digest, expiresAt: Time)
    requires Admissible(db.rows, call) && Unverified(db.rows, u) && Waits(db.rows, k, u, hash, expiresAt)
    requires Unverified(Exec(db, call).db.rows, u)
    ensures Waits(Exec(db, call).db.rows, k, u, hash, expiresAt)
  {
    hide Judge, EffectOf, OrderOf;
    CommittedCall(db, call);
    if Judge(db.rows, call).Allow? {
      assert KeyOf(db.rows[k]) == k;
      CredentialAfter(db.rows, call, u);
      CodeAfter(db.rows, call, k);
    }
  }

  lemma CreationLeavesUnverified(db: Database, a: Call, u: Uuid)
    requires a.CreateCredential? && Unverified(db.rows, u)
    ensures Unverified(Exec(db, a).db.rows, u)
  {
    hide EffectOf, OrderOf;
    CommittedCall(db, a);
    if Judge(db.rows, a).Allow? {
      CredentialAfter(db.rows, a, u);
    }
  }

  lemma UseCaseKeepsWaiting(p: Platform, db: Database, c: UseCase, k: Key, u: Uuid, hash: Digest, expiresAt: Time)
    requires Possible(p, db.rows, c) && NoOrphans(db.rows) && Unverified(db.rows, u)
    requires Waits(db.rows, k, u, hash, expiresAt)
    requires Unverified(Serve(p, db, c).rows, u)
    ensures Waits(Serve(p, db, c).rows, k, u, hash, expiresAt)
  {
    hide Exec, Judge, Serve, Waits, NoOrphans;
    UseCaseIsShort(p, db, c);
    var t := Serve(p, db, c);
    if t != db {
      if call :| VouchedStep(db, call, t) && !call.CreateCode? {
        CallKeepsWaiting(db, call, k, u, hash, expiresAt);
      } else {
        var a: Call, b: Call :| a.CreateCredential? && b.CreateCode? && a.user == b.user
          && StepsTo(db, a, Exec(db, a).db) && Exec(db, a).committed && VouchedStep(Exec(db, a).db, b, t);
        CreatedIsOther(db, a, u);
        CreationLeavesUnverified(db, a, u);
        CallKeepsWaiting(db, a, k, u, hash, expiresAt);
        CallKeepsWaiting(Exec(db, a).db, b, k, u, hash, expiresAt);
      }
    }
  }

  lemma {:induction false} WaitsThroughRun(p: Platform, states: seq<Database>, cases: seq<UseCase>, n: nat, k: Key,
                                           u: Uuid, hash: Digest, expiresAt: Time)
    requires IsServiceRun(p, states, cases) && CrossTable(states[0].rows) && n <= |cases|
    requires forall i :: 0 <= i <= n ==> Unverified(states[i].rows, u)
    requires Waits(states[0].rows, k, u, hash, expiresAt)
    ensures Waits(states[n].rows, k, u, hash, expiresAt)
  {
    hide Serve, Possible, Waits, Unverified, CrossTable;
    if n > 0 {
      WaitsThroughRun(p, states, cases, n - 1, k, u, hash, expiresAt);
      assert Serves(p, states[n - 1], cases[n - 1], states[n]);
      CrossTableAlways(p, states, cases, n - 1);
      CrossTableMeans(states[n - 1].rows);
      UseCaseKeepsWaiting(p, states[n - 1], cases[n - 1], k, u, hash, expiresAt);
    }
  }

  /** A creation that answers with a credential is committed, and answers with what it stored. */
  lemma CreationVerdict(db: Database, a: Call)
    requires a.CreateCredential? && Exec(db, a).reply.Accepted?
    ensures Exec(db, a).committed && a.user.Some? && !HasCredential(db.rows, a.user.value)
    ensures Exec(db, a).reply.credential.userId == a.user.value
  {
  }

  lemma CreationLeavesNewUser(db: Database, a: Call)
    requires a.CreateCredential? && Exec(db, a).reply.Accepted?
    ensures a.user.Some? && Unverified(Exec(db, a).db.rows, a.user.value)
  {
    hide Judge, EffectOf, OrderOf;
    CreationVerdict(db, a);
    CommittedCall(db, a);
    CredentialAfter(db.rows, a, a.user.value);
  }

  lemma CodeIsStored(rows: Rows, b: Call)
    requires b.CreateCode? && Admissible(rows, b) && Judge(rows, b).Allow?
    ensures b.user.Some? && Waits(After(rows, b), CodeKey(b.id), b.user.value, b.hash, b.expiresAt)
  {
  }

  lemma CodeCreationLeavesCode(db: Database, b: Call, u: Uuid)
    requires b.CreateCode? && b.user == Some(u) && !Exec(db, b).reply.Rejected? && Unverified(db.rows, u)
    ensures Unverified(Exec(db, b).db.rows, u)
    ensures Waits(Exec(db, b).db.rows, CodeKey(b.id), u, b.hash, b.expiresAt)
  {
    hide Judge, EffectOf, OrderOf, Waits;
    CommittedCall(db, b);
    CredentialAfter(db.rows, b, u);
    CodeIsStored(db.rows, b);
  }

  /** A registration that succeeds leaves the code it hands out waiting, for ten minutes from its own clock. */
  lemma RegistrationLeavesCode(p: Platform, db: Database, c: CreateCommand, e: Env)
    requires EnvOk(e)
    requires var r := RegisterPending(p, db, c.userId, c.email, c.username, c.passwordHash, e); r.result.Ok?
    ensures var r := RegisterPending(p, db, c.userId, c.email, c.username, c.passwordHash, e);
            && p.parseUuid(c.userId) == Some(r.result.value.userId)
            && Trimmed(r.result.value.code) && !Blank(r.result.value.code)
            && Unverified(r.db.rows, r.result.value.userId)
            && Waits(r.db.rows, CodeKey(e.id), r.result.value.userId, Sha256(r.result.value.code), e.now + TEN_MINUTES)
  {
    hide Exec, Judge, EffectOf, OrderOf, GenerateCode, Unverified, Waits;
    var a := Creation(p, c.userId, c.email, c.username, c.passwordHash, e);
    CreationVerdict(db, a);
    CreationLeavesNewUser(db, a);
    var code := GenerateCode(p.fixedCode, e.entropy);
    CodeCreationLeavesCode(Exec(db, a).db, CodeCreation(p, c.userId, code.value, e), a.user.value);
  }

  /** The environment lets the call through and adds no failure of its own. */
  predicate Smooth(e: Env) {
    e.wire == Clean && e.rolesWire == None
  }

  lemma OnlyUsableCode(rows: Rows, k: Key, u: Uuid, hash: Digest, expiresAt: Time, now: Time)
    requires OneCodePerUser(rows) && Waits(rows, k, u, hash, expiresAt)
    ensures UsableCodes(rows, u, hash, now) == if now < expiresAt then {k} else {}
  {
  }

  lemma VerificationVerdict(rows: Rows, call: Call, u: Uuid)
    requires call.VerifyEmail? && call.user == Some(u) && call.wire == Clean && HasCredential(rows, u)
    requires Admissible(rows, call)
    ensures Judge(rows, call) == if UsableCodes(rows, u, call.hash, call.now) == {} then Refuse(InvalidVerificationCode)
                                 else Allow(Accepted(VerifiedCredential(CredentialOf(rows, u), call.at)))
  {
  }

  /** Presenting a waiting code verifies the user exactly when the code has not expired. */
  lemma WaitingCodeVerifies(p: Platform, db: Database, userId: string, code: string, e: Env, k: Key, u: Uuid,
                            expiresAt: Time)
    requires CrossTable(db.rows) && HasCredential(db.rows, u) && Waits(db.rows, k, u, Sha256(code), expiresAt)
    requires p.parseUuid(userId) == Some(u) && Trimmed(userId) && !Blank(userId) && Trimmed(code) && !Blank(code)
    requires Smooth(e) && Admissible(db.rows, Verification(p, userId, code, e))
    ensures var r := ConfirmEmail(p, db, userId, code, e);
            if e.now < expiresAt then
              r.result.Ok? && r.result.value.credential.userId == u && IsVerified(r.db.rows, u)
            else r == Ret(db, Err(InvalidVerificationCode))
  {
    hide Judge, EffectOf, OrderOf, Integrity, TokensNeedUsedCode, Admissible;
    var call := Verification(p, userId, code, e);
    OnlyUsableCode(db.rows, k, u, Sha256(code), expiresAt, e.now);
    VerificationVerdict(db.rows, call, u);
    CommittedCall(db, call);
    if e.now < expiresAt {
      CredentialAfter(db.rows, call, u);
    }
  }

  /** A user without unused codes cannot be verified: every code is invalid, and nothing changes. */
  lemma UsedUpCodesAreRefused(p: Platform, db: Database, userId: string, code: string, e: Env, u: Uuid)
    requires CodesUsedUp(db.rows, u) && p.parseUuid(userId) == Some(u) && Trimmed(userId) && !Blank(userId)
    requires Smooth(e) && Admissible(db.rows, Verification(p, userId, code, e))
    ensures ConfirmEmail(p, db, userId, code, e) == Ret(db, Err(InvalidVerificationCode))
  {
    var call := Verification(p, userId, code, e);
    CommittedCall(db, call);
    assert UsableCodes(db.rows, u, call.hash, e.now) == {};
  }

  /** A run of use cases throughout which the user exists. */
  ghost predicate LivesOn(p: Platform, db: Database, states: seq<Database>, cases: seq<UseCase>, u: Uuid) {
    IsServiceRun(p, states, cases) && states[0] == db && forall i :: 0 <= i <= |cases| ==>
      HasCredential(states[i].rows, u)
  }

  lemma UnverifiedMeans(rows: Rows, u: Uuid)
    requires Unverified(rows, u)
    ensures HasCredential(rows, u)
  {
  }

  lemma ConfirmationKeepsCrossTable(p: Platform, db: Database, userId: string, code: string, e: Env)
    requires CrossTable(db.rows) && Admissible(db.rows, Verification(p, userId, code, e))
    ensures CrossTable(ConfirmEmail(p, db, userId, code, e).db.rows)
  {
    hide CrossTable, Admissible;
    var e' := e.(entropy := None);
    assert Possible(p, db.rows, Confirm(userId, code, e'));
    UseCaseKeepsCrossTable(p, db, Confirm(userId, code, e'));
  }

  lemma MailComesFromRegistration(p: Platform, w: World, command: CreateCommand, e: Env, mailOk: bool,
                                  mail: Publication)
    requires EnvOk(e) && mail.MailCode?
    requires CreateHandled(p, w, Some(command), e, true, mailOk).world.attempted[|w.attempted|..]
             == [CreateSucceeded(command, mail.to, mail.code), mail]
    ensures var r := RegisterPending(p, w.db, command.userId, command.email, command.username, command.passwordHash, e);
            && r.result.Ok? && r.result.value.code == mail.code
            && CreateHandled(p, w, Some(command), e, true, mailOk).world.db == r.db
  {
    hide RegisterPending;
    var added := CreateHandled(p, w, Some(command), e, true, mailOk).world.attempted[|w.attempted|..];
    assert added[1] == mail;
  }

  lemma UserIdIsNotBlank(p: Platform, db: Database, command: CreateCommand, e: Env)
    requires EnvOk(e) && Trimmed(command.userId)
    requires RegisterPending(p, db, command.userId, command.email, command.username, command.passwordHash, e).result.Ok?
    ensures !Blank(command.userId)
  {
  }

  /**
    End to end. A handler that mails a code has registered the user. Whatever the service does
    then, as long as it neither deletes nor verifies the user, the mailed code verifies the user at
    any time strictly before ten minutes have passed, and at no later time. Presented again, after
    whatever else the service has done for a user that still exists, it is invalid.
   */
  lemma MailedCodeVerifiesOnce(p: Platform, w: World, command: CreateCommand, e: Env, mailOk: bool,
                               states: seq<Database>, cases: seq<UseCase>, mail: Publication, e2: Env,
                               later: seq<Database>, more: seq<UseCase>, e3: Env, u: Uuid)
    requires EnvOk(e) && CrossTable(w.db.rows) && mail.MailCode? && mail.command == command
    requires CreateHandled(p, w, Some(command), e, true, mailOk).world.attempted[|w.attempted|..]
             == [CreateSucceeded(command, mail.to, mail.code), mail]
    requires Trimmed(command.userId) && p.parseUuid(command.userId) == Some(u)
    requires IsServiceRun(p, states, cases) && states[0] == CreateHandled(p, w, Some(command), e, true, mailOk).world.db
    requires forall i :: 0 <= i <= |cases| ==> Unverified(states[i].rows, u)
    requires Smooth(e2) && Admissible(states[|cases|].rows, Verification(p, command.userId, mail.code, e2))
    ensures var first := ConfirmEmail(p, states[|cases|], command.userId, mail.code, e2);
            && (first.result.Ok? <==> e2.now < e.now + TEN_MINUTES)
            && (first.result.Ok? ==> IsVerified(first.db.rows, u))
            && (first.result.Err? ==> first == Ret(states[|cases|], Err(InvalidVerificationCode)))
            && (first.result.Ok? && LivesOn(p, first.db, later, more, u) && Smooth(e3)
                && Admissible(later[|more|].rows, Verification(p, command.userId, mail.code, e3)) ==>
                  ConfirmEmail(p, later[|more|], command.userId, mail.code, e3)
                  == Ret(later[|more|], Err(InvalidVerificationCode)))
  {
    hide Exec, RegisterPending, ConfirmEmail, Serve, Possible, CrossTable, Unverified, Waits, Admissible, GenerateCode;
    MailComesFromRegistration(p, w, command, e, mailOk, mail);
    RegistrationLeavesCode(p, w.db, command, e);
    DeliveryKeepsCrossTable(p, w, ToCreate(Some(command), e, true, mailOk));
    UserIdIsNotBlank(p, w.db, command, e);
    var n := |cases|;
    var hash, expiresAt := Sha256(mail.code), e.now + TEN_MINUTES;
    WaitsThroughRun(p, states, cases, n, CodeKey(e.id), u, hash, expiresAt);
    CrossTableAlways(p, states, cases, n);
    UnverifiedMeans(states[n].rows, u);
    WaitingCodeVerifies(p, states[n], command.userId, mail.code, e2, CodeKey(e.id), u, expiresAt);
    var first := ConfirmEmail(p, states[n], command.userId, mail.code, e2);
    if first.result.Ok? && LivesOn(p, first.db, later, more, u) && Smooth(e3)
       && Admissible(later[|more|].rows, Verification(p, command.userId, mail.code, e3)) {
      ConfirmationKeepsCrossTable(p, states[n], command.userId, mail.code, e2);
      VerifiedHasUsedUp(first.db.rows, u);
      CodesStayUsedUp(p, later, more, u, 0, |more|);
      UsedUpCodesAreRefused(p, later[|more|], command.userId, mail.code, e3, u);
    }
  }
}
