/** What the cross-table invariant owes to use cases running as a whole. */
module Interleavings {
  import opened Wrappers
  import opened Tables
  import opened Statements
  import opened RepositoryRuns
  import opened TokenRuns
  import opened ServiceRuns
  import opened FirstUser

  lemma StoredTokenIsLive(rows: Rows, call: Call)
    requires call.CreateToken? && Admissible(rows, call) && Judge(rows, call).Allow?
    ensures var k, after := TokenKey(call.id), After(rows, call);
            call.user.Some? && k in after && after[k].TokenRow? && after[k].token.userId == call.user.value
                && after[k].token.revokedAt.None?
  {
    TokenAfter(rows, call, TokenKey(call.id));
  }

  lemma CodesUntouched(rows: Rows, call: Call, u: Uuid)
    requires call.CreateToken? && Admissible(rows, call) && Judge(rows, call).Allow?
    requires HasUsedCode(After(rows, call), u)
    ensures HasUsedCode(rows, u)
  {
    hide Judge, EffectOf;
    var k :| k in After(rows, call) && After(rows, call)[k].CodeRow? && After(rows, call)[k].code.userId == u
        && After(rows, call)[k].code.usedAt.Some?;
    assert KeyOf(After(rows, call)[k]) == k;
    CodeAfter(rows, call, k);
    OwnerAfter(rows, call, k);
  }

  /** Storing a refresh token keeps "a token means a used code" exactly when its user has one at that very moment. */
  lemma TokenCreationKeepsIff(rows: Rows, call: Call)
    requires call.CreateToken? && Admissible(rows, call) && Judge(rows, call).Allow? && TokensNeedUsedCode(rows)
    ensures call.user.Some? && (TokensNeedUsedCode(After(rows, call)) <==> HasUsedCode(rows, call.user.value))
  {
    hide Judge, EffectOf, HasUsedCode;
    StoredTokenIsLive(rows, call);
    var u := call.user.value;
    if HasUsedCode(rows, u) {
      CallKeepsUsedCodes(rows, call);
    } else if HasUsedCode(After(rows, call), u) {
      CodesUntouched(rows, call, u);
    }
  }

  lemma NewcomerHasUsedNoCode(rows: Rows, add: Call, u: Uuid)
    requires add.CreateCredential? && add.user == Some(u) && Judge(rows, add).Allow? && NoOrphans(rows)
    ensures HasCredential(After(rows, add), u) && !IsVerified(After(rows, add), u) && !HasUsedCode(After(rows, add), u)
  {
    hide Judge, EffectOf;
    CredentialAfter(rows, add, u);
    forall k | k in After(rows, add) && After(rows, add)[k].CodeRow? && After(rows, add)[k].code.userId == u
      ensures false
    {
      assert KeyOf(After(rows, add)[k]) == k;
      CodeAfter(rows, add, k);
      OwnerAfter(rows, add, k);
    }
  }

  /** A committed call. */
  ghost predicate CommitsTo(s: Database, call: Call, t: Database) {
    Admissible(s.rows, call) && Exec(s, call).committed && t == Exec(s, call).db
  }

  lemma StaysUnverified(rows: Rows, store: Call, u: Uuid)
    requires store.CreateToken? && Judge(rows, store).Allow? && !IsVerified(rows, u)
    ensures !IsVerified(After(rows, store), u)
  {
    hide Judge, EffectOf;
    CredentialAfter(rows, store, u);
  }

  /**
    Issuing tokens reads the credential and stores the token in two statements. When the user is
    deleted and created again in between, the token the issue then stores belongs to a credential
    that is not verified and has used no code: the invariant of whole use cases does not survive
    interleaving them.
   */
  lemma StaleIssueLeavesToken(db: Database, remove: Call, removed: Database, add: Call, added: Database, store: Call,
                              stored: Database, u: Uuid)
    requires CrossTable(db.rows) && IsVerified(db.rows, u)
    requires remove.DeleteUser? && remove.user == Some(u) && CommitsTo(db, remove, removed)
    requires add.CreateCredential? && add.user == Some(u) && CommitsTo(removed, add, added)
    requires store.CreateToken? && store.user == Some(u) && CommitsTo(added, store, stored)
    ensures !IsVerified(stored.rows, u) && TokenKey(store.id) in LiveTokens(stored.rows, u)
    ensures Integrity(stored.rows) && !TokensNeedUsedCode(stored.rows)
  {
    hide Judge, EffectOf, OrderOf, Exec, Integrity, TokensNeedUsedCode, HasUsedCode, IsVerified;
    CallKeepsCrossTable(db, remove);
    CallKeepsCrossTable(removed, add);
    CrossTableMeans(removed.rows);
    CommittedCall(db, remove);
    CommittedCall(removed, add);
    CommittedCall(added, store);
    NewcomerHasUsedNoCode(removed.rows, add, u);
    TokenCreationKeepsIff(added.rows, store);
    StoredTokenIsLive(added.rows, store);
    CallKeepsIntegrity(added, store);
    StaysUnverified(added.rows, store, u);
  }

  // ---- the race happens ----

  const REMOVE := DeleteUser(Some(USER), [CodeKey(CODE_ID), CredentialKey(USER)], 7, Clean)
  const ADD_AGAIN := CreateCredential(Some(USER), "first@example.com", "first", "hash", 8, Clean)
  const STORE := CreateToken(3, Some(USER), Sha256("token"), 100, 9, Clean)

  lemma Removes(rows: Rows)
    requires rows.Keys == {CredentialKey(USER), CodeKey(CODE_ID)} && forall k :: k in rows ==> UserOf(rows[k]) == USER
    ensures Admissible(rows, REMOVE) && Judge(rows, REMOVE).Allow? && After(rows, REMOVE) == map[]
  {
    assert Slice(rows, USER) == rows;
  }

  lemma AddsAgain(rows: Rows)
    requires rows == map[]
    ensures Admissible(rows, ADD_AGAIN) && Judge(rows, ADD_AGAIN).Allow?
    ensures After(rows, ADD_AGAIN).Keys == {CredentialKey(USER)}
  {
  }

  lemma Stores(rows: Rows)
    requires rows.Keys == {CredentialKey(USER)}
    ensures Admissible(rows, STORE) && Judge(rows, STORE).Allow?
  {
  }

  lemma Commits(db: Database, call: Call) returns (after: Database)
    requires Admissible(db.rows, call) && Judge(db.rows, call).Allow?
    ensures CommitsTo(db, call, after) && after.rows == After(db.rows, call)
  {
    hide Judge, EffectOf, OrderOf, Admissible;
    CommittedCall(db, call);
    after := Exec(db, call).db;
  }

  /** One run from the empty store in which a token is issued to a user deleted and created again in between. */
  lemma StaleIssueHappens() returns (db: Database, removed: Database, added: Database, stored: Database)
    ensures CommitsTo(db, REMOVE, removed) && CommitsTo(removed, ADD_AGAIN, added) && CommitsTo(added, STORE, stored)
    ensures exists states :: IsRun(states, FIRST_RUN) && states[0] == EMPTY && states[3] == db
    ensures CrossTable(db.rows) && IsVerified(db.rows, USER) && !TokensNeedUsedCode(stored.rows)
  {
    hide Judge, EffectOf, OrderOf, Admissible, CommitsTo, CrossTable, IsVerified, TokensNeedUsedCode, After, IsRun;
    var states := FirstUserVerifies();
    db := states[3];
    Removes(db.rows);
    removed := Commits(db, REMOVE);
    AddsAgain(removed.rows);
    added := Commits(removed, ADD_AGAIN);
    Stores(added.rows);
    stored := Commits(added, STORE);
    StaleIssueLeavesToken(db, REMOVE, removed, ADD_AGAIN, added, STORE, stored, USER);
  }

  // ---- a registration that is overtaken ----

  lemma StoredCode(rows: Rows, call: Call)
    requires call.CreateCode? && Admissible(rows, call) && Judge(rows, call).Allow?
    ensures var k, after := CodeKey(call.id), After(rows, call);
            && call.user.Some? && k !in rows && k in after
            && after[k] == CodeRow(Code(call.id, call.user.value, call.hash, call.expiresAt, None, call.at))
  {
  }

  /** Storing a code keeps "at most one code per user" exactly when its user has none at that very moment. */
  lemma CodeCreationKeepsIff(rows: Rows, call: Call)
    requires call.CreateCode? && Admissible(rows, call) && Judge(rows, call).Allow? && OneCodePerUser(rows)
    ensures call.user.Some? && (OneCodePerUser(After(rows, call)) <==> NoCodes(rows, call.user.value))
  {
    hide Judge, EffectOf, OrderOf;
    var after := After(rows, call);
    StoredCode(rows, call);
    if NoCodes(rows, call.user.value) {
      CallKeepsOneCode(rows, call);
    } else {
      var k :| k in rows && rows[k].CodeRow? && rows[k].code.userId == call.user.value;
      assert KeyOf(rows[k]) == k;
      CodeAfter(rows, call, k);
      assert k in after && k != CodeKey(call.id);
    }
  }

  predicate Unused(rows: Rows, u: Uuid, k: Key) {
    k in rows && rows[k].CodeRow? && rows[k].code.userId == u && rows[k].code.usedAt.None?
  }

  /**
    Registration creates the credential and the code in two statements. When the user is deleted and
    registered again in between, the code the first registration then stores is a second one.
   */
  lemma StaleRegistrationLeavesTwoCodes(db: Database, first: Call, s1: Database, remove: Call, s2: Database,
                                        second: Call, s3: Database,
                                        code: Call, s4: Database, stale: Call, s5: Database, u: Uuid)
    requires CrossTable(db.rows)
    requires first.CreateCredential? && first.user == Some(u) && CommitsTo(db, first, s1)
    requires remove.DeleteUser? && remove.user == Some(u) && CommitsTo(s1, remove, s2)
    requires second.CreateCredential? && second.user == Some(u) && CommitsTo(s2, second, s3)
    requires code.CreateCode? && code.user == Some(u) && CommitsTo(s3, code, s4)
    requires stale.CreateCode? && stale.user == Some(u) && CommitsTo(s4, stale, s5)
    ensures Unused(s5.rows, u, CodeKey(code.id)) && Unused(s5.rows, u, CodeKey(stale.id)) && code.id != stale.id
    ensures Integrity(s5.rows) && !OneCodePerUser(s5.rows)
  {
    hide Judge, EffectOf, OrderOf, Exec, Integrity, TokensNeedUsedCode, OneCodePerUser;
    CallKeepsCrossTable(db, first);
    CallKeepsCrossTable(s1, remove);
    CallKeepsCrossTable(s2, second);
    CrossTableMeans(s2.rows);
    CommittedCall(s2, second);
    CommittedCall(s3, code);
    CommittedCall(s4, stale);
    NewUserHasNoCodes(s2, second);
    CallKeepsCrossTable(s3, code);
    StoredCode(s3.rows, code);
    StoredCode(s4.rows, stale);
    CodeAfter(s4.rows, stale, CodeKey(code.id));
    CodeCreationKeepsIff(s4.rows, stale);
    CallKeepsIntegrity(s4, stale);
  }

  // ---- that race happens ----

  const REMOVE_FRESH := DeleteUser(Some(USER), [CredentialKey(USER)], 7, Clean)
  const STALE := CreateCode(3, Some(USER), Sha256("654321"), 100, 9, Clean)

  const OVERTAKEN := [REGISTER, REMOVE_FRESH, ADD_AGAIN, HAND_OUT, STALE]

  lemma RemovesFresh(rows: Rows)
    requires rows.Keys == {CredentialKey(USER)}
    ensures Admissible(rows, REMOVE_FRESH) && Judge(rows, REMOVE_FRESH).Allow? && After(rows, REMOVE_FRESH) == map[]
  {
    assert KeyOf(rows[CredentialKey(USER)]) == CredentialKey(USER);
    assert Slice(rows, USER) == rows;
  }

  lemma StoresStaleCode(rows: Rows)
    requires rows.Keys == {CredentialKey(USER), CodeKey(CODE_ID)}
    ensures Admissible(rows, STALE) && Judge(rows, STALE).Allow?
  {
  }

  lemma CommitsAreRun(states: seq<Database>, calls: seq<Call>)
    requires |states| == |calls| + 1 && forall i :: 0 <= i < |calls| ==> CommitsTo(states[i], calls[i], states[i + 1])
    ensures IsRun(states, calls)
  {
    hide Exec, Admissible;
  }

  /** One run from the empty store in which a registration is overtaken and leaves two unused codes. */
  lemma StaleRegistrationHappens() returns (states: seq<Database>)
    ensures |states| == 6 && states[0] == EMPTY && IsRun(states, OVERTAKEN)
    ensures forall i :: 0 <= i < 5 ==> CommitsTo(states[i], OVERTAKEN[i], states[i + 1])
    ensures Unused(states[5].rows, USER, CodeKey(HAND_OUT.id)) && Unused(states[5].rows, USER, CodeKey(STALE.id))
    ensures !OneCodePerUser(states[5].rows)
  {
    hide Judge, EffectOf, OrderOf, Admissible, Exec, CrossTable, OneCodePerUser, After, CommitsTo, IsRun, Unused;
    Registers();
    var s1 := Commits(EMPTY, REGISTER);
    RemovesFresh(s1.rows);
    var s2 := Commits(s1, REMOVE_FRESH);
    AddsAgain(s2.rows);
    var s3 := Commits(s2, ADD_AGAIN);
    IsHandedCode(s3.rows);
    var s4 := Commits(s3, HAND_OUT);
    StoresStaleCode(s4.rows);
    var s5 := Commits(s4, STALE);
    states := [EMPTY, s1, s2, s3, s4, s5];
    CommitsAreRun(states, OVERTAKEN);
    EmptyIsConsistent();
    StaleRegistrationLeavesTwoCodes(EMPTY, REGISTER, s1, REMOVE_FRESH, s2, ADD_AGAIN, s3, HAND_OUT, s4, STALE, s5,
        USER);
  }

  // ---- the invariant over runs of single calls ----

  /** A call, if it takes effect, creates no second code, and stores no token for a user without a used code. */
  ghost predicate InOrder(s: Database, call: Call) {
    Admissible(s.rows, call) && (Exec(s, call).committed ==> Founded(s.rows, call))
  }

  lemma CallKeepsCrossTableIff(s: Database, call: Call)
    requires Admissible(s.rows, call) && CrossTable(s.rows)
    ensures CrossTable(Exec(s, call).db.rows) <==> InOrder(s, call)
  {
    hide Judge, EffectOf, OrderOf, Exec, OneCodePerUser, TokensNeedUsedCode, HasUsedCode, NoCodes, Integrity,
        Admissible;
    CommittedCall(s, call);
    CallKeepsIntegrity(s, call);
    if Judge(s.rows, call).Allow? {
      if call.CreateCode? { CodeCreationKeepsIff(s.rows, call); } else { CallKeepsOneCode(s.rows, call); }
      if call.CreateToken? { TokenCreationKeepsIff(s.rows, call); } else { CallKeepsUsedCodes(s.rows, call); }
    }
  }

  /**
    Over any run of single calls, of whatever use cases they are interleaved steps: the invariant
    holds at every moment if and only if every code was created for a user without codes, and every
    token stored for a user with a used one, at the moment of the write itself.
   */
  lemma {:induction false} CrossTableAlwaysIff(states: seq<Database>, calls: seq<Call>, n: nat)
    requires IsRun(states, calls) && n <= |calls| && CrossTable(states[0].rows)
    ensures (forall i :: 0 <= i <= n ==> CrossTable(states[i].rows))
        <==> (forall i :: 0 <= i < n ==> InOrder(states[i], calls[i]))
  {
    hide CrossTable, InOrder, Exec, Admissible;
    if n > 0 {
      CrossTableAlwaysIff(states, calls, n - 1);
      assert StepsTo(states[n - 1], calls[n - 1], states[n]);
      if CrossTable(states[n - 1].rows) { CallKeepsCrossTableIff(states[n - 1], calls[n - 1]); }
    }
  }

  // ---- what two codes allow ----

  lemma VerifiesIff(rows: Rows, call: Call, u: Uuid)
    requires call.VerifyEmail? && call.user == Some(u) && call.wire.Clean? && Admissible(rows, call)
    ensures Judge(rows, call).Allow? <==> UsableCodes(rows, u, call.hash, call.now) != {}
  {
  }

  /** Which codes are usable after a verification and a deactivation. */
  lemma UsableAfter(rows: Rows, verify: Call, mid: Rows, deactivate: Call, after: Rows, u: Uuid, hash: Digest,
                    now: Time, k: Key)
    requires verify.VerifyEmail? && verify.user == Some(u) && Admissible(rows, verify) && Judge(rows, verify).Allow?
    requires mid == After(rows, verify)
    requires deactivate.DeactivateUser? && Admissible(mid, deactivate) && Judge(mid, deactivate).Allow?
    requires after == After(mid, deactivate)
    ensures k in UsableCodes(after, u, hash, now) <==>
          k in UsableCodes(rows, u, hash, now) && k !in UsableCodes(rows, u, verify.hash, verify.now)
  {
    hide Judge, EffectOf, OrderOf, Admissible;
    if k in rows { assert KeyOf(rows[k]) == k; }
    if k in after { assert KeyOf(after[k]) == k; }
    if k.CodeKey? {
      CodeAfter(rows, verify, k);
      CodeAfter(mid, deactivate, k);
      if k in mid { assert KeyOf(mid[k]) == k; }
    }
  }

  /**
    When a user is verified with one code and deactivated, it can be verified again with another
    exactly if that names a code that was usable and that the first verification did not use up.
   */
  lemma SecondVerificationIff(db: Database, verify: Call, s1: Database, deactivate: Call, s2: Database, again: Call,
                              u: Uuid)
    requires verify.VerifyEmail? && verify.user == Some(u) && CommitsTo(db, verify, s1) && HasCredential(db.rows, u)
    requires deactivate.DeactivateUser? && deactivate.user == Some(u) && CommitsTo(s1, deactivate, s2)
    requires again.VerifyEmail? && again.user == Some(u) && again.wire.Clean? && Admissible(s2.rows, again)
    ensures IsVerified(s1.rows, u) && !IsVerified(s2.rows, u)
    ensures Exec(s2, again).committed <==>
              exists k :: k in UsableCodes(db.rows, u, again.hash, again.now)
                  && k !in UsableCodes(db.rows, u, verify.hash, verify.now)
    ensures Exec(s2, again).committed ==> IsVerified(Exec(s2, again).db.rows, u)
  {
    hide Judge, EffectOf, OrderOf, UsableCodes;
    CommittedCall(db, verify);
    CommittedCall(s1, deactivate);
    CommittedCall(s2, again);
    CredentialAfter(db.rows, verify, u);
    CredentialAfter(s1.rows, deactivate, u);
    VerifiesIff(s2.rows, again, u);
    forall k ensures k in UsableCodes(s2.rows, u, again.hash, again.now) <==>
      k in UsableCodes(db.rows, u, again.hash, again.now) && k !in UsableCodes(db.rows, u, verify.hash, verify.now)
    {
      UsableAfter(db.rows, verify, s1.rows, deactivate, s2.rows, u, again.hash, again.now, k);
    }
    if Judge(s2.rows, again).Allow? { CredentialAfter(s2.rows, again, u); }
  }
}
