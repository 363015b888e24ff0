/** One concrete run from the empty store: user 1 registers, is given a code, and verifies with it. */
module FirstUser {
  import opened Wrappers
  import opened Tables
  import opened Statements
  import opened RepositoryRuns
  import opened ServiceRuns

  const USER: Uuid := 1
  const CODE_ID: Uuid := 2
  const CODE: Digest := Sha256("123456")

  const REGISTER := CreateCredential(Some(USER), "first@example.com", "first", "hash", 1, Clean)
  const HAND_OUT := CreateCode(CODE_ID, Some(USER), CODE, 100, 2, Clean)
  const VERIFY := VerifyEmail(Some(USER), CODE, 3, [CodeKey(CODE_ID), CredentialKey(USER)], 6, Clean)

  const FIRST_RUN := [REGISTER, HAND_OUT, VERIFY]

  lemma Registers()
    ensures Admissible(EMPTY.rows, REGISTER) && Judge(EMPTY.rows, REGISTER).Allow? && Vouched(EMPTY.rows, REGISTER)
    ensures After(EMPTY.rows, REGISTER) == map[CredentialKey(USER) := After(EMPTY.rows, REGISTER)[CredentialKey(USER)]]
    ensures HasCredential(After(EMPTY.rows, REGISTER), USER)
  {
  }

  lemma IsHandedCode(rows: Rows)
    requires rows.Keys == {CredentialKey(USER)}
    ensures Admissible(rows, HAND_OUT) && Judge(rows, HAND_OUT).Allow? && Vouched(rows, HAND_OUT)
    ensures After(rows, HAND_OUT).Keys == {CredentialKey(USER), CodeKey(CODE_ID)}
    ensures After(rows, HAND_OUT)[CodeKey(CODE_ID)] == CodeRow(Tables.Code(CODE_ID, USER, CODE, 100, None, 2))
  {
    assert KeyOf(rows[CredentialKey(USER)]) == CredentialKey(USER);
  }

  lemma Verifies(rows: Rows)
    requires rows.Keys == {CredentialKey(USER), CodeKey(CODE_ID)}
    requires rows[CodeKey(CODE_ID)] == CodeRow(Tables.Code(CODE_ID, USER, CODE, 100, None, 2))
    ensures Admissible(rows, VERIFY) && Judge(rows, VERIFY).Allow? && Vouched(rows, VERIFY)
    ensures IsVerified(After(rows, VERIFY), USER)
    ensures After(rows, VERIFY).Keys == rows.Keys && forall k :: k in After(rows, VERIFY) ==>
          UserOf(After(rows, VERIFY)[k]) == USER
  {
    assert UsableCodes(rows, USER, CODE, 3) == {CodeKey(CODE_ID)};
    assert Verified(rows, USER, CODE, 3) == {CodeKey(CODE_ID), CredentialKey(USER)};
    CredentialAfter(rows, VERIFY, USER);
  }

  lemma EmptyIsMirrored()
    ensures Mirrored(EMPTY)
  {
  }

  lemma StampsOf(db: Database, call: Call)
    requires Admissible(db.rows, call)
    ensures forall e :: e in Appended(db, call) ==> e.occurredAt == call.at
  {
    hide Judge, EffectOf, OrderOf, Admissible;
  }

  /** The run exists, every call of it commits, and it leaves a verified user and consistent tables. */
  lemma FirstUserVerifies() returns (states: seq<Database>)
    ensures |states| == 4 && states[0] == EMPTY && IsRun(states, FIRST_RUN)
    ensures Admissible(states[0].rows, REGISTER) && Exec(states[0], REGISTER).committed
    ensures Admissible(states[1].rows, HAND_OUT) && Exec(states[1], HAND_OUT).committed
    ensures Admissible(states[2].rows, VERIFY) && Exec(states[2], VERIFY).committed
    ensures HasCredential(states[2].rows, USER)
    ensures Judge(states[2].rows, VERIFY).Allow? && states[3] == Exec(states[2], VERIFY).db
    ensures CrossTable(states[3].rows) && IsVerified(states[3].rows, USER)
    ensures states[3].rows.Keys == {CredentialKey(USER), CodeKey(CODE_ID)} && forall k :: k in states[3].rows ==>
          UserOf(states[3].rows[k]) == USER
    ensures Mirrored(states[2]) && forall e :: e in states[2].outbox ==> e.occurredAt <= 2
  {
    hide Judge, EffectOf, OrderOf, CrossTable, Mirrored, Vouched, Exec;
    Registers();
    var s1 := Exec(EMPTY, REGISTER).db;
    CommittedCall(EMPTY, REGISTER);
    IsHandedCode(s1.rows);
    var s2 := Exec(s1, HAND_OUT).db;
    CommittedCall(s1, HAND_OUT);
    Verifies(s2.rows);
    var s3 := Exec(s2, VERIFY).db;
    CommittedCall(s2, VERIFY);
    states := [EMPTY, s1, s2, s3];
    assert StepsTo(EMPTY, REGISTER, s1) && StepsTo(s1, HAND_OUT, s2) && StepsTo(s2, VERIFY, s3);
    EmptyIsConsistent();
    CallKeepsCrossTable(EMPTY, REGISTER);
    CallKeepsCrossTable(s1, HAND_OUT);
    CallKeepsCrossTable(s2, VERIFY);
    EmptyIsMirrored();
    CallKeepsMirrored(EMPTY, REGISTER);
    CallKeepsMirrored(s1, HAND_OUT);
    StampsOf(EMPTY, REGISTER);
    StampsOf(s1, HAND_OUT);
  }
}
