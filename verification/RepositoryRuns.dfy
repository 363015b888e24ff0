/** What every run of repository calls keeps: integrity of the tables and completeness of the outbox. */
module RepositoryRuns {
  import opened Wrappers
  import opened Tables
  import opened Outbox
  import opened Statements

  const EMPTY := Database(map[], [])

  ghost predicate StepsTo(s: Database, call: Call, t: Database) {
    Admissible(s.rows, call) && t == Exec(s, call).db
  }

  ghost predicate IsRun(states: seq<Database>, calls: seq<Call>) {
    && |states| == |calls| + 1
    && forall i :: 0 <= i < |calls| ==> StepsTo(states[i], calls[i], states[i + 1])
  }

  lemma RunPrefix(states: seq<Database>, calls: seq<Call>, n: nat)
    requires IsRun(states, calls) && n <= |calls|
    ensures IsRun(states[..n + 1], calls[..n])
  {
  }

  lemma ExtendRun(states: seq<Database>, calls: seq<Call>, call: Call) returns (longer: seq<Database>)
    requires IsRun(states, calls) && Admissible(states[|calls|].rows, call)
    ensures longer == states + [Exec(states[|calls|], call).db] && IsRun(longer, calls + [call])
  {
    hide Exec, Admissible;
    longer := states + [Exec(states[|calls|], call).db];
    forall i | 0 <= i < |calls + [call]| ensures StepsTo(longer[i], (calls + [call])[i], longer[i + 1]) {
      if i < |calls| { assert StepsTo(states[i], calls[i], states[i + 1]); }
    }
  }

  /** The events a call appends. */
  function Appended(db: Database, call: Call): seq<Event>
    requires Admissible(db.rows, call)
  {
    match Judge(db.rows, call)
    case Refuse(_) => []
    case Allow(_) => Events(db.rows, EffectOf(db.rows, call), OrderOf(db.rows, call), call.at)
  }

  lemma CommittedCall(db: Database, call: Call)
    requires Admissible(db.rows, call)
    ensures Exec(db, call).db.outbox == db.outbox + Appended(db, call)
    ensures Exec(db, call).committed <==> Judge(db.rows, call).Allow?
    ensures !Exec(db, call).committed ==> Exec(db, call).db == db && Exec(db, call).reply.Rejected?
    ensures Exec(db, call).committed ==> Exec(db, call).db.rows == Overlay(db.rows, EffectOf(db.rows, call))
  {
  }

  // ---- the outbox is complete ----

  /** The log rebuilds the tables, and tells a possible history of every row. */
  predicate Mirrored(db: Database) {
    Replay(db.outbox) == db.rows && Coherent(db.outbox)
  }

  lemma CallKeepsMirrored(db: Database, call: Call)
    requires Admissible(db.rows, call) && Mirrored(db)
    ensures Mirrored(Exec(db, call).db)
  {
    CommittedCall(db, call);
    if Judge(db.rows, call).Allow? {
      EventsRebuildEffect(db.outbox, db.rows, EffectOf(db.rows, call), OrderOf(db.rows, call), call.at);
      EventsAreCoherent(db.outbox, db.rows, EffectOf(db.rows, call), OrderOf(db.rows, call), call.at);
    }
  }

  /** In every reachable state, replaying the outbox from nothing rebuilds all four tables. */
  lemma {:induction false} OutboxComplete(states: seq<Database>, calls: seq<Call>)
    requires IsRun(states, calls) && states[0] == EMPTY
    ensures Mirrored(states[|calls|])
  {
    if calls != [] {
      var n := |calls| - 1;
      RunPrefix(states, calls, n);
      OutboxComplete(states[..n + 1], calls[..n]);
      assert StepsTo(states[n], calls[n], states[n + 1]);
      CallKeepsMirrored(states[n], calls[n]);
    }
  }

  /** Partitioned by aggregate, the log still rebuilds each user's rows of every table. */
  lemma OutboxCompletePerUser(states: seq<Database>, calls: seq<Call>, u: Uuid)
    requires IsRun(states, calls) && states[0] == EMPTY
    ensures Replay(OfUser(states[|calls|].outbox, u)) == Slice(states[|calls|].rows, u)
  {
    OutboxComplete(states, calls);
    ReplayCommutesWithPartition(states[|calls|].outbox, u);
  }

  /** The events of one call share a timestamp, and replay to the same tables in whatever order they are read. */
  lemma CallEventsInAnyOrder(db: Database, call: Call, shuffled: seq<Event>)
    requires Admissible(db.rows, call) && Mirrored(db)
    requires multiset(shuffled) == multiset(Appended(db, call))
    ensures forall e :: e in shuffled ==> e.occurredAt == call.at
    ensures Replay(db.outbox + shuffled) == Exec(db, call).db.rows
  {
    hide Judge, EffectOf, OrderOf, Admissible;
    var batch := Appended(db, call);
    CommittedCall(db, call);
    CallKeepsMirrored(db, call);
    if Judge(db.rows, call).Allow? {
      EventsAreDistinct(db.rows, EffectOf(db.rows, call), OrderOf(db.rows, call), call.at);
    }
    BatchOrderIsIrrelevant(db.outbox, batch, shuffled);
    forall e | e in shuffled ensures e.occurredAt == call.at {
      assert e in multiset(batch);
    }
  }

  lemma DeleteMeans(db: Database, call: Call)
    requires call.DeleteUser? && Admissible(db.rows, call)
    ensures Judge(db.rows, call).Allow? <==>
          !call.wire.Broken? && call.user.Some? && HasCredential(db.rows, call.user.value)
    ensures Judge(db.rows, call).Allow? ==>
              && EffectOf(db.rows, call) == (map k | k in Slice(db.rows, call.user.value) :: None)
              && OrderOf(db.rows, call) == call.order && Enumerates(call.order, Slice(db.rows, call.user.value).Keys)
  {
  }

  lemma {:induction false} EnumerationLength(order: seq<Key>, keys: set<Key>)
    requires Enumerates(order, keys)
    ensures |order| == |keys|
  {
    if order != [] {
      var k := order[|order| - 1];
      var front := order[..|order| - 1];
      assert order == front + [k] && k !in front;
      EnumerationLength(front, keys - {k});
    } else {
      assert keys == {};
    }
  }

  /**
    A refused call appends nothing. A delete appends one event per row of the user: one for each
    cascaded child and one for the credential, each with the row as it was.
   */
  lemma DeleteCascades(db: Database, call: Call)
    requires call.DeleteUser? && Admissible(db.rows, call)
    ensures Exec(db, call).committed <==>
          !call.wire.Broken? && call.user.Some? && HasCredential(db.rows, call.user.value)
    ensures !Exec(db, call).committed ==> Appended(db, call) == []
    ensures Exec(db, call).committed ==>
              var u := call.user.value;
              && |Appended(db, call)| == |Slice(db.rows, u)|
              && (forall e :: e in Appended(db, call) ==>
                    e.operation == Deactivated && KeyOf(e.payload) in Slice(db.rows, u)
                        && e.payload == db.rows[KeyOf(e.payload)])
              && Exec(db, call).db.rows == map k | k in db.rows && UserOf(db.rows[k]) != u :: db.rows[k]
  {
    hide Judge, EffectOf, OrderOf, Admissible, Exec;
    DeleteMeans(db, call);
    CommittedCall(db, call);
    if Exec(db, call).committed {
      var slice := Slice(db.rows, call.user.value);
      assert EffectOf(db.rows, call).Keys == slice.Keys;
      EnumerationLength(call.order, slice.Keys);
      assert |slice.Keys| == |slice|;
    }
  }

  // ---- integrity of the tables ----

  predicate UniqueEmails(rows: Rows) {
    forall a, b ::
      a in rows && b in rows && rows[a].CredentialRow? && rows[b].CredentialRow?
          && rows[a].credential.email == rows[b].credential.email
      ==> a == b
  }

  predicate NoOrphans(rows: Rows) {
    forall k :: k in rows ==> HasCredential(rows, UserOf(rows[k]))
  }

  predicate IsVerified(rows: Rows, u: Uuid) {
    HasCredential(rows, u) && CredentialOf(rows, u).status == EmailVerified
  }

  predicate HasUsedCode(rows: Rows, u: Uuid) {
    exists k :: k in rows && rows[k].CodeRow? && rows[k].code.userId == u && rows[k].code.usedAt.Some?
  }

  predicate StatusAgrees(rows: Rows) {
    forall k :: k in rows && rows[k].CredentialRow? ==>
      (rows[k].credential.emailVerified <==> rows[k].credential.status == EmailVerified)
  }

  ghost predicate Integrity(rows: Rows) {
    && UniqueEmails(rows)
    && NoOrphans(rows)
    && StatusAgrees(rows)
    && forall u :: IsVerified(rows, u) ==> HasUsedCode(rows, u)
  }

  /** The rows after an allowed call. */
  function After(rows: Rows, call: Call): Rows
    requires Admissible(rows, call) && Judge(rows, call).Allow?
  {
    Overlay(rows, EffectOf(rows, call))
  }

  /** How an allowed call leaves one credential. */
  lemma CredentialAfter(rows: Rows, call: Call, u: Uuid)
    requires Admissible(rows, call) && Judge(rows, call).Allow?
    ensures HasCredential(After(rows, call), u) <==>
            (call.CreateCredential? && call.user == Some(u))
                || (HasCredential(rows, u) && !(call.DeleteUser? && call.user == Some(u)))
    ensures HasCredential(After(rows, call), u) ==>
              var c := CredentialOf(After(rows, call), u);
              if call.CreateCredential? && call.user == Some(u) then
                !HasCredential(rows, u) && c == NewCredential(u, call.email, call.username, call.passwordHash, call.at)
              else if call.VerifyEmail? && call.user == Some(u) then
                UsableCodes(rows, u, call.hash, call.now) != {}
                    && c == VerifiedCredential(CredentialOf(rows, u), call.at)
              else if call.DeactivateUser? && call.user == Some(u) then
                c == CredentialOf(rows, u).(emailVerified := false, status := RegistrationFailed, updatedAt := call.at)
              else c == CredentialOf(rows, u)
  {
  }

  /** How an allowed call leaves one verification code. */
  lemma CodeAfter(rows: Rows, call: Call, k: Key)
    requires Admissible(rows, call) && Judge(rows, call).Allow? && k.CodeKey?
    ensures k in rows && !(call.DeleteUser? && call.user == Some(UserOf(rows[k]))) ==>
              && k in After(rows, call) && rows[k].CodeRow?
              && After(rows, call)[k] ==
                 if call.VerifyEmail? && call.user.Some? && k in UsableCodes(rows, call.user.value, call.hash, call.now)
                 then CodeRow(rows[k].code.(usedAt := Some(call.at))) else rows[k]
    ensures k !in rows && k in After(rows, call) ==>
              && call.CreateCode? && call.user.Some?
              && After(rows, call)[k]
                 == CodeRow(Code(call.id, call.user.value, call.hash, call.expiresAt, None, call.at))
  {
    if k in rows { assert KeyOf(rows[k]) == k; }
  }

  /** An allowed call leaves each row with its user, and gives new rows only to users that have a credential. */
  lemma OwnerAfter(rows: Rows, call: Call, k: Key)
    requires Admissible(rows, call) && Judge(rows, call).Allow? && k in After(rows, call)
    ensures k in rows ==> UserOf(After(rows, call)[k]) == UserOf(rows[k])
    ensures k in rows ==> !(call.DeleteUser? && call.user == Some(UserOf(rows[k])))
    ensures k !in rows ==> !call.DeleteUser? && (k.CredentialKey? || HasCredential(rows, UserOf(After(rows, call)[k])))
  {
  }

  lemma UsedCodesStay(rows: Rows, call: Call, u: Uuid)
    requires Admissible(rows, call) && Judge(rows, call).Allow?
    requires HasUsedCode(rows, u) && !(call.DeleteUser? && call.user == Some(u))
    ensures HasUsedCode(After(rows, call), u)
  {
    var k :| k in rows && rows[k].CodeRow? && rows[k].code.userId == u && rows[k].code.usedAt.Some?;
    assert KeyOf(rows[k]) == k;
    CodeAfter(rows, call, k);
  }

  lemma CodeGetsUsed(rows: Rows, call: Call, u: Uuid)
    requires Admissible(rows, call) && Judge(rows, call).Allow? && call.VerifyEmail? && call.user == Some(u)
    ensures HasUsedCode(After(rows, call), u)
  {
    var k :| k in UsableCodes(rows, u, call.hash, call.now);
    assert KeyOf(rows[k]) == k;
    CodeAfter(rows, call, k);
  }

  lemma VerifiedUsesCode(rows: Rows, call: Call, u: Uuid)
    requires Admissible(rows, call) && Judge(rows, call).Allow?
    requires IsVerified(rows, u) ==> HasUsedCode(rows, u)
    requires IsVerified(After(rows, call), u)
    ensures HasUsedCode(After(rows, call), u)
  {
    CredentialAfter(rows, call, u);
    if call.VerifyEmail? && call.user == Some(u) {
      CodeGetsUsed(rows, call, u);
    } else {
      UsedCodesStay(rows, call, u);
    }
  }

  lemma CallKeepsParents(rows: Rows, call: Call)
    requires Admissible(rows, call) && Judge(rows, call).Allow? && NoOrphans(rows)
    ensures NoOrphans(After(rows, call))
  {
    hide Judge, EffectOf, Admissible, After;
    var after := After(rows, call);
    forall k | k in after ensures HasCredential(after, UserOf(after[k])) {
      OwnerAfter(rows, call, k);
      CredentialAfter(rows, call, UserOf(after[k]));
      assert KeyOf(after[k]) == k;
    }
  }

  lemma CallKeepsEmailsUnique(rows: Rows, call: Call)
    requires Admissible(rows, call) && Judge(rows, call).Allow? && UniqueEmails(rows)
    ensures UniqueEmails(After(rows, call))
  {
    var after := After(rows, call);
    forall a, b | a in after && b in after && after[a].CredentialRow? && after[b].CredentialRow?
                  && after[a].credential.email == after[b].credential.email
      ensures a == b
    {
      assert KeyOf(after[a]) == a && KeyOf(after[b]) == b;
      CredentialAfter(rows, call, a.userId);
      CredentialAfter(rows, call, b.userId);
    }
  }

  lemma CallKeepsStatus(rows: Rows, call: Call)
    requires Admissible(rows, call) && Judge(rows, call).Allow? && StatusAgrees(rows)
    ensures StatusAgrees(After(rows, call))
  {
    var after := After(rows, call);
    forall k | k in after && after[k].CredentialRow?
      ensures after[k].credential.emailVerified <==> after[k].credential.status == EmailVerified
    {
      assert KeyOf(after[k]) == k;
      CredentialAfter(rows, call, k.userId);
    }
  }

  lemma AllowedCallKeepsIntegrity(rows: Rows, call: Call)
    requires Admissible(rows, call) && Judge(rows, call).Allow? && Integrity(rows)
    ensures Integrity(After(rows, call))
  {
    CallKeepsParents(rows, call);
    CallKeepsEmailsUnique(rows, call);
    CallKeepsStatus(rows, call);
    forall u | IsVerified(After(rows, call), u) ensures HasUsedCode(After(rows, call), u) {
      VerifiedUsesCode(rows, call, u);
    }
  }

  /** Every repository call keeps the integrity of the tables, whether it succeeds or fails. */
  lemma CallKeepsIntegrity(db: Database, call: Call)
    requires Admissible(db.rows, call) && Integrity(db.rows)
    ensures Integrity(Exec(db, call).db.rows)
  {
    CommittedCall(db, call);
    if Judge(db.rows, call).Allow? {
      AllowedCallKeepsIntegrity(db.rows, call);
    }
  }

  lemma {:induction false} IntegrityAlways(states: seq<Database>, calls: seq<Call>)
    requires IsRun(states, calls) && states[0] == EMPTY
    ensures Integrity(states[|calls|].rows)
  {
    if calls != [] {
      var n := |calls| - 1;
      RunPrefix(states, calls, n);
      IntegrityAlways(states[..n + 1], calls[..n]);
      assert StepsTo(states[n], calls[n], states[n + 1]);
      CallKeepsIntegrity(states[n], calls[n]);
    }
  }
}
