/**
  The repository as an object that updates its database in place. Each method runs its statements one
  by one; its contract says that the call as a whole is one atomic step of `Statements.Exec`.
 */
module Repository {
  import opened Wrappers
  import opened Tables
  import opened Outbox
  import opened Errors
  import opened Statements

  /** What a call that returns a credential answers: roles are read after the write. */
  function WithRoles(o: Outcome, rolesWire: Option<IoError>): Result<Principal, DomainError>
    requires !o.reply.Acknowledged?
  {
    match o.reply
    case Accepted(c) => AttachRoles(o.db.rows, c, rolesWire)
    case Rejected(e) => Err(e)
  }

  /** What a call that returns only an error answers. */
  function ErrorOf(o: Outcome): Option<DomainError> {
    if o.reply.Rejected? then Some(o.reply.error) else None
  }

  /** The error the driver reports for `e`; on a lost connection it cannot know `e`. */
  function Reported(wire: Wire, e: DriverError): DriverError {
    if wire.ReplyLost? then Io else e
  }

  /** The part of an effect on the rows already visited. */
  ghost function Visited(effect: Effect, done: seq<Key>): Effect {
    map k | k in effect && k in done :: effect[k]
  }

  lemma VisitedOneMore(effect: Effect, done: seq<Key>, k: Key)
    requires k in effect
    ensures Visited(effect, done + [k]) == Visited(effect, done)[k := effect[k]]
  {
  }

  lemma OverlayOneMore(rows: Rows, effect: Effect, k: Key, image: Option<Row>)
    requires ValidEffect(rows, effect) && k !in effect && (if image.Some? then KeyOf(image.value) == k else k in rows)
    ensures ValidEffect(rows, effect[k := image])
    ensures Overlay(rows, effect[k := image])
            == var r := Overlay(rows, effect); if image.None? then r - {k} else r[k := image.value]
    ensures Lookup(Overlay(rows, effect), k) == Lookup(rows, k)
  {
    hide Overlay;
    var r := Overlay(rows, effect);
    var right := if image.None? then r - {k} else r[k := image.value];
    forall j ensures Lookup(Overlay(rows, effect[k := image]), j) == Lookup(right, j) {
    }
    SameRows(Overlay(rows, effect[k := image]), right);
  }

  lemma VisitOne(rows: Rows, effect: Effect, done: seq<Key>, k: Key)
    requires ValidEffect(rows, effect) && k in effect && k !in done
    ensures Overlay(rows, Visited(effect, done + [k]))
            == var r := Overlay(rows, Visited(effect, done));
               if effect[k].None? then r - {k} else r[k := effect[k].value]
    ensures Lookup(Overlay(rows, Visited(effect, done)), k) == Lookup(rows, k)
  {
    var before := Visited(effect, done);
    VisitedOneMore(effect, done, k);
    OverlayOneMore(rows, before, k, effect[k]);
  }

  lemma FireOne(rows: Rows, effect: Effect, done: seq<Key>, at: Time)
    requires ValidEffect(rows, effect) && done != [] && forall k :: k in done ==> k in effect
    ensures var k := done[|done| - 1];
            Events(rows, effect, done, at)
            == Events(rows, effect, done[..|done| - 1], at) + [Capture(ChangeOf(Lookup(rows, k), effect[k]), at)]
  {
  }

  /** The database after the changes to the rows in `done`, one after the other. */
  ghost function Stepwise(before: Database, effect: Effect, done: seq<Key>, at: Time): Database
    requires ValidEffect(before.rows, effect) && forall k :: k in done ==> k in effect
  {
    if done == [] then before
    else
      var k := done[|done| - 1];
      var db := Stepwise(before, effect, done[..|done| - 1], at);
      Database(if effect[k].None? then db.rows - {k} else db.rows[k := effect[k].value],
               db.outbox + [Capture(ChangeOf(Lookup(before.rows, k), effect[k]), at)])
  }

  predicate Once(done: seq<Key>) {
    forall i, j :: 0 <= i < j < |done| ==> done[i] != done[j]
  }

  lemma {:induction false} StepwiseRows(before: Database, effect: Effect, done: seq<Key>, at: Time)
    requires ValidEffect(before.rows, effect) && (forall k :: k in done ==> k in effect) && Once(done)
    ensures Stepwise(before, effect, done, at).rows == Overlay(before.rows, Visited(effect, done))
  {
    if done != [] {
      var front, k := done[..|done| - 1], done[|done| - 1];
      assert done == front + [k] && k !in front;
      StepwiseRows(before, effect, front, at);
      VisitOne(before.rows, effect, front, k);
    }
  }

  lemma {:induction false} StepwiseOutbox(before: Database, effect: Effect, done: seq<Key>, at: Time)
    requires ValidEffect(before.rows, effect) && forall k :: k in done ==> k in effect
    ensures Stepwise(before, effect, done, at).outbox == before.outbox + Events(before.rows, effect, done, at)
  {
    if done != [] {
      StepwiseOutbox(before, effect, done[..|done| - 1], at);
      FireOne(before.rows, effect, done, at);
    }
  }

  lemma NotYetVisited(before: Database, effect: Effect, order: seq<Key>, at: Time, i: nat)
    requires ValidEffect(before.rows, effect) && Enumerates(order, effect.Keys) && i < |order|
    ensures Lookup(Stepwise(before, effect, order[..i], at).rows, order[i]) == Lookup(before.rows, order[i])
  {
    StepwiseRows(before, effect, order[..i], at);
    VisitOne(before.rows, effect, order[..i], order[i]);
  }

  /** One row changes, and its trigger fires. */
  method ChangeRow(rows: Rows, k: Key, image: Option<Row>, at: Time) returns (after: Rows, e: Event)
    requires if image.None? then k in rows else KeyOf(image.value) == k
    ensures after == if image.None? then rows - {k} else rows[k := image.value]
    ensures e == Capture(ChangeOf(Lookup(rows, k), image), at)
  {
    if image.None? {
      after := rows - {k};
      e := Capture(Delete(rows[k]), at);
    } else if k in rows {
      after := rows[k := image.value];
      e := Capture(Update(rows[k], image.value), at);
    } else {
      after := rows[k := image.value];
      e := Capture(Insert(image.value), at);
    }
  }

  /** A statement changes its rows one at a time. */
  method ChangeRows(before: Database, effect: Effect, order: seq<Key>, at: Time) returns (db: Database)
    requires ValidEffect(before.rows, effect) && Enumerates(order, effect.Keys)
    ensures db == Apply(before, effect, order, at)
  {
    var rows, outbox := before.rows, before.outbox;
    for i := 0 to |order|
      invariant Database(rows, outbox) == Stepwise(before, effect, order[..i], at)
    {
      NotYetVisited(before, effect, order, at, i);
      assert order[..i + 1][..i] == order[..i];
      var e;
      rows, e := ChangeRow(rows, order[i], effect[order[i]], at);
      outbox := outbox + [e];
    }
    db := Database(rows, outbox);
    assert order[..|order|] == order && Visited(effect, order) == effect;
    StepwiseRows(before, effect, order, at);
    StepwiseOutbox(before, effect, order, at);
  }

  class Repo {
    var db: Database

    constructor ()
      ensures db == Database(map[], [])
    {
      db := Database(map[], []);
    }

    method Create(user: Option<Uuid>, email: string, username: string, passwordHash: string, at: Time, wire: Wire,
                  rolesWire: Option<IoError>)
      returns (r: Result<Principal, DomainError>)
      modifies this
      ensures var o := Exec(old(db), CreateCredential(user, email, username, passwordHash, at, wire));
              db == o.db && r == WithRoles(o, rolesWire)
    {
      if wire.Broken? {
        return Err(TranslateCreateCredential(wire.error));
      }
      if user.None? {
        return Err(TranslateCreateCredential(Reported(wire, MALFORMED_ID)));
      }
      if HasCredential(db.rows, user.value) {
        return Err(TranslateCreateCredential(Reported(wire, Duplicate(PRIMARY_KEY))));
      }
      if EmailTaken(db.rows, email) {
        return Err(TranslateCreateCredential(Reported(wire, Duplicate(EMAIL_KEY))));
      }
      var row := NewCredential(user.value, email, username, passwordHash, at);
      db := ChangeRows(db, map[CredentialKey(row.userId) := Some(CredentialRow(row))], [CredentialKey(row.userId)], at);
      if wire.ReplyLost? {
        return Err(TranslateCreateCredential(Io));
      }
      r := AttachRoles(db.rows, row, rolesWire);
    }

    method CreateVerificationCode(id: Uuid, user: Option<Uuid>, hash: Digest, expiresAt: Time, at: Time, wire: Wire)
      returns (err: Option<DomainError>)
      modifies this
      ensures var o := Exec(old(db), CreateCode(id, user, hash, expiresAt, at, wire));
              db == o.db && err == ErrorOf(o)
    {
      if wire.Broken? {
        return Some(TranslateCreateVerificationCode(wire.error));
      }
      if user.Some? && CodeKey(id) in db.rows {
        return Some(TranslateCreateVerificationCode(Reported(wire, Duplicate("email_verification_codes_pkey"))));
      }
      var orphan := MissingParent(db.rows, user);
      if orphan.Some? {
        return Some(TranslateCreateVerificationCode(Reported(wire, orphan.value)));
      }
      db := ChangeRows(db, map[CodeKey(id) := Some(CodeRow(Code(id, user.value, hash, expiresAt, None, at)))],
          [CodeKey(id)], at);
      err := if wire.ReplyLost? then Some(TranslateCreateVerificationCode(Io)) else None;
    }

    /** What the verification statement changes: its codes, and the credential if there is one. */
    static lemma VerificationEffect(rows: Rows, call: Call, codes: Effect)
      requires call.VerifyEmail? && Admissible(rows, call) && Judge(rows, call).Allow?
      requires codes == map k | k in UsableCodes(rows, call.user.value, call.hash, call.now) ::
            Some(CodeRow(rows[k].code.(usedAt := Some(call.at))))
      ensures EffectOf(rows, call)
              == if HasCredential(rows, call.user.value)
                 then codes[CredentialKey(call.user.value) :=
                   Some(CredentialRow(VerifiedCredential(CredentialOf(rows, call.user.value), call.at)))]
                 else codes
    {
    }

    method VerifyRegistrationEmail(user: Option<Uuid>, hash: Digest, now: Time, order: seq<Key>, at: Time, wire: Wire,
                                   rolesWire: Option<IoError>)
      returns (r: Result<Principal, DomainError>)
      requires Admissible(db.rows, VerifyEmail(user, hash, now, order, at, wire))
      modifies this
      ensures var o := Exec(old(db), VerifyEmail(user, hash, now, order, at, wire));
              db == o.db && r == WithRoles(o, rolesWire)
    {
      hide Overlay, Events, TranslateVerifyEmail, AttachRoles, EffectOf;
      if wire.Broken? {
        return Err(TranslateVerifyEmail(wire.error));
      }
      if user.None? {
        return Err(TranslateVerifyEmail(Reported(wire, MALFORMED_ID)));
      }
      var u := user.value;
      var codes := UsableCodes(db.rows, u, hash, now);
      if codes == {} {
        return Err(TranslateVerifyEmail(Reported(wire, NoRows)));
      }
      var effect: Effect := map k | k in codes :: Some(CodeRow(db.rows[k].code.(usedAt := Some(at))));
      VerificationEffect(db.rows, VerifyEmail(user, hash, now, order, at, wire), effect);
      var row := None;
      if HasCredential(db.rows, u) {
        row := Some(VerifiedCredential(CredentialOf(db.rows, u), at));
        effect := effect[CredentialKey(u) := Some(CredentialRow(row.value))];
      }
      db := ChangeRows(db, effect, order, at);
      if wire.ReplyLost? {
        return Err(TranslateVerifyEmail(Io));
      }
      if row.None? {
        return Err(TranslateVerifyEmail(NoRows));
      }
      r := AttachRoles(db.rows, row.value, rolesWire);
    }

    method CreateRefreshToken(id: Uuid, user: Option<Uuid>, hash: Digest, expiresAt: Time, at: Time, wire: Wire)
      returns (err: Option<DomainError>)
      modifies this
      ensures var o := Exec(old(db), CreateToken(id, user, hash, expiresAt, at, wire));
              db == o.db && err == ErrorOf(o)
    {
      hide Overlay, Events, TranslateCreateRefreshToken;
      if wire.Broken? {
        return Some(TranslateCreateRefreshToken(wire.error));
      }
      if user.Some? && TokenKey(id) in db.rows {
        return Some(TranslateCreateRefreshToken(Reported(wire, Duplicate("refresh_tokens_pkey"))));
      }
      var orphan := MissingParent(db.rows, user);
      if orphan.Some? {
        return Some(TranslateCreateRefreshToken(Reported(wire, orphan.value)));
      }
      db := ChangeRows(db, map[TokenKey(id) := Some(TokenRow(Token(id, user.value, hash, expiresAt, None, at)))],
          [TokenKey(id)], at);
      err := if wire.ReplyLost? then Some(TranslateCreateRefreshToken(Io)) else None;
    }

    /** The conditional update, inside a transaction that works on `tx`. */
    static method RevokeRow(tx: Database, key: Key, now: Time, at: Time) returns (after: Database)
      requires key in tx.rows && tx.rows[key].TokenRow?
      ensures tx.rows[key].token.revokedAt.None? ==>
            after == Apply(tx, map[key := Some(Revoked(tx.rows[key], now))], [key], at)
      ensures tx.rows[key].token.revokedAt.Some? ==> after == tx
    {
      after := tx;
      if tx.rows[key].token.revokedAt.None? {
        after := ChangeRows(tx, map[key := Some(Revoked(tx.rows[key], now))], [key], at);
      }
    }

    /** Two statements in one transaction append the events one combined statement would. */
    static lemma TwoStatements(db: Database, a: Key, x: Option<Row>, b: Key, y: Option<Row>, at: Time)
      requires a != b && ValidEffect(db.rows, map[a := x]) && ValidEffect(db.rows, map[b := y])
      ensures ValidEffect(db.rows, map[a := x, b := y])
      ensures ValidEffect(Apply(db, map[a := x], [a], at).rows, map[b := y])
      ensures Apply(Apply(db, map[a := x], [a], at), map[b := y], [b], at) == Apply(db, map[a := x, b := y], [a, b], at)
    {
      hide Capture, Overlay;
      assert a in map[a := x] && b in map[b := y];
      var mid := Apply(db, map[a := x], [a], at);
      var both := Events(db.rows, map[a := x, b := y], [a, b], at);
      assert both == Events(db.rows, map[a := x], [a], at) + Events(mid.rows, map[b := y], [b], at);
      assert Overlay(mid.rows, map[b := y]) == Overlay(db.rows, map[a := x, b := y]);
      assert db.outbox + both == mid.outbox + Events(mid.rows, map[b := y], [b], at);
    }

    /** The two statements of a rotation; `before` is the transaction's view of the database. */
    static method ReplaceToken(before: Database, key: Key, successor: Token, now: Time, at: Time, wire: Wire)
      returns (r: Result<Database, DriverError>)
      requires key in before.rows && before.rows[key].TokenRow? && before.rows[key].token.revokedAt.None?
      requires KeyOf(before.rows[key]) == key
      ensures var next := TokenKey(successor.id);
              if wire.Broken? && wire.stage in {AtRevoke, AtInsert} then r == Err(wire.error)
              else if next in before.rows then r == Err(Duplicate("refresh_tokens_pkey"))
              else
                var effect := map[key := Some(Revoked(before.rows[key], now)), next := Some(TokenRow(successor))];
                && ValidEffect(before.rows, effect)
                && r == Ok(Apply(before, effect, [key, next], at))
    {
      if wire.Broken? && wire.stage == AtRevoke {
        return Err(wire.error);
      }
      var tx := RevokeRow(before, key, now, at);
      if wire.Broken? && wire.stage == AtInsert {
        return Err(wire.error);
      }
      var next := TokenKey(successor.id);
      if next in tx.rows {
        return Err(Duplicate("refresh_tokens_pkey"));
      }
      TwoStatements(before, key, Some(Revoked(before.rows[key], now)), next, Some(TokenRow(successor)), at);
      tx := ChangeRows(tx, map[next := Some(TokenRow(successor))], [next], at);
      r := Ok(tx);
    }

    method RotateRefreshToken(hash: Digest, newId: Uuid, newHash: Digest, newExpiresAt: Time, now: Time,
                              pick: Key, at: Time, wire: Wire, rolesWire: Option<IoError>)
      returns (r: Result<Principal, DomainError>)
      requires BreaksEarly(wire) || PickOk(db.rows, hash, pick)
      modifies this
      ensures var o := Exec(old(db), RotateToken(hash, newId, newHash, newExpiresAt, now, pick, at, wire));
              db == o.db && r == WithRoles(o, rolesWire)
    {
      if wire.Broken? && wire.stage in {AtBegin, AtLoad} {
        return Err(TranslateRotateRefreshToken(wire.error));
      }
      var row := LoadForMutation(db.rows, hash, now, pick);
      if row.Err? {
        return Err(row.error);
      }
      var credential := CredentialOf(db.rows, row.value.userId);
      var tx := ReplaceToken(db, pick, Token(newId, credential.userId, newHash, newExpiresAt, None, at), now, at, wire);
      if tx.Err? {
        return Err(TranslateRotateRefreshToken(tx.error));  // the transaction is rolled back: db is untouched
      }
      if wire.Broken? {
        return Err(TranslateRotateRefreshToken(wire.error));
      }
      db := tx.value;
      if wire.ReplyLost? {
        return Err(TranslateRotateRefreshToken(Io));
      }
      r := AttachRoles(db.rows, credential, rolesWire);
    }

    method RevokeRefreshToken(hash: Digest, now: Time, pick: Key, at: Time, wire: Wire, rolesWire: Option<IoError>)
      returns (r: Result<Principal, DomainError>)
      requires BreaksEarly(wire) || PickOk(db.rows, hash, pick)
      modifies this
      ensures var o := Exec(old(db), RevokeToken(hash, now, pick, at, wire));
              db == o.db && r == WithRoles(o, rolesWire)
    {
      if wire.Broken? && wire.stage in {AtBegin, AtLoad} {
        return Err(TranslateRotateRefreshToken(wire.error));
      }
      var row := LoadForMutation(db.rows, hash, now, pick);
      if row.Err? {
        return Err(row.error);
      }
      if wire.Broken? && wire.stage in {AtRevoke, AtInsert} {
        return Err(TranslateRotateRefreshToken(wire.error));
      }
      var tx := RevokeRow(db, TokenKey(row.value.id), now, at);
      if wire.Broken? {
        return Err(TranslateRotateRefreshToken(wire.error));
      }
      var credential := CredentialOf(db.rows, row.value.userId);
      db := tx;
      if wire.ReplyLost? {
        return Err(TranslateRotateRefreshToken(Io));
      }
      r := AttachRoles(db.rows, credential, rolesWire);
    }

    method DeactivateRegistrationAuth(user: Option<Uuid>, at: Time, wire: Wire) returns (err: Option<DomainError>)
      modifies this
      ensures var o := Exec(old(db), DeactivateUser(user, at, wire));
              db == o.db && err == ErrorOf(o)
    {
      if wire.Broken? {
        return Some(TranslateDeactivateCredential(wire.error));
      }
      if user.None? {
        return Some(TranslateDeactivateCredential(Reported(wire, MALFORMED_ID)));
      }
      var rowsAffected := 0;
      if HasCredential(db.rows, user.value) {
        var c := CredentialOf(db.rows, user.value);
        var row := CredentialRow(c.(emailVerified := false, status := RegistrationFailed, updatedAt := at));
        db := ChangeRows(db, map[CredentialKey(user.value) := Some(row)], [CredentialKey(user.value)], at);
        rowsAffected := 1;
      }
      if wire.ReplyLost? {
        return Some(TranslateDeactivateCredential(Io));
      }
      err := if rowsAffected == 0 then Some(AuthNotFound) else None;
    }

    method DeleteByUserID(user: Option<Uuid>, order: seq<Key>, at: Time, wire: Wire) returns (err: Option<DomainError>)
      requires Admissible(db.rows, DeleteUser(user, order, at, wire))
      modifies this
      ensures var o := Exec(old(db), DeleteUser(user, order, at, wire));
              db == o.db && err == ErrorOf(o)
    {
      if wire.Broken? {
        return Some(TranslateDeleteCredential(wire.error));
      }
      if user.None? {
        return Some(TranslateDeleteCredential(Reported(wire, MALFORMED_ID)));
      }
      var rowsAffected := 0;
      if HasCredential(db.rows, user.value) {
        db := ChangeRows(db, map k | k in Slice(db.rows, user.value) :: None, order, at);
        rowsAffected := 1;
      }
      if wire.ReplyLost? {
        return Some(TranslateDeleteCredential(Io));
      }
      err := if rowsAffected == 0 then Some(AuthNotFound) else None;
    }
  }
}
