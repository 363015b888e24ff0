/** The Kafka handlers of registration and recovery commands: a use case, then ordered publications. */
module Saga {
  import opened Wrappers
  import opened Text
  import opened Tables
  import opened Errors
  import opened Statements
  import opened RepositoryRuns
  import opened Decisions
  import opened Service
  import opened UseCases
  import opened ServiceRuns

  datatype CreateCommand = CreateCommand(sessionId: string, clientId: string, userId: string, email: string,
                                         username: string, passwordHash: string, sagaId: string)

  datatype DeleteCommand = DeleteCommand(userId: string, sagaId: string)

  /** What the handlers try to publish. */
  datatype Publication =
    | CreateSucceeded(command: CreateCommand, email: string, code: string)
    | CreateFailed(command: CreateCommand, error: DomainError)
    | MailCode(command: CreateCommand, to: string, code: string)
    | DeleteSucceeded(target: DeleteCommand)
    | DeleteFailed(target: DeleteCommand, error: DomainError)
    | RecoveryCompleted(commandId: string, userId: string)

  /** The store, and every publication attempted so far. */
  datatype World = World(db: Database, attempted: seq<Publication>)

  datatype Handled = Handled(world: World, ok: bool)

  /** A command is `None` when its payload does not decode; a publication may fail. */
  function CreateHandled(p: Platform, w: World, command: Option<CreateCommand>, e: Env, resultOk: bool,
                         mailOk: bool): Handled
    requires EnvOk(e)
  {
    if command.None? then Handled(w, false)
    else
      var c := command.value;
      var r := RegisterPending(p, w.db, c.userId, c.email, c.username, c.passwordHash, e);
      if r.result.Err? then Handled(World(r.db, w.attempted + [CreateFailed(c, r.result.error)]), resultOk)
      else
        var done := r.result.value;
        var success := CreateSucceeded(c, done.email, done.code);
        if !resultOk then Handled(World(r.db, w.attempted + [success]), false)
        else Handled(World(r.db, w.attempted + [success, MailCode(c, done.email, done.code)]), mailOk)
  }

  function DeleteHandled(p: Platform, w: World, command: Option<DeleteCommand>, e: Env, resultOk: bool): Handled
    requires command.Some? ==> Admissible(w.db.rows, Deletion(p, command.value.userId, e))
  {
    if command.None? then Handled(w, false)
    else
      var r := RemoveCredential(p, w.db, command.value.userId, e);
      var answer := if r.result.Err? then DeleteFailed(command.value, r.result.error)
          else DeleteSucceeded(command.value);
      Handled(World(r.db, w.attempted + [answer]), resultOk)
  }

  class RegistrationSagaSubscriber {
    const service: AuthService
    var attempted: seq<Publication>

    constructor (service: AuthService)
      ensures this.service == service && attempted == []
    {
      this.service := service;
      attempted := [];
    }

    function Current(): World
      reads this, service.repo
    {
      World(service.repo.db, attempted)
    }

    method Publish(publication: Publication, succeeds: bool) returns (ok: bool)
      modifies this`attempted
      ensures attempted == old(attempted) + [publication] && ok == succeeds
    {
      attempted := attempted + [publication];
      ok := succeeds;
    }

    method HandleCreate(command: Option<CreateCommand>, e: Env, resultOk: bool, mailOk: bool) returns (ok: bool)
      requires EnvOk(e)
      modifies this`attempted, service.repo
      ensures Handled(Current(), ok) == CreateHandled(service.p, old(Current()), command, e, resultOk, mailOk)
    {
      hide RegisterPending;
      if command.None? {
        return false;
      }
      var c := command.value;
      var r := service.CreatePendingRegistration(c.userId, c.email, c.username, c.passwordHash, e);
      if r.Err? {
        ok := Publish(CreateFailed(c, r.error), resultOk);
        return;
      }
      ok := Publish(CreateSucceeded(c, r.value.email, r.value.code), resultOk);
      if !ok {
        return;
      }
      ok := Publish(MailCode(c, r.value.email, r.value.code), mailOk);
    }

    method HandleDelete(command: Option<DeleteCommand>, e: Env, resultOk: bool) returns (ok: bool)
      requires command.Some? ==> Admissible(service.repo.db.rows, Deletion(service.p, command.value.userId, e))
      modifies this`attempted, service.repo
      ensures Handled(Current(), ok) == DeleteHandled(service.p, old(Current()), command, e, resultOk)
    {
      hide RemoveCredential;
      if command.None? {
        return false;
      }
      var r := service.DeleteCredential(command.value.userId, e);
      if r.Err? {
        ok := Publish(DeleteFailed(command.value, r.error), resultOk);
      } else {
        ok := Publish(DeleteSucceeded(command.value), resultOk);
      }
    }
  }

  // ---- what is published is true ----

  /** Everything a registration needs. */
  ghost predicate Registers(p: Platform, rows: Rows, c: CreateCommand, e: Env)
    requires EnvOk(e)
  {
    && InputError(c.userId, c.email, c.username, c.passwordHash).None?
    && AddingError(rows, p.parseUuid(c.userId), c.email).None?
    && e.wire.Clean? && e.rolesWire.None? && e.wire2.Clean?
    && GenerateCode(p.fixedCode, e.entropy).Some? && CodeKey(e.id) !in rows
  }

  /** The credential and the code are stored as they were published. */
  predicate StoredAs(rows: Rows, u: Uuid, c: CreateCommand, code: string, e: Env) {
    && CredentialKey(u) in rows && rows[CredentialKey(u)] == Newcomer(u, c.email, c.username, c.passwordHash, e.at)
    && CodeKey(e.id) in rows
    && rows[CodeKey(e.id)] == CodeRow(Code(e.id, u, Sha256(code), e.now + 10 * 60 * 1_000_000, None, e.at2))
  }

  /**
    A success is published exactly for a registration that has been stored, and its mail, with the
    same code, goes to the email stored; otherwise one failure is published and no mail.
   */
  lemma CreatePublishesTruth(p: Platform, w: World, c: CreateCommand, e: Env, resultOk: bool, mailOk: bool)
    requires EnvOk(e) && Plain(e.wire) && Plain(e.wire2)
    ensures var h := CreateHandled(p, w, Some(c), e, resultOk, mailOk);
            if Registers(p, w.db.rows, c, e) then
              var code := GenerateCode(p.fixedCode, e.entropy).value;
              && StoredAs(h.world.db.rows, p.parseUuid(c.userId).value, c, code, e)
              && h.world.attempted == w.attempted + [CreateSucceeded(c, c.email, code)]
                                      + (if resultOk then [MailCode(c, c.email, code)] else [])
              && h.ok == (resultOk && mailOk)
            else
              exists error :: h.world.attempted == w.attempted + [CreateFailed(c, error)] && h.ok == resultOk
  {
    hide RegisterPending, AddCredential, TrimSpace, GenerateCode;
    AddingDecision(p, w.db, c.userId, c.email, c.username, c.passwordHash, e);
    RegistrationDecision(p, w.db, c.userId, c.email, c.username, c.passwordHash, e);
    var r := RegisterPending(p, w.db, c.userId, c.email, c.username, c.passwordHash, e);
    var h := CreateHandled(p, w, Some(c), e, resultOk, mailOk);
    if r.result.Err? {
      assert h.world.attempted == w.attempted + [CreateFailed(c, r.result.error)];
    }
  }

  /** A deletion is published as a success exactly when it found the credential, and left no row of the user. */
  lemma DeletePublishesTruth(p: Platform, w: World, c: DeleteCommand, e: Env, resultOk: bool)
    requires Admissible(w.db.rows, Deletion(p, c.userId, e)) && Plain(e.wire)
    ensures var h, user := DeleteHandled(p, w, Some(c), e, resultOk), p.parseUuid(c.userId);
            && h.ok == resultOk
            && if c.userId != "" && e.wire.Clean? && user.Some? && CredentialKey(user.value) in w.db.rows then
                 && h.world.attempted == w.attempted + [DeleteSucceeded(c)]
                 && forall k :: k in h.world.db.rows ==> !BelongsTo(h.world.db.rows[k], user.value)
               else
                 && (exists error :: h.world.attempted == w.attempted + [DeleteFailed(c, error)])
                 && (!e.wire.ReplyLost? ==> h.world.db == w.db)
  {
    hide RemoveCredential, Admissible;
    DeletionDecision(p, w.db, c.userId, e);
    var r := RemoveCredential(p, w.db, c.userId, e);
    var h := DeleteHandled(p, w, Some(c), e, resultOk);
    if r.result.Err? {
      assert h.world.attempted == w.attempted + [DeleteFailed(c, r.result.error)];
    }
  }

  /** What does not decode is left alone and given back. */
  lemma UndecodableIsGivenBack(p: Platform, w: World, e: Env, resultOk: bool, mailOk: bool)
    requires EnvOk(e)
    ensures CreateHandled(p, w, None, e, resultOk, mailOk) == Handled(w, false)
    ensures DeleteHandled(p, w, None, e, resultOk) == Handled(w, false)
  {
  }

  // ---- mails, results and credentials ----

  /** One delivery to a handler, or any other traffic on the service. */
  datatype Delivery =
    | ToCreate(command: Option<CreateCommand>, env: Env, resultOk: bool, mailOk: bool)
    | ToDelete(target: Option<DeleteCommand>, env: Env, resultOk: bool)
    | Elsewhere(usecase: UseCase)

  ghost predicate Deliverable(p: Platform, w: World, d: Delivery) {
    match d
    case ToCreate(_, e, _, _) => EnvOk(e)
    case ToDelete(target, e, _) =>
      EnvOk(e) && (target.Some? ==> Admissible(w.db.rows, Deletion(p, target.value.userId, e)))
    case Elsewhere(c) => Possible(p, w.db.rows, c)
  }

  /** The delivery with the environment's choices of rows and of triggers. */
  function ChosenDelivery(d: Delivery, pick: Key, order: seq<Key>): Delivery {
    match d
    case ToCreate(command, e, resultOk, mailOk) => ToCreate(command, e.(pick := pick, order := order), resultOk, mailOk)
    case ToDelete(target, e, resultOk) => ToDelete(target, e.(pick := pick, order := order), resultOk)
    case Elsewhere(c) => Elsewhere(c.(env := c.env.(pick := pick, order := order)))
  }

  /** Nothing in the store keeps a command from being delivered. */
  lemma EveryDeliveryIsPossible(p: Platform, w: World, d: Delivery) returns (pick: Key, order: seq<Key>)
    requires EnvOk(if d.Elsewhere? then d.usecase.env else d.env)
    ensures Deliverable(p, w, ChosenDelivery(d, pick, order))
  {
    pick, order := TokenKey(0), [];
    match d {
      case ToCreate(_, _, _, _) =>
      case ToDelete(target, e, _) =>
        if target.Some? {
          pick, order := EveryUseCaseIsPossible(p, w.db.rows, Remove(target.value.userId, e));
        }
      case Elsewhere(c) => pick, order := EveryUseCaseIsPossible(p, w.db.rows, c);
    }
  }

  ghost function Deliver(p: Platform, w: World, d: Delivery): World
    requires Deliverable(p, w, d)
  {
    match d
    case ToCreate(command, e, resultOk, mailOk) => CreateHandled(p, w, command, e, resultOk, mailOk).world
    case ToDelete(target, e, resultOk) => DeleteHandled(p, w, target, e, resultOk).world
    case Elsewhere(c) => w.(db := Serve(p, w.db, c))
  }

  function Mails(p: Platform, attempted: seq<Publication>, u: Uuid): nat {
    if attempted == [] then 0
    else
      var last := attempted[|attempted| - 1];
      Mails(p, attempted[..|attempted| - 1], u)
      + if last.MailCode? && p.parseUuid(last.command.userId) == Some(u) then 1 else 0
  }

  function Successes(p: Platform, attempted: seq<Publication>, u: Uuid): nat {
    if attempted == [] then 0
    else
      var last := attempted[|attempted| - 1];
      Successes(p, attempted[..|attempted| - 1], u)
      + if last.CreateSucceeded? && p.parseUuid(last.command.userId) == Some(u) then 1 else 0
  }

  /** 1 when the step creates the user's credential, -1 when it deletes it. */
  function Births(before: Rows, after: Rows, u: Uuid): nat {
    if !HasCredential(before, u) && HasCredential(after, u) then 1 else 0
  }

  function Deaths(before: Rows, after: Rows, u: Uuid): nat {
    if HasCredential(before, u) && !HasCredential(after, u) then 1 else 0
  }

  /** A registration that reports success created the credential, for the user the command names. */
  lemma SuccessCreates(p: Platform, db: Database, userId: string, email: string, username: string,
                       passwordHash: string, e: Env)
    requires EnvOk(e)
    requires RegisterPending(p, db, userId, email, username, passwordHash, e).result.Ok?
    ensures p.parseUuid(userId).Some?
    ensures var u := p.parseUuid(userId).value;
            !HasCredential(db.rows, u)
                && HasCredential(RegisterPending(p, db, userId, email, username, passwordHash, e).db.rows, u)
  {
    hide EffectOf, OrderOf, GenerateCode;
    var a := Creation(p, userId, email, username, passwordHash, e);
    var created := AddCredential(p, db, userId, email, username, passwordHash, e);
    CommittedCall(db, a);
    CommittedCreation(db, a);
    CredentialAfter(db.rows, a, a.user.value);
    var code := GenerateCode(p.fixedCode, e.entropy);
    var b := CodeCreation(p, userId, code.value, e);
    CommittedCall(created.db, b);
    if Judge(created.db.rows, b).Allow? {
      CredentialAfter(created.db.rows, b, a.user.value);
    }
  }

  lemma CountLast(p: Platform, attempted: seq<Publication>, x: Publication, u: Uuid)
    ensures Mails(p, attempted + [x], u)
            == Mails(p, attempted, u) + if x.MailCode? && p.parseUuid(x.command.userId) == Some(u) then 1 else 0
    ensures Successes(p, attempted + [x], u)
            == Successes(p, attempted, u)
               + if x.CreateSucceeded? && p.parseUuid(x.command.userId) == Some(u) then 1 else 0
  {
    assert (attempted + [x])[..|attempted|] == attempted;
  }

  lemma DeliveryCounts(p: Platform, w: World, d: Delivery, u: Uuid)
    requires Deliverable(p, w, d)
    ensures var t := Deliver(p, w, d);
            var successes := Successes(p, t.attempted, u) - Successes(p, w.attempted, u);
            var mails := Mails(p, t.attempted, u) - Mails(p, w.attempted, u);
            0 <= mails <= successes <= Births(w.db.rows, t.db.rows, u)
  {
    hide RegisterPending, RemoveCredential, Serve, Possible, Admissible;
    match d
    case ToCreate(command, e, resultOk, mailOk) =>
      if command.Some? {
        var c := command.value;
        var r := RegisterPending(p, w.db, c.userId, c.email, c.username, c.passwordHash, e);
        if r.result.Ok? {
          SuccessCreates(p, w.db, c.userId, c.email, c.username, c.passwordHash, e);
          var success := CreateSucceeded(c, r.result.value.email, r.result.value.code);
          var mail := MailCode(c, r.result.value.email, r.result.value.code);
          CountLast(p, w.attempted, success, u);
          CountLast(p, w.attempted + [success], mail, u);
          assert w.attempted + [success, mail] == w.attempted + [success] + [mail];
        } else {
          CountLast(p, w.attempted, CreateFailed(c, r.result.error), u);
        }
      }
    case ToDelete(target, e, resultOk) =>
      if target.Some? {
        var r := RemoveCredential(p, w.db, target.value.userId, e);
        CountLast(p, w.attempted,
            if r.result.Err? then DeleteFailed(target.value, r.result.error) else DeleteSucceeded(target.value), u);
      }
    case Elsewhere(_) =>
  }

  ghost predicate Delivers(p: Platform, s: World, d: Delivery, t: World) {
    Deliverable(p, s, d) && t == Deliver(p, s, d)
  }

  ghost predicate IsSagaRun(p: Platform, worlds: seq<World>, deliveries: seq<Delivery>) {
    && |worlds| == |deliveries| + 1 && worlds[0] == World(EMPTY, [])
    && forall i :: 0 <= i < |deliveries| ==> Delivers(p, worlds[i], deliveries[i], worlds[i + 1])
  }

  /** How often the user's credential was created in the first n steps. */
  function Created(worlds: seq<World>, u: Uuid, n: nat): nat
    requires n < |worlds|
  {
    if n == 0 then 0 else Created(worlds, u, n - 1) + Births(worlds[n - 1].db.rows, worlds[n].db.rows, u)
  }

  function Deleted(worlds: seq<World>, u: Uuid, n: nat): nat
    requires n < |worlds|
  {
    if n == 0 then 0 else Deleted(worlds, u, n - 1) + Deaths(worlds[n - 1].db.rows, worlds[n].db.rows, u)
  }

  /** What a delivery does to the store is what one use case does. */
  lemma DeliveryKeepsCrossTable(p: Platform, w: World, d: Delivery)
    requires Deliverable(p, w, d) && CrossTable(w.db.rows)
    ensures CrossTable(Deliver(p, w, d).db.rows)
  {
    hide RegisterPending, RemoveCredential, CrossTable;
    match d
    case ToCreate(command, e, _, _) =>
      if command.Some? {
        var c := command.value;
        UseCaseKeepsCrossTable(p, w.db, Register(c.userId, c.email, c.username, c.passwordHash, e));
      }
    case ToDelete(target, e, _) =>
      if target.Some? {
        UseCaseKeepsCrossTable(p, w.db, Remove(target.value.userId, e));
      }
    case Elsewhere(c) => UseCaseKeepsCrossTable(p, w.db, c);
  }

  /**
    Whatever is redelivered, retried or fails: mails for a user are attempted at most as often as
    success results, those at most as often as its credential was created, and between two
    deletions it is created at most once. A user never has a second code.
   */
  lemma {:induction false} MailsResultsCredentials(p: Platform, worlds: seq<World>, deliveries: seq<Delivery>, u: Uuid,
                                                   n: nat)
    requires IsSagaRun(p, worlds, deliveries) && n <= |deliveries|
    ensures Mails(p, worlds[n].attempted, u) <= Successes(p, worlds[n].attempted, u) <= Created(worlds, u, n)
    ensures Created(worlds, u, n) == Deleted(worlds, u, n) + if HasCredential(worlds[n].db.rows, u) then 1 else 0
    ensures CrossTable(worlds[n].db.rows) && OneCodePerUser(worlds[n].db.rows)
  {
    hide Deliver, Deliverable, Integrity, TokensNeedUsedCode;
    if n == 0 {
      EmptyIsConsistent();
    } else {
      MailsResultsCredentials(p, worlds, deliveries, u, n - 1);
      assert Delivers(p, worlds[n - 1], deliveries[n - 1], worlds[n]);
      DeliveryCounts(p, worlds[n - 1], deliveries[n - 1], u);
      DeliveryKeepsCrossTable(p, worlds[n - 1], deliveries[n - 1]);
    }
  }
}
