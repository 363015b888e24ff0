/** The Kafka handler of recovery commands. */
module Recovery {
  import opened Wrappers
  import opened Text
  import opened Tables
  import opened Statements
  import opened RepositoryRuns
  import opened Decisions
  import opened Service
  import opened ServiceRuns
  import opened Saga
  import opened UseCases
  import opened KafkaConsumer

  datatype Payload = Payload(userId: string, clientId: string, email: string, username: string, passwordHash: string,
                             password: string)

  /** The payload is `None` when it does not decode. */
  datatype Command = Command(commandId: string, aggregateType: string, operation: string, aggregateId: string,
                             principalId: string, payload: Option<Payload>)

  // ---- letter case ----

  function Lower(c: char): char {
    if 'A' <= c <= 'Z' then (c as int + 32) as char else c
  }

  /** `strings.ToLower`, as far as a comparison with ASCII words without `i` and `k` can tell. */
  function ToLower(s: string): (r: string)
    ensures |r| == |s|
  {
    if s == [] then [] else [Lower(s[0])] + ToLower(s[1..])
  }

  // ---- the handler ----

  /** The first of the ids that is not empty. */
  function UserIdOf(command: Command, p: Payload): string {
    if p.userId != "" then p.userId
    else if command.aggregateId != "" then command.aggregateId
    else if p.clientId != "" then p.clientId
    else command.principalId
  }

  datatype Action = Creates | Removes | Unsupported

  function ActionOf(operation: string): Action {
    if ToLower(operation) in {"post", "create"} then Creates
    else if ToLower(operation) == "delete" then Removes
    else Unsupported
  }

  /** The hash to store: the one given, or bcrypt's of the password, which may fail. */
  function StoredHash(p: Payload, bcrypt: Option<string>): Option<string> {
    if !Blank(p.passwordHash) then Some(p.passwordHash) else bcrypt
  }

  function UseCaseOf(action: Action, p: Payload, e: Env): UseCase {
    if action.Creates? then Add(p.userId, p.email, p.username, p.passwordHash, e) else Remove(p.userId, e)
  }

  /** What the handler does before it touches the store: nothing more, or one use case. */
  function Planned(command: Option<Command>, bcrypt: Option<string>, e: Env): (plan: Result<UseCase, HandlerResult>)
    ensures plan.Ok? ==> plan.value.env == e && (plan.value.Add? || plan.value.Remove?)
    ensures plan.Err? ==> !plan.error.Fine?
  {
    if command.None? || ToLower(command.value.aggregateType) != "auth"
        || command.value.payload.None? then Err(Transient)
    else
      var p := command.value.payload.value;
      var userId := UserIdOf(command.value, p);
      if Blank(userId) then Err(Permanent)
      else
        match ActionOf(command.value.operation)
        case Creates =>
          if Blank(p.passwordHash) && Blank(p.password) then Err(Permanent)
          else if StoredHash(p, bcrypt).None? then Err(Transient)
          else Ok(Add(userId, p.email, p.username, StoredHash(p, bcrypt).value, e))
        case Removes => Ok(Remove(userId, e))
        case Unsupported => Err(Transient)
  }

  ghost predicate Workable(p: Platform, rows: Rows, command: Option<Command>, bcrypt: Option<string>, e: Env) {
    EnvOk(e) && (Planned(command, bcrypt, e).Ok? ==> Possible(p, rows, Planned(command, bcrypt, e).value))
  }

  /** Whether the planned use case reports no error. */
  ghost predicate Succeeds(p: Platform, db: Database, u: UseCase)
    requires Possible(p, db.rows, u) && (u.Add? || u.Remove?)
  {
    match u
    case Add(userId, email, username, passwordHash, e) =>
      AddCredential(p, db, userId, email, username, passwordHash, e).result.Ok?
    case Remove(userId, e) => RemoveCredential(p, db, userId, e).result.Ok?
  }

  datatype Recovered = Recovered(world: World, result: HandlerResult)

  /**
    The store changes as by the planned use case, or not at all; completion is announced exactly
    when the use case succeeded; and the command counts as handled only if that was published.
   */
  ghost function RecoveryHandled(p: Platform, w: World, command: Option<Command>, bcrypt: Option<string>, e: Env,
                                 publishOk: bool): Recovered
    requires Workable(p, w.db.rows, command, bcrypt, e)
  {
    var plan := Planned(command, bcrypt, e);
    if plan.Err? then Recovered(w, plan.error)
    else
      var db := Serve(p, w.db, plan.value);
      if !Succeeds(p, w.db, plan.value) then Recovered(World(db, w.attempted), Transient)
      else
        var completed := RecoveryCompleted(command.value.commandId, plan.value.userId);
        Recovered(World(db, w.attempted + [completed]), if publishOk then Fine else Transient)
  }

  class AuthRecoverySubscriber {
    const service: AuthService
    var attempted: seq<Publication>

    constructor (service: AuthService)
      ensures this.service == service && attempted == []
    {
      this.service := service;
      attempted := [];
    }

    method Apply(action: Action, p: Payload, e: Env) returns (ok: bool)
      requires EnvOk(e) && !action.Unsupported? && Possible(service.p, service.repo.db.rows, UseCaseOf(action, p, e))
      modifies service.repo
      ensures service.repo.db == Serve(service.p, old(service.repo.db), UseCaseOf(action, p, e))
      ensures ok == Succeeds(service.p, old(service.repo.db), UseCaseOf(action, p, e))
    {
      hide AddCredential, RemoveCredential;
      if action.Creates? {
        var created := service.CreateCredential(p.userId, p.email, p.username, p.passwordHash, e);
        ok := created.Ok?;
      } else {
        var removed := service.DeleteCredential(p.userId, e);
        ok := removed.Ok?;
      }
    }

    function Current(): World
      reads this, service.repo
    {
      World(service.repo.db, attempted)
    }

    method Handle(command: Option<Command>, bcrypt: Option<string>, e: Env, publishOk: bool)
      returns (result: HandlerResult)
      requires Workable(service.p, service.repo.db.rows, command, bcrypt, e)
      modifies this`attempted, service.repo
      ensures Recovered(Current(), result) == RecoveryHandled(service.p, old(Current()), command, bcrypt, e, publishOk)
    {
      hide Serve, Succeeds, ToLower, TrimSpace, Possible, EnvOk;
      if command.None? {
        return Transient;
      }
      if ToLower(command.value.aggregateType) != "auth" {
        return Transient;
      }
      if command.value.payload.None? {
        return Transient;
      }
      var p := command.value.payload.value;
      if p.userId == "" {
        p := p.(userId := command.value.aggregateId);
        if p.userId == "" {
          p := p.(userId := p.clientId);
        }
        if p.userId == "" {
          p := p.(userId := command.value.principalId);
        }
      }
      if TrimSpace(p.userId) == "" {
        return Permanent;
      }
      match ActionOf(command.value.operation) {
        case Creates =>
          if TrimSpace(p.passwordHash) == "" {
            if TrimSpace(p.password) == "" {
              return Permanent;
            }
            if bcrypt.None? {
              return Transient;
            }
            p := p.(passwordHash := bcrypt.value);
          }
        case Removes =>
        case Unsupported =>
          return Transient;
      }
      var ok := Apply(ActionOf(command.value.operation), p, e);
      if !ok {
        return Transient;
      }
      attempted := attempted + [RecoveryCompleted(command.value.commandId, p.userId)];
      result := if publishOk then Fine else Transient;
    }
  }

  // ---- what a success means ----

  lemma DeletionLeavesNothing(db: Database, call: Call)
    requires call.DeleteUser? && Admissible(db.rows, call) && Exec(db, call).committed
    ensures Slice(Exec(db, call).db.rows, call.user.value) == map[]
  {
    hide Judge, EffectOf, OrderOf;
    DeleteCascades(db, call);
  }

  /**
    Exactly when a planned use case reports no error. A create that succeeds has found no
    credential and left one; a delete that succeeds has found one and left no row of the user.
   */
  lemma SucceedsIff(p: Platform, db: Database, u: UseCase)
    requires Possible(p, db.rows, u) && (u.Add? || u.Remove?)
    ensures var user, e := p.parseUuid(u.userId), u.env;
            && (u.Add? ==>
                  (Succeeds(p, db, u) <==>
                     && CredentialInputError(u.userId, u.email, u.username, u.passwordHash).None?
                     && e.wire.Clean? && e.rolesWire.None? && user.Some? && !HasCredential(db.rows, user.value)
                     && !EmailTaken(db.rows, u.email)))
            && (u.Remove? ==>
                  (Succeeds(p, db, u) <==>
                     u.userId != "" && e.wire.Clean? && user.Some? && HasCredential(db.rows, user.value)))
    ensures Succeeds(p, db, u) ==>
              var user := p.parseUuid(u.userId).value;
              && (u.Add? ==> HasCredential(Serve(p, db, u).rows, user))
              && (u.Remove? ==> Slice(Serve(p, db, u).rows, user) == map[])
  {
    hide EffectOf, OrderOf, EmailTaken, CredentialInputError;
    if u.Add? {
      var call := Creation(p, u.userId, u.email, u.username, u.passwordHash, u.env);
      CommittedCall(db, call);
      if Succeeds(p, db, u) { CredentialAfter(db.rows, call, call.user.value); }
    } else if Succeeds(p, db, u) {
      DeletionLeavesNothing(db, Deletion(p, u.userId, u.env));
    }
  }

  // ---- what a command is read as ----

  /** The text is the word, up to the case of ASCII letters. */
  predicate Folds(s: string, word: string) {
    |s| == |word| && forall i :: 0 <= i < |s| ==>
      s[i] == word[i] || ('A' <= s[i] <= 'Z' && s[i] as int + 32 == word[i] as int)
  }

  lemma {:induction false} LowerMeans(s: string, word: string)
    requires forall i :: 0 <= i < |word| ==> !('A' <= word[i] <= 'Z')
    ensures ToLower(s) == word <==> Folds(s, word)
  {
    if s != [] && word != [] {
      LowerMeans(s[1..], word[1..]);
      assert s == [s[0]] + s[1..] && word == [word[0]] + word[1..];
      assert ToLower(s) == word <==> Lower(s[0]) == word[0] && ToLower(s[1..]) == word[1..];
      assert forall i :: 0 <= i < |s[1..]| ==> s[1..][i] == s[i + 1];
      assert forall i :: 0 <= i < |word[1..]| ==> word[1..][i] == word[i + 1];
      if Folds(s[1..], word[1..]) && |s| == |word| {
        assert forall i :: 0 < i < |s| ==> s[i] == s[1..][i - 1] && word[i] == word[1..][i - 1];
      }
    }
  }

  /** Which words ask for what. */
  lemma ActionFollowsWord(operation: string)
    ensures ActionOf(operation).Creates? <==> Folds(operation, "post") || Folds(operation, "create")
    ensures ActionOf(operation).Removes? <==> Folds(operation, "delete")
  {
    LowerMeans(operation, "post");
    LowerMeans(operation, "create");
    LowerMeans(operation, "delete");
  }

  /** The user is named by the first id given: the payload's, the aggregate's, the client's, the principal's. */
  lemma FirstIdCounts(command: Command, p: Payload, i: nat)
    requires var ids := [p.userId, command.aggregateId, p.clientId, command.principalId];
             i < 4 && (forall j :: 0 <= j < i ==> ids[j] == "") && (i < 3 ==> ids[i] != "")
    ensures UserIdOf(command, p) == [p.userId, command.aggregateId, p.clientId, command.principalId][i]
  {
    var ids := [p.userId, command.aggregateId, p.clientId, command.principalId];
    assert i > 0 ==> ids[0] == "";
    assert i > 1 ==> ids[1] == "";
    assert i > 2 ==> ids[2] == "";
  }

  /**
    A command to create that is carried out: the credential is stored with the hash given, or else
    with the one of the password, and the completion announced names command and user.
   */
  lemma CreationIsCarriedOut(p: Platform, w: World, command: Command, bcrypt: Option<string>, e: Env, publishOk: bool,
                             payload: Payload, u: Uuid)
    requires Workable(p, w.db.rows, Some(command), bcrypt, e) && e.wire.Clean? && e.rolesWire.None?
    requires Folds(command.aggregateType, "auth") && command.payload == Some(payload)
    requires Folds(command.operation, "post") || Folds(command.operation, "create")
    requires var hash := if TrimSpace(payload.passwordHash) != "" then Some(payload.passwordHash)
                         else if TrimSpace(payload.password) != "" then bcrypt else None;
             && hash.Some? && !Blank(UserIdOf(command, payload))
             && InputError(UserIdOf(command, payload), payload.email, payload.username, hash.value).None?
             && AddingError(w.db.rows, Some(u), payload.email).None?
    requires p.parseUuid(UserIdOf(command, payload)) == Some(u)
    ensures var h := RecoveryHandled(p, w, Some(command), bcrypt, e, publishOk);
            var hash := if TrimSpace(payload.passwordHash) != "" then payload.passwordHash else bcrypt.value;
            && h.world.db.rows
               == w.db.rows[CredentialKey(u) := Newcomer(u, payload.email, payload.username, hash, e.at)]
            && h.world.attempted
               == w.attempted + [RecoveryCompleted(command.commandId, UserIdOf(command, payload))]
            && h.result == if publishOk then Fine else Transient
  {
    hide ToLower, TrimSpace, AddCredential;
    LowerMeans(command.aggregateType, "auth");
    ActionFollowsWord(command.operation);
    var hash := if TrimSpace(payload.passwordHash) != "" then payload.passwordHash else bcrypt.value;
    AddingDecision(p, w.db, UserIdOf(command, payload), payload.email, payload.username, hash, e);
  }

  lemma EmptyIsBlank()
    ensures Blank("")
  {
  }

  /** A command to delete that is carried out leaves no row of the user, and is announced likewise. */
  lemma DeletionIsCarriedOut(p: Platform, w: World, command: Command, bcrypt: Option<string>, e: Env, publishOk: bool,
                             payload: Payload, u: Uuid)
    requires Workable(p, w.db.rows, Some(command), bcrypt, e) && e.wire.Clean?
    requires Folds(command.aggregateType, "auth") && command.payload == Some(payload)
    requires Folds(command.operation, "delete") && !Blank(UserIdOf(command, payload))
    requires p.parseUuid(UserIdOf(command, payload)) == Some(u) && CredentialKey(u) in w.db.rows
    ensures var h := RecoveryHandled(p, w, Some(command), bcrypt, e, publishOk);
            && h.world.db.rows == (map k | k in w.db.rows && !BelongsTo(w.db.rows[k], u) :: w.db.rows[k])
            && h.world.attempted
               == w.attempted + [RecoveryCompleted(command.commandId, UserIdOf(command, payload))]
            && h.result == if publishOk then Fine else Transient
  {
    hide ToLower, TrimSpace, RemoveCredential;
    LowerMeans(command.aggregateType, "auth");
    ActionFollowsWord(command.operation);
    EmptyIsBlank();
    DeletionDecision(p, w.db, UserIdOf(command, payload), e);
  }

  // ---- which commands are hopeless ----

  /** The command decodes and is meant for this service. */
  predicate Received(command: Option<Command>) {
    command.Some? && ToLower(command.value.aggregateType) == "auth" && command.value.payload.Some?
  }

  /** It also names a user. */
  predicate Addressed(command: Option<Command>) {
    Received(command) && !Blank(UserIdOf(command.value, command.value.payload.value))
  }

  /** The command is to create a credential, and brings neither a hash nor a password. */
  predicate LacksPassword(command: Command) {
    && ActionOf(command.operation).Creates? && command.payload.Some?
    && Blank(command.payload.value.passwordHash) && Blank(command.payload.value.password)
  }

  /** The command asks for something this service does, of a user the database can name, in full. */
  predicate Sound(p: Platform, command: Option<Command>) {
    && Addressed(command) && p.parseUuid(UserIdOf(command.value, command.value.payload.value)).Some?
    && match ActionOf(command.value.operation)
       case Creates =>
         && !Blank(command.value.payload.value.email) && !Blank(command.value.payload.value.username)
         && !LacksPassword(command.value)
       case Removes => true
       case Unsupported => false
  }

  /** No delivery of the command is handled, whatever the tables and whatever the environment brings. */
  ghost predicate NeverHandled(p: Platform, command: Option<Command>) {
    forall w: World, bcrypt, e, publishOk :: Workable(p, w.db.rows, command, bcrypt, e) ==>
      !RecoveryHandled(p, w, command, bcrypt, e, publishOk).result.Fine?
  }

  /** An environment in which nothing fails. */
  function Smooth(order: seq<Key>): (e: Env)
    ensures EnvOk(e) && e.wire.Clean? && e.rolesWire.None? && e.order == order
  {
    Env(0, 0, 0, 0, None, None, true, Clean, Clean, None, None, order, TokenKey(0))
  }

  lemma HandledIsSound(p: Platform, w: World, command: Option<Command>, bcrypt: Option<string>, e: Env, publishOk: bool)
    requires Workable(p, w.db.rows, command, bcrypt, e)
    requires RecoveryHandled(p, w, command, bcrypt, e, publishOk).result.Fine?
    ensures Sound(p, command)
  {
    hide ToLower, TrimSpace, Serve, Succeeds, Possible;
    SucceedsIff(p, w.db, Planned(command, bcrypt, e).value);
  }

  lemma HashIsNotBlank()
    ensures !Blank("x")
  {
  }

  /** A sound creation succeeds in the empty store. */
  lemma CreationIsHandled(p: Platform, command: Option<Command>)
    requires Sound(p, command) && ActionOf(command.value.operation).Creates?
    ensures !NeverHandled(p, command)
  {
    hide ToLower, TrimSpace, Serve, Succeeds;
    var w, bcrypt, e := World(EMPTY, []), Some("x"), Smooth([]);
    HashIsNotBlank();
    SucceedsIff(p, w.db, Planned(command, bcrypt, e).value);
    assert RecoveryHandled(p, w, command, bcrypt, e, true).result.Fine?;
  }

  /** The store of one user without codes, tokens or roles. */
  function Lonely(u: Uuid): (rows: Rows)
    ensures HasCredential(rows, u) && Enumerates([CredentialKey(u)], Slice(rows, u).Keys)
  {
    var rows: Rows := map[CredentialKey(u) := CredentialRow(NewCredential(u, "", "", "", 0))];
    assert Slice(rows, u) == rows;
    rows
  }

  /** A sound deletion succeeds in the store of its user alone. */
  lemma DeletionIsHandled(p: Platform, command: Option<Command>)
    requires Sound(p, command) && ActionOf(command.value.operation).Removes?
    ensures !NeverHandled(p, command)
  {
    hide ToLower, TrimSpace, Serve, Succeeds;
    var u := p.parseUuid(UserIdOf(command.value, command.value.payload.value)).value;
    var w, e := World(Database(Lonely(u), []), []), Smooth([CredentialKey(u)]);
    SucceedsIff(p, w.db, Planned(command, None, e).value);
    assert RecoveryHandled(p, w, command, None, e, true).result.Fine?;
  }

  /**
    A command is never handled, whatever happens, exactly if it is not sound: it does not decode or
    is not for this service, asks for something unsupported, names no user the database can read, or
    creates a credential without email, username, or both hash and password.
   */
  lemma NeverHandledIff(p: Platform, command: Option<Command>)
    ensures NeverHandled(p, command) <==> !Sound(p, command)
  {
    hide ToLower, TrimSpace, RecoveryHandled, Workable;
    if Sound(p, command) {
      if ActionOf(command.value.operation).Creates? {
        CreationIsHandled(p, command);
      } else {
        DeletionIsHandled(p, command);
      }
    } else {
      forall w: World, bcrypt, e, publishOk | Workable(p, w.db.rows, command, bcrypt, e)
        ensures !RecoveryHandled(p, w, command, bcrypt, e, publishOk).result.Fine?
      {
        if RecoveryHandled(p, w, command, bcrypt, e, publishOk).result.Fine? {
          HandledIsSound(p, w, command, bcrypt, e, publishOk);
        }
      }
    }
  }

  /**
    Which commands are marked permanent, so that they are not retried: of those that are never
    handled, the ones that name no user and the ones without hash and password. All others that are
    never handled are retried like a passing failure.
   */
  lemma PermanentIff(p: Platform, w: World, command: Option<Command>, bcrypt: Option<string>, e: Env, publishOk: bool)
    requires Workable(p, w.db.rows, command, bcrypt, e)
    ensures RecoveryHandled(p, w, command, bcrypt, e, publishOk).result.Permanent? <==>
              NeverHandled(p, command) && Received(command) && (!Addressed(command) || LacksPassword(command.value))
    ensures NeverHandled(p, command) && !RecoveryHandled(p, w, command, bcrypt, e, publishOk).result.Permanent? ==>
              RecoveryHandled(p, w, command, bcrypt, e, publishOk).result.Transient?
  {
    hide ToLower, TrimSpace, Serve, Succeeds, Possible, NeverHandled;
    NeverHandledIff(p, command);
    if RecoveryHandled(p, w, command, bcrypt, e, publishOk).result.Fine? {
      HandledIsSound(p, w, command, bcrypt, e, publishOk);
    }
  }

  // ---- retries over a run ----

  /** A recovery command delivered to its handler, or any other traffic. */
  datatype Happening =
    | Recover(command: Option<Command>, bcrypt: Option<string>, env: Env, publishOk: bool)
    | Other(delivery: Delivery)

  ghost predicate CanHappen(p: Platform, w: World, h: Happening) {
    match h
    case Recover(command, bcrypt, e, _) => Workable(p, w.db.rows, command, bcrypt, e)
    case Other(d) => Deliverable(p, w, d)
  }

  ghost function Happen(p: Platform, w: World, h: Happening): World
    requires CanHappen(p, w, h)
  {
    match h
    case Recover(command, bcrypt, e, publishOk) => RecoveryHandled(p, w, command, bcrypt, e, publishOk).world
    case Other(d) => Deliver(p, w, d)
  }

  ghost predicate Happens(p: Platform, s: World, h: Happening, t: World) {
    CanHappen(p, s, h) && t == Happen(p, s, h)
  }

  ghost predicate IsRecoveryRun(p: Platform, worlds: seq<World>, happenings: seq<Happening>) {
    && |worlds| == |happenings| + 1
    && forall i :: 0 <= i < |happenings| ==> Happens(p, worlds[i], happenings[i], worlds[i + 1])
  }

  /** How often the completion of a command has been announced. */
  function Completions(attempted: seq<Publication>, commandId: string): nat {
    if attempted == [] then 0
    else
      var last := attempted[|attempted| - 1];
      Completions(attempted[..|attempted| - 1], commandId)
      + if last.RecoveryCompleted? && last.commandId == commandId then 1 else 0
  }

  lemma CountOneMore(attempted: seq<Publication>, x: Publication, commandId: string)
    ensures Completions(attempted + [x], commandId)
            == Completions(attempted, commandId) + if x.RecoveryCompleted? && x.commandId == commandId then 1 else 0
  {
    assert (attempted + [x])[..|attempted|] == attempted;
  }

  /** The tables are as the command wants them, so there is nothing left for it to do. */
  predicate Done(rows: Rows, action: Action, u: Uuid) {
    match action
    case Creates => HasCredential(rows, u)
    case Removes => !HasCredential(rows, u)
    case Unsupported => true
  }

  predicate Targets(p: Platform, command: Command, u: Uuid) {
    command.payload.Some? && p.parseUuid(UserIdOf(command, command.payload.value)) == Some(u)
  }

  lemma RefusalChangesNothing(p: Platform, db: Database, u: UseCase)
    requires Possible(p, db.rows, u) && (u.Add? || u.Remove?) && p.parseUuid(u.userId).Some?
    requires HasCredential(db.rows, p.parseUuid(u.userId).value) <==> u.Add?
    ensures !Succeeds(p, db, u) && Serve(p, db, u) == db
  {
  }

  /** The delivery fails, and leaves store and publications as they were. */
  ghost predicate FailsIdly(p: Platform, w: World, h: Happening, after: World) {
    && h.Recover? && Workable(p, w.db.rows, h.command, h.bcrypt, h.env) && after == w
    && !RecoveryHandled(p, w, h.command, h.bcrypt, h.env, h.publishOk).result.Fine?
  }

  lemma PlanFollowsCommand(command: Command, bcrypt: Option<string>, e: Env)
    requires Planned(Some(command), bcrypt, e).Ok?
    ensures var u := Planned(Some(command), bcrypt, e).value;
            && command.payload.Some? && u.userId == UserIdOf(command, command.payload.value)
            && (u.Add? <==> ActionOf(command.operation).Creates?)
            && (u.Remove? <==> ActionOf(command.operation).Removes?)
  {
  }

  /** A delivery that comes when the tables are as it wants them is refused. */
  lemma LateDeliveryIsRefused(p: Platform, w: World, h: Happening, command: Command, u: Uuid)
    requires CanHappen(p, w, h) && h.Recover? && h.command == Some(command) && Targets(p, command, u)
    requires Done(w.db.rows, ActionOf(command.operation), u)
    ensures FailsIdly(p, w, h, Happen(p, w, h))
  {
    hide Serve, Succeeds, Possible, ToLower, TrimSpace, HasCredential;
    var plan := Planned(h.command, h.bcrypt, h.env);
    if plan.Ok? {
      PlanFollowsCommand(command, h.bcrypt, h.env);
      RefusalChangesNothing(p, w.db, plan.value);
    }
  }

  lemma PlannedHasCommand(command: Option<Command>, bcrypt: Option<string>, e: Env)
    requires Planned(command, bcrypt, e).Ok?
    ensures command.Some?
  {
  }

  lemma OthersAnnounceNothing(p: Platform, w: World, h: Happening, command: Command)
    requires CanHappen(p, w, h)
    requires h.Recover? && h.command.Some? ==> h.command.value.commandId != command.commandId
    ensures Completions(Happen(p, w, h).attempted, command.commandId) == Completions(w.attempted, command.commandId)
  {
    hide RegisterPending, RemoveCredential, Serve, Possible, Admissible, Succeeds, Planned;
    var before := w.attempted;
    match h
    case Recover(c, bcrypt, e, _) =>
      var plan := Planned(c, bcrypt, e);
      if plan.Ok? && Succeeds(p, w.db, plan.value) {
        PlannedHasCommand(c, bcrypt, e);
        CountOneMore(before, RecoveryCompleted(c.value.commandId, plan.value.userId), command.commandId);
      }
    case Other(ToCreate(c, e, _, _)) =>
      if c.Some? {
        var r := RegisterPending(p, w.db, c.value.userId, c.value.email, c.value.username, c.value.passwordHash, e);
        if r.result.Ok? {
          var success := CreateSucceeded(c.value, r.result.value.email, r.result.value.code);
          var mail := MailCode(c.value, r.result.value.email, r.result.value.code);
          CountOneMore(before, success, command.commandId);
          CountOneMore(before + [success], mail, command.commandId);
          assert before + [success, mail] == before + [success] + [mail];
        } else {
          CountOneMore(before, CreateFailed(c.value, r.result.error), command.commandId);
        }
      }
    case Other(ToDelete(t, e, _)) =>
      if t.Some? {
        var r := RemoveCredential(p, w.db, t.value.userId, e);
        CountOneMore(before, if r.result.Err? then DeleteFailed(t.value, r.result.error) else DeleteSucceeded(t.value),
            command.commandId);
      }
    case Other(Elsewhere(_)) =>
  }

  /** The deliveries of one command, told by its id. */
  predicate Carries(h: Happening, commandId: string) {
    h.Recover? && h.command.Some? && h.command.value.commandId == commandId
  }

  /**
    A recovery command whose effect is there but was not announced is never completed by a retry:
    through any run in which the tables stay as it wants them, whatever else happens, every delivery
    of it fails and changes nothing, and its completion is not announced again.
   */
  lemma {:induction false} RetriesNeverComplete(p: Platform, worlds: seq<World>, happenings: seq<Happening>,
                                                command: Command, u: Uuid, n: nat)
    requires IsRecoveryRun(p, worlds, happenings) && n <= |happenings| && Targets(p, command, u)
    requires forall i :: 0 <= i < n && Carries(happenings[i], command.commandId) ==>
          happenings[i].command == Some(command)
    requires forall i :: 0 <= i <= n ==> Done(worlds[i].db.rows, ActionOf(command.operation), u)
    ensures Completions(worlds[n].attempted, command.commandId) == Completions(worlds[0].attempted, command.commandId)
    ensures forall i :: 0 <= i < n && Carries(happenings[i], command.commandId) ==>
          FailsIdly(p, worlds[i], happenings[i], worlds[i + 1])
  {
    hide RecoveryHandled, Workable, Happen, CanHappen, Done, Targets;
    if n > 0 {
      var k := n - 1;
      RetriesNeverComplete(p, worlds, happenings, command, u, k);
      assert Happens(p, worlds[k], happenings[k], worlds[n]);
      if Carries(happenings[k], command.commandId) {
        LateDeliveryIsRefused(p, worlds[k], happenings[k], command, u);
      } else {
        OthersAnnounceNothing(p, worlds[k], happenings[k], command);
      }
    }
  }

  lemma CallMeansDone(db: Database, call: Call, u: Uuid)
    requires Admissible(db.rows, call) && (call.CreateCredential? || call.DeleteUser?) && call.user == Some(u)
    requires Exec(db, call).db != db
    ensures HasCredential(Exec(db, call).db.rows, u) <==> call.CreateCredential?
  {
    hide Judge, EffectOf, OrderOf, Admissible;
    CommittedCall(db, call);
    CredentialAfter(db.rows, call, u);
  }

  /** A delivery that changes the store leaves it as the command wants it. */
  lemma EffectMeansDone(p: Platform, w: World, h: Happening, command: Command, u: Uuid)
    requires CanHappen(p, w, h) && h.Recover? && h.command == Some(command) && Targets(p, command, u)
    requires Happen(p, w, h).db != w.db
    ensures Done(Happen(p, w, h).db.rows, ActionOf(command.operation), u)
  {
    hide Judge, EffectOf, OrderOf, Exec, ToLower, TrimSpace;
    PlanFollowsCommand(command, h.bcrypt, h.env);
    var plan := Planned(h.command, h.bcrypt, h.env).value;
    if plan.Add? {
      CallMeansDone(w.db, Creation(p, plan.userId, plan.email, plan.username, plan.passwordHash, h.env), u);
    } else {
      CallMeansDone(w.db, Deletion(p, plan.userId, h.env), u);
    }
  }

  /**
    From the delivery on that took effect: as long as the credential stays as it left it, no retry
    of the command succeeds, changes anything, or announces its completion.
   */
  lemma UnannouncedNeverCompletes(p: Platform, worlds: seq<World>, happenings: seq<Happening>, command: Command,
                                  u: Uuid, n: nat)
    requires IsRecoveryRun(p, worlds, happenings) && 0 < n <= |happenings| && Targets(p, command, u)
    requires happenings[0].Recover? && happenings[0].command == Some(command) && worlds[1].db != worlds[0].db
    requires forall i :: 0 < i < n && Carries(happenings[i], command.commandId) ==>
          happenings[i].command == Some(command)
    requires forall i :: 1 < i <= n ==> Done(worlds[i].db.rows, ActionOf(command.operation), u)
    ensures Completions(worlds[n].attempted, command.commandId) == Completions(worlds[1].attempted, command.commandId)
    ensures forall i :: 0 < i < n && Carries(happenings[i], command.commandId) ==>
          FailsIdly(p, worlds[i], happenings[i], worlds[i + 1])
  {
    hide FailsIdly, Happen, CanHappen, Done, Targets;
    assert Happens(p, worlds[0], happenings[0], worlds[1]);
    EffectMeansDone(p, worlds[0], happenings[0], command, u);
    var later, rest := worlds[1..], happenings[1..];
    forall i | 0 <= i < |rest| ensures Happens(p, later[i], rest[i], later[i + 1]) {
      assert Happens(p, worlds[i + 1], happenings[i + 1], worlds[i + 2]);
    }
    RetriesNeverComplete(p, later, rest, command, u, n - 1);
    forall i | 0 < i < n && Carries(happenings[i], command.commandId)
      ensures FailsIdly(p, worlds[i], happenings[i], worlds[i + 1])
    {
      assert rest[i - 1] == happenings[i];
    }
  }

  /** The reply to the creation is lost. */
  lemma CreatesUnnoticed(p: Platform, plan: UseCase)
    requires plan.Add? && Possible(p, EMPTY.rows, plan) && plan.env.wire.ReplyLost? && p.parseUuid(plan.userId).Some?
    requires CredentialInputError(plan.userId, plan.email, plan.username, plan.passwordHash).None?
    ensures !Succeeds(p, EMPTY, plan) && HasCredential(Serve(p, EMPTY, plan).rows, p.parseUuid(plan.userId).value)
  {
  }

  /**
    This can become of every sound command to create a credential: its first delivery takes effect
    and the reply is lost; the second one, with which nothing goes wrong, fails, as does any later one.
   */
  lemma UnannouncedHappens(p: Platform, command: Command, u: Uuid)
    returns (worlds: seq<World>, happenings: seq<Happening>)
    requires Sound(p, Some(command)) && ActionOf(command.operation).Creates? && Targets(p, command, u)
    ensures |happenings| == 2 && IsRecoveryRun(p, worlds, happenings) && worlds[0] == World(EMPTY, [])
    ensures forall i :: 0 <= i < 2 ==> happenings[i].Recover? && happenings[i].command == Some(command)
    ensures happenings[1].env == Smooth([]) && happenings[1].publishOk
    ensures FailsIdly(p, worlds[1], happenings[1], worlds[2])
    ensures worlds[1].db != worlds[0].db && HasCredential(worlds[2].db.rows, u)
    ensures Completions(worlds[2].attempted, command.commandId) == 0
  {
    hide ToLower, TrimSpace, Serve, Succeeds;
    HashIsNotBlank();
    var w0 := World(EMPTY, []);
    var first := Recover(Some(command), Some("x"), Smooth([]).(wire := ReplyLost), true);
    CreatesUnnoticed(p, Planned(first.command, first.bcrypt, first.env).value);
    var w1 := Happen(p, w0, first);
    var second := Recover(Some(command), Some("x"), Smooth([]), true);
    LateDeliveryIsRefused(p, w1, second, command, u);
    worlds, happenings := [w0, w1, w1], [first, second];
    assert Happens(p, w0, first, w1) && Happens(p, w1, second, w1);
  }
}
