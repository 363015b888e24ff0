/** What every run of whole use cases keeps, and how often a credential can become verified. */
module ServiceRuns {
  import opened Wrappers
  import opened Text
  import opened Tables
  import opened Statements
  import opened Repository
  import opened RepositoryRuns
  import opened TokenRuns
  import opened Decisions
  import opened Service

  datatype UseCase =
    | Add(userId: string, email: string, username: string, passwordHash: string, env: Env)
    | Register(userId: string, email: string, username: string, passwordHash: string, env: Env)
    | Confirm(userId: string, code: string, env: Env)
    | Issue(userId: string, env: Env)
    | SignIn(identifier: string, password: string, env: Env)
    | Refresh(refreshToken: string, env: Env)
    | SignOut(refreshToken: string, env: Env)
    | Compensate(userId: string, env: Env)
    | Remove(userId: string, env: Env)

  /** The environment's choices are possible ones. */
  ghost predicate Possible(p: Platform, rows: Rows, u: UseCase) {
    && EnvOk(u.env)
    && match u
       case Confirm(userId, code, e) => Admissible(rows, Verification(p, userId, code, e))
       case SignIn(identifier, _, e) => PicksIdentified(rows, TrimSpace(identifier), e.pick)
       case Refresh(token, e) => e.token.Some? ==> Admissible(rows, Rotation(p, token, e.token.value, e))
       case SignOut(token, e) => Admissible(rows, Revocation(token, e))
       case Remove(userId, e) => Admissible(rows, Deletion(p, userId, e))
       case _ => true
  }

  /** The database after a use case. */
  ghost function Serve(p: Platform, db: Database, u: UseCase): Database
    requires Possible(p, db.rows, u)
  {
    match u
    case Add(userId, email, username, passwordHash, e) =>
      AddCredential(p, db, userId, email, username, passwordHash, e).db
    case Register(userId, email, username, passwordHash, e) =>
      RegisterPending(p, db, userId, email, username, passwordHash, e).db
    case Confirm(userId, code, e) => ConfirmEmail(p, db, userId, code, e).db
    case Issue(userId, e) => IssueTokens(p, db, userId, e).db
    case SignIn(identifier, password, e) => OpenSession(p, db, identifier, password, e).db
    case Refresh(token, e) => RefreshTokens(p, db, token, e).db
    case SignOut(token, e) => EndSession(db, token, e).db
    case Compensate(userId, e) => Deactivate(p, db, userId, e).db
    case Remove(userId, e) => RemoveCredential(p, db, userId, e).db
  }

  /** No table keeps a use case from being tried: for some choice of the environment it is possible. */
  lemma EveryUseCaseIsPossible(p: Platform, rows: Rows, u: UseCase) returns (pick: Key, order: seq<Key>)
    requires EnvOk(u.env)
    ensures Possible(p, rows, u.(env := u.env.(pick := pick, order := order)))
  {
    pick, order := u.env.pick, [];
    match u {
      case Confirm(userId, code, e) =>
        var user := p.parseUuid(TrimSpace(userId));
        if user.Some? { order := SomeOrder(Verified(rows, user.value, Sha256(TrimSpace(code)), e.now)); }
      case SignIn(identifier, _, _) =>
        if Identified(rows, TrimSpace(identifier)) != {} { pick :| pick in Identified(rows, TrimSpace(identifier)); }
      case Refresh(token, _) =>
        if Matches(rows, Sha256(TrimSpace(token))) != {} { pick :| pick in Matches(rows, Sha256(TrimSpace(token))); }
      case SignOut(token, _) =>
        if Matches(rows, Sha256(TrimSpace(token))) != {} { pick :| pick in Matches(rows, Sha256(TrimSpace(token))); }
      case Remove(userId, _) =>
        if p.parseUuid(userId).Some? { order := SomeOrder(Slice(rows, p.parseUuid(userId).value).Keys); }
      case _ =>
    }
  }

  // ---- a use case as a short run of repository calls ----

  predicate NoCodes(rows: Rows, u: Uuid) {
    forall k :: k in rows && rows[k].CodeRow? ==> rows[k].code.userId != u
  }

  /** A call that a use case makes only when the tables vouch for it. */
  ghost predicate Vouched(rows: Rows, call: Call) {
    match call
    case CreateCode(_, user, _, _, _, _) => user.Some? ==> NoCodes(rows, user.value)
    case CreateToken(_, user, _, _, _, _) => user.Some? && IsVerified(rows, user.value)
    case GrantRole(_, _, _, _) => false
    case _ => true
  }

  ghost predicate VouchedStep(s: Database, call: Call, t: Database) {
    StepsTo(s, call, t) && Vouched(s.rows, call)
  }

  /** The digest of the token a call would store. */
  function NewDigest(call: Call): Option<Digest> {
    match call
    case CreateToken(_, _, hash, _, _, _) => Some(hash)
    case RotateToken(_, _, newHash, _, _, _, _, _) => Some(newHash)
    case _ => None
  }

  /** A call stores no token but the one the environment has drawn. */
  predicate DrawnBy(call: Call, e: Env) {
    NewDigest(call).Some? ==> e.token.Some? && NewDigest(call).value == Sha256(e.token.value)
  }

  /** One repository call, two of them, or none. */
  ghost predicate ShortRun(e: Env, s: Database, t: Database) {
    || t == s
    || (exists call :: VouchedStep(s, call, t) && !call.CreateCode? && DrawnBy(call, e))
    || (exists a: Call, b: Call :: a.CreateCredential? && b.CreateCode? && a.user == b.user
          && StepsTo(s, a, Exec(s, a).db) && Exec(s, a).committed && VouchedStep(Exec(s, a).db, b, t))
  }

  lemma OneCall(e: Env, s: Database, call: Call)
    requires Admissible(s.rows, call) && Vouched(s.rows, call) && !call.CreateCode? && DrawnBy(call, e)
    ensures ShortRun(e, s, Exec(s, call).db)
  {
    assert VouchedStep(s, call, Exec(s, call).db);
  }

  lemma CommittedCreation(db: Database, call: Call)
    requires call.CreateCredential? && Exec(db, call).committed
    ensures call.user.Some? && !HasCredential(db.rows, call.user.value)
  {
  }

  lemma NewUserHasNoCodes(db: Database, call: Call)
    requires NoOrphans(db.rows) && call.CreateCredential? && Exec(db, call).committed
    ensures call.user.Some? && NoCodes(Exec(db, call).db.rows, call.user.value)
  {
    hide Judge, EffectOf, OrderOf;
    CommittedCall(db, call);
    CommittedCreation(db, call);
    var u := call.user.value;
    forall k | k in After(db.rows, call) && After(db.rows, call)[k].CodeRow?
      ensures After(db.rows, call)[k].code.userId != u
    {
      assert KeyOf(After(db.rows, call)[k]) == k;
      CodeAfter(db.rows, call, k);
      OwnerAfter(db.rows, call, k);
    }
    assert NoCodes(After(db.rows, call), u);
  }

  lemma RegisterIsShort(p: Platform, db: Database, u: UseCase)
    requires u.Register? && Possible(p, db.rows, u) && NoOrphans(db.rows)
    ensures ShortRun(u.env, db, Serve(p, db, u))
  {
    hide Judge, EffectOf, OrderOf, GenerateCode;
    var a := Creation(p, u.userId, u.email, u.username, u.passwordHash, u.env);
    var created := AddCredential(p, db, u.userId, u.email, u.username, u.passwordHash, u.env);
    if CredentialInputError(u.userId, u.email, u.username, u.passwordHash).None? {
      OneCall(u.env, db, a);
      var code := GenerateCode(p.fixedCode, u.env.entropy);
      if created.result.Ok? && code.Some? {
        CommittedCall(db, a);
        NewUserHasNoCodes(db, a);
        var b := CodeCreation(p, u.userId, code.value, u.env);
        assert StepsTo(db, a, created.db) && VouchedStep(created.db, b, Exec(created.db, b).db);
      }
    }
  }

  lemma GrantIsShort(p: Platform, db: Database, claims: Principal, e: Env)
    requires IsVerified(db.rows, claims.credential.userId)
    ensures ShortRun(e, db, Grant(p, db, claims, e).db)
  {
    hide Judge, EffectOf, OrderOf;
    if e.signs && e.token.Some? {
      OneCall(e, db, TokenCreation(p, claims.credential.userId, e.token.value, e));
    }
  }

  lemma StaysPut(e: Env, db: Database)
    ensures ShortRun(e, db, db)
  {
  }

  lemma IssueIsShort(p: Platform, db: Database, userId: string, e: Env)
    ensures ShortRun(e, db, IssueTokens(p, db, userId, e).db)
  {
    hide Judge, EffectOf, OrderOf, Grant, ShortRun;
    assert ShortRun(e, db, db) by { StaysPut(e, db); }
    var found := GetByUserID(db.rows, p.parseUuid(TrimSpace(userId)), e.readWire, e.rolesWire);
    if found.Ok? && found.value.credential.status == EmailVerified {
      GrantIsShort(p, db, found.value, e);
    }
  }

  lemma SignInIsShort(p: Platform, db: Database, identifier: string, password: string, e: Env)
    requires PicksIdentified(db.rows, TrimSpace(identifier), e.pick)
    ensures ShortRun(e, db, OpenSession(p, db, identifier, password, e).db)
  {
    hide Judge, EffectOf, OrderOf, Grant, ShortRun;
    assert ShortRun(e, db, db) by { StaysPut(e, db); }
    var found := GetByIdentifier(db.rows, TrimSpace(identifier), e.pick, e.readWire);
    if found.Ok? && found.value.status == EmailVerified {
      assert KeyOf(db.rows[e.pick]) == e.pick;
      GrantIsShort(p, db, Principal(found.value, {}), e);
    }
  }

  /**
    Every use case is a short run of repository calls, and creates codes and tokens only where the
    tables vouch for it.
   */
  lemma UseCaseIsShort(p: Platform, db: Database, u: UseCase)
    requires Possible(p, db.rows, u) && NoOrphans(db.rows)
    ensures ShortRun(u.env, db, Serve(p, db, u))
  {
    hide Exec, Judge, EffectOf, OrderOf, ShortRun, RegisterPending, IssueTokens, OpenSession, WithRoles, Failure,
        Admissible, TrimSpace;
    StaysPut(u.env, db);
    match u
    case Add(userId, email, username, passwordHash, e) =>
      OneCall(e, db, Creation(p, userId, email, username, passwordHash, e));
    case Register(_, _, _, _, _) => RegisterIsShort(p, db, u);
    case Confirm(userId, code, e) => OneCall(e, db, Verification(p, userId, code, e));
    case Issue(userId, e) => IssueIsShort(p, db, userId, e);
    case SignIn(identifier, password, e) => SignInIsShort(p, db, identifier, password, e);
    case Refresh(token, e) => if e.token.Some? { OneCall(e, db, Rotation(p, token, e.token.value, e)); }
    case SignOut(token, e) => OneCall(e, db, Revocation(token, e));
    case Compensate(userId, e) => OneCall(e, db, Deactivation(p, userId, e));
    case Remove(userId, e) => OneCall(e, db, Deletion(p, userId, e));
  }

  // ---- the cross-table invariant ----

  predicate OneCodePerUser(rows: Rows) {
    forall a, b :: a in rows && b in rows && rows[a].CodeRow? && rows[b].CodeRow? ==>
      rows[a].code.userId == rows[b].code.userId ==> a == b
  }

  predicate TokensNeedUsedCode(rows: Rows) {
    forall k :: k in rows && rows[k].TokenRow? ==> HasUsedCode(rows, rows[k].token.userId)
  }

  ghost predicate CrossTable(rows: Rows) {
    Integrity(rows) && OneCodePerUser(rows) && TokensNeedUsedCode(rows)
  }

  /** At the moment of the call, its user has no code when it creates one, and a used one when it stores a token. */
  predicate Founded(rows: Rows, call: Call) {
    match call
    case CreateCode(_, user, _, _, _, _) => user.Some? ==> NoCodes(rows, user.value)
    case CreateToken(_, user, _, _, _, _) => user.Some? && HasUsedCode(rows, user.value)
    case _ => true
  }

  lemma VouchedIsFounded(rows: Rows, call: Call)
    requires Vouched(rows, call) && Integrity(rows)
    ensures Founded(rows, call)
  {
  }

  lemma CallKeepsOneCode(rows: Rows, call: Call)
    requires Admissible(rows, call) && Judge(rows, call).Allow? && OneCodePerUser(rows)
    requires call.CreateCode? ==> Founded(rows, call)
    ensures OneCodePerUser(After(rows, call))
  {
    hide Judge, EffectOf, OrderOf;
    var after := After(rows, call);
    forall a, b | a in after && b in after && after[a].CodeRow? && after[b].CodeRow?
        && after[a].code.userId == after[b].code.userId
      ensures a == b
    {
      assert KeyOf(after[a]) == a && KeyOf(after[b]) == b;
      CodeAfter(rows, call, a);
      CodeAfter(rows, call, b);
      OwnerAfter(rows, call, a);
      OwnerAfter(rows, call, b);
    }
  }

  /** Whoever holds a token after a call had used a code before it, and was not deleted by it. */
  lemma HolderHadUsedCode(rows: Rows, call: Call, k: Key)
    requires Admissible(rows, call) && Judge(rows, call).Allow? && TokensNeedUsedCode(rows)
    requires call.CreateToken? ==> Founded(rows, call)
    requires k in After(rows, call) && After(rows, call)[k].TokenRow?
    ensures var u := After(rows, call)[k].token.userId; HasUsedCode(rows, u) && !Deletes(call, u)
  {
    hide Judge, EffectOf, OrderOf, HasUsedCode;
    assert KeyOf(After(rows, call)[k]) == k;
    TokenAfter(rows, call, k);
    OwnerAfter(rows, call, k);
    if Redeems(call) {
      RedeemedIsToken(rows, call);
      TokenAfter(rows, call, call.pick);
    }
  }

  lemma CallKeepsUsedCodes(rows: Rows, call: Call)
    requires Admissible(rows, call) && Judge(rows, call).Allow? && TokensNeedUsedCode(rows)
    requires call.CreateToken? ==> Founded(rows, call)
    ensures TokensNeedUsedCode(After(rows, call))
  {
    hide Judge, EffectOf, OrderOf, HasUsedCode;
    forall k | k in After(rows, call) && After(rows, call)[k].TokenRow?
      ensures HasUsedCode(After(rows, call), After(rows, call)[k].token.userId)
    {
      HolderHadUsedCode(rows, call, k);
      UsedCodesStay(rows, call, After(rows, call)[k].token.userId);
    }
  }

  lemma CallKeepsCrossTable(db: Database, call: Call)
    requires Admissible(db.rows, call) && Vouched(db.rows, call) && CrossTable(db.rows)
    ensures CrossTable(Exec(db, call).db.rows)
  {
    hide Judge, EffectOf, OrderOf;
    CommittedCall(db, call);
    CallKeepsIntegrity(db, call);
    if Judge(db.rows, call).Allow? {
      VouchedIsFounded(db.rows, call);
      CallKeepsOneCode(db.rows, call);
      CallKeepsUsedCodes(db.rows, call);
    }
  }

  lemma CrossTableMeans(rows: Rows)
    requires CrossTable(rows)
    ensures NoOrphans(rows)
  {
  }

  /** Every use case, however it fails, keeps the cross-table invariant. */
  lemma UseCaseKeepsCrossTable(p: Platform, db: Database, u: UseCase)
    requires Possible(p, db.rows, u) && CrossTable(db.rows)
    ensures CrossTable(Serve(p, db, u).rows)
  {
    hide Exec, Judge, CrossTable, Serve;
    assert NoOrphans(db.rows) by { CrossTableMeans(db.rows); }
    UseCaseIsShort(p, db, u);
    var t := Serve(p, db, u);
    if t != db {
      if call :| VouchedStep(db, call, t) && !call.CreateCode? {
        CallKeepsCrossTable(db, call);
      } else {
        var a: Call, b: Call :| a.CreateCredential? && b.CreateCode? && a.user == b.user
          && StepsTo(db, a, Exec(db, a).db) && Exec(db, a).committed && VouchedStep(Exec(db, a).db, b, t);
        CallKeepsCrossTable(db, a);
        CallKeepsCrossTable(Exec(db, a).db, b);
      }
    }
  }

  ghost predicate Serves(p: Platform, s: Database, u: UseCase, t: Database) {
    Possible(p, s.rows, u) && t == Serve(p, s, u)
  }

  ghost predicate IsServiceRun(p: Platform, states: seq<Database>, cases: seq<UseCase>) {
    && |states| == |cases| + 1
    && forall i :: 0 <= i < |cases| ==> Serves(p, states[i], cases[i], states[i + 1])
  }

  /** Every run of use cases goes on with any use case that is possible where it ends. */
  lemma ServiceRunGoesOn(p: Platform, states: seq<Database>, cases: seq<UseCase>, u: UseCase)
    requires IsServiceRun(p, states, cases) && Possible(p, states[|cases|].rows, u)
    ensures IsServiceRun(p, states + [Serve(p, states[|cases|], u)], cases + [u])
  {
    hide Serve, Possible;
    var longer := states + [Serve(p, states[|cases|], u)];
    forall i | 0 <= i < |cases + [u]| ensures Serves(p, longer[i], (cases + [u])[i], longer[i + 1]) {
      if i < |cases| { assert Serves(p, states[i], cases[i], states[i + 1]); }
    }
  }

  lemma EmptyIsConsistent()
    ensures CrossTable(EMPTY.rows)
  {
  }

  /**
    Over any run of use cases: emails are unique, every child row has its credential, the verified
    flag agrees with the status, a user has at most one code, and whoever is verified or holds a
    refresh token has used a code. It holds of the empty store, where every run begins.
   */
  lemma {:induction false} CrossTableAlways(p: Platform, states: seq<Database>, cases: seq<UseCase>, n: nat)
    requires IsServiceRun(p, states, cases) && (states[0] == EMPTY || CrossTable(states[0].rows)) && n <= |cases|
    ensures CrossTable(states[n].rows)
  {
    hide CrossTable, Serve, Possible;
    EmptyIsConsistent();
    if n > 0 {
      CrossTableAlways(p, states, cases, n - 1);
      assert Serves(p, states[n - 1], cases[n - 1], states[n]);
      UseCaseKeepsCrossTable(p, states[n - 1], cases[n - 1]);
    }
  }

  // ---- a credential becomes verified at most once ----

  /** The user has no code left to use. */
  predicate CodesUsedUp(rows: Rows, u: Uuid) {
    forall k :: k in rows && rows[k].CodeRow? && rows[k].code.userId == u ==> rows[k].code.usedAt.Some?
  }

  lemma CallKeepsCodesUsedUp(db: Database, call: Call, u: Uuid)
    requires Admissible(db.rows, call) && HasCredential(db.rows, u) && CodesUsedUp(db.rows, u)
    requires call.CreateCode? ==> call.user != Some(u)
    ensures CodesUsedUp(Exec(db, call).db.rows, u)
    ensures HasCredential(Exec(db, call).db.rows, u) && !IsVerified(db.rows, u) ==>
          !IsVerified(Exec(db, call).db.rows, u)
  {
    hide EffectOf, OrderOf;
    CommittedCall(db, call);
    if Judge(db.rows, call).Allow? {
      CredentialAfter(db.rows, call, u);
      forall k | k in After(db.rows, call) && After(db.rows, call)[k].CodeRow?
          && After(db.rows, call)[k].code.userId == u
        ensures After(db.rows, call)[k].code.usedAt.Some?
      {
        assert KeyOf(After(db.rows, call)[k]) == k;
        CodeAfter(db.rows, call, k);
        OwnerAfter(db.rows, call, k);
      }
    }
  }

  lemma CreatedIsOther(db: Database, a: Call, u: Uuid)
    requires a.CreateCredential? && Exec(db, a).committed && HasCredential(db.rows, u)
    ensures a.user != Some(u) && HasCredential(Exec(db, a).db.rows, u)
  {
    CommittedCall(db, a);
    CredentialAfter(db.rows, a, u);
  }

  /** Whoever has no unused code gets none, and stays unverified, as long as the credential lives. */
  lemma UseCaseKeepsCodesUsedUp(p: Platform, db: Database, c: UseCase, u: Uuid)
    requires Possible(p, db.rows, c) && NoOrphans(db.rows) && HasCredential(db.rows, u) && CodesUsedUp(db.rows, u)
    requires HasCredential(Serve(p, db, c).rows, u)
    ensures CodesUsedUp(Serve(p, db, c).rows, u)
    ensures !IsVerified(db.rows, u) ==> !IsVerified(Serve(p, db, c).rows, u)
  {
    hide Exec, Judge, Serve, CodesUsedUp, NoOrphans, IsVerified;
    UseCaseIsShort(p, db, c);
    var t := Serve(p, db, c);
    if t != db {
      if call :| VouchedStep(db, call, t) && !call.CreateCode? {
        CallKeepsCodesUsedUp(db, call, u);
      } else {
        var a: Call, b: Call :| a.CreateCredential? && b.CreateCode? && a.user == b.user
          && StepsTo(db, a, Exec(db, a).db) && Exec(db, a).committed && VouchedStep(Exec(db, a).db, b, t);
        CreatedIsOther(db, a, u);
        CallKeepsCodesUsedUp(db, a, u);
        CallKeepsCodesUsedUp(Exec(db, a).db, b, u);
      }
    }
  }

  lemma StepKeepsCodesUsedUp(p: Platform, states: seq<Database>, cases: seq<UseCase>, u: Uuid, i: nat)
    requires IsServiceRun(p, states, cases) && CrossTable(states[0].rows) && i < |cases|
    requires HasCredential(states[i].rows, u) && HasCredential(states[i + 1].rows, u) && CodesUsedUp(states[i].rows, u)
    ensures CodesUsedUp(states[i + 1].rows, u)
    ensures !IsVerified(states[i].rows, u) ==> !IsVerified(states[i + 1].rows, u)
  {
    hide CodesUsedUp, IsVerified, Serve, Possible, CrossTable, NoOrphans;
    assert Serves(p, states[i], cases[i], states[i + 1]);
    CrossTableAlways(p, states, cases, i);
    CrossTableMeans(states[i].rows);
    UseCaseKeepsCodesUsedUp(p, states[i], cases[i], u);
  }

  lemma {:induction false} CodesStayUsedUp(p: Platform, states: seq<Database>, cases: seq<UseCase>, u: Uuid, a: nat,
                                           c: nat)
    requires IsServiceRun(p, states, cases) && CrossTable(states[0].rows) && a <= c <= |cases|
    requires forall i :: a <= i <= c ==> HasCredential(states[i].rows, u)
    requires CodesUsedUp(states[a].rows, u)
    ensures CodesUsedUp(states[c].rows, u)
    ensures !IsVerified(states[a].rows, u) ==> !IsVerified(states[c].rows, u)
  {
    hide *;
    if a < c {
      CodesStayUsedUp(p, states, cases, u, a, c - 1);
      StepKeepsCodesUsedUp(p, states, cases, u, c - 1);
    }
  }

  lemma VerifiedHasUsedUp(rows: Rows, u: Uuid)
    requires CrossTable(rows) && IsVerified(rows, u)
    ensures CodesUsedUp(rows, u)
  {
  }

  /**
    While its row exists, a credential becomes verified at most once: verified at one moment and
    unverified at a later one (deactivated, that is), it is unverified for the rest of its life.
   */
  lemma VerifiedAtMostOnce(p: Platform, states: seq<Database>, cases: seq<UseCase>, u: Uuid, a: nat, b: nat, c: nat)
    requires IsServiceRun(p, states, cases) && CrossTable(states[0].rows) && a <= b <= c <= |cases|
    requires forall i :: a <= i <= c ==> HasCredential(states[i].rows, u)
    requires IsVerified(states[a].rows, u) && !IsVerified(states[b].rows, u)
    ensures !IsVerified(states[c].rows, u)
  {
    CrossTableAlways(p, states, cases, a);
    VerifiedHasUsedUp(states[a].rows, u);
    CodesStayUsedUp(p, states, cases, u, a, b);
    CodesStayUsedUp(p, states, cases, u, b, c);
  }

  lemma AddIsOneCall(p: Platform, db: Database, c: UseCase)
    requires c.Add? && Possible(p, db.rows, c)
    ensures Serve(p, db, c) == db
        || Serve(p, db, c) == Exec(db, Creation(p, c.userId, c.email, c.username, c.passwordHash, c.env)).db
  {
    hide Exec;
  }

  lemma AddIssuesNoCode(p: Platform, db: Database, c: UseCase, u: Uuid)
    requires c.Add? && Possible(p, db.rows, c) && CrossTable(db.rows)
    requires !HasCredential(db.rows, u) && HasCredential(Serve(p, db, c).rows, u)
    ensures CodesUsedUp(Serve(p, db, c).rows, u) && !IsVerified(Serve(p, db, c).rows, u)
  {
    hide Exec, Judge, EffectOf, OrderOf, Serve, OneCodePerUser, TokensNeedUsedCode, HasUsedCode, Admissible;
    AddIsOneCall(p, db, c);
    var call := Creation(p, c.userId, c.email, c.username, c.passwordHash, c.env);
    CommittedCall(db, call);
    CredentialAfter(db.rows, call, u);
    NewUserHasNoCodes(db, call);
  }

  /** A credential created by the recovery path, which issues no code, never becomes verified. */
  lemma RecoveredIsNeverVerified(p: Platform, states: seq<Database>, cases: seq<UseCase>, u: Uuid, a: nat, c: nat)
    requires IsServiceRun(p, states, cases) && CrossTable(states[0].rows) && a < c <= |cases|
    requires cases[a].Add? && !HasCredential(states[a].rows, u)
    requires forall i :: a < i <= c ==> HasCredential(states[i].rows, u)
    ensures !IsVerified(states[c].rows, u)
  {
    assert Serves(p, states[a], cases[a], states[a + 1]);
    CrossTableAlways(p, states, cases, a);
    AddIssuesNoCode(p, states[a], cases[a], u);
    CodesStayUsedUp(p, states, cases, u, a + 1, c);
  }
}
