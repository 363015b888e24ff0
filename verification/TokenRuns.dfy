/** Refresh tokens over every run of repository calls: conservation, single redemption and rotation lineage. */
module TokenRuns {
  import opened Wrappers
  import opened Tables
  import opened Statements
  import opened RepositoryRuns

  predicate Redeems(call: Call) {
    call.RotateToken? || call.RevokeToken?
  }

  /** The token row a call would insert. */
  function NewToken(call: Call): Option<Key> {
    match call
    case CreateToken(id, _, _, _, _, _) => Some(TokenKey(id))
    case RotateToken(_, newId, _, _, _, _, _, _) => Some(TokenKey(newId))
    case _ => None
  }

  predicate Deletes(call: Call, u: Uuid) {
    call.DeleteUser? && call.user == Some(u)
  }

  lemma OldTokenAfter(rows: Rows, call: Call, k: Key)
    requires Admissible(rows, call) && Judge(rows, call).Allow? && k.TokenKey? && k in rows
    ensures rows[k].TokenRow? && rows[k].token.id == k.id && NewToken(call) != Some(k)
    ensures if Deletes(call, UserOf(rows[k])) then k !in After(rows, call)
            else k in After(rows, call) && After(rows, call)[k] == if Redeems(call)
                && call.pick == k then Revoked(rows[k], call.now) else rows[k]
  {
    hide OrderOf;
    assert KeyOf(rows[k]) == k;
  }

  lemma NewTokenAfter(rows: Rows, call: Call, k: Key)
    requires Admissible(rows, call) && Judge(rows, call).Allow? && k.TokenKey? && k !in rows
    ensures k in After(rows, call) <==> NewToken(call) == Some(k)
    ensures NewToken(call) == Some(k) ==>
              After(rows, call)[k] == TokenRow(
                if call.CreateToken? then Token(k.id, call.user.value, call.hash, call.expiresAt, None, call.at)
                else Token(k.id, UserOf(rows[call.pick]), call.newHash, call.newExpiresAt, None, call.at))
  {
    hide OrderOf;
  }

  lemma RedeemedToken(rows: Rows, call: Call)
    requires Admissible(rows, call) && Judge(rows, call).Allow? && Redeems(call)
    ensures call.pick in rows && rows[call.pick].TokenRow? && rows[call.pick].token.revokedAt.None?
    ensures rows[call.pick].token.tokenHash == call.hash && rows[call.pick].token.expiresAt > call.now
  {
  }

  /** How an allowed call leaves one refresh token. */
  lemma TokenAfter(rows: Rows, call: Call, k: Key)
    requires Admissible(rows, call) && Judge(rows, call).Allow? && k.TokenKey?
    ensures k in rows ==> rows[k].TokenRow? && rows[k].token.id == k.id
    ensures k in rows && !Deletes(call, UserOf(rows[k])) ==>
              && k in After(rows, call)
              && After(rows, call)[k] == if Redeems(call) && call.pick == k then Revoked(rows[k], call.now) else rows[k]
    ensures k in rows && Deletes(call, UserOf(rows[k])) ==> k !in After(rows, call)
    ensures k !in rows ==> (k in After(rows, call) <==> NewToken(call) == Some(k))
    ensures NewToken(call) == Some(k) ==>
              && k !in rows
              && After(rows, call)[k] == TokenRow(
                   if call.CreateToken? then Token(k.id, call.user.value, call.hash, call.expiresAt, None, call.at)
                   else Token(k.id, UserOf(rows[call.pick]), call.newHash, call.newExpiresAt, None, call.at))
    ensures Redeems(call) && call.pick == k ==>
          k in rows && rows[k].token.revokedAt.None? && rows[k].token.tokenHash == call.hash
              && rows[k].token.expiresAt > call.now
  {
    hide Judge, EffectOf, OrderOf, Admissible;
    if k in rows { OldTokenAfter(rows, call, k); } else { NewTokenAfter(rows, call, k); }
    if Redeems(call) { RedeemedToken(rows, call); }
  }

  lemma RedeemedIsToken(rows: Rows, call: Call)
    requires Admissible(rows, call) && Judge(rows, call).Allow? && Redeems(call)
    ensures call.pick.TokenKey? && call.pick in rows
  {
  }

  // ---- conservation of live tokens ----

  function LiveTokens(rows: Rows, u: Uuid): set<Key> {
    set k | k in rows && rows[k].TokenRow? && rows[k].token.userId == u && rows[k].token.revokedAt.None?
  }

  /** What one call does to the balance of a user's live tokens. */
  function Entry(rows: Rows, call: Call, u: Uuid, balance: int): int
    requires Admissible(rows, call)
  {
    if Judge(rows, call).Refuse? then balance
    else match call
      case CreateCredential(user, _, _, _, _, _) => if user == Some(u) then 0 else balance
      case DeleteUser(user, _, _, _) => if user == Some(u) then 0 else balance
      case CreateToken(_, user, _, _, _, _) => if user == Some(u) then balance + 1 else balance
      case RevokeToken(_, _, pick, _, _) => if pick in LiveTokens(rows, u) then balance - 1 else balance
      case _ => balance
  }

  /** Committed token creations minus committed sign-outs, since the credential was created. */
  ghost function Ledger(states: seq<Database>, calls: seq<Call>, u: Uuid): int
    requires IsRun(states, calls)
  {
    if calls == [] then 0
    else
      var n := |calls| - 1;
      RunPrefix(states, calls, n);
      assert StepsTo(states[n], calls[n], states[n + 1]);
      Entry(states[n].rows, calls[n], u, Ledger(states[..n + 1], calls[..n], u))
  }

  /** The user a call gives its new token to. */
  function Grantee(rows: Rows, call: Call): Option<Uuid>
    requires Admissible(rows, call) && Judge(rows, call).Allow?
  {
    match call
    case CreateToken(_, user, _, _, _, _) => user
    case RotateToken(_, _, _, _, _, pick, _, _) => Some(UserOf(rows[pick]))
    case _ => None
  }

  lemma LiveTokenAfter(rows: Rows, call: Call, u: Uuid, k: Key)
    requires Admissible(rows, call) && Judge(rows, call).Allow? && k.TokenKey?
    ensures k in LiveTokens(After(rows, call), u) <==>
            || (k in LiveTokens(rows, u) && !(Redeems(call) && call.pick == k) && !Deletes(call, u))
            || (NewToken(call) == Some(k) && Grantee(rows, call) == Some(u))
  {
    TokenAfter(rows, call, k);
  }

  /** The live tokens of a user that a call takes away. */
  function Removed(rows: Rows, call: Call, u: Uuid): set<Key> {
    if Deletes(call, u) then LiveTokens(rows, u)
    else if Redeems(call) && call.pick in LiveTokens(rows, u) then {call.pick}
    else {}
  }

  /** The live tokens a call adds. */
  function Added(rows: Rows, call: Call, u: Uuid): set<Key>
    requires Admissible(rows, call) && Judge(rows, call).Allow?
  {
    if NewToken(call).Some? && Grantee(rows, call) == Some(u) then {NewToken(call).value} else {}
  }

  lemma LiveTokensAfter(rows: Rows, call: Call, u: Uuid)
    requires Admissible(rows, call) && Judge(rows, call).Allow?
    ensures LiveTokens(After(rows, call), u) == (LiveTokens(rows, u) - Removed(rows, call, u)) + Added(rows, call, u)
    ensures Added(rows, call, u) !! LiveTokens(rows, u)
  {
    hide Judge, EffectOf, OrderOf, Admissible;
    var live, after := LiveTokens(rows, u), LiveTokens(After(rows, call), u);
    forall k | k in live ensures k.TokenKey? { assert KeyOf(rows[k]) == k; }
    forall k | k in after ensures k.TokenKey? { assert KeyOf(After(rows, call)[k]) == k; }
    if NewToken(call).Some? { TokenAfter(rows, call, NewToken(call).value); }
    forall k: Key | k.TokenKey?
      ensures k in after <==> k in (live - Removed(rows, call, u)) + Added(rows, call, u)
    {
      LiveTokenAfter(rows, call, u, k);
    }
  }

  lemma CountAfter(live: set<Key>, removed: set<Key>, added: set<Key>)
    requires removed <= live && added !! live
    ensures |(live - removed) + added| == |live| - |removed| + |added|
  {
  }

  /** The token being redeemed is live, and belongs to one user. */
  lemma RedeemedIsLive(rows: Rows, call: Call, u: Uuid)
    requires Admissible(rows, call) && Judge(rows, call).Allow? && Redeems(call)
    ensures call.pick in LiveTokens(rows, u) <==> UserOf(rows[call.pick]) == u
  {
    RedeemedIsToken(rows, call);
    TokenAfter(rows, call, call.pick);
  }

  lemma NoTokensBeforeCreation(rows: Rows, u: Uuid)
    requires NoOrphans(rows) && !HasCredential(rows, u)
    ensures LiveTokens(rows, u) == {}
  {
    forall k | k in rows && rows[k].TokenRow? ensures rows[k].token.userId != u {
      assert HasCredential(rows, UserOf(rows[k]));
    }
  }

  lemma RemovedAndAdded(rows: Rows, call: Call, u: Uuid)
    requires Admissible(rows, call) && Judge(rows, call).Allow? && NoOrphans(rows)
    ensures |LiveTokens(rows, u)| - |Removed(rows, call, u)| + |Added(rows, call, u)| == Entry(rows, call, u,
        |LiveTokens(rows, u)|)
  {
    hide EffectOf, OrderOf, NoOrphans;
    if Redeems(call) {
      RedeemedIsLive(rows, call, u);
    }
    if call.CreateCredential? && call.user == Some(u) {
      CredentialAfter(rows, call, u);
      NoTokensBeforeCreation(rows, u);
    }
  }

  lemma BalanceAfter(rows: Rows, call: Call, u: Uuid)
    requires Admissible(rows, call) && Judge(rows, call).Allow? && NoOrphans(rows)
    ensures |LiveTokens(After(rows, call), u)| == Entry(rows, call, u, |LiveTokens(rows, u)|)
  {
    LiveTokensAfter(rows, call, u);
    CountAfter(LiveTokens(rows, u), Removed(rows, call, u), Added(rows, call, u));
    RemovedAndAdded(rows, call, u);
  }

  /**
    A user's unrevoked tokens are exactly the tokens created for it and not signed out since its
    credential was created.
   */
  lemma {:induction false} LiveTokenConservation(states: seq<Database>, calls: seq<Call>, u: Uuid)
    requires IsRun(states, calls) && states[0] == EMPTY
    ensures |LiveTokens(states[|calls|].rows, u)| == Ledger(states, calls, u)
  {
    if calls != [] {
      var n := |calls| - 1;
      RunPrefix(states, calls, n);
      LiveTokenConservation(states[..n + 1], calls[..n], u);
      IntegrityAlways(states[..n + 1], calls[..n]);
      assert StepsTo(states[n], calls[n], states[n + 1]);
      CommittedCall(states[n], calls[n]);
      if Judge(states[n].rows, calls[n]).Allow? {
        BalanceAfter(states[n].rows, calls[n], u);
      }
    }
  }

  /** While a token row exists only its revocation may change, and a set `revoked_at` never changes again. */
  lemma RevocationIsFinal(db: Database, call: Call, k: Key)
    requires Admissible(db.rows, call) && k.TokenKey? && k in db.rows && k in Exec(db, call).db.rows
    ensures db.rows[k].TokenRow? && Exec(db, call).db.rows[k].TokenRow?
    ensures var before, after := db.rows[k].token, Exec(db, call).db.rows[k].token;
            && after.(revokedAt := before.revokedAt) == before
            && (before.revokedAt.Some? ==> after == before)
            && (after != before <==> Exec(db, call).committed && Redeems(call) && call.pick == k)
  {
    CommittedCall(db, call);
    assert KeyOf(db.rows[k]) == k;
    if Judge(db.rows, call).Allow? {
      TokenAfter(db.rows, call, k);
    }
  }

  // ---- single redemption ----

  /** Ids of refresh tokens are drawn fresh: no two calls of a run use the same one. */
  ghost predicate FreshIds(calls: seq<Call>) {
    forall i, j :: 0 <= i < j < |calls| && NewToken(calls[i]).Some? ==> NewToken(calls[i]) != NewToken(calls[j])
  }

  lemma {:induction false} TokensHaveOrigin(states: seq<Database>, calls: seq<Call>, k: Key)
    requires IsRun(states, calls) && states[0] == EMPTY && k.TokenKey? && k in states[|calls|].rows
    ensures exists m :: 0 <= m < |calls| && NewToken(calls[m]) == Some(k)
  {
    if calls != [] {
      var n := |calls| - 1;
      RunPrefix(states, calls, n);
      assert StepsTo(states[n], calls[n], states[n + 1]);
      CommittedCall(states[n], calls[n]);
      if k in states[n].rows {
        TokensHaveOrigin(states[..n + 1], calls[..n], k);
        var m :| 0 <= m < n && NewToken(calls[..n][m]) == Some(k);
        assert NewToken(calls[m]) == Some(k);
      } else {
        TokenAfter(states[n].rows, calls[n], k);
      }
    }
  }

  predicate Spent(rows: Rows, k: Key) {
    k in rows ==> rows[k].TokenRow? && rows[k].token.revokedAt.Some?
  }

  lemma CallKeepsSpent(db: Database, call: Call, k: Key)
    requires Admissible(db.rows, call) && k.TokenKey? && Spent(db.rows, k) && NewToken(call) != Some(k)
    ensures Spent(Exec(db, call).db.rows, k)
  {
    CommittedCall(db, call);
    if Judge(db.rows, call).Allow? {
      TokenAfter(db.rows, call, k);
    }
  }

  lemma {:induction false} SpentStays(states: seq<Database>, calls: seq<Call>, k: Key, m: nat, n: nat)
    requires IsRun(states, calls) && k.TokenKey? && m <= n <= |calls| && Spent(states[m].rows, k)
    requires forall i :: m <= i < n ==> NewToken(calls[i]) != Some(k)
    ensures Spent(states[n].rows, k)
  {
    hide Exec, Admissible, NewToken, Spent;
    if m < n {
      SpentStays(states, calls, k, m, n - 1);
      assert StepsTo(states[n - 1], calls[n - 1], states[n]);
      CallKeepsSpent(states[n - 1], calls[n - 1], k);
    }
  }

  ghost predicate CommitsAt(states: seq<Database>, calls: seq<Call>, m: int)
    requires IsRun(states, calls)
  {
    0 <= m < |calls| && (assert StepsTo(states[m], calls[m], states[m + 1]); Judge(states[m].rows, calls[m]).Allow?)
  }

  lemma RedeemedIsSpent(db: Database, call: Call)
    requires Admissible(db.rows, call) && Exec(db, call).committed && Redeems(call)
    ensures call.pick.TokenKey? && call.pick in db.rows && !Spent(db.rows, call.pick)
    ensures Spent(Exec(db, call).db.rows, call.pick)
  {
    CommittedCall(db, call);
    RedeemedIsToken(db.rows, call);
    TokenAfter(db.rows, call, call.pick);
  }

  /** Over a whole run, a refresh token is redeemed at most once: by one rotation or one sign-out. */
  lemma RedeemedAtMostOnce(states: seq<Database>, calls: seq<Call>, i: nat, j: nat)
    requires IsRun(states, calls) && states[0] == EMPTY && FreshIds(calls)
    requires i < j && CommitsAt(states, calls, i) && CommitsAt(states, calls, j)
    requires Redeems(calls[i]) && Redeems(calls[j])
    ensures calls[i].pick != calls[j].pick
  {
    hide Judge, EffectOf, OrderOf, Exec, Admissible, NewToken, Spent;
    var k := calls[i].pick;
    assert StepsTo(states[i], calls[i], states[i + 1]) && StepsTo(states[j], calls[j], states[j + 1]);
    CommittedCall(states[i], calls[i]);
    CommittedCall(states[j], calls[j]);
    RedeemedIsSpent(states[i], calls[i]);
    RedeemedIsSpent(states[j], calls[j]);
    RunPrefix(states, calls, i);
    TokensHaveOrigin(states[..i + 1], calls[..i], k);
    var m :| 0 <= m < i && NewToken(calls[..i][m]) == Some(k);
    assert NewToken(calls[m]) == Some(k);
    SpentStays(states, calls, k, i + 1, j);
  }

  // ---- rotation lineage ----

  type Paths = seq<seq<Key>>

  predicate EndsAt(paths: Paths, i: int, k: Key) {
    0 <= i < |paths| && paths[i] != [] && paths[i][|paths[i]| - 1] == k
  }

  ghost predicate EndsPath(paths: Paths, k: Key) {
    exists i :: EndsAt(paths, i, k)
  }

  /** Appends `next` to a path that ends in `last`. */
  ghost function Extend(paths: Paths, last: Key, next: Key): Paths {
    if EndsPath(paths, last) then
      var i :| EndsAt(paths, i, last);
      paths[i := paths[i] + [next]]
    else paths
  }

  ghost function Grow(paths: Paths, rows: Rows, call: Call): Paths
    requires Admissible(rows, call)
  {
    if Judge(rows, call).Refuse? then paths
    else match call
      case CreateToken(id, _, _, _, _, _) => paths + [[TokenKey(id)]]
      case RotateToken(_, newId, _, _, _, pick, _, _) => Extend(paths, pick, TokenKey(newId))
      case _ => paths
  }

  /** The rotation history of a run: one path per created token, lengthened by each rotation of its last token. */
  ghost function Lineages(states: seq<Database>, calls: seq<Call>): Paths
    requires IsRun(states, calls)
  {
    if calls == [] then []
    else
      var n := |calls| - 1;
      RunPrefix(states, calls, n);
      assert StepsTo(states[n], calls[n], states[n + 1]);
      Grow(Lineages(states[..n + 1], calls[..n]), states[n].rows, calls[n])
  }

  predicate On(paths: Paths, i: int, a: int) {
    0 <= i < |paths| && 0 <= a < |paths[i]|
  }

  /** No token occurs twice, neither within a path nor on two paths. */
  ghost predicate DisjointSimple(paths: Paths) {
    && (forall i :: 0 <= i < |paths| ==> paths[i] != [])
    && (forall i, a, j, b :: On(paths, i, a) && On(paths, j, b) && paths[i][a] == paths[j][b] ==> i == j && a == b)
  }

  /** Only the last token of a path can be unrevoked. */
  ghost predicate LiveAtEnds(paths: Paths, rows: Rows) {
    forall k :: k in rows && rows[k].TokenRow? && rows[k].token.revokedAt.None? ==> EndsPath(paths, k)
  }

  ghost predicate DrawnFrom(paths: Paths, calls: seq<Call>) {
    forall i, a :: On(paths, i, a) ==> exists m :: 0 <= m < |calls| && NewToken(calls[m]) == Some(paths[i][a])
  }

  /** The successor takes one new place, right after the token it replaces. */
  lemma ExtendAddsOnePlace(paths: Paths, last: Key, next: Key) returns (i: int)
    requires EndsPath(paths, last)
    ensures EndsAt(paths, i, last) && Extend(paths, last, next) == paths[i := paths[i] + [next]]
    ensures EndsAt(Extend(paths, last, next), i, next)
    ensures forall j, b :: On(Extend(paths, last, next), j, b) <==> On(paths, j, b) || (j == i && b == |paths[i]|)
    ensures forall j, b :: On(paths, j, b) ==> Extend(paths, last, next)[j][b] == paths[j][b]
  {
    i :| EndsAt(paths, i, last) && Extend(paths, last, next) == paths[i := paths[i] + [next]];
  }

  lemma ExtendKeepsShape(paths: Paths, last: Key, next: Key)
    requires DisjointSimple(paths) && EndsPath(paths, last)
    requires forall i, a :: On(paths, i, a) ==> paths[i][a] != next
    ensures DisjointSimple(Extend(paths, last, next))
    ensures forall k :: k != last && EndsPath(paths, k) ==> EndsPath(Extend(paths, last, next), k)
  {
    var i := ExtendAddsOnePlace(paths, last, next);
    var longer := Extend(paths, last, next);
    forall k | k != last && EndsPath(paths, k) ensures EndsPath(longer, k) {
      var j :| EndsAt(paths, j, k);
      assert EndsAt(longer, j, k);
    }
  }

  /** What a lineage has to do with the rows and the calls so far. */
  ghost predicate Tracks(paths: Paths, rows: Rows, calls: seq<Call>) {
    DisjointSimple(paths) && LiveAtEnds(paths, rows) && DrawnFrom(paths, calls)
  }

  lemma DrawnFromMore(paths: Paths, calls: seq<Call>, call: Call)
    requires DrawnFrom(paths, calls)
    ensures DrawnFrom(paths, calls + [call])
  {
    forall i, a | On(paths, i, a)
      ensures exists m :: 0 <= m < |calls + [call]| && NewToken((calls + [call])[m]) == Some(paths[i][a])
    {
      var m :| 0 <= m < |calls| && NewToken(calls[m]) == Some(paths[i][a]);
      assert (calls + [call])[m] == calls[m];
    }
  }

  lemma NewTokenIsUnknown(paths: Paths, calls: seq<Call>, call: Call)
    requires DrawnFrom(paths, calls) && FreshIds(calls + [call]) && NewToken(call).Some?
    ensures forall i, a :: On(paths, i, a) ==> paths[i][a] != NewToken(call).value
  {
    forall i, a | On(paths, i, a) ensures paths[i][a] != NewToken(call).value {
      var m :| 0 <= m < |calls| && NewToken(calls[m]) == Some(paths[i][a]);
      assert (calls + [call])[m] == calls[m] && (calls + [call])[|calls|] == call;
    }
  }

  /** A token that is live after a call was live before, or is the new one. */
  lemma LiveBefore(rows: Rows, call: Call, k: Key)
    requires Admissible(rows, call) && Judge(rows, call).Allow?
    requires k in After(rows, call) && After(rows, call)[k].TokenRow? && After(rows, call)[k].token.revokedAt.None?
    ensures NewToken(call) == Some(k)
        || (k in rows && rows[k].TokenRow? && rows[k].token.revokedAt.None? && !(Redeems(call) && call.pick == k))
  {
    assert KeyOf(After(rows, call)[k]) == k;
    TokenAfter(rows, call, k);
  }

  lemma RotationExtends(paths: Paths, rows: Rows, call: Call)
    requires Admissible(rows, call) && Judge(rows, call).Allow? && call.RotateToken? && LiveAtEnds(paths, rows)
    ensures EndsPath(paths, call.pick)
  {
    RedeemedIsToken(rows, call);
    TokenAfter(rows, call, call.pick);
  }

  lemma GrowKeepsShape(paths: Paths, rows: Rows, calls: seq<Call>, call: Call)
    requires Admissible(rows, call) && Judge(rows, call).Allow?
    requires Tracks(paths, rows, calls) && FreshIds(calls + [call])
    ensures DisjointSimple(Grow(paths, rows, call))
  {
    if NewToken(call).Some? { NewTokenIsUnknown(paths, calls, call); }
    if call.RotateToken? {
      RotationExtends(paths, rows, call);
      ExtendKeepsShape(paths, call.pick, TokenKey(call.newId));
    }
  }

  lemma GrowKeepsEnds(paths: Paths, rows: Rows, calls: seq<Call>, call: Call)
    requires Admissible(rows, call) && Judge(rows, call).Allow?
    requires Tracks(paths, rows, calls) && FreshIds(calls + [call])
    ensures LiveAtEnds(Grow(paths, rows, call), After(rows, call))
  {
    var grown := Grow(paths, rows, call);
    if NewToken(call).Some? { NewTokenIsUnknown(paths, calls, call); }
    if call.RotateToken? {
      RotationExtends(paths, rows, call);
      ExtendKeepsShape(paths, call.pick, TokenKey(call.newId));
      var i := ExtendAddsOnePlace(paths, call.pick, TokenKey(call.newId));
    } else if call.CreateToken? {
      assert EndsAt(grown, |paths|, TokenKey(call.id));
    }
    forall k | k in After(rows, call) && After(rows, call)[k].TokenRow? && After(rows, call)[k].token.revokedAt.None?
      ensures EndsPath(grown, k)
    {
      LiveBefore(rows, call, k);
      if NewToken(call) != Some(k) {
        var i :| EndsAt(paths, i, k);
        if !call.RotateToken? { assert EndsAt(grown, i, k); }
      }
    }
  }

  lemma GrowKeepsOrigins(paths: Paths, rows: Rows, calls: seq<Call>, call: Call)
    requires Admissible(rows, call) && Judge(rows, call).Allow? && LiveAtEnds(paths, rows) && DrawnFrom(paths, calls)
    ensures DrawnFrom(Grow(paths, rows, call), calls + [call])
  {
    DrawnFromMore(paths, calls, call);
    var all := calls + [call];
    assert all[|calls|] == call;
    if call.RotateToken? {
      RotationExtends(paths, rows, call);
      var i := ExtendAddsOnePlace(paths, call.pick, TokenKey(call.newId));
    } else if call.CreateToken? {
      var grown := paths + [[TokenKey(call.id)]];
      forall i, a | On(grown, i, a) ensures exists m :: 0 <= m < |all| && NewToken(all[m]) == Some(grown[i][a]) {
        if i < |paths| { assert On(paths, i, a); }
      }
    }
  }

  /**
    Over a whole run the rotation history is a set of disjoint simple paths, and only the last
    token of a path can be unrevoked.
   */
  lemma {:induction false} LineagesAreDisjointPaths(states: seq<Database>, calls: seq<Call>)
    requires IsRun(states, calls) && states[0] == EMPTY && FreshIds(calls)
    ensures Tracks(Lineages(states, calls), states[|calls|].rows, calls)
  {
    if calls != [] {
      var n := |calls| - 1;
      RunPrefix(states, calls, n);
      var paths := Lineages(states[..n + 1], calls[..n]);
      LineagesAreDisjointPaths(states[..n + 1], calls[..n]);
      assert calls == calls[..n] + [calls[n]];
      assert StepsTo(states[n], calls[n], states[n + 1]);
      CommittedCall(states[n], calls[n]);
      if Judge(states[n].rows, calls[n]).Allow? {
        GrowKeepsShape(paths, states[n].rows, calls[..n], calls[n]);
        GrowKeepsEnds(paths, states[n].rows, calls[..n], calls[n]);
        GrowKeepsOrigins(paths, states[n].rows, calls[..n], calls[n]);
      } else {
        DrawnFromMore(paths, calls[..n], calls[n]);
      }
    }
  }

  // ---- the edges of the lineage are the rotations ----

  ghost predicate RotatedAt(states: seq<Database>, calls: seq<Call>, m: int, x: Key, y: Key)
    requires IsRun(states, calls)
  {
    CommitsAt(states, calls, m) && calls[m].RotateToken? && calls[m].pick == x && NewToken(calls[m]) == Some(y)
  }

  ghost predicate IssuedAt(states: seq<Database>, calls: seq<Call>, m: int, k: Key)
    requires IsRun(states, calls)
  {
    CommitsAt(states, calls, m) && calls[m].CreateToken? && NewToken(calls[m]) == Some(k)
  }

  predicate EdgeAt(paths: Paths, i: int, a: int, x: Key, y: Key) {
    On(paths, i, a) && On(paths, i, a + 1) && paths[i][a] == x && paths[i][a + 1] == y
  }

  ghost predicate IsEdge(paths: Paths, x: Key, y: Key) {
    exists i, a :: EdgeAt(paths, i, a, x, y)
  }

  lemma PrefixCommits(states: seq<Database>, calls: seq<Call>, before: seq<Database>, front: seq<Call>, m: int)
    requires IsRun(states, calls) && IsRun(before, front) && calls != []
    requires before == states[..|calls|] && front == calls[..|calls| - 1]
    ensures CommitsAt(before, front, m) <==> m < |front| && CommitsAt(states, calls, m)
  {
  }

  lemma ExtendEdges(paths: Paths, last: Key, next: Key, x: Key, y: Key)
    requires EndsPath(paths, last)
    ensures IsEdge(Extend(paths, last, next), x, y) <==> IsEdge(paths, x, y) || (x == last && y == next)
  {
    var longer := Extend(paths, last, next);
    var p := ExtendAddsOnePlace(paths, last, next);
    assert EdgeAt(longer, p, |paths[p]| - 1, last, next);
    forall i, a
      ensures EdgeAt(longer, i, a, x, y) <==>
            EdgeAt(paths, i, a, x, y) || (i == p && a == |paths[p]| - 1 && x == last && y == next)
    {
    }
  }

  lemma StartEdges(paths: Paths, k: Key, x: Key, y: Key)
    ensures IsEdge(paths + [[k]], x, y) <==> IsEdge(paths, x, y)
  {
    forall i, a ensures EdgeAt(paths + [[k]], i, a, x, y) <==> EdgeAt(paths, i, a, x, y) {
    }
  }

  lemma GrowKeepsEdges(paths: Paths, rows: Rows, call: Call, x: Key, y: Key)
    requires Admissible(rows, call) && Judge(rows, call).Allow? && LiveAtEnds(paths, rows)
    ensures IsEdge(Grow(paths, rows, call), x, y) <==>
            IsEdge(paths, x, y) || (call.RotateToken? && call.pick == x && NewToken(call) == Some(y))
  {
    if call.RotateToken? {
      RotationExtends(paths, rows, call);
      ExtendEdges(paths, call.pick, TokenKey(call.newId), x, y);
    } else if call.CreateToken? {
      StartEdges(paths, TokenKey(call.id), x, y);
    }
  }

  lemma LastRotation(states: seq<Database>, calls: seq<Call>, before: seq<Database>, front: seq<Call>, x: Key, y: Key)
    requires IsRun(states, calls) && IsRun(before, front) && calls != []
    requires before == states[..|calls|] && front == calls[..|calls| - 1]
    ensures (exists m :: RotatedAt(states, calls, m, x, y)) <==>
            (exists m :: RotatedAt(before, front, m, x, y)) || RotatedAt(states, calls, |front|, x, y)
  {
    forall m { PrefixCommits(states, calls, before, front, m); }
    if m :| RotatedAt(before, front, m, x, y) { assert RotatedAt(states, calls, m, x, y); }
    if m :| RotatedAt(states, calls, m, x, y) {
      if m < |front| { assert RotatedAt(before, front, m, x, y); }
    }
  }

  /** Two tokens are neighbours on a lineage exactly when a committed rotation replaced the one by the other. */
  lemma {:induction false} EdgesAreRotations(states: seq<Database>, calls: seq<Call>, x: Key, y: Key)
    requires IsRun(states, calls) && states[0] == EMPTY && FreshIds(calls)
    ensures IsEdge(Lineages(states, calls), x, y) <==> exists m :: RotatedAt(states, calls, m, x, y)
  {
    hide EffectOf, OrderOf, Admissible, NewToken, DisjointSimple, DrawnFrom, Extend;
    if calls != [] {
      var n := |calls| - 1;
      RunPrefix(states, calls, n);
      var before, front := states[..n + 1], calls[..n];
      EdgesAreRotations(before, front, x, y);
      LineagesAreDisjointPaths(before, front);
      assert StepsTo(states[n], calls[n], states[n + 1]);
      CommittedCall(states[n], calls[n]);
      if Judge(states[n].rows, calls[n]).Allow? {
        GrowKeepsEdges(Lineages(before, front), states[n].rows, calls[n], x, y);
      }
      LastRotation(states, calls, before, front, x, y);
    }
  }

  ghost predicate StartsPath(paths: Paths, k: Key) {
    exists i :: 0 <= i < |paths| && paths[i] != [] && paths[i][0] == k
  }

  lemma GrowKeepsStarts(paths: Paths, rows: Rows, call: Call, k: Key)
    requires Admissible(rows, call) && Judge(rows, call).Allow? && LiveAtEnds(paths, rows)
    requires forall i :: 0 <= i < |paths| ==> paths[i] != []
    ensures StartsPath(Grow(paths, rows, call), k) <==>
          StartsPath(paths, k) || (call.CreateToken? && NewToken(call) == Some(k))
  {
    var grown := Grow(paths, rows, call);
    if call.RotateToken? {
      RotationExtends(paths, rows, call);
      var p := ExtendAddsOnePlace(paths, call.pick, TokenKey(call.newId));
      assert forall i :: 0 <= i < |paths| ==> grown[i][0] == paths[i][0];
    } else if call.CreateToken? {
      assert grown[|paths|][0] == TokenKey(call.id);
      assert forall i :: 0 <= i < |paths| ==> grown[i] == paths[i];
    }
  }

  lemma LastIssue(states: seq<Database>, calls: seq<Call>, before: seq<Database>, front: seq<Call>, k: Key)
    requires IsRun(states, calls) && IsRun(before, front) && calls != []
    requires before == states[..|calls|] && front == calls[..|calls| - 1]
    ensures (exists m :: IssuedAt(states, calls, m, k)) <==>
            (exists m :: IssuedAt(before, front, m, k)) || IssuedAt(states, calls, |front|, k)
  {
    forall m { PrefixCommits(states, calls, before, front, m); }
    if m :| IssuedAt(before, front, m, k) { assert IssuedAt(states, calls, m, k); }
    if m :| IssuedAt(states, calls, m, k) {
      if m < |front| { assert IssuedAt(before, front, m, k); }
    }
  }

  /** Each lineage starts with a token issued by a sign-in or at the end of a registration, one per issued token. */
  lemma {:induction false} StartsAreIssued(states: seq<Database>, calls: seq<Call>, k: Key)
    requires IsRun(states, calls) && states[0] == EMPTY && FreshIds(calls)
    ensures StartsPath(Lineages(states, calls), k) <==> exists m :: IssuedAt(states, calls, m, k)
  {
    if calls != [] {
      var n := |calls| - 1;
      RunPrefix(states, calls, n);
      var before, front := states[..n + 1], calls[..n];
      StartsAreIssued(before, front, k);
      LineagesAreDisjointPaths(before, front);
      assert StepsTo(states[n], calls[n], states[n + 1]);
      CommittedCall(states[n], calls[n]);
      if Judge(states[n].rows, calls[n]).Allow? {
        GrowKeepsStarts(Lineages(before, front), states[n].rows, calls[n], k);
      }
      LastIssue(states, calls, before, front, k);
    }
  }
}
