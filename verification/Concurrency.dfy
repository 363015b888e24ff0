/**
  Rotation and revocation as interleaved steps. Each runs in a transaction of its own, under row
  locks, beside other transactions and beside single statements in autocommit mode.
 */
module Concurrency {
  import opened Wrappers
  import opened Tables
  import opened Outbox
  import opened Errors
  import opened Statements
  import opened RepositoryRuns
  import opened TokenRuns

  datatype Request =
    | Rotate(hash: Digest, newId: Uuid, newHash: Digest, newExpiresAt: Time, now: Time, at: Time)
    | Revoke(hash: Digest, now: Time, at: Time)

  /** The last statement the transaction has completed. */
  datatype Phase = Begun | Loaded | Struck | Inserted

  /** An open transaction: what it has read, the row locks it holds and the changes only it can see. */
  datatype Tx = Tx(request: Request, phase: Phase, pick: Key, credential: Option<Credential>, locks: set<Key>,
                   effect: Effect, order: seq<Key>)

  /** A finished call and what its client was told. */
  datatype Entry = Entry(call: Call, committed: bool, reply: Reply)

  datatype System = System(db: Database, txs: map<nat, Tx>, history: seq<Entry>)

  datatype Label =
    | Begin(id: nat, request: Request)
    | FailToBegin(call: Call)
    | Load(id: nat, pick: Key)
    | Strike(id: nat)
    | InsertNew(id: nat)
    | Commit(id: nat, lost: bool)
    | Abort(id: nat, error: IoError)
    | Vanish(id: nat)
    | Single(call: Call)

  function CallOf(r: Request, pick: Key, wire: Wire): Call {
    match r
    case Rotate(hash, newId, newHash, newExpiresAt, now, at) =>
      RotateToken(hash, newId, newHash, newExpiresAt, now, pick, at, wire)
    case Revoke(hash, now, at) => RevokeToken(hash, now, pick, at, wire)
  }

  // ---- locks ----

  /** `FOR UPDATE` over a join locks the token rows and their credential rows. */
  function LockSet(rows: Rows, hash: Digest): set<Key> {
    Matches(rows, hash) + set k | k in Matches(rows, hash) :: CredentialKey(UserOf(rows[k]))
  }

  /** No transaction other than `id` holds a lock on any of the keys. */
  predicate Free(s: System, id: nat, keys: set<Key>) {
    forall t :: t in s.txs && t != id ==> s.txs[t].locks !! keys
  }

  /** The rows a single statement must be able to lock: those it writes, and the parent a new row refers to. */
  function Footprint(rows: Rows, call: Call): set<Key>
    requires Admissible(rows, call) && Judge(rows, call).Allow?
  {
    EffectOf(rows, call).Keys
    + (if (call.CreateCode? || call.CreateToken? || call.GrantRole?) && call.user.Some?
       then {CredentialKey(call.user.value)} else {})
  }

  // ---- steps ----

  function Finish(s: System, id: nat, db: Database, e: Entry): System {
    System(db, s.txs - {id}, s.history + [e])
  }

  /** The statement at which a transaction is when an error strikes. */
  function StageOf(tx: Tx): Stage {
    match tx.phase
    case Begun => AtLoad
    case Loaded => AtRevoke
    case Struck => if tx.request.Rotate? then AtInsert else AtCommit
    case Inserted => AtCommit
  }

  function ReadyToCommit(tx: Tx): bool {
    tx.phase == if tx.request.Rotate? then Inserted else Struck
  }

  function NewRow(r: Request, user: Uuid): Row
    requires r.Rotate?
  {
    TokenRow(Token(r.newId, user, r.newHash, r.newExpiresAt, None, r.at))
  }

  ghost predicate Enabled(s: System, l: Label) {
    match l
    case Begin(id, _) => id !in s.txs
    case FailToBegin(call) => Redeems(call) && call.wire.Broken? && call.wire.stage == AtBegin
    case Load(id, pick) =>
      && id in s.txs && s.txs[id].phase == Begun
      && PickOk(s.db.rows, s.txs[id].request.hash, pick)
      && Free(s, id, LockSet(s.db.rows, s.txs[id].request.hash))
    case Strike(id) =>
      id in s.txs && s.txs[id].phase == Loaded && s.txs[id].pick in s.db.rows && s.db.rows[s.txs[id].pick].TokenRow?
    case InsertNew(id) =>
      && id in s.txs && s.txs[id].phase == Struck && s.txs[id].request.Rotate? && s.txs[id].credential.Some?
      && Free(s, id, {TokenKey(s.txs[id].request.newId)})
    case Commit(id, _) =>
      && id in s.txs && ReadyToCommit(s.txs[id]) && s.txs[id].credential.Some?
      && ValidEffect(s.db.rows, s.txs[id].effect) && Enumerates(s.txs[id].order, s.txs[id].effect.Keys)
    case Abort(id, _) => id in s.txs
    case Vanish(id) => id in s.txs
    case Single(call) =>
      && !Redeems(call) && Admissible(s.db.rows, call)
      && (Judge(s.db.rows, call).Allow? ==> forall t :: t in s.txs ==> s.txs[t].locks !! Footprint(s.db.rows, call))
  }

  ghost function Next(s: System, l: Label): System
    requires Enabled(s, l)
  {
    var rows := s.db.rows;
    match l
    case Begin(id, request) =>
      s.(txs := s.txs[id := Tx(request, Begun, TokenKey(0), None, {}, map[], [])])
    case FailToBegin(call) =>
      s.(history := s.history + [Entry(call, false, Rejected(TranslateRotateRefreshToken(call.wire.error)))])
    case Load(id, pick) =>
      var tx := s.txs[id];
      var load := LoadForMutation(rows, tx.request.hash, tx.request.now, pick);
      if load.Err? then Finish(s, id, s.db, Entry(CallOf(tx.request, pick, Clean), false, Rejected(load.error)))
      else s.(txs := s.txs[id := tx.(phase := Loaded, pick := pick, locks := LockSet(rows, tx.request.hash),
                                     credential := Some(CredentialOf(rows, load.value.userId)))])
    case Strike(id) =>
      // the update applies to an unrevoked row only, and its row count is not looked at
      var tx := s.txs[id];
      if rows[tx.pick].token.revokedAt.Some? then s.(txs := s.txs[id := tx.(phase := Struck)])
      else
        var revoked := Revoked(rows[tx.pick], tx.request.now);
        s.(txs := s.txs[id := tx.(phase := Struck, effect := tx.effect[tx.pick := Some(revoked)],
                                  order := tx.order + [tx.pick])])
    case InsertNew(id) =>
      var tx := s.txs[id];
      var k := TokenKey(tx.request.newId);
      if k in rows then
        Finish(s, id, s.db, Entry(CallOf(tx.request, tx.pick, Clean), false,
                                  Rejected(TranslateRotateRefreshToken(Duplicate("refresh_tokens_pkey")))))
      else if !HasCredential(rows, tx.credential.value.userId) then
        Finish(s, id, s.db,
            Entry(CallOf(tx.request, tx.pick, Clean), false, Rejected(TranslateRotateRefreshToken(MISSING_PARENT))))
      else s.(txs := s.txs[id := tx.(phase := Inserted, locks := tx.locks + {k}, order := tx.order + [k],
                                     effect := tx.effect[k := Some(NewRow(tx.request, tx.credential.value.userId))])])
    case Commit(id, lost) =>
      var tx := s.txs[id];
      Finish(s, id, Apply(s.db, tx.effect, tx.order, tx.request.at),
             Entry(CallOf(tx.request, tx.pick, if lost then ReplyLost else Clean), true,
                   if lost then Rejected(TranslateRotateRefreshToken(Io)) else Accepted(tx.credential.value)))
    case Abort(id, error) =>
      var tx := s.txs[id];
      Finish(s, id, s.db,
          Entry(CallOf(tx.request, tx.pick, Broken(StageOf(tx), error)), false,
              Rejected(TranslateRotateRefreshToken(error))))
    case Vanish(id) =>
      // the client is gone; the database rolls back and nobody is told
      s.(txs := s.txs - {id})
    case Single(call) =>
      var o := Exec(s.db, call);
      System(o.db, s.txs, s.history + [Entry(call, o.committed, o.reply)])
  }

  // ---- the invariant: what the locks protect ----

  /** What a transaction that has loaded its rows knows: they are still as it loaded them. */
  ghost predicate Held(rows: Rows, tx: Tx) {
    && tx.pick in Matches(rows, tx.request.hash)
    && rows[tx.pick].token.revokedAt.None? && rows[tx.pick].token.expiresAt > tx.request.now
    && tx.pick in tx.locks && CredentialKey(UserOf(rows[tx.pick])) in tx.locks
    && tx.credential == Some(CredentialOf(rows, UserOf(rows[tx.pick])))
  }

  ghost predicate TxOk(rows: Rows, tx: Tx) {
    match tx.phase
    case Begun => tx.effect == map[] && tx.order == []
    case Loaded => Held(rows, tx) && tx.effect == map[] && tx.order == []
    case Struck =>
      Held(rows, tx) && tx.effect == map[tx.pick := Some(Revoked(rows[tx.pick], tx.request.now))]
          && tx.order == [tx.pick]
    case Inserted =>
      && Held(rows, tx) && tx.request.Rotate?
      && var k := TokenKey(tx.request.newId);
      && k in tx.locks && k !in rows
      && tx.effect == map[tx.pick := Some(Revoked(rows[tx.pick], tx.request.now)),
          k := Some(NewRow(tx.request, UserOf(rows[tx.pick])))]
      && tx.order == [tx.pick, k]
  }

  ghost predicate Inv(s: System) {
    && (forall id :: id in s.txs ==> TxOk(s.db.rows, s.txs[id]))
    && (forall a, b :: a in s.txs && b in s.txs && a != b ==> s.txs[a].locks !! s.txs[b].locks)
  }

  lemma LockedRowsSuffice(rows: Rows, after: Rows, tx: Tx)
    requires TxOk(rows, tx) && forall k :: k in tx.locks ==> Lookup(rows, k) == Lookup(after, k)
    ensures TxOk(after, tx)
  {
    if tx.phase != Begun {
      assert Lookup(rows, tx.pick) == Lookup(after, tx.pick);
      assert Lookup(rows, CredentialKey(UserOf(rows[tx.pick]))) == Lookup(after, CredentialKey(UserOf(rows[tx.pick])));
      if tx.phase == Inserted {
        assert Lookup(rows, TokenKey(tx.request.newId)) == Lookup(after, TokenKey(tx.request.newId));
      }
    }
  }

  /** A change of rows disturbs no transaction that holds no lock on them. */
  lemma UnlockedChange(s: System, effect: Effect)
    requires Inv(s) && ValidEffect(s.db.rows, effect)
    ensures forall t :: t in s.txs && s.txs[t].locks !! effect.Keys ==> TxOk(Overlay(s.db.rows, effect), s.txs[t])
  {
    forall t | t in s.txs && s.txs[t].locks !! effect.Keys ensures TxOk(Overlay(s.db.rows, effect), s.txs[t]) {
      LockedRowsSuffice(s.db.rows, Overlay(s.db.rows, effect), s.txs[t]);
    }
  }

  // ---- every step is a step of the atomic specification ----

  ghost predicate IsExec(db: Database, e: Entry, after: Database) {
    Admissible(db.rows, e.call) && Exec(db, e.call) == Outcome(after, e.committed, e.reply)
  }

  /** A step either leaves database and history alone, or is one atomic call with the reply the client gets. */
  ghost predicate Atomic(s: System, t: System) {
    || (t.db == s.db && t.history == s.history)
    || (exists e :: t.history == s.history + [e] && IsExec(s.db, e, t.db))
  }

  lemma HeldIsLoaded(rows: Rows, tx: Tx)
    requires Held(rows, tx)
    ensures PickOk(rows, tx.request.hash, tx.pick)
    ensures LoadForMutation(rows, tx.request.hash, tx.request.now, tx.pick) == Ok(rows[tx.pick].token)
  {
  }

  lemma DropKeepsInv(s: System, id: nat, e: Entry)
    requires Inv(s) && id in s.txs
    ensures Inv(Finish(s, id, s.db, e)) && Inv(s.(txs := s.txs - {id}))
  {
  }

  lemma LoadStep(s: System, id: nat, pick: Key)
    requires Inv(s) && Enabled(s, Load(id, pick))
    ensures Inv(Next(s, Load(id, pick))) && Atomic(s, Next(s, Load(id, pick)))
  {
    hide Overlay, EffectOf, OrderOf, Events;
    var t := Next(s, Load(id, pick));
    var tx := s.txs[id];
    var load := LoadForMutation(s.db.rows, tx.request.hash, tx.request.now, pick);
    if load.Err? {
      var e := Entry(CallOf(tx.request, pick, Clean), false, Rejected(load.error));
      DropKeepsInv(s, id, e);
      assert IsExec(s.db, e, s.db);
    } else {
      assert Held(s.db.rows, t.txs[id]);
    }
  }

  lemma StrikeStep(s: System, id: nat)
    requires Inv(s) && Enabled(s, Strike(id))
    ensures Inv(Next(s, Strike(id))) && Atomic(s, Next(s, Strike(id)))
  {
  }

  lemma InsertStep(s: System, id: nat)
    requires Inv(s) && Enabled(s, InsertNew(id))
    ensures Inv(Next(s, InsertNew(id))) && Atomic(s, Next(s, InsertNew(id)))
  {
    hide EffectOf, OrderOf, Events, Overlay;
    var t := Next(s, InsertNew(id));
    var tx := s.txs[id];
    var k := TokenKey(tx.request.newId);
    if k in s.db.rows {
      var e := Entry(CallOf(tx.request, tx.pick, Clean), false,
          Rejected(TranslateRotateRefreshToken(Duplicate("refresh_tokens_pkey"))));
      DropKeepsInv(s, id, e);
      HeldIsLoaded(s.db.rows, tx);
      assert IsExec(s.db, e, s.db);
    } else {
      // the lock on the credential row makes the foreign key hold
      assert HasCredential(s.db.rows, tx.credential.value.userId);
      assert Held(s.db.rows, t.txs[id]);
    }
  }

  lemma AbortStep(s: System, id: nat, error: IoError)
    requires Inv(s) && Enabled(s, Abort(id, error))
    ensures Inv(Next(s, Abort(id, error))) && Atomic(s, Next(s, Abort(id, error)))
  {
    hide EffectOf, OrderOf, Events, Overlay;
    var tx := s.txs[id];
    var e := Entry(CallOf(tx.request, tx.pick, Broken(StageOf(tx), error)), false,
        Rejected(TranslateRotateRefreshToken(error)));
    DropKeepsInv(s, id, e);
    if tx.phase != Begun { HeldIsLoaded(s.db.rows, tx); }
    assert IsExec(s.db, e, s.db);
  }

  /**
    At its commit, a transaction's private changes are exactly what the atomic call would do to the
    database as it is then.
   */
  lemma CommitIsAtomic(db: Database, tx: Tx, wire: Wire)
    requires TxOk(db.rows, tx) && ReadyToCommit(tx) && !wire.Broken?
    ensures Admissible(db.rows, CallOf(tx.request, tx.pick, wire))
    ensures Judge(db.rows, CallOf(tx.request, tx.pick, wire)) ==
            Allow(if wire.ReplyLost? then Rejected(TranslateRotateRefreshToken(Io)) else Accepted(tx.credential.value))
    ensures EffectOf(db.rows, CallOf(tx.request, tx.pick, wire)) == tx.effect
    ensures OrderOf(db.rows, CallOf(tx.request, tx.pick, wire)) == tx.order
  {
    HeldIsLoaded(db.rows, tx);
  }

  lemma CommitIsExec(s: System, id: nat, lost: bool)
    requires Inv(s) && Enabled(s, Commit(id, lost))
    ensures Atomic(s, Next(s, Commit(id, lost)))
  {
    hide Judge, EffectOf, OrderOf, Admissible, TxOk;
    var t := Next(s, Commit(id, lost));
    CommitIsAtomic(s.db, s.txs[id], if lost then ReplyLost else Clean);
    assert IsExec(s.db, t.history[|s.history|], t.db);
  }

  lemma EffectIsLocked(rows: Rows, tx: Tx)
    requires TxOk(rows, tx)
    ensures tx.effect.Keys <= tx.locks
  {
  }

  lemma CommitStep(s: System, id: nat, lost: bool)
    requires Inv(s) && Enabled(s, Commit(id, lost))
    ensures Inv(Next(s, Commit(id, lost))) && Atomic(s, Next(s, Commit(id, lost)))
  {
    hide Atomic, CallOf;
    CommitIsExec(s, id, lost);
    EffectIsLocked(s.db.rows, s.txs[id]);
    hide TxOk;
    UnlockedChange(s, s.txs[id].effect);
  }

  lemma SingleStep(s: System, call: Call)
    requires Inv(s) && Enabled(s, Single(call))
    ensures Inv(Next(s, Single(call))) && Atomic(s, Next(s, Single(call)))
  {
    var t := Next(s, Single(call));
    CommittedCall(s.db, call);
    if Judge(s.db.rows, call).Allow? {
      UnlockedChange(s, EffectOf(s.db.rows, call));
    }
    assert IsExec(s.db, t.history[|s.history|], t.db);
  }

  lemma StepIsAtomic(s: System, l: Label)
    requires Inv(s) && Enabled(s, l)
    ensures Inv(Next(s, l)) && Atomic(s, Next(s, l))
  {
    match l
    case Begin(id, request) =>
    case FailToBegin(call) =>
      assert IsExec(s.db, Next(s, l).history[|s.history|], s.db);
    case Load(id, pick) => LoadStep(s, id, pick);
    case Strike(id) => StrikeStep(s, id);
    case InsertNew(id) => InsertStep(s, id);
    case Commit(id, lost) => CommitStep(s, id, lost);
    case Abort(id, error) => AbortStep(s, id, error);
    case Vanish(id) => DropKeepsInv(s, id, Entry(DeactivateUser(None, 0, Clean), false, Acknowledged));
    case Single(call) => SingleStep(s, call);
  }

  // ---- serialisability ----

  ghost predicate Initial(s: System) {
    s.txs == map[] && s.history == []
  }

  ghost predicate SystemStep(s: System, l: Label, t: System) {
    Enabled(s, l) && t == Next(s, l)
  }

  ghost predicate IsSystemRun(systems: seq<System>, labels: seq<Label>) {
    && |systems| == |labels| + 1 && Initial(systems[0])
    && forall i :: 0 <= i < |labels| ==> SystemStep(systems[i], labels[i], systems[i + 1])
  }

  function Calls(history: seq<Entry>): (calls: seq<Call>)
    ensures |calls| == |history| && forall i :: 0 <= i < |history| ==> calls[i] == history[i].call
  {
    seq(|history|, i requires 0 <= i < |history| => history[i].call)
  }

  /** Running the calls of the history one after the other, atomically, gives every reply that was given. */
  ghost predicate Explains(states: seq<Database>, history: seq<Entry>) {
    && IsRun(states, Calls(history))
    && forall i :: 0 <= i < |history| ==> IsExec(states[i], history[i], states[i + 1])
  }

  lemma ExplainOneMore(states: seq<Database>, history: seq<Entry>, e: Entry, after: Database)
    requires Explains(states, history) && IsExec(states[|history|], e, after)
    ensures Explains(states + [after], history + [e])
  {
    var longer, h := states + [after], history + [e];
    forall i | 0 <= i < |h|
      ensures StepsTo(longer[i], Calls(h)[i], longer[i + 1]) && IsExec(longer[i], h[i], longer[i + 1])
    {
      if i < |history| {
        assert h[i] == history[i] && StepsTo(states[i], Calls(history)[i], states[i + 1]);
      }
    }
  }

  /**
    Serialisability: however transactions and single statements interleave, running the calls
    atomically, in the order of their commits and rejections, gives the same tables, the same
    outbox and the same replies.
   */
  lemma {:induction false} Serialisable(systems: seq<System>, labels: seq<Label>) returns (states: seq<Database>)
    requires IsSystemRun(systems, labels)
    ensures Inv(systems[|labels|])
    ensures Explains(states, systems[|labels|].history)
    ensures states[0] == systems[0].db && states[|systems[|labels|].history|] == systems[|labels|].db
  {
    if labels == [] {
      states := [systems[0].db];
    } else {
      var n := |labels| - 1;
      states := Serialisable(systems[..n + 1], labels[..n]);
      var s, t := systems[n], systems[n + 1];
      assert SystemStep(s, labels[n], t);
      StepIsAtomic(s, labels[n]);
      if t.history != s.history || t.db != s.db {
        var e :| t.history == s.history + [e] && IsExec(s.db, e, t.db);
        ExplainOneMore(states, s.history, e, t.db);
        states := states + [t.db];
      }
    }
  }

  // ---- what the atomic theorems say about concurrent runs ----

  /** Under any interleaving the tables keep their integrity and the outbox rebuilds them. */
  lemma ConcurrentIntegrity(systems: seq<System>, labels: seq<Label>)
    requires IsSystemRun(systems, labels) && systems[0].db == EMPTY
    ensures Integrity(systems[|labels|].db.rows) && Mirrored(systems[|labels|].db)
  {
    var states := Serialisable(systems, labels);
    IntegrityAlways(states, Calls(systems[|labels|].history));
    OutboxComplete(states, Calls(systems[|labels|].history));
  }

  /** However clients race, a refresh token is redeemed at most once. */
  lemma ConcurrentSingleRedemption(systems: seq<System>, labels: seq<Label>, i: nat, j: nat)
    requires IsSystemRun(systems, labels) && systems[0].db == EMPTY
    requires var h := systems[|labels|].history;
             FreshIds(Calls(h)) && i < j < |h| && h[i].committed && h[j].committed && Redeems(h[i].call)
                 && Redeems(h[j].call)
    ensures systems[|labels|].history[i].call.pick != systems[|labels|].history[j].call.pick
  {
    var h := systems[|labels|].history;
    var states := Serialisable(systems, labels);
    assert IsExec(states[i], h[i], states[i + 1]) && IsExec(states[j], h[j], states[j + 1]);
    CommittedCall(states[i], h[i].call);
    CommittedCall(states[j], h[j].call);
    RedeemedAtMostOnce(states, Calls(h), i, j);
  }

  predicate RotationEntry(e: Entry, x: Key, y: Key) {
    e.committed && e.call.RotateToken? && e.call.pick == x && NewToken(e.call) == Some(y)
  }

  predicate IssueEntry(e: Entry, k: Key) {
    e.committed && e.call.CreateToken? && NewToken(e.call) == Some(k)
  }

  /**
    However clients race, rotation leaves disjoint simple paths, one from each token issued and no
    other, and only the last token of a path can be unrevoked.
   */
  lemma ConcurrentLineage(systems: seq<System>, labels: seq<Label>) returns (paths: Paths)
    requires IsSystemRun(systems, labels) && systems[0].db == EMPTY && FreshIds(Calls(systems[|labels|].history))
    ensures DisjointSimple(paths) && LiveAtEnds(paths, systems[|labels|].db.rows)
    ensures forall x, y :: IsEdge(paths, x, y) <==>
              exists m :: 0 <= m < |systems[|labels|].history| && RotationEntry(systems[|labels|].history[m], x, y)
    ensures forall k :: StartsPath(paths, k) <==>
              exists m :: 0 <= m < |systems[|labels|].history| && IssueEntry(systems[|labels|].history[m], k)
  {
    hide Judge, EffectOf, OrderOf, Exec, Admissible, IsEdge, StartsPath, NewToken;
    var h := systems[|labels|].history;
    var states := Serialisable(systems, labels);
    paths := Lineages(states, Calls(h));
    LineagesAreDisjointPaths(states, Calls(h));
    forall x, y ensures IsEdge(paths, x, y) <==> exists m :: 0 <= m < |h| && RotationEntry(h[m], x, y) {
      EdgesAreRotations(states, Calls(h), x, y);
      forall m | 0 <= m < |h| ensures RotationEntry(h[m], x, y) <==> RotatedAt(states, Calls(h), m, x, y) {
        assert IsExec(states[m], h[m], states[m + 1]);
        CommittedCall(states[m], h[m].call);
      }
    }
    forall k ensures StartsPath(paths, k) <==> exists m :: 0 <= m < |h| && IssueEntry(h[m], k) {
      StartsAreIssued(states, Calls(h), k);
      forall m | 0 <= m < |h| ensures IssueEntry(h[m], k) <==> IssuedAt(states, Calls(h), m, k) {
        assert IsExec(states[m], h[m], states[m + 1]);
        CommittedCall(states[m], h[m].call);
      }
    }
  }

  /** A transaction that has run all its statements can always commit: its changes fit the database as it is by then. */
  lemma CommitIsNeverBlocked(s: System, id: nat, lost: bool)
    requires Inv(s) && id in s.txs && ReadyToCommit(s.txs[id])
    ensures Enabled(s, Commit(id, lost))
  {
    CommitIsAtomic(s.db, s.txs[id], Clean);
  }

  // ---- who waits for whom ----

  /** The row is one that a load of the digest locks: a token with it, or the credential of such a token. */
  ghost predicate Locked(rows: Rows, hash: Digest, k: Key) {
    exists j :: j in rows && rows[j].TokenRow? && rows[j].token.tokenHash == hash
        && CredentialKey(rows[j].token.userId) in rows && (k == j || k == CredentialKey(rows[j].token.userId))
  }

  lemma LockSetMeans(rows: Rows, hash: Digest, k: Key)
    ensures k in LockSet(rows, hash) <==> Locked(rows, hash, k)
  {
    if j :| j in rows && rows[j].TokenRow? && rows[j].token.tokenHash == hash
            && CredentialKey(rows[j].token.userId) in rows && (k == j || k == CredentialKey(rows[j].token.userId)) {
      assert j in Matches(rows, hash);
    }
  }

  /** A load waits exactly while another transaction has locked one of these rows: nobody else's, and no others. */
  lemma LoadWaitsIff(s: System, id: nat, pick: Key)
    requires id in s.txs && s.txs[id].phase == Begun && PickOk(s.db.rows, s.txs[id].request.hash, pick)
    ensures !Enabled(s, Load(id, pick)) <==>
              exists t, k :: t in s.txs && t != id && k in s.txs[t].locks
                  && Locked(s.db.rows, s.txs[id].request.hash, k)
  {
    hide LockSet, Locked;
    var hash := s.txs[id].request.hash;
    forall k ensures k in LockSet(s.db.rows, hash) <==> Locked(s.db.rows, hash, k) {
      LockSetMeans(s.db.rows, hash, k);
    }
    if !Enabled(s, Load(id, pick)) {
      var t :| t in s.txs && t != id && !(s.txs[t].locks !! LockSet(s.db.rows, hash));
      var k :| k in s.txs[t].locks && k in LockSet(s.db.rows, hash);
    }
  }

  /** What a load locks stays locked for the transaction until it ends. */
  lemma LoadedLocks(s: System, id: nat, pick: Key, k: Key)
    requires Enabled(s, Load(id, pick)) && id in Next(s, Load(id, pick)).txs
    ensures k in Next(s, Load(id, pick)).txs[id].locks <==> Locked(s.db.rows, s.txs[id].request.hash, k)
  {
    LockSetMeans(s.db.rows, s.txs[id].request.hash, k);
  }

  // ---- every atomic run is also a run of steps ----

  ghost predicate Follows(s: System, labels: seq<Label>, t: System)
    decreases |labels|
  {
    if labels == [] then s == t else Enabled(s, labels[0]) && Follows(Next(s, labels[0]), labels[1..], t)
  }

  lemma {:induction false} FollowsOn(s: System, first: seq<Label>, t: System, second: seq<Label>, u: System)
    requires Follows(s, first, t) && Follows(t, second, u)
    ensures Follows(s, first + second, u)
    decreases |first|
  {
    hide Enabled, Next;
    if first == [] {
      assert first + second == second;
    } else {
      FollowsOn(Next(s, first[0]), first[1..], t, second, u);
      assert (first + second)[1..] == first[1..] + second;
    }
  }

  lemma FollowsOne(s: System, l: Label)
    requires Enabled(s, l)
    ensures Follows(s, [l], Next(s, l))
  {
    hide Enabled, Next;
    assert Follows(Next(s, l), [], Next(s, l));
  }

  function RequestOf(call: Call): (r: Request)
    requires Redeems(call)
    ensures CallOf(r, call.pick, call.wire) == call
  {
    match call
    case RotateToken(hash, newId, newHash, newExpiresAt, now, _, at, _) =>
      Rotate(hash, newId, newHash, newExpiresAt, now, at)
    case RevokeToken(hash, now, _, at, _) => Revoke(hash, now, at)
  }

  /** One open transaction and no other. */
  function Open(s: System, tx: Tx): System {
    System(s.db, map[0 := tx], s.history)
  }

  /** No open transaction, and one more finished call. */
  function Closed(s: System, db: Database, e: Entry): System {
    System(db, map[], s.history + [e])
  }

  function LoadedTx(rows: Rows, call: Call): Tx
    requires Redeems(call) && PickOk(rows, call.hash, call.pick)
    requires LoadForMutation(rows, call.hash, call.now, call.pick).Ok?
  {
    Tx(RequestOf(call), Loaded, call.pick, Some(CredentialOf(rows, rows[call.pick].token.userId)),
       LockSet(rows, call.hash), map[], [])
  }

  function StruckTx(rows: Rows, call: Call): Tx
    requires Redeems(call) && PickOk(rows, call.hash, call.pick)
    requires LoadForMutation(rows, call.hash, call.now, call.pick).Ok?
  {
    LoadedTx(rows, call).(phase := Struck, effect := map[call.pick := Some(Revoked(rows[call.pick], call.now))],
                          order := [call.pick])
  }

  lemma AloneLoads(s: System, call: Call)
    requires s.txs == map[] && Redeems(call) && PickOk(s.db.rows, call.hash, call.pick)
    ensures var load := LoadForMutation(s.db.rows, call.hash, call.now, call.pick);
            Follows(s, [Begin(0, RequestOf(call)), Load(0, call.pick)],
                if load.Err? then Closed(s, s.db, Entry(CallOf(RequestOf(call), call.pick, Clean), false,
                                                        Rejected(load.error)))
                else Open(s, LoadedTx(s.db.rows, call)))
  {
    hide LockSet;
    var s1 := Next(s, Begin(0, RequestOf(call)));
    assert s1.txs - {0} == map[];
    assert forall tx :: s1.txs[0 := tx] == map[0 := tx];
    FollowsOne(s1, Load(0, call.pick));
    FollowsOne(s, Begin(0, RequestOf(call)));
    FollowsOn(s, [Begin(0, RequestOf(call))], s1, [Load(0, call.pick)], Next(s1, Load(0, call.pick)));
  }

  lemma AloneStrikes(s: System, call: Call)
    requires Redeems(call) && PickOk(s.db.rows, call.hash, call.pick)
    requires LoadForMutation(s.db.rows, call.hash, call.now, call.pick).Ok?
    ensures Follows(Open(s, LoadedTx(s.db.rows, call)), [Strike(0)], Open(s, StruckTx(s.db.rows, call)))
  {
    hide LockSet;
    var s1, struck := Open(s, LoadedTx(s.db.rows, call)), StruckTx(s.db.rows, call);
    var empty: Effect := map[];
    assert empty[call.pick := struck.effect[call.pick]] == struck.effect;
    assert s1.txs[0].order + [call.pick] == struck.order;
    assert s1.txs[0 := struck] == map[0 := struck];
    FollowsOne(s1, Strike(0));
  }

  lemma AloneAborts(s: System, tx: Tx, error: IoError)
    ensures Follows(Open(s, tx), [Abort(0, error)],
                Closed(s, s.db, Entry(CallOf(tx.request, tx.pick, Broken(StageOf(tx), error)), false,
                                      Rejected(TranslateRotateRefreshToken(error)))))
  {
    assert Open(s, tx).txs - {0} == map[];
    FollowsOne(Open(s, tx), Abort(0, error));
  }

  function InsertedTx(rows: Rows, call: Call): Tx
    requires call.RotateToken? && PickOk(rows, call.hash, call.pick)
    requires LoadForMutation(rows, call.hash, call.now, call.pick).Ok?
  {
    var k, struck := TokenKey(call.newId), StruckTx(rows, call);
    struck.(phase := Inserted, locks := struck.locks + {k}, order := [call.pick, k],
            effect := map[call.pick := Some(Revoked(rows[call.pick], call.now)),
                          k := Some(NewRow(RequestOf(call), rows[call.pick].token.userId))])
  }

  lemma AloneInserts(s: System, call: Call)
    requires call.RotateToken? && PickOk(s.db.rows, call.hash, call.pick)
    requires LoadForMutation(s.db.rows, call.hash, call.now, call.pick).Ok?
    ensures Follows(Open(s, StruckTx(s.db.rows, call)), [InsertNew(0)],
                if TokenKey(call.newId) in s.db.rows then
                  Closed(s, s.db, Entry(CallOf(RequestOf(call), call.pick, Clean), false,
                                        Rejected(FailedToRotateRefreshToken)))
                else Open(s, InsertedTx(s.db.rows, call)))
  {
    hide LockSet;
    var s1, inserted := Open(s, StruckTx(s.db.rows, call)), InsertedTx(s.db.rows, call);
    assert KeyOf(s.db.rows[call.pick]) == call.pick;
    assert s1.txs[0].effect[TokenKey(call.newId) := inserted.effect[TokenKey(call.newId)]] == inserted.effect;
    assert s1.txs[0].order + [TokenKey(call.newId)] == inserted.order;
    assert s1.txs[0 := inserted] == map[0 := inserted] && s1.txs - {0} == map[];
    FollowsOne(s1, InsertNew(0));
  }

  lemma StagesAreSound(rows: Rows, call: Call)
    requires Redeems(call) && PickOk(rows, call.hash, call.pick)
    requires LoadForMutation(rows, call.hash, call.now, call.pick).Ok?
    ensures TxOk(rows, StruckTx(rows, call))
    ensures call.RotateToken? && TokenKey(call.newId) !in rows ==> TxOk(rows, InsertedTx(rows, call))
  {
  }

  lemma AloneCommits(s: System, tx: Tx, lost: bool)
    requires TxOk(s.db.rows, tx) && ReadyToCommit(tx)
    ensures var call := CallOf(tx.request, tx.pick, if lost then ReplyLost else Clean);
            && Admissible(s.db.rows, call)
            && Follows(Open(s, tx), [Commit(0, lost)],
                   Closed(s, Exec(s.db, call).db, Entry(call, true, Exec(s.db, call).reply)))
  {
    hide LockSet, EffectOf, OrderOf, Judge;
    CommitIsAtomic(s.db, tx, if lost then ReplyLost else Clean);
    var s1 := Open(s, tx);
    assert s1.txs - {0} == map[];
    assert Enabled(s1, Commit(0, lost));
    FollowsOne(s1, Commit(0, lost));
  }

  /** The same request, but for what the environment chose on its way. */
  predicate SameRequest(a: Call, b: Call) {
    a == b || (Redeems(a) && Redeems(b) && RequestOf(a) == RequestOf(b))
  }

  /** The entry is the call's, with its reply. */
  ghost predicate Records(e: Entry, db: Database, call: Call) {
    Admissible(db.rows, call) && SameRequest(e.call, call) && e.committed == Exec(db, call).committed
    && e.reply == Exec(db, call).reply
  }

  /** The system after a call has run as a whole. */
  ghost predicate RunsTo(s: System, labels: seq<Label>, call: Call, e: Entry) {
    Records(e, s.db, call) && Follows(s, labels, Closed(s, Exec(s.db, call).db, e))
  }

  lemma EarlyFailureRuns(s: System, call: Call) returns (labels: seq<Label>, e: Entry)
    requires s.txs == map[] && Redeems(call) && BreaksEarly(call.wire)
    ensures RunsTo(s, labels, call, e)
  {
    if call.wire.stage == AtBegin {
      labels, e := [FailToBegin(call)], Entry(call, false, Rejected(TranslateRotateRefreshToken(call.wire.error)));
      FollowsOne(s, FailToBegin(call));
    } else {
      var tx := Tx(RequestOf(call), Begun, TokenKey(0), None, {}, map[], []);
      var begin, abort := Begin(0, RequestOf(call)), Abort(0, call.wire.error);
      e := Entry(CallOf(tx.request, tx.pick, Broken(AtLoad, call.wire.error)), false,
          Rejected(TranslateRotateRefreshToken(call.wire.error)));
      labels := [begin] + [abort];
      assert Next(s, begin) == Open(s, tx);
      FollowsOne(s, begin);
      AloneAborts(s, tx, call.wire.error);
      FollowsOn(s, [begin], Open(s, tx), [abort], Closed(s, s.db, e));
    }
  }

  /** What an open transaction still needs to answer the call. */
  lemma StruckRuns(s: System, call: Call) returns (labels: seq<Label>, e: Entry)
    requires Redeems(call) && Admissible(s.db.rows, call) && !BreaksEarly(call.wire)
    requires LoadForMutation(s.db.rows, call.hash, call.now, call.pick).Ok?
    requires call.wire.Broken? ==> call.wire.stage == AtCommit || (call.wire.stage == AtInsert && call.RotateToken?)
    ensures Records(e, s.db, call)
    ensures Follows(Open(s, StruckTx(s.db.rows, call)), labels, Closed(s, Exec(s.db, call).db, e))
  {
    hide EffectOf, OrderOf, LockSet, Follows;
    var rows, struck := s.db.rows, StruckTx(s.db.rows, call);
    StagesAreSound(rows, call);
    if call.RevokeToken? || (call.wire.Broken? && call.wire.stage == AtInsert) {
      if call.wire.Broken? {
        labels := [Abort(0, call.wire.error)];
        e := Entry(CallOf(struck.request, struck.pick, Broken(StageOf(struck), call.wire.error)), false,
            Rejected(TranslateRotateRefreshToken(call.wire.error)));
        AloneAborts(s, struck, call.wire.error);
      } else {
        labels, e := [Commit(0, call.wire.ReplyLost?)], Entry(call, true, Exec(s.db, call).reply);
        AloneCommits(s, struck, call.wire.ReplyLost?);
        CommitIsAtomic(s.db, struck, call.wire);
      }
    } else {
      AloneInserts(s, call);
      if TokenKey(call.newId) in rows {
        labels := [InsertNew(0)];
        e := Entry(CallOf(RequestOf(call), call.pick, Clean), false, Rejected(FailedToRotateRefreshToken));
      } else {
        var inserted := InsertedTx(rows, call);
        if call.wire.Broken? {
          labels := [Abort(0, call.wire.error)];
          e := Entry(CallOf(inserted.request, inserted.pick, Broken(StageOf(inserted), call.wire.error)), false,
              Rejected(TranslateRotateRefreshToken(call.wire.error)));
          AloneAborts(s, inserted, call.wire.error);
        } else {
          labels, e := [Commit(0, call.wire.ReplyLost?)], Entry(call, true, Exec(s.db, call).reply);
          AloneCommits(s, inserted, call.wire.ReplyLost?);
          CommitIsAtomic(s.db, inserted, call.wire);
        }
        FollowsOn(Open(s, struck), [InsertNew(0)], Open(s, inserted), labels, Closed(s, Exec(s.db, call).db, e));
        labels := [InsertNew(0)] + labels;
      }
    }
  }

  lemma LoadedRuns(s: System, call: Call) returns (labels: seq<Label>, e: Entry)
    requires s.txs == map[] && Redeems(call) && Admissible(s.db.rows, call) && !BreaksEarly(call.wire)
    ensures RunsTo(s, labels, call, e)
  {
    hide EffectOf, OrderOf, LockSet, Follows;
    var rows := s.db.rows;
    var load := LoadForMutation(rows, call.hash, call.now, call.pick);
    labels := [Begin(0, RequestOf(call)), Load(0, call.pick)];
    AloneLoads(s, call);
    if load.Err? {
      e := Entry(CallOf(RequestOf(call), call.pick, Clean), false, Rejected(load.error));
    } else {
      var loaded, struck := LoadedTx(rows, call), StruckTx(rows, call);
      var rest: seq<Label>;
      if call.wire.Broken? && (call.wire.stage == AtRevoke || (call.wire.stage == AtInsert && call.RevokeToken?)) {
        rest := [Abort(0, call.wire.error)];
        e := Entry(CallOf(loaded.request, loaded.pick, Broken(StageOf(loaded), call.wire.error)), false,
            Rejected(TranslateRotateRefreshToken(call.wire.error)));
        AloneAborts(s, loaded, call.wire.error);
      } else {
        AloneStrikes(s, call);
        rest, e := StruckRuns(s, call);
        FollowsOn(Open(s, loaded), [Strike(0)], Open(s, struck), rest, Closed(s, Exec(s.db, call).db, e));
        rest := [Strike(0)] + rest;
      }
      FollowsOn(s, labels, Open(s, loaded), rest, Closed(s, Exec(s.db, call).db, e));
      labels := labels + rest;
    }
  }

  /** Any call can run as a whole while no transaction is open, with the effect and the reply of the atomic one. */
  lemma CallRuns(s: System, call: Call) returns (labels: seq<Label>, e: Entry)
    requires s.txs == map[] && Admissible(s.db.rows, call)
    ensures RunsTo(s, labels, call, e)
  {
    if !Redeems(call) {
      var o := Exec(s.db, call);
      labels, e := [Single(call)], Entry(call, o.committed, o.reply);
      FollowsOne(s, Single(call));
    } else if BreaksEarly(call.wire) {
      labels, e := EarlyFailureRuns(s, call);
    } else {
      labels, e := LoadedRuns(s, call);
    }
  }

  lemma StaysThere(s: System)
    ensures Follows(s, [], s)
  {
  }

  /**
    The converse of serialisability: every run of atomic calls, whatever they meet on the wire, is
    also a run of the steps, with the same tables, the same outbox and the same replies.
   */
  lemma {:induction false} AtomicRunsAreStepRuns(states: seq<Database>, calls: seq<Call>)
    returns (labels: seq<Label>, history: seq<Entry>)
    requires IsRun(states, calls)
    ensures |history| == |calls| && forall i :: 0 <= i < |calls| ==> Records(history[i], states[i], calls[i])
    ensures Follows(System(states[0], map[], []), labels, System(states[|calls|], map[], history))
  {
    hide Follows, Records, Exec, Admissible;
    if calls == [] {
      labels, history := [], [];
      StaysThere(System(states[0], map[], []));
    } else {
      var n := |calls| - 1;
      RunPrefix(states, calls, n);
      labels, history := AtomicRunsAreStepRuns(states[..n + 1], calls[..n]);
      assert StepsTo(states[n], calls[n], states[n + 1]);
      var s := System(states[n], map[], history);
      var more, e := CallRuns(s, calls[n]);
      FollowsOn(System(states[0], map[], []), labels, s, more, Closed(s, states[n + 1], e));
      labels, history := labels + more, history + [e];
    }
  }
}
