/**
  The transactional outbox: what the row triggers append, and what replaying the log rebuilds.
 */
module Outbox {
  import opened Wrappers
  import opened Tables

  /** One row change, as a row trigger sees it (TG_OP with OLD and NEW). */
  datatype Change = Insert(after: Row) | Update(before: Row, after: Row) | Delete(before: Row)

  datatype Operation = Created | Updated | Deactivated

  datatype Event = Event(aggregateType: string, aggregateId: Option<Uuid>, eventType: string, operation: Operation,
                         payload: Row, occurredAt: Time)

  function TableName(row: Row): string {
    match row
    case CredentialRow(_) => "auth_credentials"
    case CodeRow(_) => "email_verification_codes"
    case TokenRow(_) => "refresh_tokens"
    case RoleRow(_) => "auth_user_roles"
  }

  datatype IdColumn = UserIdColumn | CodeIdColumn | TokenIdColumn | IdColumn

  /** `to_jsonb(row) ->> column`, for the columns that hold an id. */
  function Field(row: Row, column: IdColumn): Option<Uuid> {
    match (row, column)
    case (CredentialRow(c), UserIdColumn) => Some(c.userId)
    case (CodeRow(c), UserIdColumn) => Some(c.userId)
    case (CodeRow(c), CodeIdColumn) => Some(c.id)
    case (TokenRow(t), UserIdColumn) => Some(t.userId)
    case (TokenRow(t), TokenIdColumn) => Some(t.id)
    case (RoleRow(r), UserIdColumn) => Some(r.userId)
    case (_, _) => None
  }

  function Coalesce(values: seq<Option<Uuid>>): Option<Uuid> {
    if values == [] then None else if values[0].Some? then values[0] else Coalesce(values[1..])
  }

  function OperationText(operation: Operation): string {
    match operation
    case Created => "created"
    case Updated => "updated"
    case Deactivated => "deactivated"
  }

  function AggregateType(row: Row): string {
    if row.CredentialRow? then "auth" else TableName(row)
  }

  function EventType(row: Row, operation: Operation): string {
    if row.CredentialRow? then "auth.credentials." + OperationText(operation) else "auth." + TableName(row) + ".changed"
  }

  /** `capture_auth_outbox_event`: the event one row change appends, stamped with NOW(). */
  function Capture(change: Change, now: Time): (e: Event)
    ensures e.aggregateId == Some(UserOf(e.payload))
    ensures KeyOf(e.payload) == KeyOf(if change.Delete? then change.before else change.after)
  {
    var operation := match change case Insert(_) => Created case Delete(_) => Deactivated case Update(_, _) => Updated;
    var row := if change.Delete? then change.before else change.after;
    var id := Coalesce([Field(row, UserIdColumn), Field(row, CodeIdColumn), Field(row, TokenIdColumn),
        Field(row, IdColumn)]);
    Event(AggregateType(row), id, EventType(row, operation), operation, row, now)
  }

  /** The first letter of the event type's second word tells the table, the next word the operation. */
  lemma EventTypeLetters(row: Row, operation: Operation)
    ensures var t := EventType(row, operation);
            && |t| >= 24
            && t[5] == (match row
                        case CredentialRow(_) => 'c' case CodeRow(_) => 'e'
                        case TokenRow(_) => 'r' case RoleRow(_) => 'a')
            && (row.CredentialRow? ==>
                  t[17] == (match operation case Created => 'c' case Updated => 'u' case Deactivated => 'd'))
  {
    match row
    case CredentialRow(_) =>
      match operation { case Created => case Updated => case Deactivated => }
    case CodeRow(_) =>
    case TokenRow(_) =>
    case RoleRow(_) =>
  }

  /**
    What a consumer can read off an event's headers. Either type tells the table; the event type
    tells the operation as well, but only for credentials.
   */
  lemma HeadersIdentify(a: Row, p: Operation, b: Row, q: Operation)
    ensures AggregateType(a) == AggregateType(b) <==> TableName(a) == TableName(b)
    ensures EventType(a, p) == EventType(b, q) <==> TableName(a) == TableName(b) && (a.CredentialRow? ==> p == q)
  {
    EventTypeLetters(a, p);
    EventTypeLetters(b, q);
    assert |TableName(a)| == |TableName(b)| ==> (a.CredentialRow? <==> b.CredentialRow?);
  }

  lemma CredentialHeaders(row: Row, operation: Operation)
    requires row.CredentialRow?
    ensures AggregateType(row) == "auth"
    ensures EventType(row, operation) == match operation
                                         case Created => "auth.credentials.created"
                                         case Updated => "auth.credentials.updated"
                                         case Deactivated => "auth.credentials.deactivated"
  {
    match operation { case Created => case Updated => case Deactivated => }
  }

  lemma CodeHeaders(row: Row, operation: Operation)
    requires row.CodeRow?
    ensures AggregateType(row) == "email_verification_codes"
    ensures EventType(row, operation) == "auth.email_verification_codes.changed"
  {
  }

  lemma TokenHeaders(row: Row, operation: Operation)
    requires row.TokenRow?
    ensures AggregateType(row) == "refresh_tokens" && EventType(row, operation) == "auth.refresh_tokens.changed"
  {
  }

  lemma RoleHeaders(row: Row, operation: Operation)
    requires row.RoleRow?
    ensures AggregateType(row) == "auth_user_roles" && EventType(row, operation) == "auth.auth_user_roles.changed"
  {
  }

  // ---- the events of one statement ----

  /** The change that takes a row from one image to another; `None` is an absent row. */
  function ChangeOf(before: Option<Row>, after: Option<Row>): Change
    requires before.Some? || after.Some?
  {
    if after.None? then Delete(before.value)
    else if before.Some? then Update(before.value, after.value)
    else Insert(after.value)
  }

  function Lookup(rows: Rows, k: Key): Option<Row> {
    if k in rows then Some(rows[k]) else None
  }

  /** The events of a statement whose row triggers fire in the given order. */
  function Events(rows: Rows, effect: Effect, order: seq<Key>, now: Time): seq<Event>
    requires ValidEffect(rows, effect) && forall k :: k in order ==> k in effect
  {
    seq(|order|, i requires 0 <= i < |order| => Capture(ChangeOf(Lookup(rows, order[i]), effect[order[i]]), now))
  }

  // ---- replay ----

  /** A consumer's upsert or delete by table and primary key. */
  function ApplyEvent(rows: Rows, e: Event): Rows {
    if e.operation.Deactivated? then rows - {KeyOf(e.payload)} else rows[KeyOf(e.payload) := e.payload]
  }

  function Replay(log: seq<Event>): Rows {
    if log == [] then map[] else ApplyEvent(Replay(log[..|log| - 1]), log[|log| - 1])
  }

  function Image(e: Event): Option<Row> {
    if e.operation.Deactivated? then None else Some(e.payload)
  }

  /** What the log last said about one row. */
  function Last(log: seq<Event>, k: Key): Option<Row> {
    if log == [] then None
    else if KeyOf(log[|log| - 1].payload) == k then Image(log[|log| - 1])
    else Last(log[..|log| - 1], k)
  }

  lemma {:induction false} ReplayIsLast(log: seq<Event>, k: Key)
    ensures Lookup(Replay(log), k) == Last(log, k)
  {
    if log != [] {
      ReplayIsLast(log[..|log| - 1], k);
    }
  }

  lemma SameRows(a: Rows, b: Rows)
    requires forall k :: Lookup(a, k) == Lookup(b, k)
    ensures a == b
  {
    assert forall k :: k in a ==> Lookup(a, k).Some?;
    assert forall k :: k in b ==> Lookup(b, k).Some?;
  }

  lemma SameLastSameReplay(a: seq<Event>, b: seq<Event>)
    requires forall k :: Last(a, k) == Last(b, k)
    ensures Replay(a) == Replay(b)
  {
    forall k ensures Lookup(Replay(a), k) == Lookup(Replay(b), k) {
      ReplayIsLast(a, k);
      ReplayIsLast(b, k);
    }
    SameRows(Replay(a), Replay(b));
  }

  // ---- events that touch each row once ----

  predicate DistinctRows(batch: seq<Event>) {
    forall i, j :: 0 <= i < j < |batch| ==> KeyOf(batch[i].payload) != KeyOf(batch[j].payload)
  }

  lemma {:induction false} LastOfBatch(log: seq<Event>, batch: seq<Event>, k: Key)
    requires DistinctRows(batch)
    ensures forall i :: 0 <= i < |batch| && KeyOf(batch[i].payload) == k ==> Last(log + batch, k) == Image(batch[i])
    ensures (forall i :: 0 <= i < |batch| ==> KeyOf(batch[i].payload) != k) ==> Last(log + batch, k) == Last(log, k)
  {
    if batch == [] {
      assert log + batch == log;
    } else {
      var all := log + batch;
      var front := batch[..|batch| - 1];
      assert all[..|all| - 1] == log + front;
      LastOfBatch(log, front, k);
      if KeyOf(all[|all| - 1].payload) != k {
        forall i | 0 <= i < |batch| && KeyOf(batch[i].payload) == k ensures Last(all, k) == Image(batch[i]) {
          assert front[i] == batch[i];
        }
      }
    }
  }

  lemma CountTwo<T>(s: seq<T>, i: nat, j: nat)
    requires i < j < |s| && s[i] == s[j]
    ensures multiset(s)[s[i]] >= 2
  {
    assert s == s[..j] + [s[j]] + s[j + 1..];
    assert s[i] in multiset(s[..j]);
  }

  lemma {:induction false} CountOnce(batch: seq<Event>, e: Event)
    requires DistinctRows(batch)
    ensures multiset(batch)[e] <= 1
  {
    if batch != [] {
      var front := batch[..|batch| - 1];
      assert batch == front + [batch[|batch| - 1]];
      CountOnce(front, e);
      if batch[|batch| - 1] == e {
        assert forall i :: 0 <= i < |front| ==> front[i] == batch[i] != e;
        assert e !in front;
      }
    }
  }

  lemma DistinctByCount(batch: seq<Event>, shuffled: seq<Event>)
    requires DistinctRows(batch) && multiset(batch) == multiset(shuffled)
    ensures DistinctRows(shuffled)
  {
    forall i, j | 0 <= i < j < |shuffled| ensures KeyOf(shuffled[i].payload) != KeyOf(shuffled[j].payload) {
      assert shuffled[i] in multiset(batch) && shuffled[j] in multiset(batch);
      if shuffled[i] == shuffled[j] {
        CountTwo(shuffled, i, j);
        CountOnce(batch, shuffled[i]);
      }
    }
  }

  /**
    Events of one call share their timestamps. When each row is touched at most once, any order
    of the same events rebuilds the same tables.
   */
  lemma BatchOrderIsIrrelevant(log: seq<Event>, batch: seq<Event>, shuffled: seq<Event>)
    requires DistinctRows(batch) && multiset(batch) == multiset(shuffled)
    ensures Replay(log + shuffled) == Replay(log + batch)
  {
    DistinctByCount(batch, shuffled);
    forall k ensures Last(log + shuffled, k) == Last(log + batch, k) {
      LastOfBatch(log, batch, k);
      LastOfBatch(log, shuffled, k);
      if i :| 0 <= i < |batch| && KeyOf(batch[i].payload) == k {
        assert batch[i] in multiset(shuffled);
        var j :| 0 <= j < |shuffled| && shuffled[j] == batch[i];
      } else {
        forall j | 0 <= j < |shuffled| ensures KeyOf(shuffled[j].payload) != k {
          assert shuffled[j] in multiset(batch);
        }
      }
    }
    SameLastSameReplay(log + shuffled, log + batch);
  }

  // ---- the events of a statement rebuild its effect ----

  /** A statement may move no row from one user to another. */
  predicate KeepsOwner(rows: Rows, effect: Effect)
    requires ValidEffect(rows, effect)
  {
    forall k :: k in effect && k in rows && effect[k].Some? ==> UserOf(effect[k].value) == UserOf(rows[k])
  }

  lemma EventsAreDistinct(rows: Rows, effect: Effect, order: seq<Key>, now: Time)
    requires ValidEffect(rows, effect) && Enumerates(order, effect.Keys)
    ensures DistinctRows(Events(rows, effect, order, now))
    ensures forall i :: 0 <= i < |order| ==>
              var e := Events(rows, effect, order, now)[i]; KeyOf(e.payload) == order[i] && Image(e) == effect[order[i]]
  {
  }

  lemma EventsRebuildRow(log: seq<Event>, rows: Rows, effect: Effect, order: seq<Key>, now: Time, k: Key)
    requires ValidEffect(rows, effect) && Enumerates(order, effect.Keys)
    requires Replay(log) == rows
    ensures Last(log + Events(rows, effect, order, now), k) == if k in effect then effect[k] else Lookup(rows, k)
  {
    var batch := Events(rows, effect, order, now);
    EventsAreDistinct(rows, effect, order, now);
    LastOfBatch(log, batch, k);
    ReplayIsLast(log, k);
    if k in effect {
      var i :| 0 <= i < |order| && order[i] == k;
      assert KeyOf(batch[i].payload) == k;
    }
  }

  lemma EventsRebuildEffect(log: seq<Event>, rows: Rows, effect: Effect, order: seq<Key>, now: Time)
    requires ValidEffect(rows, effect) && Enumerates(order, effect.Keys)
    requires Replay(log) == rows
    ensures Replay(log + Events(rows, effect, order, now)) == Overlay(rows, effect)
  {
    var after := log + Events(rows, effect, order, now);
    forall k ensures Lookup(Replay(after), k) == Lookup(Overlay(rows, effect), k) {
      ReplayIsLast(after, k);
      EventsRebuildRow(log, rows, effect, order, now, k);
    }
    SameRows(Replay(after), Overlay(rows, effect));
  }

  /** An event that can follow tables in state `before`: it keeps the row's user, and creates only what is absent. */
  predicate Follows(before: Rows, e: Event) {
    && e.aggregateId == Some(UserOf(e.payload))
    && (if e.operation.Created? then KeyOf(e.payload) !in before
        else KeyOf(e.payload) in before && UserOf(before[KeyOf(e.payload)]) == UserOf(e.payload))
  }

  /** The log tells a possible history. */
  predicate Coherent(log: seq<Event>) {
    log == [] || (Coherent(log[..|log| - 1]) && Follows(Replay(log[..|log| - 1]), log[|log| - 1]))
  }

  lemma {:induction false} BatchIsCoherent(log: seq<Event>, batch: seq<Event>)
    requires Coherent(log) && DistinctRows(batch)
    requires forall i :: 0 <= i < |batch| ==> Follows(Replay(log), batch[i])
    ensures Coherent(log + batch)
  {
    if batch == [] {
      assert log + batch == log;
    } else {
      var front, e := batch[..|batch| - 1], batch[|batch| - 1];
      BatchIsCoherent(log, front);
      LastOfBatch(log, front, KeyOf(e.payload));
      ReplayIsLast(log, KeyOf(e.payload));
      ReplayIsLast(log + front, KeyOf(e.payload));
      assert (log + batch)[..|log + batch| - 1] == log + front;
    }
  }

  lemma EventsAreCoherent(log: seq<Event>, rows: Rows, effect: Effect, order: seq<Key>, now: Time)
    requires ValidEffect(rows, effect) && Enumerates(order, effect.Keys) && KeepsOwner(rows, effect)
    requires Replay(log) == rows && Coherent(log)
    ensures Coherent(log + Events(rows, effect, order, now))
  {
    EventsAreDistinct(rows, effect, order, now);
    BatchIsCoherent(log, Events(rows, effect, order, now));
  }

  // ---- a subsequence that keeps every event of a row ----

  function Keep(log: seq<Event>, p: Event -> bool): seq<Event> {
    if log == [] then []
    else
      var e := log[|log| - 1];
      Keep(log[..|log| - 1], p) + if p(e) then [e] else []
  }

  lemma {:induction false} KeepRetainsLast(log: seq<Event>, p: Event -> bool, k: Key)
    requires forall e :: e in log && KeyOf(e.payload) == k ==> p(e)
    ensures Last(Keep(log, p), k) == Last(log, k)
  {
    if log != [] {
      var e := log[|log| - 1];
      var front := log[..|log| - 1];
      assert forall x :: x in front ==> x in log;
      KeepRetainsLast(front, p, k);
      if p(e) {
        assert (Keep(front, p) + [e])[..|Keep(front, p)|] == Keep(front, p);
      } else {
        assert Keep(front, p) + [] == Keep(front, p);
      }
    }
  }

  function OfRow(log: seq<Event>, k: Key): seq<Event> {
    Keep(log, (e: Event) => KeyOf(e.payload) == k)
  }

  /** Reordering a log in any way that keeps each row's own events in order rebuilds the same tables. */
  lemma RowOrderSuffices(a: seq<Event>, b: seq<Event>)
    requires forall k :: OfRow(a, k) == OfRow(b, k)
    ensures Replay(a) == Replay(b)
  {
    forall k ensures Last(a, k) == Last(b, k) {
      KeepRetainsLast(a, (e: Event) => KeyOf(e.payload) == k, k);
      KeepRetainsLast(b, (e: Event) => KeyOf(e.payload) == k, k);
      assert OfRow(a, k) == OfRow(b, k);
    }
    SameLastSameReplay(a, b);
  }

  // ---- partitioning by aggregate ----

  function OfUser(log: seq<Event>, u: Uuid): seq<Event> {
    Keep(log, (e: Event) => e.aggregateId == Some(u))
  }

  /** Replaying the events of one aggregate rebuilds exactly that user's rows of every table. */
  lemma {:induction false} ReplayCommutesWithPartition(log: seq<Event>, u: Uuid)
    requires Coherent(log)
    ensures Replay(OfUser(log, u)) == Slice(Replay(log), u)
  {
    if log != [] {
      var front, e := log[..|log| - 1], log[|log| - 1];
      ReplayCommutesWithPartition(front, u);
      if e.aggregateId == Some(u) {
        assert (OfUser(front, u) + [e])[..|OfUser(front, u)|] == OfUser(front, u);
      } else {
        assert OfUser(front, u) + [] == OfUser(front, u);
      }
    }
  }
}
