/**
  Reading the outbox back by its timestamps. Nothing else in the table tells the order of its rows,
  and the timestamp is NOW(): the start of the transaction, not its commit.
 */
module OutboxOrder {
  import opened Wrappers
  import opened Tables
  import opened Outbox
  import opened Statements
  import opened RepositoryRuns
  import opened FirstUser
  import opened ServiceRuns

  predicate Ordered(log: seq<Event>) {
    forall i, j :: 0 <= i < j < |log| ==> log[i].occurredAt <= log[j].occurredAt
  }

  /** What a query ordered by the timestamp may return: equal stamps come in any order. */
  predicate Reading(log: seq<Event>, read: seq<Event>) {
    multiset(read) == multiset(log) && Ordered(read)
  }

  /** No event of the same row has a later stamp. */
  predicate Newest(log: seq<Event>, i: nat)
    requires i < |log|
  {
    forall j :: 0 <= j < |log| && KeyOf(log[j].payload) == KeyOf(log[i].payload) ==>
      log[j].occurredAt <= log[i].occurredAt
  }

  /** Every newest-stamped event of a row says what the log last said about that row. */
  predicate StampsAgree(log: seq<Event>) {
    forall i :: 0 <= i < |log| && Newest(log, i) ==> Image(log[i]) == Last(log, KeyOf(log[i].payload))
  }

  lemma {:induction false} LastAt(log: seq<Event>, k: Key) returns (i: int)
    ensures i == -1 ==> Last(log, k) == None && forall j :: 0 <= j < |log| ==> KeyOf(log[j].payload) != k
    ensures i != -1 ==> 0 <= i < |log| && KeyOf(log[i].payload) == k && Last(log, k) == Image(log[i])
    ensures i != -1 ==> forall j :: i < j < |log| ==> KeyOf(log[j].payload) != k
  {
    if log == [] {
      i := -1;
    } else if KeyOf(log[|log| - 1].payload) == k {
      i := |log| - 1;
    } else {
      var front := log[..|log| - 1];
      i := LastAt(front, k);
      assert forall j :: 0 <= j < |front| ==> log[j] == front[j];
    }
  }

  lemma SameEvent(a: seq<Event>, b: seq<Event>, i: nat) returns (j: nat)
    requires multiset(a) == multiset(b) && i < |a|
    ensures j < |b| && b[j] == a[i]
  {
    assert a[i] in multiset(b);
    j :| j < |b| && b[j] == a[i];
  }

  lemma AgreementSuffices(log: seq<Event>, read: seq<Event>)
    requires Reading(log, read) && StampsAgree(log)
    ensures Replay(read) == Replay(log)
  {
    forall k ensures Last(read, k) == Last(log, k) {
      var i := LastAt(read, k);
      if i == -1 {
        var l := LastAt(log, k);
        if l != -1 {
          var j := SameEvent(log, read, l);
          assert false;
        }
      } else {
        var j := SameEvent(read, log, i);
        forall m | 0 <= m < |log| && KeyOf(log[m].payload) == k ensures log[m].occurredAt <= log[j].occurredAt {
          var n := SameEvent(log, read, m);
        }
        assert Newest(log, j);
      }
    }
    SameLastSameReplay(read, log);
  }

  // ---- sorting, with one chosen event as late as its stamp allows ----

  /** Inserts an event after everything that is not later. */
  function InsertByTime(sorted: seq<Event>, e: Event): (r: seq<Event>)
    ensures |r| == |sorted| + 1
  {
    if sorted == [] then [e]
    else
      var last := sorted[|sorted| - 1];
      if last.occurredAt <= e.occurredAt then sorted + [e] else InsertByTime(sorted[..|sorted| - 1], e) + [last]
  }

  function Sort(log: seq<Event>): seq<Event> {
    if log == [] then [] else InsertByTime(Sort(log[..|log| - 1]), log[|log| - 1])
  }

  lemma {:induction false} InsertKeeps(sorted: seq<Event>, e: Event)
    ensures multiset(InsertByTime(sorted, e)) == multiset(sorted) + multiset{e}
  {
    if sorted != [] && sorted[|sorted| - 1].occurredAt > e.occurredAt {
      var front, last := sorted[..|sorted| - 1], sorted[|sorted| - 1];
      InsertKeeps(front, e);
      assert sorted == front + [last];
    }
  }

  lemma {:induction false} InsertSorts(sorted: seq<Event>, e: Event)
    requires Ordered(sorted)
    ensures Ordered(InsertByTime(sorted, e))
  {
    if sorted != [] && sorted[|sorted| - 1].occurredAt > e.occurredAt {
      var front, last := sorted[..|sorted| - 1], sorted[|sorted| - 1];
      InsertSorts(front, e);
      InsertKeeps(front, e);
      forall i | 0 <= i < |InsertByTime(front, e)| ensures InsertByTime(front, e)[i].occurredAt <= last.occurredAt {
        assert InsertByTime(front, e)[i] in multiset(front) + multiset{e};
      }
    }
  }

  lemma {:induction false} InsertedLast(sorted: seq<Event>, e: Event)
    requires forall x :: x in sorted && KeyOf(x.payload) == KeyOf(e.payload) ==> x.occurredAt <= e.occurredAt
    ensures Last(InsertByTime(sorted, e), KeyOf(e.payload)) == Image(e)
  {
    if sorted != [] && sorted[|sorted| - 1].occurredAt > e.occurredAt {
      var front := sorted[..|sorted| - 1];
      InsertedLast(front, e);
      assert InsertByTime(sorted, e)[..|sorted|] == InsertByTime(front, e);
    }
  }

  lemma {:induction false} SortSorts(log: seq<Event>)
    ensures Reading(log, Sort(log))
  {
    if log != [] {
      SortSorts(log[..|log| - 1]);
      InsertSorts(Sort(log[..|log| - 1]), log[|log| - 1]);
      InsertKeeps(Sort(log[..|log| - 1]), log[|log| - 1]);
      assert log == log[..|log| - 1] + [log[|log| - 1]];
    }
  }

  lemma DisagreementMisreads(log: seq<Event>, i: nat) returns (read: seq<Event>)
    requires i < |log| && Newest(log, i) && Image(log[i]) != Last(log, KeyOf(log[i].payload))
    ensures Reading(log, read) && Replay(read) != Replay(log)
  {
    var e, others := log[i], log[..i] + log[i + 1..];
    assert log == log[..i] + [e] + log[i + 1..];
    var sorted := Sort(others);
    SortSorts(others);
    read := InsertByTime(sorted, e);
    InsertSorts(sorted, e);
    InsertKeeps(sorted, e);
    forall x | x in sorted && KeyOf(x.payload) == KeyOf(e.payload) ensures x.occurredAt <= e.occurredAt {
      assert x in multiset(others);
      assert x in others;
      assert x in log;
    }
    InsertedLast(sorted, e);
    ReplayIsLast(read, KeyOf(e.payload));
    ReplayIsLast(log, KeyOf(e.payload));
  }

  /** Every reading by timestamp rebuilds the tables exactly when the stamps agree with the log. */
  lemma ReadingsRebuildIff(log: seq<Event>)
    ensures (forall read :: Reading(log, read) ==> Replay(read) == Replay(log)) <==> StampsAgree(log)
  {
    if StampsAgree(log) {
      forall read | Reading(log, read) ensures Replay(read) == Replay(log) { AgreementSuffices(log, read); }
    } else {
      var i :| 0 <= i < |log| && Newest(log, i) && Image(log[i]) != Last(log, KeyOf(log[i].payload));
      var read := DisagreementMisreads(log, i);
    }
  }

  // ---- when calls keep the agreement, and when they break it ----

  predicate Stamped(batch: seq<Event>, at: Time) {
    forall i :: 0 <= i < |batch| ==> batch[i].occurredAt == at
  }

  /** Event i is the newest of a row that event j of the batch touches, and stamped at `at` or later. */
  predicate Overtakes(log: seq<Event>, batch: seq<Event>, at: Time, i: int, j: int) {
    && 0 <= i < |log| && 0 <= j < |batch| && KeyOf(log[i].payload) == KeyOf(batch[j].payload)
    && Newest(log, i) && log[i].occurredAt >= at
  }

  /** No newest event of a row the batch touches is stamped at `at` or later, unless it says the same. */
  ghost predicate NoneOvertaken(log: seq<Event>, batch: seq<Event>, at: Time) {
    forall i, j :: Overtakes(log, batch, at, i, j) ==> Image(log[i]) == Image(batch[j])
  }

  lemma NewestOfBoth(log: seq<Event>, batch: seq<Event>, at: Time, i: nat)
    requires i < |log| && Stamped(batch, at)
    ensures Newest(log + batch, i) <==>
              Newest(log, i)
              && forall j :: 0 <= j < |batch| && KeyOf(batch[j].payload) == KeyOf(log[i].payload) ==>
                   at <= log[i].occurredAt
  {
    var all := log + batch;
    assert forall m :: 0 <= m < |log| ==> all[m] == log[m];
    assert forall j :: 0 <= j < |batch| ==> all[|log| + j] == batch[j];
  }

  /** Exactly when one more batch keeps the agreement of stamps and log. */
  lemma BatchAgreesIff(log: seq<Event>, batch: seq<Event>, at: Time)
    requires StampsAgree(log) && DistinctRows(batch) && Stamped(batch, at)
    ensures StampsAgree(log + batch) <==> NoneOvertaken(log, batch, at)
  {
    hide Last;
    var all := log + batch;
    forall i | 0 <= i < |log| ensures Newest(all, i) ==> Newest(log, i) && all[i] == log[i] {
      NewestOfBoth(log, batch, at, i);
    }
    if NoneOvertaken(log, batch, at) {
      forall i | 0 <= i < |all| && Newest(all, i) ensures Image(all[i]) == Last(all, KeyOf(all[i].payload)) {
        LastOfBatch(log, batch, KeyOf(all[i].payload));
        if i < |log| { NewestOfBoth(log, batch, at, i); } else { assert all[i] == batch[i - |log|]; }
      }
    } else {
      var i, j :| Overtakes(log, batch, at, i, j) && Image(log[i]) != Image(batch[j]);
      NewestOfBoth(log, batch, at, i);
      LastOfBatch(log, batch, KeyOf(log[i].payload));
      assert all[i] == log[i];
    }
  }

  lemma NewestOfRow(log: seq<Event>, first: nat) returns (i: nat)
    requires first < |log|
    ensures i < |log| && Newest(log, i) && KeyOf(log[i].payload) == KeyOf(log[first].payload)
    ensures log[first].occurredAt <= log[i].occurredAt
  {
    i := first;
    for n := 0 to |log|
      invariant i < |log| && KeyOf(log[i].payload) == KeyOf(log[first].payload)
      invariant log[first].occurredAt <= log[i].occurredAt
      invariant forall j :: 0 <= j < n && KeyOf(log[j].payload) == KeyOf(log[i].payload) ==>
            log[j].occurredAt <= log[i].occurredAt
    {
      if KeyOf(log[n].payload) == KeyOf(log[i].payload) && log[n].occurredAt > log[i].occurredAt {
        i := n;
      }
    }
  }

  /** Every change of the row that has been recorded is stamped before the given time. */
  predicate AllBefore(log: seq<Event>, k: Key, at: Time) {
    forall i :: 0 <= i < |log| && KeyOf(log[i].payload) == k ==> log[i].occurredAt < at
  }

  /** The call is refused, or began after every change of the rows it touches, or leaves them as they are. */
  ghost predicate InOrder(db: Database, call: Call) {
    && Admissible(db.rows, call)
    && (Judge(db.rows, call).Allow? ==>
          forall k :: k in EffectOf(db.rows, call) ==>
            AllBefore(db.outbox, k, call.at) || EffectOf(db.rows, call)[k] == Lookup(db.rows, k))
  }

  lemma EventOf(db: Database, call: Call, k: Key) returns (i: nat)
    requires Admissible(db.rows, call) && Judge(db.rows, call).Allow? && k in EffectOf(db.rows, call)
    ensures i < |Appended(db, call)| && KeyOf(Appended(db, call)[i].payload) == k
    ensures Image(Appended(db, call)[i]) == EffectOf(db.rows, call)[k]
  {
    hide Judge, EffectOf, OrderOf, Admissible;
    var order := OrderOf(db.rows, call);
    EventsAreDistinct(db.rows, EffectOf(db.rows, call), order, call.at);
    i :| 0 <= i < |order| && order[i] == k;
  }

  lemma EventsOf(db: Database, call: Call)
    requires Admissible(db.rows, call)
    ensures DistinctRows(Appended(db, call)) && Stamped(Appended(db, call), call.at)
    ensures Judge(db.rows, call).Refuse? ==> Appended(db, call) == []
    ensures Judge(db.rows, call).Allow? ==>
              forall j :: 0 <= j < |Appended(db, call)| ==>
                var e := Appended(db, call)[j];
                KeyOf(e.payload) in EffectOf(db.rows, call) && Image(e) == EffectOf(db.rows, call)[KeyOf(e.payload)]
  {
    hide Judge, EffectOf, OrderOf, Admissible;
    if Judge(db.rows, call).Allow? {
      EventsAreDistinct(db.rows, EffectOf(db.rows, call), OrderOf(db.rows, call), call.at);
    }
  }

  lemma NewestTellsRow(db: Database, i: nat)
    requires Mirrored(db) && StampsAgree(db.outbox) && i < |db.outbox| && Newest(db.outbox, i)
    ensures Image(db.outbox[i]) == Lookup(db.rows, KeyOf(db.outbox[i].payload))
  {
    ReplayIsLast(db.outbox, KeyOf(db.outbox[i].payload));
  }

  lemma InOrderMeans(db: Database, call: Call)
    requires Admissible(db.rows, call) && Mirrored(db) && StampsAgree(db.outbox)
    ensures NoneOvertaken(db.outbox, Appended(db, call), call.at) <==> InOrder(db, call)
  {
    hide Judge, EffectOf, OrderOf, Admissible, Appended, Mirrored, StampsAgree, Newest, Stamped, DistinctRows;
    EventsOf(db, call);
    var log, batch := db.outbox, Appended(db, call);
    if InOrder(db, call) {
      forall i, j | Overtakes(log, batch, call.at, i, j) ensures Image(log[i]) == Image(batch[j]) {
        NewestTellsRow(db, i);
      }
    } else {
      var k :| k in EffectOf(db.rows, call) && !AllBefore(log, k, call.at)
          && EffectOf(db.rows, call)[k] != Lookup(db.rows, k);
      var first :| 0 <= first < |log| && KeyOf(log[first].payload) == k && log[first].occurredAt >= call.at;
      var i := NewestOfRow(log, first);
      var j := EventOf(db, call, k);
      NewestTellsRow(db, i);
      assert Overtakes(log, batch, call.at, i, j) && Image(log[i]) != Image(batch[j]);
    }
  }

  /**
    Exactly which calls a reading by timestamp survives: after the call every reading rebuilds the
    tables if and only if each row it touches was last changed before the call began, or is left as
    it is.
   */
  lemma CallReadsBackIff(db: Database, call: Call)
    requires Admissible(db.rows, call) && Mirrored(db) && StampsAgree(db.outbox)
    ensures var after := Exec(db, call).db;
            && (StampsAgree(after.outbox) <==> InOrder(db, call))
            && ((forall read :: Reading(after.outbox, read) ==> Replay(read) == after.rows) <==> InOrder(db, call))
  {
    hide Judge, EffectOf, OrderOf, Admissible, Appended, InOrder;
    CommittedCall(db, call);
    CallKeepsMirrored(db, call);
    EventsOf(db, call);
    InOrderMeans(db, call);
    BatchAgreesIff(db.outbox, Appended(db, call), call.at);
    ReadingsRebuildIff(Exec(db, call).db.outbox);
  }

  ghost predicate ReadsBack(db: Database) {
    forall read :: Reading(db.outbox, read) ==> Replay(read) == db.rows
  }

  lemma NothingAgrees()
    ensures StampsAgree([]) && Mirrored(EMPTY)
  {
  }

  lemma OnlyEmptyReading()
    ensures ReadsBack(EMPTY)
  {
    forall read | Reading([], read) ensures read == [] {
      assert |multiset(read)| == 0;
    }
  }

  lemma {:induction false} InOrderReadsBack(states: seq<Database>, calls: seq<Call>, n: nat)
    requires IsRun(states, calls) && states[0] == EMPTY && n <= |calls|
    requires forall i :: 0 <= i < n ==> InOrder(states[i], calls[i])
    ensures StampsAgree(states[n].outbox) && Mirrored(states[n]) && ReadsBack(states[n])
  {
    hide Judge, EffectOf, OrderOf, Admissible, InOrder, StampsAgree, Mirrored, Reading;
    if n == 0 {
      NothingAgrees();
      OnlyEmptyReading();
    } else {
      InOrderReadsBack(states, calls, n - 1);
      assert StepsTo(states[n - 1], calls[n - 1], states[n]);
      CallReadsBackIff(states[n - 1], calls[n - 1]);
      CallKeepsMirrored(states[n - 1], calls[n - 1]);
    }
  }

  lemma FirstOutOfOrder(states: seq<Database>, calls: seq<Call>) returns (i: nat)
    requires IsRun(states, calls) && exists j :: 0 <= j < |calls| && !InOrder(states[j], calls[j])
    ensures i < |calls| && !InOrder(states[i], calls[i]) && forall j :: 0 <= j < i ==> InOrder(states[j], calls[j])
  {
    hide InOrder;
    i := 0;
    while InOrder(states[i], calls[i])
      invariant i < |calls| && forall j :: 0 <= j < i ==> InOrder(states[j], calls[j])
      decreases |calls| - i
    {
      i := i + 1;
    }
  }

  lemma OutOfOrderMisreads(db: Database, call: Call)
    requires Admissible(db.rows, call) && Mirrored(db) && StampsAgree(db.outbox) && !InOrder(db, call)
    ensures !ReadsBack(Exec(db, call).db)
  {
    hide Judge, EffectOf, OrderOf, Admissible, InOrder, StampsAgree, Mirrored, Exec;
    CallReadsBackIff(db, call);
  }

  /**
    Over a whole run, reading by timestamp rebuilds the tables at every moment if and only if every
    call is in order.
   */
  lemma {:induction false} ReadsBackAlwaysIff(states: seq<Database>, calls: seq<Call>)
    requires IsRun(states, calls) && states[0] == EMPTY
    ensures (forall n :: 0 <= n <= |calls| ==> ReadsBack(states[n])) <==>
          (forall i :: 0 <= i < |calls| ==> InOrder(states[i], calls[i]))
  {
    hide Judge, EffectOf, OrderOf, Admissible, InOrder, StampsAgree, Mirrored, ReadsBack;
    if forall i :: 0 <= i < |calls| ==> InOrder(states[i], calls[i]) {
      forall n | 0 <= n <= |calls| ensures ReadsBack(states[n]) { InOrderReadsBack(states, calls, n); }
    } else {
      var i := FirstOutOfOrder(states, calls);
      InOrderReadsBack(states, calls, i);
      assert StepsTo(states[i], calls[i], states[i + 1]);
      OutOfOrderMisreads(states[i], calls[i]);
    }
  }

  lemma EarlierStampMisreads(log: seq<Event>, first: seq<Event>, second: seq<Event>, t: Time, u: Time, i: nat, j: nat)
    returns (read: seq<Event>)
    requires DistinctRows(second) && Stamped(first, t) && Stamped(second, u) && u <= t && i < |first| && j < |second|
    requires KeyOf(first[i].payload) == KeyOf(second[j].payload) && Image(first[i]) != Image(second[j])
    requires forall e :: e in log && KeyOf(e.payload) == KeyOf(first[i].payload) ==> e.occurredAt <= t
    ensures Reading(log + first + second, read) && Replay(read) != Replay(log + first + second)
  {
    var all, at := log + first + second, |log| + i;
    assert all[at] == first[i];
    forall n | 0 <= n < |all| && KeyOf(all[n].payload) == KeyOf(first[i].payload) ensures all[n].occurredAt <= t {
      if n < |log| { assert all[n] in log; }
    }
    assert Newest(all, at);
    LastOfBatch(log + first, second, KeyOf(first[i].payload));
    read := DisagreementMisreads(all, at);
  }

  /**
    Two calls that write the same row, the second to take effect stamped no later than the first.
    Unless both leave the same row behind, some reading by timestamp rebuilds other tables.
   */
  lemma OverlapMisreads(db: Database, first: Call, second: Call, k: Key) returns (read: seq<Event>)
    requires Mirrored(db) && Admissible(db.rows, first) && Judge(db.rows, first).Allow?
    requires var mid := Exec(db, first).db; Admissible(mid.rows, second) && Judge(mid.rows, second).Allow?
    requires var mid := Exec(db, first).db;
             k in EffectOf(db.rows, first) && k in EffectOf(mid.rows, second)
                 && EffectOf(db.rows, first)[k] != EffectOf(mid.rows, second)[k]
    requires second.at <= first.at && forall e :: e in db.outbox && KeyOf(e.payload) == k ==> e.occurredAt <= first.at
    ensures var end := Exec(Exec(db, first).db, second).db; Reading(end.outbox, read) && Replay(read) != end.rows
  {
    hide Judge, EffectOf, OrderOf, Admissible;
    var mid := Exec(db, first).db;
    CommittedCall(db, first);
    CommittedCall(mid, second);
    CallKeepsMirrored(db, first);
    CallKeepsMirrored(mid, second);
    EventsOf(db, first);
    EventsOf(mid, second);
    var i := EventOf(db, first, k);
    var j := EventOf(mid, second, k);
    read := EarlierStampMisreads(db.outbox, Appended(db, first), Appended(mid, second), first.at, second.at, i, j);
  }

  /**
    Such a pair: an address is verified while a deactivation that began no later waits for the
    row lock. The tables say deactivated; read by timestamp, the log can say verified.
   */
  lemma LateDeactivationMisreads(db: Database, verify: Call, deactivate: Call) returns (read: seq<Event>)
    requires Mirrored(db) && verify.VerifyEmail? && Admissible(db.rows, verify) && Judge(db.rows, verify).Allow?
    requires deactivate.DeactivateUser? && deactivate.user == verify.user && !deactivate.wire.Broken?
    requires HasCredential(db.rows, verify.user.value)
    requires deactivate.at <= verify.at && forall e :: e in db.outbox ==> e.occurredAt <= verify.at
    ensures var end := Exec(Exec(db, verify).db, deactivate).db; Reading(end.outbox, read) && Replay(read) != end.rows
  {
    var k := CredentialKey(verify.user.value);
    var mid := Exec(db, verify).db;
    assert EffectOf(db.rows, verify)[k] == Some(mid.rows[k]) && mid.rows[k].credential.status == EmailVerified;
    assert EffectOf(mid.rows, deactivate)[k].value.credential.status == RegistrationFailed;
    hide Judge, EffectOf, OrderOf, Admissible;
    read := OverlapMisreads(db, verify, deactivate, k);
  }

  const DEACTIVATE := DeactivateUser(Some(USER), 5, Clean)

  lemma DeactivationIsPossible(rows: Rows)
    ensures Admissible(rows, DEACTIVATE)
  {
  }

  /** What the deactivation finds in its way. */
  lemma FirstUserIsLate() returns (states: seq<Database>)
    ensures |states| == 4 && states[0] == EMPTY && IsRun(states, FIRST_RUN) && |FIRST_RUN| == 3
    ensures Mirrored(states[2]) && VERIFY.VerifyEmail? && Admissible(states[2].rows, VERIFY)
    ensures Judge(states[2].rows, VERIFY).Allow?
    ensures HasCredential(states[2].rows, VERIFY.user.value) && states[3] == Exec(states[2], VERIFY).db
    ensures DEACTIVATE.DeactivateUser? && DEACTIVATE.user == VERIFY.user && !DEACTIVATE.wire.Broken?
    ensures Admissible(states[3].rows, DEACTIVATE)
    ensures DEACTIVATE.at <= VERIFY.at && forall e :: e in states[2].outbox ==> e.occurredAt <= VERIFY.at
  {
    hide Judge, EffectOf, OrderOf, Exec, Mirrored, IsRun, Admissible, CrossTable, IsVerified, HasCredential;
    states := FirstUserVerifies();
    DeactivationIsPossible(states[3].rows);
  }

  /** One run from the empty store on which this happens: verified at 6, deactivated at 5. */
  lemma FirstUserMisreads() returns (states: seq<Database>, read: seq<Event>)
    ensures |states| == 5 && states[0] == EMPTY && IsRun(states, FIRST_RUN + [DEACTIVATE])
    ensures Reading(states[4].outbox, read) && Replay(read) != states[4].rows
  {
    hide *;
    var before := FirstUserIsLate();
    states := ExtendRun(before, FIRST_RUN, DEACTIVATE);
    read := LateDeactivationMisreads(before[2], VERIFY, DEACTIVATE);
  }
}
