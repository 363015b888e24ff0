/**
  When the consumers lose an event: exactly when its claim is left behind for good, and when its
  last unhandled copy is passed over.
 */
module KafkaLoss {
  import opened Wrappers
  import opened KafkaConsumer

  // ---- a claim that nobody holds ----

  /** The event is claimed, was never handled, and no consumer holds the claim. */
  ghost predicate Orphaned(s: Cluster, e: EventId) {
    e in s.claims && s.successes[e] == 0 && forall c :: !HoldsClaim(s, c, e)
  }

  /** A consumer dies, fails to release its claim, or meets a message that does not unwrap, whose claim is kept. */
  predicate Abandons(l: Label, c: nat) {
    l == Crash(c) || (l.Release? && l.c == c && !l.succeeds) || (l.UnwrapFails? && l.c == c)
  }

  /** The event a consumer has in hand. */
  function MessageInHand(s: Cluster, c: nat): Option<EventId> {
    var at := InHand(PcOf(s, c));
    if at.Some? && ValidPlace(s, at.value) then Some(MessageAt(s, at.value).event) else None
  }

  /** The claim is inserted for a consumer that is told it was not. */
  predicate LeavesClaim(s: Cluster, l: Label, c: nat, e: EventId) {
    l == ClaimFails(c, true) && MessageInHand(s, c) == Some(e) && e !in s.claims
  }

  lemma HolderAfter(cfg: Config, s: Cluster, l: Label, c: nat, e: EventId)
    requires Enabled(cfg, s, l) && HoldsClaim(s, c, e)
    ensures Actor(l) != Some(c) ==> HoldsClaim(Next(cfg, s, l), c, e)
    ensures Actor(l) == Some(c) ==>
              (HoldsClaim(Next(cfg, s, l), c, e) <==> l.Assign? || (l.Handle? && !l.result.Fine?))
    ensures Actor(l) == Some(c) && l.Handle? && l.result.Fine? ==> Next(cfg, s, l).successes[e] > 0
    ensures Actor(l) == Some(c) && l.Release? && l.succeeds && cfg.hasDb ==> e !in Next(cfg, s, l).claims
  {
    hide RetryCopy, Retries;
    StandsStill(cfg, s, l, c);
  }

  lemma AbandonedRecords(cfg: Config, s: Cluster, l: Label, c: nat)
    requires Enabled(cfg, s, l) && Abandons(l, c)
    ensures Next(cfg, s, l).claims == s.claims && Next(cfg, s, l).successes == s.successes
  {
    hide RetryCopy, Retries;
  }

  /** What else the holder of a claim can do. */
  lemma StepsOfHolder(cfg: Config, s: Cluster, l: Label, c: nat, e: EventId)
    requires Enabled(cfg, s, l) && HoldsClaim(s, c, e) && Actor(l) == Some(c) && !Abandons(l, c)
    ensures l.Assign? || l.Handle? || (l.Release? && l.succeeds)
  {
  }

  /** A step orphans the event of a claim exactly when it abandons that claim. */
  lemma HolderOrphansIff(cfg: Config, s: Cluster, l: Label, c: nat, e: EventId)
    requires Enabled(cfg, s, l) && OffsetInv(cfg, s) && ClaimInv(s) && cfg.hasDb && HoldsClaim(s, c, e)
    ensures Orphaned(Next(cfg, s, l), e) <==> Abandons(l, c)
  {
    hide Next, Enabled, OffsetInv, HoldsClaim;
    var t := Next(cfg, s, l);
    HolderAfter(cfg, s, l, c, e);
    if Abandons(l, c) {
      AbandonedRecords(cfg, s, l, c);
      forall d ensures !HoldsClaim(t, d, e) {
        if HoldsClaim(t, d, e) { NewHolder(cfg, s, l, d, e); }
      }
    } else if Actor(l) == Some(c) {
      StepsOfHolder(cfg, s, l, c, e);
    }
  }

  lemma OthersKeepRecord(cfg: Config, s: Cluster, l: Label, e: EventId)
    requires Enabled(cfg, s, l) && forall c :: !HoldsClaim(s, c, e)
    ensures e in s.claims ==> e in Next(cfg, s, l).claims
    ensures Next(cfg, s, l).successes[e] == s.successes[e]
  {
    hide RetryCopy, Retries;
    if l.Release? || l.Handle? { assert !HoldsClaim(s, l.c, e); }
  }

  /** An orphaned event stays orphaned: its claim is never given up and never taken again. */
  lemma OrphanedStays(cfg: Config, s: Cluster, l: Label, e: EventId)
    requires Enabled(cfg, s, l) && OffsetInv(cfg, s) && cfg.hasDb && Orphaned(s, e)
    ensures Orphaned(Next(cfg, s, l), e)
  {
    hide OffsetInv, RetryCopy, Retries;
    var t := Next(cfg, s, l);
    forall d ensures !HoldsClaim(t, d, e) {
      if HoldsClaim(t, d, e) { NewHolder(cfg, s, l, d, e); }
    }
    OthersKeepRecord(cfg, s, l, e);
  }

  /** A claim is taken by the consumer that then holds it, or left behind at once. */
  lemma ClaimTaken(cfg: Config, s: Cluster, l: Label, e: EventId)
    requires Enabled(cfg, s, l) && e !in s.claims && e in Next(cfg, s, l).claims
    ensures Actor(l).Some? && (LeavesClaim(s, l, Actor(l).value, e) || exists c :: HoldsClaim(Next(cfg, s, l), c, e))
  {
    hide RetryCopy, Retries;
    StepMovesActor(cfg, s, l);
    if l.Claim? { assert HoldsClaim(Next(cfg, s, l), l.c, e); }
  }

  lemma LeftClaimIsInserted(cfg: Config, s: Cluster, l: Label, c: nat, e: EventId)
    requires Enabled(cfg, s, l) && LeavesClaim(s, l, c, e)
    ensures e in Next(cfg, s, l).claims && Next(cfg, s, l).successes == s.successes
  {
  }

  lemma LeftClaimIsOrphaned(cfg: Config, s: Cluster, l: Label, c: nat, e: EventId)
    requires Enabled(cfg, s, l) && OffsetInv(cfg, s) && ClaimInv(s) && cfg.hasDb && LeavesClaim(s, l, c, e)
    ensures Orphaned(Next(cfg, s, l), e)
  {
    hide Next, Enabled, OffsetInv, HoldsClaim;
    var t := Next(cfg, s, l);
    LeftClaimIsInserted(cfg, s, l, c, e);
    forall d ensures !HoldsClaim(t, d, e) {
      if HoldsClaim(t, d, e) { NewHolder(cfg, s, l, d, e); }
    }
  }

  /** The step leaves the event's claim with nobody to give it up. */
  predicate Orphans(s: Cluster, l: Label, c: nat, e: EventId) {
    (HoldsClaim(s, c, e) && Abandons(l, c)) || LeavesClaim(s, l, c, e)
  }

  lemma OrphaningOrphans(cfg: Config, s: Cluster, l: Label, c: nat, e: EventId)
    requires Enabled(cfg, s, l) && OffsetInv(cfg, s) && ClaimInv(s) && cfg.hasDb && Orphans(s, l, c, e)
    ensures Orphaned(Next(cfg, s, l), e)
  {
    hide Next, Enabled, OffsetInv, HoldsClaim, LeavesClaim, ClaimInv, Orphaned, Abandons;
    if HoldsClaim(s, c, e) && Abandons(l, c) {
      HolderOrphansIff(cfg, s, l, c, e);
    } else {
      LeftClaimIsOrphaned(cfg, s, l, c, e);
    }
  }

  /** An event becomes orphaned only by such a step. */
  lemma OrphanedBy(cfg: Config, s: Cluster, l: Label, e: EventId) returns (c: nat)
    requires Enabled(cfg, s, l) && OffsetInv(cfg, s) && ClaimInv(s) && cfg.hasDb
    requires !Orphaned(s, e) && Orphaned(Next(cfg, s, l), e)
    ensures Orphans(s, l, c, e)
  {
    hide Enabled, OffsetInv, HoldsClaim, LeavesClaim;
    var t := Next(cfg, s, l);
    StepExtends(cfg, s, l);
    if d: nat :| HoldsClaim(s, d, e) {
      c := d;
      HolderOrphansIff(cfg, s, l, c, e);
    } else {
      ClaimTaken(cfg, s, l, e);
      c := Actor(l).value;
    }
  }

  ghost predicate OrphanedAt(states: seq<Cluster>, labels: seq<Label>, i: int, c: nat, e: EventId) {
    0 <= i < |labels| && i < |states| && Orphans(states[i], labels[i], c, e)
  }

  lemma NothingClaimedAtFirst(s: Cluster, e: EventId)
    requires Initial(s)
    ensures !Orphaned(s, e)
  {
  }

  /**
    Exactly when an event is lost to its claim: over any run with a database, an event is orphaned
    if and only if some step has abandoned its claim, or inserted it unknown to the consumer.
   */
  lemma {:induction false} OrphanedIff(cfg: Config, states: seq<Cluster>, labels: seq<Label>, n: nat, e: EventId)
    requires IsRun(cfg, states, labels) && n <= |labels| && cfg.hasDb
    ensures Orphaned(states[n], e) <==> exists i, c :: i < n && OrphanedAt(states, labels, i, c, e)
  {
    hide Enabled, Next, OffsetInv, ClaimInv, Orphaned, Orphans;
    if n == 0 {
      assert !Orphaned(states[0], e) by { NothingClaimedAtFirst(states[0], e); }
    } else {
      var k := n - 1;
      var s, l := states[k], labels[k];
      OrphanedIff(cfg, states, labels, k, e);
      OffsetInvAlways(cfg, states, labels, n - 1);
      ClaimInvAlways(cfg, states, labels, n - 1);
      assert Steps(cfg, s, l, states[n]);
      if Orphaned(s, e) {
        OrphanedStays(cfg, s, l, e);
      } else {
        if Orphaned(states[n], e) {
          var c := OrphanedBy(cfg, s, l, e);
          assert OrphanedAt(states, labels, k, c, e);
        }
        if c: nat :| OrphanedAt(states, labels, k, c, e) {
          OrphaningOrphans(cfg, s, l, c, e);
        }
      }
    }
  }

  lemma HandlerHoldsClaim(cfg: Config, s: Cluster, l: Label, e: EventId)
    requires Enabled(cfg, s, l) && l.Handle? && MessageInHand(s, l.c) == Some(e)
    ensures HoldsClaim(s, l.c, e)
  {
  }

  /** Whatever happens after an event was orphaned, no consumer ever gets to handle it. */
  lemma {:induction false} OrphanedForever(cfg: Config, states: seq<Cluster>, labels: seq<Label>, m: nat, n: nat,
                                           e: EventId)
    requires IsRun(cfg, states, labels) && m <= n <= |labels| && cfg.hasDb && Orphaned(states[m], e)
    ensures Orphaned(states[n], e) && states[n].successes[e] == 0
    ensures n < |labels| ==> !(labels[n].Handle? && MessageInHand(states[n], labels[n].c) == Some(e))
    decreases n
  {
    hide Enabled, Next, OffsetInv;
    if m < n {
      OrphanedForever(cfg, states, labels, m, n - 1, e);
      OffsetInvAlways(cfg, states, labels, n - 1);
      assert Steps(cfg, states[n - 1], labels[n - 1], states[n]);
      OrphanedStays(cfg, states[n - 1], labels[n - 1], e);
    }
    if n < |labels| && labels[n].Handle? && MessageInHand(states[n], labels[n].c) == Some(e) {
      assert Steps(cfg, states[n], labels[n], states[n + 1]);
      HandlerHoldsClaim(cfg, states[n], labels[n], e);
    }
  }

  /** By then the claim is released: a retry or a dead letter that cannot be written orphans nothing. */
  lemma FailedWritesOrphanNothing(cfg: Config, s: Cluster, l: Label, e: EventId)
    requires Enabled(cfg, s, l) && OffsetInv(cfg, s) && ClaimInv(s) && cfg.hasDb && (l.Requeue? || l.DeadLetter?)
    ensures Orphaned(Next(cfg, s, l), e) <==> Orphaned(s, e)
  {
    hide OffsetInv;
    if Orphaned(s, e) {
      OrphanedStays(cfg, s, l, e);
    } else if Orphaned(Next(cfg, s, l), e) {
      var c := OrphanedBy(cfg, s, l, e);
      assert false;
    }
  }

  // ---- an unhandled event that is not orphaned ----

  /** A consumer has the event in hand, past its claim step. */
  predicate Processing(s: Cluster, c: nat, e: EventId) {
    var pc := PcOf(s, c);
    (pc.Claimed? || pc.Failed? || pc.Unsettled?) && ValidPlace(s, pc.at) && MessageAt(s, pc.at).event == e
  }

  /** The event waits at a place no consumer has settled. */
  predicate WaitsAt(s: Cluster, at: Place, e: EventId) {
    ValidPlace(s, at) && at !in s.outcomes && MessageAt(s, at).event == e
  }

  predicate QueuedAt(s: Cluster, i: int, e: EventId) {
    0 <= i < |s.retry| && s.retry[i].event == e
  }

  /** The event was skipped at a place, because it was claimed then. */
  predicate SkippedAt(s: Cluster, at: Place, e: EventId) {
    ValidPlace(s, at) && at in s.outcomes && s.outcomes[at].Skipped? && MessageAt(s, at).event == e
  }

  predicate KnownAt(s: Cluster, at: Place, e: EventId) {
    ValidPlace(s, at) && MessageAt(s, at).event == e
  }

  /** Not every copy of the event has been passed on to a later copy. */
  ghost predicate Outstanding(s: Cluster, e: EventId) {
    || e in s.successes
    || (exists i :: QueuedAt(s, i, e))
    || (exists at :: WaitsAt(s, at, e))
    || (exists at :: SkippedAt(s, at, e))
  }

  lemma OutstandingMeans(s: Cluster, e: EventId)
    ensures Outstanding(s, e) <==>
              || e in s.successes || (exists i :: QueuedAt(s, i, e))
              || (exists at :: WaitsAt(s, at, e)) || (exists at :: SkippedAt(s, at, e))
  {
  }

  /** The place whose outcome changes gets an outcome that leaves the event outstanding. */
  lemma RecordingKeepsOutstanding(cfg: Config, s: Cluster, l: Label, at: Place, e: EventId)
    requires Enabled(cfg, s, l) && KnownAt(s, at, e) && at in Next(cfg, s, l).outcomes
    requires at !in s.outcomes || Next(cfg, s, l).outcomes[at] != s.outcomes[at]
    ensures Outstanding(Next(cfg, s, l), e)
  {
    hide Outstanding, Retries;
    var t := Next(cfg, s, l);
    StepExtends(cfg, s, l);
    OutstandingMeans(t, e);
    if l.Requeue? {
      assert QueuedAt(t, |s.retry|, e);
    } else if l.Claim? {
      assert SkippedAt(t, at, e);
    }
  }

  lemma QueuedStaysOutstanding(cfg: Config, s: Cluster, l: Label, i: int, e: EventId)
    requires Enabled(cfg, s, l) && QueuedAt(s, i, e) && forall at :: at in s.outcomes ==> ValidPlace(s, at)
    ensures (exists j :: QueuedAt(Next(cfg, s, l), j, e)) || (exists at :: WaitsAt(Next(cfg, s, l), at, e))
  {
    var t := Next(cfg, s, l);
    if l.Redeliver? {
      if i == l.index {
        assert WaitsAt(t, Place(l.partition, |s.logs[l.partition]|), e);
      } else {
        assert QueuedAt(t, if i < l.index then i else i - 1, e);
      }
    } else {
      assert QueuedAt(t, i, e);
    }
  }

  lemma OutcomesHavePlaces(cfg: Config, s: Cluster)
    requires OffsetInv(cfg, s)
    ensures forall at :: at in s.outcomes ==> ValidPlace(s, at)
  {
    forall at | at in s.outcomes ensures ValidPlace(s, at) { assert Settled(cfg, s, at); }
  }

  /** Any message queued for retry can be brought back, to the end of any partition, and waits there. */
  lemma QueuedComesBack(cfg: Config, s: Cluster, i: nat, p: nat)
    requires i < |s.retry| && p < |s.logs| && OffsetInv(cfg, s)
    ensures Enabled(cfg, s, Redeliver(i, p))
    ensures var t, at := Next(cfg, s, Redeliver(i, p)), Place(p, |s.logs[p]|);
            && WaitsAt(t, at, s.retry[i].event) && MessageAt(t, at) == s.retry[i]
            && t.logs == s.logs[p := s.logs[p] + [s.retry[i]]]
            && multiset(t.retry) == multiset(s.retry) - multiset{s.retry[i]}
  {
    OutcomesHavePlaces(cfg, s);
    hide OffsetInv;
    assert s.retry == s.retry[..i] + [s.retry[i]] + s.retry[i + 1..];
  }

  lemma OutcomesStay(cfg: Config, s: Cluster, l: Label, at: Place)
    requires Enabled(cfg, s, l) && at in s.outcomes
    ensures at in Next(cfg, s, l).outcomes
  {
  }

  lemma PlaceStaysOutstanding(cfg: Config, s: Cluster, l: Label, at: Place, e: EventId)
    requires Enabled(cfg, s, l) && (WaitsAt(s, at, e) || SkippedAt(s, at, e))
    ensures Outstanding(Next(cfg, s, l), e)
  {
    hide Next, Enabled, Outstanding;
    var t := Next(cfg, s, l);
    StepExtends(cfg, s, l);
    OutstandingMeans(t, e);
    if at in t.outcomes && (at !in s.outcomes || t.outcomes[at] != s.outcomes[at]) {
      RecordingKeepsOutstanding(cfg, s, l, at, e);
    } else {
      if at in s.outcomes { OutcomesStay(cfg, s, l, at); }
      assert WaitsAt(t, at, e) || SkippedAt(t, at, e);
    }
  }

  /** Whoever crashes, and whatever fails, some copy of an unhandled event is queued, waits, or was skipped. */
  lemma OutstandingStays(cfg: Config, s: Cluster, l: Label, e: EventId)
    requires Enabled(cfg, s, l) && Outstanding(s, e) && forall at :: at in s.outcomes ==> ValidPlace(s, at)
    ensures Outstanding(Next(cfg, s, l), e)
  {
    hide Next, Enabled;
    var t := Next(cfg, s, l);
    StepExtends(cfg, s, l);
    if i :| QueuedAt(s, i, e) { QueuedStaysOutstanding(cfg, s, l, i, e); }
    if at :| WaitsAt(s, at, e) { PlaceStaysOutstanding(cfg, s, l, at, e); }
    if at :| SkippedAt(s, at, e) { PlaceStaysOutstanding(cfg, s, l, at, e); }
  }

  /** A message a step adds to a log waits there. */
  lemma NewMessageWaits(cfg: Config, s: Cluster, l: Label, at: Place)
    requires Enabled(cfg, s, l) && ValidPlace(Next(cfg, s, l), at) && !ValidPlace(s, at)
    requires forall x :: x in s.outcomes ==> ValidPlace(s, x)
    ensures WaitsAt(Next(cfg, s, l), at, MessageAt(Next(cfg, s, l), at).event)
  {
    hide RetryCopy, Retries;
  }

  lemma KnownBefore(cfg: Config, s: Cluster, l: Label, at: Place, e: EventId)
    requires Enabled(cfg, s, l) && KnownAt(Next(cfg, s, l), at, e) && forall x :: x in s.outcomes ==> ValidPlace(s, x)
    ensures KnownAt(s, at, e) || WaitsAt(Next(cfg, s, l), at, e)
  {
    hide Next, Enabled;
    StepExtends(cfg, s, l);
    if !ValidPlace(s, at) { NewMessageWaits(cfg, s, l, at); }
  }

  lemma {:induction false} OutstandingAlways(cfg: Config, states: seq<Cluster>, labels: seq<Label>, n: nat, at: Place,
                                             e: EventId)
    requires IsRun(cfg, states, labels) && n <= |labels| && KnownAt(states[n], at, e)
    ensures Outstanding(states[n], e)
  {
    hide OffsetInv, Next, Enabled;
    if n == 0 {
      assert WaitsAt(states[0], at, e);
    } else {
      var s, l := states[n - 1], labels[n - 1];
      OffsetInvAlways(cfg, states, labels, n - 1);
      OutcomesHavePlaces(cfg, s);
      assert Steps(cfg, s, l, states[n]);
      KnownBefore(cfg, s, l, at, e);
      if KnownAt(s, at, e) {
        OutstandingAlways(cfg, states, labels, n - 1, at, e);
        OutstandingStays(cfg, s, l, e);
      }
    }
  }

  predicate Uncommitted(s: Cluster, at: Place) {
    at.partition < |s.committed| && at.offset >= s.committed[at.partition]
  }

  lemma PassedHasOutcome(cfg: Config, states: seq<Cluster>, labels: seq<Label>, n: nat, at: Place)
    requires IsRun(cfg, states, labels) && n <= |labels|
    requires at.partition < |states[n].committed| && at.offset < states[n].committed[at.partition]
    ensures at in states[n].outcomes
  {
    hide Next, Enabled, SessionSound;
    CommittedIsSettled(cfg, states, labels, n, at);
  }

  lemma WaitingIsUncommitted(cfg: Config, states: seq<Cluster>, labels: seq<Label>, n: nat, at: Place, e: EventId)
    requires IsRun(cfg, states, labels) && n <= |labels| && WaitsAt(states[n], at, e)
    ensures Uncommitted(states[n], at)
  {
    hide Next, Enabled, Settled, SessionSound;
    OffsetInvAlways(cfg, states, labels, n);
    if at.offset < states[n].committed[at.partition] {
      PassedHasOutcome(cfg, states, labels, n, at);
    }
  }

  /**
    Unless a step has orphaned it, every event has been handled, or a consumer holds its
    claim, or its claim is free and a copy is queued for retry, waits at an offset that is not
    committed, or was skipped when it was claimed. Crashes after the release and retries and dead
    letters that cannot be written are no exception.
   */
  lemma NothingIsLost(cfg: Config, states: seq<Cluster>, labels: seq<Label>, n: nat, at: Place, e: EventId)
    requires IsRun(cfg, states, labels) && n <= |labels| && cfg.hasDb && KnownAt(states[n], at, e)
    requires forall i, c :: i < n ==> !OrphanedAt(states, labels, i, c, e)
    ensures var s := states[n];
            || e in s.successes
            || (exists c :: HoldsClaim(s, c, e))
            || (e !in s.claims
                && (|| (exists i :: QueuedAt(s, i, e))
                    || (exists x :: WaitsAt(s, x, e) && Uncommitted(s, x))
                    || (exists x :: SkippedAt(s, x, e))))
  {
    hide Next, Enabled, HoldsClaim, QueuedAt, WaitsAt, SkippedAt;
    OrphanedIff(cfg, states, labels, n, e);
    OutstandingAlways(cfg, states, labels, n, at, e);
    if x :| WaitsAt(states[n], x, e) {
      WaitingIsUncommitted(cfg, states, labels, n, x, e);
    }
  }

  // ---- an event that is passed over ----

  /** The event has reached an end, or something will still bring it to one. */
  ghost predicate Accounted(s: Cluster, e: EventId) {
    || e in s.successes || e in s.dead
    || (exists c :: Processing(s, c, e))
    || (exists i :: QueuedAt(s, i, e))
    || (exists at :: WaitsAt(s, at, e))
  }

  lemma AccountedMeans(s: Cluster, e: EventId)
    ensures Accounted(s, e) <==>
              || e in s.successes || e in s.dead || (exists c :: Processing(s, c, e))
              || (exists i :: QueuedAt(s, i, e)) || (exists at :: WaitsAt(s, at, e))
  {
  }

  /** The consumer lets go of what it has in hand with nothing written. */
  predicate LetsGo(l: Label, c: nat) {
    l == Crash(c) || l in {UnwrapFails(c, Unwritten), Requeue(c, Unwritten), DeadLetter(c, Unwritten)}
  }

  /** The event is accounted for by something else than the consumer's work on it. */
  ghost predicate AccountedBesides(s: Cluster, c: nat, e: EventId) {
    || e in s.successes || e in s.dead
    || (exists d :: d != c && Processing(s, d, e))
    || (exists i :: QueuedAt(s, i, e))
    || (exists at :: WaitsAt(s, at, e))
  }

  lemma KeepsAtIt(cfg: Config, s: Cluster, l: Label, c: nat, e: EventId)
    requires Enabled(cfg, s, l) && Processing(s, c, e) && !LetsGo(l, c)
    ensures Accounted(Next(cfg, s, l), e)
  {
    hide Accounted, Retries, Extends;
    var t := Next(cfg, s, l);
    StandsStill(cfg, s, l, c);
    AccountedMeans(t, e);
    if Actor(l) != Some(c) {
      assert Processing(t, c, e);
    } else if l.Requeue? {
      assert QueuedAt(t, |s.retry|, e);
    } else if !l.UnwrapFails? && !l.DeadLetter? && !(l.Handle? && l.result.Fine?) {
      assert Processing(t, c, e);
    }
  }

  /** Letting go changes nothing but the consumer. */
  lemma LettingGoStops(cfg: Config, s: Cluster, l: Label, c: nat)
    requires Enabled(cfg, s, l) && LetsGo(l, c)
    ensures var t := Next(cfg, s, l);
            && t.logs == s.logs && t.retry == s.retry && t.outcomes == s.outcomes && t.successes == s.successes
            && t.dead == s.dead
            && PcOf(t, c).Stopped? && forall d :: d != c ==> PcOf(t, d) == PcOf(s, d)
  {
  }

  /**
    Exactly when an event that a consumer is at work on is passed over: when the consumer lets go
    of it with nothing written, and nothing else accounts for it.
   */
  lemma PassedOverIff(cfg: Config, s: Cluster, l: Label, c: nat, e: EventId)
    requires Enabled(cfg, s, l) && Processing(s, c, e)
    ensures !Accounted(Next(cfg, s, l), e) <==> LetsGo(l, c) && !AccountedBesides(s, c, e)
  {
    if LetsGo(l, c) {
      LettingGoStops(cfg, s, l, c);
      hide Next, Enabled;
      var t := Next(cfg, s, l);
      assert forall d :: Processing(t, d, e) <==> d != c && Processing(s, d, e);
      assert forall i :: QueuedAt(t, i, e) <==> QueuedAt(s, i, e);
      assert forall at :: WaitsAt(t, at, e) <==> WaitsAt(s, at, e);
    } else {
      hide Next, Enabled, Processing;
      KeepsAtIt(cfg, s, l, c, e);
    }
  }

  /**
    The steps after which an event in hand may have nobody left to come by: its claim is abandoned
    without a dead letter, or inserted unknown to the consumer, or a consumer lets go of it where
    another session has already been.
   */
  predicate Forsakes(s: Cluster, l: Label, e: EventId) {
    match l
    case ClaimFails(c, _) => LeavesClaim(s, l, c, e)
    case UnwrapFails(c, write) => write.Unwritten? && Processing(s, c, e)
    case Release(c, succeeds) => !succeeds && Processing(s, c, e)
    case Requeue(c, write) => write.Unwritten? && Processing(s, c, e) && PcOf(s, c).at in s.outcomes
    case DeadLetter(c, write) => write.Unwritten? && Processing(s, c, e) && PcOf(s, c).at in s.outcomes
    case Crash(c) => Processing(s, c, e) && (PcOf(s, c).Unsettled? ==> PcOf(s, c).at in s.outcomes)
    case _ => false
  }

  ghost predicate Covered(s: Cluster, e: EventId) {
    && ((exists at :: KnownAt(s, at, e)) ==> Accounted(s, e))
    && (e in s.claims ==> e in s.successes || e in s.dead || exists c :: HoldsClaim(s, c, e))
  }

  lemma ProcessingGoesOn(cfg: Config, s: Cluster, l: Label, c: nat, e: EventId)
    requires Enabled(cfg, s, l) && !Forsakes(s, l, e) && Processing(s, c, e)
    ensures Accounted(Next(cfg, s, l), e)
  {
    hide Next, Enabled;
    if LetsGo(l, c) {
      PassedOverIff(cfg, s, l, c, e);
      assert WaitsAt(s, PcOf(s, c).at, e);
    } else {
      KeepsAtIt(cfg, s, l, c, e);
    }
  }

  lemma ClaimedIsCovered(s: Cluster, e: EventId)
    requires Covered(s, e)
    ensures e in s.claims ==> e in s.successes || e in s.dead || exists c :: HoldsClaim(s, c, e)
  {
  }

  lemma WaitingGoesOn(cfg: Config, s: Cluster, l: Label, at: Place, e: EventId)
    requires Enabled(cfg, s, l) && !Forsakes(s, l, e) && WaitsAt(s, at, e) && Covered(s, e)
    ensures Accounted(Next(cfg, s, l), e)
  {
    hide Covered, Retries;
    var t := Next(cfg, s, l);
    StepExtends(cfg, s, l);
    if at !in t.outcomes {
      assert WaitsAt(t, at, e);
    } else if l.Claim? {
      ClaimedIsCovered(s, e);
      if c :| HoldsClaim(s, c, e) {
        assert Processing(s, c, e);
        ProcessingGoesOn(cfg, s, l, c, e);
      }
    } else if l.Requeue? {
      assert QueuedAt(t, |s.retry|, e);
    }
  }

  lemma AccountedGoesOn(cfg: Config, s: Cluster, l: Label, e: EventId)
    requires Enabled(cfg, s, l) && !Forsakes(s, l, e) && Covered(s, e) && Accounted(s, e)
    requires forall at :: at in s.outcomes ==> ValidPlace(s, at)
    ensures Accounted(Next(cfg, s, l), e)
  {
    hide Next, Enabled, Processing, QueuedAt, WaitsAt, Covered, Forsakes;
    StepExtends(cfg, s, l);
    if c :| Processing(s, c, e) { ProcessingGoesOn(cfg, s, l, c, e); }
    if i :| QueuedAt(s, i, e) { QueuedStaysOutstanding(cfg, s, l, i, e); }
    if at :| WaitsAt(s, at, e) { WaitingGoesOn(cfg, s, l, at, e); }
  }

  lemma LettingGoBuries(cfg: Config, s: Cluster, l: Label, c: nat, e: EventId)
    requires Enabled(cfg, s, l) && Actor(l) == Some(c) && HoldsClaim(s, c, e) && !Forsakes(s, l, e)
    requires !HoldsClaim(Next(cfg, s, l), c, e)
    ensures (l.Handle? && l.result.Fine?) || (l.Release? && l.succeeds) || e in Next(cfg, s, l).dead
  {
    hide RetryCopy, Retries;
  }

  lemma ClaimGoesOn(cfg: Config, s: Cluster, l: Label, e: EventId)
    requires Enabled(cfg, s, l) && !Forsakes(s, l, e) && Covered(s, e) && cfg.hasDb && e in Next(cfg, s, l).claims
    ensures var t := Next(cfg, s, l); e in t.successes || e in t.dead || exists c :: HoldsClaim(t, c, e)
  {
    hide Next, Accounted, Retries;
    var t := Next(cfg, s, l);
    StepExtends(cfg, s, l);
    if e !in s.claims {
      ClaimTaken(cfg, s, l, e);
    } else if c: nat :| HoldsClaim(s, c, e) {
      HolderAfter(cfg, s, l, c, e);
      if Actor(l) == Some(c) && !HoldsClaim(t, c, e) { LettingGoBuries(cfg, s, l, c, e); }
    }
  }

  lemma WaitingIsAccounted(s: Cluster, at: Place, e: EventId)
    requires WaitsAt(s, at, e)
    ensures Accounted(s, e)
  {
  }

  lemma StepCovers(cfg: Config, s: Cluster, l: Label, e: EventId)
    requires Enabled(cfg, s, l) && !Forsakes(s, l, e) && Covered(s, e) && OffsetInv(cfg, s) && cfg.hasDb
    ensures Covered(Next(cfg, s, l), e)
  {
    hide Next, Enabled, Forsakes, Accounted, HoldsClaim, OffsetInv;
    var t := Next(cfg, s, l);
    OutcomesHavePlaces(cfg, s);
    if at :| KnownAt(t, at, e) {
      KnownBefore(cfg, s, l, at, e);
      if KnownAt(s, at, e) {
        AccountedGoesOn(cfg, s, l, e);
      } else {
        WaitingIsAccounted(t, at, e);
      }
    }
    if e in t.claims { ClaimGoesOn(cfg, s, l, e); }
  }

  lemma CoveredAtFirst(s: Cluster, e: EventId)
    requires Initial(s)
    ensures Covered(s, e)
  {
    if at :| KnownAt(s, at, e) { WaitingIsAccounted(s, at, e); }
  }

  lemma {:induction false} CoveredAlways(cfg: Config, states: seq<Cluster>, labels: seq<Label>, n: nat, e: EventId)
    requires IsRun(cfg, states, labels) && n <= |labels| && cfg.hasDb
    requires forall i :: 0 <= i < n ==> !Forsakes(states[i], labels[i], e)
    ensures Covered(states[n], e)
  {
    hide OffsetInv, Next, Enabled, Covered, Forsakes;
    if n == 0 {
      CoveredAtFirst(states[0], e);
    } else {
      CoveredAlways(cfg, states, labels, n - 1, e);
      OffsetInvAlways(cfg, states, labels, n - 1);
      assert Steps(cfg, states[n - 1], labels[n - 1], states[n]);
      StepCovers(cfg, states[n - 1], labels[n - 1], e);
    }
  }

  /**
    When no step forsakes it, an event has been handled or dead-lettered, or a consumer is at work
    on it, or it is queued for retry, or it waits at an offset that is not committed.
   */
  lemma NothingIsPassedOver(cfg: Config, states: seq<Cluster>, labels: seq<Label>, n: nat, at: Place, e: EventId)
    requires IsRun(cfg, states, labels) && n <= |labels| && cfg.hasDb && KnownAt(states[n], at, e)
    requires forall i :: 0 <= i < n ==> !Forsakes(states[i], labels[i], e)
    ensures var s := states[n];
            || e in s.successes || e in s.dead
            || (exists c :: Processing(s, c, e))
            || (exists i :: QueuedAt(s, i, e))
            || (exists x :: WaitsAt(s, x, e) && Uncommitted(s, x))
  {
    hide Next, Enabled, Processing, QueuedAt, WaitsAt, Forsakes;
    CoveredAlways(cfg, states, labels, n, e);
    if x :| WaitsAt(states[n], x, e) {
      WaitingIsUncommitted(cfg, states, labels, n, x, e);
    }
  }

  // ---- a loss by a crash ----

  const LOST: EventId := "lost"
  const KEPT: EventId := "kept"

  /** A cluster of one partition that holds two messages, and nothing else yet. */
  const TWO_MESSAGES := Cluster([[Message(LOST, true, []), Message(KEPT, true, [])]], [0], {}, [], map[], map[],
                                multiset{}, {}, {}, {})

  /** A consumer takes up the first message, */
  const BEGINNING := [Start(0), Assign(0, 0), Fetch(0, 0)]

  /** and dies right after claiming it. */
  const DEATH := [Claim(0), Crash(0)]

  /** The next session skips the claimed message, */
  const SKIP := [Start(0), Assign(0, 0), Fetch(0, 0), Claim(0)]

  /** takes up the second one, */
  const TAKE := [Fetch(0, 0), Claim(0)]

  /** handles it and commits past both. */
  const FINISH := [Handle(0, Fine), Commit(0, Written)]

  const AFTER_BEGINNING := TWO_MESSAGES.(consumers := map[0 := Consumer(Fetched(Place(0, 0)), map[0 := 1])])

  const AFTER_CRASH := TWO_MESSAGES.(
    claims := {LOST}, everClaimed := {LOST}, consumers := map[0 := Consumer(Stopped, map[0 := 1])])

  const AFTER_SKIP := AFTER_CRASH.(
    consumers := map[0 := Consumer(Idle, map[0 := 1])], outcomes := map[Place(0, 0) := Skipped])

  const AFTER_TAKE := AFTER_SKIP.(
    claims := {LOST, KEPT}, everClaimed := {LOST, KEPT},
    consumers := map[0 := Consumer(Claimed(Place(0, 1)), map[0 := 2])])

  const AFTER_COMMIT := AFTER_TAKE.(
    committed := [2], successes := multiset{KEPT},
    consumers := map[0 := Consumer(Idle, map[0 := 2])],
    outcomes := map[Place(0, 0) := Skipped, Place(0, 1) := Succeeded])

  lemma Overwrite<V>(x: V, y: V)
    ensures map[0 := x][0 := y] == map[0 := y]
  {
  }

  lemma FatalSessionBegins(cfg: Config)
    requires cfg.hasDb
    ensures Reaches(cfg, TWO_MESSAGES, BEGINNING, AFTER_BEGINNING)
  {
    hide RetryCopy, Retries;
    var s1 := Next(cfg, TWO_MESSAGES, Start(0));
    var s2 := Next(cfg, s1, Assign(0, 0));
    assert s2.consumers[0] == Consumer(Idle, map[0 := 0]);
    var s3 := Next(cfg, s2, Fetch(0, 0));
    Overwrite(0, 1);
    assert s3.consumers == map[0 := Consumer(Fetched(Place(0, 0)), map[0 := 1])];
    assert s3 == AFTER_BEGINNING;
    assert Reaches(cfg, s2, [Fetch(0, 0)], s3);
    assert Reaches(cfg, s1, [Assign(0, 0), Fetch(0, 0)], s3);
  }

  lemma FatalSessionDies(cfg: Config)
    requires cfg.hasDb
    ensures Reaches(cfg, AFTER_BEGINNING, DEATH, AFTER_CRASH)
  {
    hide RetryCopy, Retries;
    var s1 := Next(cfg, AFTER_BEGINNING, Claim(0));
    assert s1.consumers[0] == Consumer(Claimed(Place(0, 0)), map[0 := 1]) && s1.claims == {LOST} == s1.everClaimed;
    var s2 := Next(cfg, s1, Crash(0));
    assert s2.consumers == map[0 := Consumer(Stopped, map[0 := 1])];
    assert s2 == AFTER_CRASH;
    assert Reaches(cfg, s1, [Crash(0)], s2);
  }

  lemma NextSessionSkips(cfg: Config)
    requires cfg.hasDb
    ensures Reaches(cfg, AFTER_CRASH, SKIP, AFTER_SKIP)
  {
    hide RetryCopy, Retries;
    var s1 := Next(cfg, AFTER_CRASH, Start(0));
    var s2 := Next(cfg, s1, Assign(0, 0));
    assert s2.consumers[0] == Consumer(Idle, map[0 := 0]);
    var s3 := Next(cfg, s2, Fetch(0, 0));
    Overwrite(0, 1);
    assert s3.consumers[0] == Consumer(Fetched(Place(0, 0)), map[0 := 1]);
    var s4 := Next(cfg, s3, Claim(0));
    assert s4.consumers == map[0 := Consumer(Idle, map[0 := 1])];
    assert s4 == AFTER_SKIP;
    assert Reaches(cfg, s3, [Claim(0)], s4);
    assert Reaches(cfg, s2, [Fetch(0, 0), Claim(0)], s4);
    assert Reaches(cfg, s1, [Assign(0, 0), Fetch(0, 0), Claim(0)], s4);
  }

  lemma NextSessionTakes(cfg: Config)
    requires cfg.hasDb
    ensures Reaches(cfg, AFTER_SKIP, TAKE, AFTER_TAKE)
  {
    hide RetryCopy, Retries;
    var s1 := Next(cfg, AFTER_SKIP, Fetch(0, 0));
    Overwrite(1, 2);
    assert s1.consumers[0] == Consumer(Fetched(Place(0, 1)), map[0 := 2]);
    var s2 := Next(cfg, s1, Claim(0));
    assert s2.consumers == map[0 := Consumer(Claimed(Place(0, 1)), map[0 := 2])]
        && s2.claims == {LOST, KEPT} == s2.everClaimed;
    assert s2 == AFTER_TAKE;
    assert Reaches(cfg, s1, [Claim(0)], s2);
  }

  lemma NextSessionFinishes(cfg: Config)
    requires cfg.hasDb
    ensures Reaches(cfg, AFTER_TAKE, FINISH, AFTER_COMMIT)
  {
    hide RetryCopy, Retries;
    var s1 := Next(cfg, AFTER_TAKE, Handle(0, Fine));
    assert s1.consumers[0] == Consumer(Handled(Place(0, 1)), map[0 := 2]) && s1.successes == multiset{KEPT};
    var s2 := Next(cfg, s1, Commit(0, Written));
    assert s2.consumers == map[0 := Consumer(Idle, map[0 := 2])];
    assert s2 == AFTER_COMMIT;
    assert Reaches(cfg, s1, [Commit(0, Written)], s2);
  }

  /** A claim whose reply is lost leaves the same state behind as a death right after the claim. */
  lemma ClaimReplyIsLost(cfg: Config)
    requires cfg.hasDb
    ensures Reaches(cfg, AFTER_BEGINNING, [ClaimFails(0, true)], AFTER_CRASH)
  {
    hide RetryCopy, Retries;
    var s := Next(cfg, AFTER_BEGINNING, ClaimFails(0, true));
    assert s.consumers == map[0 := Consumer(Stopped, map[0 := 1])] && s.claims == {LOST} == s.everClaimed;
    assert s == AFTER_CRASH;
  }

  /**
    A consumer that dies between its claim and the outcome, or is told that its claim failed when it
    did not, orphans the event: the next session skips the message, and a later commit passes it.
   */
  lemma CrashAfterClaimLoses(cfg: Config)
    requires cfg.hasDb
    ensures Initial(TWO_MESSAGES) && Reaches(cfg, TWO_MESSAGES, BEGINNING, AFTER_BEGINNING)
    ensures Reaches(cfg, AFTER_BEGINNING, DEATH, AFTER_CRASH)
    ensures Reaches(cfg, AFTER_BEGINNING, [ClaimFails(0, true)], AFTER_CRASH)
    ensures Reaches(cfg, AFTER_CRASH, SKIP, AFTER_SKIP) && Reaches(cfg, AFTER_SKIP, TAKE, AFTER_TAKE)
    ensures Reaches(cfg, AFTER_TAKE, FINISH, AFTER_COMMIT)
    ensures AFTER_COMMIT.committed[0] == 2 && Orphaned(AFTER_COMMIT, LOST) && !Accounted(AFTER_COMMIT, LOST)
  {
    hide RetryCopy, Retries, Next, Enabled, Reaches;
    FatalSessionBegins(cfg);
    FatalSessionDies(cfg);
    ClaimReplyIsLost(cfg);
    NextSessionSkips(cfg);
    NextSessionTakes(cfg);
    NextSessionFinishes(cfg);
    assert LOST != KEPT;
    forall at ensures !WaitsAt(AFTER_COMMIT, at, LOST) {
      if ValidPlace(AFTER_COMMIT, at) { assert at == Place(0, 0) || at == Place(0, 1); }
    }
  }

  // ---- a loss without a crash: two sessions meet at one message ----

  /** While one consumer holds the claim of the first message, */
  const HELD := AFTER_BEGINNING.(
    claims := {LOST}, everClaimed := {LOST}, consumers := map[0 := Consumer(Claimed(Place(0, 0)), map[0 := 1])])

  /** another takes over the partition, skips that message, */
  const TAKEOVER := [Start(1), Assign(1, 0), Fetch(1, 0), Claim(1)]

  const AFTER_TAKEOVER := HELD.(
    consumers := map[0 := Consumer(Claimed(Place(0, 0)), map[0 := 1]), 1 := Consumer(Idle, map[0 := 1])],
    outcomes := map[Place(0, 0) := Skipped])

  /** takes up the next one, */
  const NEXT_ONE := [Fetch(1, 0), Claim(1)]

  const AFTER_NEXT_ONE := AFTER_TAKEOVER.(
    claims := {LOST, KEPT}, everClaimed := {LOST, KEPT},
    consumers := map[0 := Consumer(Claimed(Place(0, 0)), map[0 := 1]),
                     1 := Consumer(Claimed(Place(0, 1)), map[0 := 2])])

  /** and commits past both. */
  const PASSING := [Handle(1, Fine), Commit(1, Written)]

  const AFTER_PASSING := AFTER_NEXT_ONE.(
    committed := [2], successes := multiset{KEPT},
    consumers := map[0 := Consumer(Claimed(Place(0, 0)), map[0 := 1]), 1 := Consumer(Idle, map[0 := 2])],
    outcomes := map[Place(0, 0) := Skipped, Place(0, 1) := Succeeded])

  /** Then the first one's handler fails, the claim is released, */
  const FAILING := [Handle(0, Transient), Release(0, true)]

  const AFTER_RELEASE := AFTER_PASSING.(
    claims := {KEPT},
    consumers := map[0 := Consumer(Unsettled(Place(0, 0), false), map[0 := 1]), 1 := Consumer(Idle, map[0 := 2])])

  /** and the retry cannot be enqueued. */
  const AFTER_FAILING := AFTER_RELEASE.(
    consumers := map[0 := Consumer(Stopped, map[0 := 1]), 1 := Consumer(Idle, map[0 := 2])])

  lemma FirstIsHeld(cfg: Config)
    requires cfg.hasDb
    ensures Reaches(cfg, AFTER_BEGINNING, [Claim(0)], HELD)
  {
    hide RetryCopy, Retries;
    var s := Next(cfg, AFTER_BEGINNING, Claim(0));
    assert s.consumers == map[0 := Consumer(Claimed(Place(0, 0)), map[0 := 1])] && s.claims == {LOST} == s.everClaimed;
    assert s == HELD;
  }

  lemma OtherTakesOver(cfg: Config)
    requires cfg.hasDb
    ensures Reaches(cfg, HELD, TAKEOVER, AFTER_TAKEOVER)
  {
    hide RetryCopy, Retries;
    var s1 := Next(cfg, HELD, Start(1));
    var s2 := Next(cfg, s1, Assign(1, 0));
    assert s2.consumers[1] == Consumer(Idle, map[0 := 0]);
    var s3 := Next(cfg, s2, Fetch(1, 0));
    Overwrite(0, 1);
    assert s3.consumers[1] == Consumer(Fetched(Place(0, 0)), map[0 := 1]);
    var s4 := Next(cfg, s3, Claim(1));
    assert s4.consumers == AFTER_TAKEOVER.consumers;
    assert s4 == AFTER_TAKEOVER;
    assert Reaches(cfg, s3, [Claim(1)], s4);
    assert Reaches(cfg, s2, [Fetch(1, 0), Claim(1)], s4);
    assert Reaches(cfg, s1, [Assign(1, 0), Fetch(1, 0), Claim(1)], s4);
  }

  lemma OtherGoesOn(cfg: Config)
    requires cfg.hasDb
    ensures Reaches(cfg, AFTER_TAKEOVER, NEXT_ONE, AFTER_NEXT_ONE)
  {
    hide RetryCopy, Retries;
    var s1 := Next(cfg, AFTER_TAKEOVER, Fetch(1, 0));
    Overwrite(1, 2);
    assert s1.consumers[1] == Consumer(Fetched(Place(0, 1)), map[0 := 2]);
    var s2 := Next(cfg, s1, Claim(1));
    assert s2.consumers == AFTER_NEXT_ONE.consumers && s2.claims == {LOST, KEPT} == s2.everClaimed;
    assert s2 == AFTER_NEXT_ONE;
    assert Reaches(cfg, s1, [Claim(1)], s2);
  }

  lemma OtherCommits(cfg: Config)
    requires cfg.hasDb
    ensures Reaches(cfg, AFTER_NEXT_ONE, PASSING, AFTER_PASSING)
  {
    hide RetryCopy, Retries;
    var s1 := Next(cfg, AFTER_NEXT_ONE, Handle(1, Fine));
    assert s1.consumers[1] == Consumer(Handled(Place(0, 1)), map[0 := 2]) && s1.successes == multiset{KEPT};
    var s2 := Next(cfg, s1, Commit(1, Written));
    assert s2.consumers == AFTER_PASSING.consumers;
    assert s2 == AFTER_PASSING;
    assert Reaches(cfg, s1, [Commit(1, Written)], s2);
  }

  lemma HolderFails(cfg: Config)
    requires cfg.hasDb
    ensures Reaches(cfg, AFTER_PASSING, FAILING, AFTER_RELEASE)
  {
    hide RetryCopy, Retries;
    var s1 := Next(cfg, AFTER_PASSING, Handle(0, Transient));
    assert s1.consumers[0] == Consumer(Failed(Place(0, 0), false), map[0 := 1]);
    var s2 := Next(cfg, s1, Release(0, true));
    assert s2.consumers == AFTER_RELEASE.consumers && s2.claims == {KEPT};
    assert s2 == AFTER_RELEASE;
    assert Reaches(cfg, s1, [Release(0, true)], s2);
  }

  lemma HolderCannotRetry(cfg: Config)
    requires cfg.maxAttempts > 1
    ensures Reaches(cfg, AFTER_RELEASE, [Requeue(0, Unwritten)], AFTER_FAILING)
  {
    hide RetryCopy;
    var s := Next(cfg, AFTER_RELEASE, Requeue(0, Unwritten));
    assert s.consumers == AFTER_FAILING.consumers;
    assert s == AFTER_FAILING;
  }

  /**
    An event can be passed over although its claim was released and nobody crashed: its place was
    skipped by a second session while the first was at work on it, and the retry was not written.
   */
  lemma SkippedThenUnwrittenLoses(cfg: Config)
    requires cfg.hasDb && cfg.maxAttempts > 1
    ensures Initial(TWO_MESSAGES) && Reaches(cfg, TWO_MESSAGES, BEGINNING, AFTER_BEGINNING)
    ensures Reaches(cfg, AFTER_BEGINNING, [Claim(0)], HELD)
    ensures Reaches(cfg, HELD, TAKEOVER, AFTER_TAKEOVER) && Reaches(cfg, AFTER_TAKEOVER, NEXT_ONE, AFTER_NEXT_ONE)
    ensures Reaches(cfg, AFTER_NEXT_ONE, PASSING, AFTER_PASSING) && Reaches(cfg, AFTER_PASSING, FAILING, AFTER_RELEASE)
    ensures Reaches(cfg, AFTER_RELEASE, [Requeue(0, Unwritten)], AFTER_FAILING)
    ensures AFTER_FAILING.committed[0] == 2 && !Orphaned(AFTER_FAILING, LOST) && !Accounted(AFTER_FAILING, LOST)
  {
    hide RetryCopy, Retries, Next, Enabled, Reaches;
    FatalSessionBegins(cfg);
    FirstIsHeld(cfg);
    OtherTakesOver(cfg);
    OtherGoesOn(cfg);
    OtherCommits(cfg);
    HolderFails(cfg);
    HolderCannotRetry(cfg);
    assert LOST != KEPT;
    forall at ensures !WaitsAt(AFTER_FAILING, at, LOST) {
      if ValidPlace(AFTER_FAILING, at) { assert at == Place(0, 0) || at == Place(0, 1); }
    }
  }
}
