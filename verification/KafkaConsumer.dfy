/**
  Any number of consumers of one group, as interleaved steps: partition logs, committed offsets,
  the claim table, the retry queue and the dead-letter queue.
 */
module KafkaConsumer {
  import opened Wrappers
  import opened Text

  type EventId = string

  datatype Header = Header(key: string, value: string)

  /** A message; its event id is a function of topic and value, so every copy of a value has the same one. */
  datatype Message = Message(event: EventId, unwraps: bool, headers: seq<Header>)

  // ---- attempts, carried in a header ----

  const RETRY_HEADER := "x-ofm-retry-attempt"

  /** A retry header that holds a positive number. */
  predicate TellsAttempt(h: Header) {
    h.key == RETRY_HEADER && Atoi(h.value).Some? && Atoi(h.value).value > 0
  }

  function RetryAttempt(headers: seq<Header>): (n: int)
    ensures n > 0
  {
    if headers == [] then 1
    else
      var n := Atoi(headers[0].value);
      if headers[0].key == RETRY_HEADER && n.Some? && n.value > 0 then n.value else RetryAttempt(headers[1..])
  }

  /** The attempt number is that of the first header that tells one, and 1 if none does. */
  lemma {:induction false} FirstHeaderCounts(headers: seq<Header>, i: nat)
    requires i <= |headers| && forall j :: 0 <= j < i ==> !TellsAttempt(headers[j])
    ensures i == |headers| ==> RetryAttempt(headers) == 1
    ensures i < |headers| && TellsAttempt(headers[i]) ==> RetryAttempt(headers) == Atoi(headers[i].value).value
  {
    if i > 0 {
      assert !TellsAttempt(headers[0]);
      FirstHeaderCounts(headers[1..], i - 1);
    }
  }

  /** The copy of a message the retry queue appends for the given attempt. */
  function RetryCopy(m: Message, attempt: nat): Message {
    m.(headers := [Header(RETRY_HEADER, Itoa(attempt))] + m.headers)
  }

  lemma RetryCopyCounts(m: Message, attempt: nat)
    requires 0 < attempt <= INT_MAX
    ensures RetryAttempt(RetryCopy(m, attempt).headers) == attempt
  {
    AtoiInvertsItoa(attempt);
  }

  // ---- state ----

  /** A message in a partition. */
  datatype Place = Place(partition: nat, offset: nat)

  /** Where a consumer is in its loop. A claim is held from the claim step until the handler's outcome is known. */
  datatype Pc =
    | Stopped
    | Idle
    | Fetched(at: Place)
    | Claimed(at: Place)
    | Failed(at: Place, permanent: bool)     // the handler failed; the claim is not released yet
    | Unsettled(at: Place, permanent: bool)  // the claim is dealt with; retry or dead letter comes next
    | Handled(at: Place)                     // the handler succeeded; the commit comes next

  /** A consumer's session: the next offset to fetch in each partition assigned to it. */
  datatype Consumer = Consumer(pc: Pc, next: map<nat, nat>)

  /** How a message left the loop's hands. */
  datatype Outcome = Succeeded | Requeued | Skipped

  datatype Cluster = Cluster(
    logs: seq<seq<Message>>,
    committed: seq<nat>,              // per partition, everything below is passed
    claims: set<EventId>,             // the processed_events table
    retry: seq<Message>,              // enqueued for retry, not yet back in a log
    consumers: map<nat, Consumer>,
    outcomes: map<Place, Outcome>,    // what became of each message so far
    successes: multiset<EventId>,     // handler runs that returned nil
    enqueued: set<Message>,           // everything ever enqueued for retry
    dead: set<EventId>,               // dead-lettered
    everClaimed: set<EventId>)

  datatype Config = Config(hasDb: bool, maxAttempts: int)

  /** What becomes of a write. `Unconfirmed` is an error although the write took effect. */
  datatype Write = Written | Unwritten | Unconfirmed

  datatype Label =
    | Produce(partition: nat, message: Message)
    | Redeliver(index: nat, partition: nat)
    | Start(c: nat)
    | Assign(c: nat, partition: nat)
    | Fetch(c: nat, partition: nat)
    | FetchFails(c: nat)
    | Claim(c: nat)
    | ClaimFails(c: nat, applied: bool)
    | UnwrapFails(c: nat, write: Write)
    | Handle(c: nat, result: HandlerResult)
    | Release(c: nat, succeeds: bool)
    | Requeue(c: nat, write: Write)
    | DeadLetter(c: nat, write: Write)
    | Commit(c: nat, write: Write)
    | Crash(c: nat)

  datatype HandlerResult = Fine | Transient | Permanent

  predicate ValidPlace(s: Cluster, at: Place) {
    at.partition < |s.logs| && at.offset < |s.logs[at.partition]|
  }

  function MessageAt(s: Cluster, at: Place): Message
    requires ValidPlace(s, at)
  {
    s.logs[at.partition][at.offset]
  }

  function PcOf(s: Cluster, c: nat): Pc {
    if c in s.consumers then s.consumers[c].pc else Stopped
  }

  /** The message a consumer has in hand. */
  function InHand(pc: Pc): Option<Place> {
    if pc.Stopped? || pc.Idle? then None else Some(pc.at)
  }

  function WithPc(s: Cluster, c: nat, pc: Pc): Cluster
    requires c in s.consumers
  {
    s.(consumers := s.consumers[c := s.consumers[c].(pc := pc)])
  }

  function Attempts(m: Message): int {
    RetryAttempt(m.headers)
  }

  /** A failed message is retried while its failure is transient and attempts are left. */
  predicate Retries(cfg: Config, m: Message, permanent: bool) {
    !permanent && Attempts(m) < cfg.maxAttempts
  }

  predicate Holds(s: Cluster, at: Option<Place>) {
    at.Some? ==> ValidPlace(s, at.value)
  }

  // ---- steps ----

  predicate Enabled(cfg: Config, s: Cluster, l: Label) {
    match l
    case Produce(p, m) => p < |s.logs|
    case Redeliver(i, p) => i < |s.retry| && p < |s.logs|
    case Start(c) => PcOf(s, c).Stopped?
    case Assign(c, p) => c in s.consumers && !PcOf(s, c).Stopped? && p < |s.committed|
    case Fetch(c, p) => PcOf(s, c).Idle? && p in s.consumers[c].next && ValidPlace(s, Place(p, s.consumers[c].next[p]))
    case FetchFails(c) => PcOf(s, c).Idle?
    case Claim(c) => PcOf(s, c).Fetched? && Holds(s, InHand(PcOf(s, c)))
    case ClaimFails(c, _) => PcOf(s, c).Fetched? && cfg.hasDb && Holds(s, InHand(PcOf(s, c)))
    case UnwrapFails(c, _) =>
      PcOf(s, c).Claimed? && Holds(s, InHand(PcOf(s, c))) && !MessageAt(s, PcOf(s, c).at).unwraps
    case Handle(c, _) => PcOf(s, c).Claimed? && Holds(s, InHand(PcOf(s, c))) && MessageAt(s, PcOf(s, c).at).unwraps
    case Release(c, _) => PcOf(s, c).Failed? && Holds(s, InHand(PcOf(s, c)))
    case Requeue(c, _) =>
      PcOf(s, c).Unsettled? && Holds(s, InHand(PcOf(s, c)))
          && Retries(cfg, MessageAt(s, PcOf(s, c).at), PcOf(s, c).permanent)
    case DeadLetter(c, _) =>
      PcOf(s, c).Unsettled? && Holds(s, InHand(PcOf(s, c)))
          && !Retries(cfg, MessageAt(s, PcOf(s, c).at), PcOf(s, c).permanent)
    case Commit(c, _) => PcOf(s, c).Handled? && PcOf(s, c).at.partition < |s.committed|
    case Crash(c) => c in s.consumers && !PcOf(s, c).Stopped?
  }

  function Next(cfg: Config, s: Cluster, l: Label): Cluster
    requires Enabled(cfg, s, l)
  {
    match l
    case Produce(p, m) => s.(logs := s.logs[p := s.logs[p] + [m]])
    case Redeliver(i, p) => s.(logs := s.logs[p := s.logs[p] + [s.retry[i]]], retry := s.retry[..i] + s.retry[i + 1..])
    case Start(c) => s.(consumers := s.consumers[c := Consumer(Idle, map[])])
    case Assign(c, p) =>
      // a session reads a partition from its committed offset on
      s.(consumers := s.consumers[c := s.consumers[c].(next := s.consumers[c].next[p := s.committed[p]])])
    case Fetch(c, p) =>
      var o := s.consumers[c].next[p];
      s.(consumers := s.consumers[c := Consumer(Fetched(Place(p, o)), s.consumers[c].next[p := o + 1])])
    case FetchFails(c) => WithPc(s, c, Stopped)
    case Claim(c) =>
      var at := PcOf(s, c).at;
      var event := MessageAt(s, at).event;
      if !cfg.hasDb then WithPc(s, c, Claimed(at))
      // continue, without a commit
      else if event in s.claims then WithPc(s, c, Idle).(outcomes := s.outcomes[at := Skipped])
      else WithPc(s, c, Claimed(at)).(claims := s.claims + {event}, everClaimed := s.everClaimed + {event})
    case ClaimFails(c, applied) =>
      // an insert that took effect stays, although the consumer does not know
      var event := if applied then {MessageAt(s, PcOf(s, c).at).event} else {};
      WithPc(s, c, Stopped).(claims := s.claims + event, everClaimed := s.everClaimed + event)
    case UnwrapFails(c, write) =>
      // the claim is kept
      WithPc(s, c, Stopped).(dead := s.dead + if write.Unwritten? then {} else {MessageAt(s, PcOf(s, c).at).event})
    case Handle(c, result) =>
      var at := PcOf(s, c).at;
      (match result
       case Fine => WithPc(s, c, Handled(at)).(outcomes := s.outcomes[at := Succeeded],
                                               successes := s.successes + multiset{MessageAt(s, at).event})
       case Transient => WithPc(s, c, Failed(at, false))
       case Permanent => WithPc(s, c, Failed(at, true)))
    case Release(c, succeeds) =>
      // its error is ignored
      var pc := PcOf(s, c);
      WithPc(s, c, Unsettled(pc.at, pc.permanent)).(
        claims := if cfg.hasDb && succeeds then s.claims - {MessageAt(s, pc.at).event} else s.claims)
    case Requeue(c, write) =>
      var at := PcOf(s, c).at;
      var copy := RetryCopy(MessageAt(s, at), Attempts(MessageAt(s, at)) + 1);
      (match write
       case Written => WithPc(s, c, Idle).(retry := s.retry + [copy], enqueued := s.enqueued + {copy},
                                           outcomes := s.outcomes[at := Requeued])
       case Unwritten => WithPc(s, c, Stopped)
       case Unconfirmed => WithPc(s, c, Stopped).(retry := s.retry + [copy], enqueued := s.enqueued + {copy}))
    case DeadLetter(c, write) =>
      WithPc(s, c, Stopped).(dead := s.dead + if write.Unwritten? then {} else {MessageAt(s, PcOf(s, c).at).event})
    case Commit(c, write) =>
      var at := PcOf(s, c).at;
      WithPc(s, c, if write.Written? then Idle else Stopped).(
        committed := if write.Unwritten? then s.committed else s.committed[at.partition := at.offset + 1])
    case Crash(c) => WithPc(s, c, Stopped)
  }

  predicate Initial(s: Cluster) {
    && |s.committed| == |s.logs| && (forall p :: 0 <= p < |s.committed| ==> s.committed[p] == 0)
    && s.claims == {} && s.retry == [] && s.consumers == map[] && s.outcomes == map[]
    && s.successes == multiset{} && s.enqueued == {} && s.dead == {} && s.everClaimed == {}
  }

  predicate Steps(cfg: Config, s: Cluster, l: Label, t: Cluster) {
    Enabled(cfg, s, l) && t == Next(cfg, s, l)
  }

  predicate IsRun(cfg: Config, states: seq<Cluster>, labels: seq<Label>) {
    && |states| == |labels| + 1 && Initial(states[0])
    && forall i :: 0 <= i < |labels| ==> Steps(cfg, states[i], labels[i], states[i + 1])
  }

  // ---- what a step does to a consumer ----

  /** The consumer a step concerns. */
  function Actor(l: Label): Option<nat> {
    match l
    case Produce(_, _) => None
    case Redeliver(_, _) => None
    case Start(c) => Some(c)
    case Assign(c, _) => Some(c)
    case Fetch(c, _) => Some(c)
    case FetchFails(c) => Some(c)
    case Claim(c) => Some(c)
    case ClaimFails(c, _) => Some(c)
    case UnwrapFails(c, _) => Some(c)
    case Handle(c, _) => Some(c)
    case Release(c, _) => Some(c)
    case Requeue(c, _) => Some(c)
    case DeadLetter(c, _) => Some(c)
    case Commit(c, _) => Some(c)
    case Crash(c) => Some(c)
  }

  /** Logs are append-only, and what has been recorded stays recorded. */
  ghost predicate Extends(s: Cluster, t: Cluster) {
    && |s.logs| == |t.logs| && (forall p :: 0 <= p < |s.logs| ==> s.logs[p] <= t.logs[p])
    && s.successes <= t.successes && s.enqueued <= t.enqueued && s.everClaimed <= t.everClaimed && s.dead <= t.dead
  }

  lemma StepExtends(cfg: Config, s: Cluster, l: Label)
    requires Enabled(cfg, s, l)
    ensures Extends(s, Next(cfg, s, l))
  {
  }

  /** A place keeps its message, and a consumer its place unless the step is its own. */
  lemma StandsStill(cfg: Config, s: Cluster, l: Label, c: nat)
    requires Enabled(cfg, s, l)
    ensures Actor(l) != Some(c) ==> PcOf(Next(cfg, s, l), c) == PcOf(s, c)
    ensures forall at :: ValidPlace(s, at) ==>
          ValidPlace(Next(cfg, s, l), at) && MessageAt(Next(cfg, s, l), at) == MessageAt(s, at)
  {
    hide RetryCopy, Retries;
    StepExtends(cfg, s, l);
  }

  /** Where its own step leaves a consumer. */
  function PcAfter(cfg: Config, s: Cluster, l: Label): Pc
    requires Enabled(cfg, s, l) && Actor(l).Some?
  {
    match l
    case Start(_) => Idle
    case Assign(c, _) => PcOf(s, c)
    case Fetch(c, p) => Fetched(Place(p, s.consumers[c].next[p]))
    case Claim(c) => if cfg.hasDb && MessageAt(s, PcOf(s, c).at).event in s.claims then Idle else Claimed(PcOf(s, c).at)
    case Handle(c, result) => if result.Fine? then Handled(PcOf(s, c).at) else Failed(PcOf(s, c).at, result.Permanent?)
    case Release(c, _) => Unsettled(PcOf(s, c).at, PcOf(s, c).permanent)
    case Requeue(_, write) => if write.Written? then Idle else Stopped
    case Commit(_, write) => if write.Written? then Idle else Stopped
    case _ => Stopped
  }

  lemma StepMovesActor(cfg: Config, s: Cluster, l: Label)
    requires Enabled(cfg, s, l) && Actor(l).Some?
    ensures PcOf(Next(cfg, s, l), Actor(l).value) == PcAfter(cfg, s, l) && Actor(l).value in Next(cfg, s, l).consumers
    ensures |Next(cfg, s, l).committed| == |s.committed| && Next(cfg, s, l).logs == s.logs
  {
  }

  // ---- runs as label sequences ----

  predicate Reaches(cfg: Config, s: Cluster, labels: seq<Label>, t: Cluster)
    decreases |labels|
  {
    if labels == [] then s == t
    else Enabled(cfg, s, labels[0]) && Reaches(cfg, Next(cfg, s, labels[0]), labels[1..], t)
  }

  lemma {:induction false} ReachesOneMore(cfg: Config, s: Cluster, labels: seq<Label>, t: Cluster, l: Label)
    requires Reaches(cfg, s, labels, t) && Enabled(cfg, t, l)
    ensures Reaches(cfg, s, labels + [l], Next(cfg, t, l))
    decreases |labels|
  {
    hide Enabled, Next;
    if labels != [] {
      ReachesOneMore(cfg, Next(cfg, s, labels[0]), labels[1..], t, l);
      assert (labels + [l])[1..] == labels[1..] + [l];
    }
  }

  lemma {:induction false} ReachesThen(cfg: Config, s: Cluster, first: seq<Label>, t: Cluster, second: seq<Label>,
                                       u: Cluster)
    requires Reaches(cfg, s, first, t) && Reaches(cfg, t, second, u)
    ensures Reaches(cfg, s, first + second, u)
    decreases |first|
  {
    hide Enabled, Next;
    if first == [] {
      assert first + second == second;
    } else {
      ReachesThen(cfg, Next(cfg, s, first[0]), first[1..], t, second, u);
      assert (first + second)[1..] == first[1..] + second;
    }
  }

  /** The states along a label sequence. */
  lemma {:induction false} StatesAlong(cfg: Config, s: Cluster, labels: seq<Label>, t: Cluster)
    returns (states: seq<Cluster>)
    requires Reaches(cfg, s, labels, t)
    ensures |states| == |labels| + 1 && states[0] == s && states[|labels|] == t
    ensures forall i :: 0 <= i < |labels| ==> Steps(cfg, states[i], labels[i], states[i + 1])
    decreases |labels|
  {
    hide Enabled, Next;
    if labels == [] {
      states := [s];
    } else {
      var rest := StatesAlong(cfg, Next(cfg, s, labels[0]), labels[1..], t);
      states := [s] + rest;
      forall i | 0 <= i < |labels| ensures Steps(cfg, states[i], labels[i], states[i + 1]) {
        if i > 0 { assert labels[i] == labels[1..][i - 1] && Steps(cfg, rest[i - 1], labels[1..][i - 1], rest[i]); }
      }
    }
  }

  // ---- committed offsets are sound ----

  /** The message at a place has been dealt with, in one of the ways that let a later commit pass it. */
  predicate Settled(cfg: Config, s: Cluster, at: Place) {
    && ValidPlace(s, at) && at in s.outcomes
    && var m := MessageAt(s, at);
    match s.outcomes[at]
    case Succeeded => m.event in s.successes
    case Requeued => Attempts(m) < cfg.maxAttempts && RetryCopy(m, Attempts(m) + 1) in s.enqueued
    case Skipped => m.event in s.everClaimed
  }

  /** Every message below `o` is settled, except the one in hand. */
  ghost predicate SettledBelow(cfg: Config, s: Cluster, p: nat, o: nat, except: Option<Place>) {
    forall i :: 0 <= i < o && Some(Place(p, i)) != except ==> Settled(cfg, s, Place(p, i))
  }

  ghost predicate SessionSound(cfg: Config, s: Cluster, c: Consumer) {
    && (forall p :: p in c.next ==> SettledBelow(cfg, s, p, c.next[p], InHand(c.pc)))
    && Holds(s, InHand(c.pc))
    && (InHand(c.pc).Some? ==> SettledBelow(cfg, s, c.pc.at.partition, c.pc.at.offset, None))
    && (c.pc.Handled? ==> Settled(cfg, s, c.pc.at))
  }

  lemma SettledStays(cfg: Config, s: Cluster, t: Cluster, at: Place)
    requires Extends(s, t) && Settled(cfg, s, at) && at in t.outcomes && t.outcomes[at] == s.outcomes[at]
    ensures Settled(cfg, t, at)
  {
  }

  /** The place whose outcome a step records. */
  function Recorded(s: Cluster, l: Label): Option<Place> {
    match l
    case Claim(c) => InHand(PcOf(s, c))
    case Handle(c, _) => InHand(PcOf(s, c))
    case Requeue(c, _) => InHand(PcOf(s, c))
    case _ => None
  }

  ghost predicate ClaimsRecorded(s: Cluster) {
    s.claims <= s.everClaimed
  }

  /** A step unsettles nothing, and what it records is settled. */
  lemma StepKeepsSettled(cfg: Config, s: Cluster, l: Label, at: Place)
    requires Enabled(cfg, s, l) && ClaimsRecorded(s)
    requires at in Next(cfg, s, l).outcomes && (at in s.outcomes ==> Settled(cfg, s, at))
    ensures Settled(cfg, Next(cfg, s, l), at)
  {
    var t := Next(cfg, s, l);
    StepExtends(cfg, s, l);
    if at in s.outcomes && t.outcomes[at] == s.outcomes[at] {
      SettledStays(cfg, s, t, at);
    } else {
      assert Recorded(s, l) == Some(at);
    }
  }

  lemma SettledBelowStays(cfg: Config, s: Cluster, l: Label, p: nat, o: nat, except: Option<Place>)
    requires Enabled(cfg, s, l) && ClaimsRecorded(s) && SettledBelow(cfg, s, p, o, except)
    requires forall at :: at in s.outcomes ==> Settled(cfg, s, at)
    ensures SettledBelow(cfg, Next(cfg, s, l), p, o, except)
  {
    forall i | 0 <= i < o && Some(Place(p, i)) != except ensures Settled(cfg, Next(cfg, s, l), Place(p, i)) {
      assert Settled(cfg, s, Place(p, i));
      StepKeepsSettled(cfg, s, l, Place(p, i));
    }
  }

  /** A consumer the step does not concern stays sound. */
  lemma BystanderStaysSound(cfg: Config, s: Cluster, l: Label, c: Consumer)
    requires Enabled(cfg, s, l) && ClaimsRecorded(s) && SessionSound(cfg, s, c)
    requires forall at :: at in s.outcomes ==> Settled(cfg, s, at)
    ensures SessionSound(cfg, Next(cfg, s, l), c)
  {
    var t := Next(cfg, s, l);
    StepExtends(cfg, s, l);
    forall p | p in c.next ensures SettledBelow(cfg, t, p, c.next[p], InHand(c.pc)) {
      SettledBelowStays(cfg, s, l, p, c.next[p], InHand(c.pc));
    }
    if InHand(c.pc).Some? {
      SettledBelowStays(cfg, s, l, c.pc.at.partition, c.pc.at.offset, None);
    }
    if c.pc.Handled? {
      StepKeepsSettled(cfg, s, l, c.pc.at);
    }
  }

  /** A stopped session promises nothing about what it had in hand: its next session starts at the committed offset. */
  ghost predicate Sound(cfg: Config, s: Cluster, c: Consumer) {
    !c.pc.Stopped? ==> SessionSound(cfg, s, c)
  }

  ghost predicate OffsetInv(cfg: Config, s: Cluster) {
    && |s.committed| == |s.logs| && ClaimsRecorded(s)
    && (forall p :: 0 <= p < |s.committed| ==> SettledBelow(cfg, s, p, s.committed[p], None))
    && (forall c :: c in s.consumers ==> Sound(cfg, s, s.consumers[c]))
    && (forall at :: at in s.outcomes ==> Settled(cfg, s, at))
  }

  lemma LetGo(cfg: Config, t: Cluster, c: Consumer)
    requires SessionSound(cfg, t, c) && InHand(c.pc).Some? && Settled(cfg, t, c.pc.at)
    ensures SessionSound(cfg, t, c.(pc := Idle))
  {
    forall p | p in c.next ensures SettledBelow(cfg, t, p, c.next[p], None) {
      assert SettledBelow(cfg, t, p, c.next[p], InHand(c.pc));
    }
  }

  lemma MoveOn(cfg: Config, t: Cluster, c: Consumer, pc: Pc)
    requires SessionSound(cfg, t, c) && InHand(pc) == InHand(c.pc) && (pc.Handled? ==> Settled(cfg, t, pc.at))
    ensures SessionSound(cfg, t, c.(pc := pc))
  {
  }

  lemma Reassign(cfg: Config, t: Cluster, c: Consumer, p: nat, o: nat)
    requires SessionSound(cfg, t, c) && SettledBelow(cfg, t, p, o, None)
    ensures SessionSound(cfg, t, c.(next := c.next[p := o]))
  {
  }

  lemma TakeUp(cfg: Config, t: Cluster, c: Consumer, p: nat)
    requires SessionSound(cfg, t, c) && c.pc.Idle? && p in c.next && ValidPlace(t, Place(p, c.next[p]))
    ensures SessionSound(cfg, t, Consumer(Fetched(Place(p, c.next[p])), c.next[p := c.next[p] + 1]))
  {
    forall q | q in c.next ensures SettledBelow(cfg, t, q, c.next[q], None) {
      assert SettledBelow(cfg, t, q, c.next[q], InHand(c.pc));
    }
  }

  lemma FreshSession(cfg: Config, t: Cluster)
    ensures SessionSound(cfg, t, Consumer(Idle, map[]))
  {
  }

  lemma HandledIsSettled(cfg: Config, s: Cluster, c: Consumer)
    requires SessionSound(cfg, s, c) && c.pc.Handled?
    ensures c.pc.at in s.outcomes
  {
  }

  lemma ActorStaysSound(cfg: Config, s: Cluster, l: Label, c: nat)
    requires Enabled(cfg, s, l) && OffsetInv(cfg, s) && Actor(l) == Some(c)
    ensures c in Next(cfg, s, l).consumers && Sound(cfg, Next(cfg, s, l), Next(cfg, s, l).consumers[c])
  {
    hide Settled, SettledBelow, SessionSound, Extends, RetryCopy, Retries;
    var t := Next(cfg, s, l);
    var after := t.consumers[c];
    if l.Start? {
      assert SessionSound(cfg, t, after) by { FreshSession(cfg, t); }
    } else if !after.pc.Stopped? {
      var before := s.consumers[c];
      assert Sound(cfg, s, before);
      BystanderStaysSound(cfg, s, l, before);
      if l.Assign? {
        SettledBelowStays(cfg, s, l, l.partition, s.committed[l.partition], None);
        Reassign(cfg, t, before, l.partition, s.committed[l.partition]);
      } else if l.Fetch? {
        TakeUp(cfg, t, before, l.partition);
      } else if after.pc.Idle? {
        if before.pc.Handled? { HandledIsSettled(cfg, s, before); }
        StepKeepsSettled(cfg, s, l, before.pc.at);
        LetGo(cfg, t, before);
      } else {
        if after.pc.Handled? { StepKeepsSettled(cfg, s, l, before.pc.at); }
        MoveOn(cfg, t, before, after.pc);
      }
    }
  }

  lemma CommitsStaySound(cfg: Config, s: Cluster, l: Label, p: nat)
    requires Enabled(cfg, s, l) && OffsetInv(cfg, s) && p < |s.committed|
    ensures SettledBelow(cfg, Next(cfg, s, l), p, Next(cfg, s, l).committed[p], None)
  {
    var t := Next(cfg, s, l);
    if t.committed[p] == s.committed[p] {
      SettledBelowStays(cfg, s, l, p, s.committed[p], None);
    } else {
      assert l.Commit? && Sound(cfg, s, s.consumers[l.c]);
      var at := s.consumers[l.c].pc.at;
      SettledBelowStays(cfg, s, l, p, at.offset, None);
      StepKeepsSettled(cfg, s, l, at);
    }
  }

  lemma StepKeepsOffsetInv(cfg: Config, s: Cluster, l: Label)
    requires Enabled(cfg, s, l) && OffsetInv(cfg, s)
    ensures OffsetInv(cfg, Next(cfg, s, l))
  {
    hide Settled, SettledBelow, RetryCopy, Retries;
    var t := Next(cfg, s, l);
    forall p | 0 <= p < |t.committed| ensures SettledBelow(cfg, t, p, t.committed[p], None) {
      CommitsStaySound(cfg, s, l, p);
    }
    forall c | c in t.consumers ensures Sound(cfg, t, t.consumers[c]) {
      if Actor(l) == Some(c) {
        ActorStaysSound(cfg, s, l, c);
      } else if !t.consumers[c].pc.Stopped? {
        assert Sound(cfg, s, s.consumers[c]);
        BystanderStaysSound(cfg, s, l, s.consumers[c]);
      }
    }
    forall at | at in t.outcomes ensures Settled(cfg, t, at) {
      StepKeepsSettled(cfg, s, l, at);
    }
  }

  lemma {:induction false} OffsetInvAlways(cfg: Config, states: seq<Cluster>, labels: seq<Label>, n: nat)
    requires IsRun(cfg, states, labels) && n <= |labels|
    ensures OffsetInv(cfg, states[n])
  {
    hide Next, Enabled, Settled, SessionSound;
    if n > 0 {
      OffsetInvAlways(cfg, states, labels, n - 1);
      assert Steps(cfg, states[n - 1], labels[n - 1], states[n]);
      StepKeepsOffsetInv(cfg, states[n - 1], labels[n - 1]);
    }
  }

  /**
    A committed offset passes a message only after the message was handled successfully, or a copy
    with the next attempt number was enqueued for retry, or it was skipped because its event had
    been claimed: over any number of consumers, rebalances, failures and restarts.
   */
  lemma CommittedIsSettled(cfg: Config, states: seq<Cluster>, labels: seq<Label>, n: nat, at: Place)
    requires IsRun(cfg, states, labels) && n <= |labels|
    requires at.partition < |states[n].committed| && at.offset < states[n].committed[at.partition]
    ensures Settled(cfg, states[n], at)
  {
    OffsetInvAlways(cfg, states, labels, n);
    assert Some(at) != None && at == Place(at.partition, at.offset);
  }

  // ---- the handler succeeds at most once per event ----

  /** The claim a consumer holds: between its claim step and the release after its own handler's failure. */
  predicate HoldsClaim(s: Cluster, c: nat, e: EventId) {
    var pc := PcOf(s, c);
    (pc.Claimed? || pc.Failed?) && ValidPlace(s, pc.at) && MessageAt(s, pc.at).event == e
  }

  ghost predicate ClaimInv(s: Cluster) {
    && (forall c, e :: HoldsClaim(s, c, e) ==> e in s.claims && s.successes[e] == 0)
    && (forall c, d, e :: HoldsClaim(s, c, e) && HoldsClaim(s, d, e) ==> c == d)
    && (forall e :: s.successes[e] <= 1 && (e in s.successes ==> e in s.claims))
  }

  /** Only a claim makes a consumer a holder. */
  lemma NewHolder(cfg: Config, s: Cluster, l: Label, c: nat, e: EventId)
    requires Enabled(cfg, s, l) && OffsetInv(cfg, s) && HoldsClaim(Next(cfg, s, l), c, e)
    ensures HoldsClaim(s, c, e)
        || (l == Claim(c) && MessageAt(s, PcOf(s, c).at).event == e && (cfg.hasDb ==> e !in s.claims))
    ensures !(l.Release? && l.c == c) && !(l.Handle? && l.c == c && l.result.Fine?)
  {
    hide Settled, SettledBelow, RetryCopy, Retries, Next;
    StandsStill(cfg, s, l, c);
    if Actor(l) == Some(c) { StepMovesActor(cfg, s, l); }
    if c in s.consumers { assert Sound(cfg, s, s.consumers[c]); }
  }

  lemma StepKeepsClaimInv(cfg: Config, s: Cluster, l: Label)
    requires Enabled(cfg, s, l) && OffsetInv(cfg, s) && ClaimInv(s) && cfg.hasDb
    ensures ClaimInv(Next(cfg, s, l))
  {
    hide Settled, SettledBelow, SessionSound, RetryCopy, Retries;
    var t := Next(cfg, s, l);
    forall c, e | HoldsClaim(t, c, e) ensures e in t.claims && t.successes[e] == 0 {
      NewHolder(cfg, s, l, c, e);
      if l.Release? || l.Handle? {
        var other := MessageAt(s, PcOf(s, l.c).at).event;
        assert HoldsClaim(s, l.c, other);
      }
    }
    forall c, d, e | HoldsClaim(t, c, e) && HoldsClaim(t, d, e) ensures c == d {
      NewHolder(cfg, s, l, c, e);
      NewHolder(cfg, s, l, d, e);
    }
    if l.Release? || l.Handle? {
      assert HoldsClaim(s, l.c, MessageAt(s, PcOf(s, l.c).at).event);
    }
  }

  lemma {:induction false} ClaimInvAlways(cfg: Config, states: seq<Cluster>, labels: seq<Label>, n: nat)
    requires IsRun(cfg, states, labels) && n <= |labels| && cfg.hasDb
    ensures ClaimInv(states[n])
  {
    hide OffsetInv, Next, Enabled;
    if n > 0 {
      ClaimInvAlways(cfg, states, labels, n - 1);
      OffsetInvAlways(cfg, states, labels, n - 1);
      assert Steps(cfg, states[n - 1], labels[n - 1], states[n]);
      StepKeepsClaimInv(cfg, states[n - 1], labels[n - 1]);
    }
  }

  /**
    With a database, over any number of consumers, redeliveries, retries and crashes, an event is
    handled successfully at most once.
   */
  lemma HandledAtMostOnce(cfg: Config, states: seq<Cluster>, labels: seq<Label>, n: nat, e: EventId)
    requires IsRun(cfg, states, labels) && n <= |labels| && cfg.hasDb
    ensures states[n].successes[e] <= 1
  {
    ClaimInvAlways(cfg, states, labels, n);
  }
}
