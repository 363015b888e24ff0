/** The consumer loop itself, run by one consumer, as a run of the cluster. */
module KafkaBroker {
  import opened Wrappers
  import opened Text
  import opened KafkaConsumer

  /** What the environment decides in one turn of the loop. */
  datatype Turn = Turn(partition: nat, claim: Write, result: HandlerResult, releases: bool, requeue: Write, bury: Write,
                       commit: Write)

  /** Why the loop returned; `Nil` is a return without an error. */
  datatype End = FetchError | ClaimError | QueueError | DeadLetterError | CommitError | Nil

  /** The message was written to the dead-letter topic, and the consumer knows. */
  predicate Buries(l: Label) {
    (l.UnwrapFails? || l.DeadLetter?) && l.write.Written?
  }

  /** The step is the consumer's own, is no crash, and neither takes nor reads a partition of another topic. */
  predicate OwnStep(c: nat, topic: seq<nat>, l: Label) {
    Actor(l) == Some(c) && !l.Crash? && (l.Assign? || l.Fetch? ==> l.partition in topic)
  }

  /** The consumer's session reads partitions of the topic only. */
  predicate ReadsOnly(s: Cluster, c: nat, topic: seq<nat>) {
    c in s.consumers ==> forall p :: p in s.consumers[c].next ==> p in topic
  }

  lemma StepReadsOnly(cfg: Config, s: Cluster, l: Label, topic: seq<nat>)
    requires Enabled(cfg, s, l) && Actor(l).Some? && (l.Start? || ReadsOnly(s, Actor(l).value, topic))
    requires l.Assign? ==> l.partition in topic
    ensures ReadsOnly(Next(cfg, s, l), Actor(l).value, topic)
  {
  }

  lemma FetchReadsTopic(cfg: Config, s: Cluster, c: nat, p: nat, topic: seq<nat>)
    requires Enabled(cfg, s, Fetch(c, p)) && ReadsOnly(s, c, topic)
    ensures p in topic
  {
  }

  predicate OwnSteps(c: nat, topic: seq<nat>, trace: seq<Label>) {
    forall i :: 0 <= i < |trace| ==> OwnStep(c, topic, trace[i])
  }

  lemma StandsAtStart(cfg: Config, s: Cluster)
    ensures Reaches(cfg, s, [], s)
  {
  }

  // ---- what a turn of the loop amounts to ----

  /** The cluster with one consumer's session put in place. */
  function Put(s: Cluster, c: nat, pc: Pc, next: map<nat, nat>): (t: Cluster)
    ensures PcOf(t, c) == pc && c in t.consumers && t.consumers[c].next == next
    ensures t.logs == s.logs && t.committed == s.committed
  {
    s.(consumers := s.consumers[c := Consumer(pc, next)])
  }

  function WithClaim(cfg: Config, s: Cluster, e: EventId): (t: Cluster)
    ensures t.logs == s.logs && t.committed == s.committed
  {
    if cfg.hasDb then s.(claims := s.claims + {e}, everClaimed := s.everClaimed + {e}) else s
  }

  function Released(cfg: Config, s: Cluster, e: EventId, releases: bool): (t: Cluster)
    ensures t.logs == s.logs && t.committed == s.committed
  {
    if cfg.hasDb && releases then s.(claims := s.claims - {e}) else s
  }

  function Buried(s: Cluster, e: EventId, write: Write): (t: Cluster)
    ensures t.logs == s.logs && t.committed == s.committed
  {
    s.(dead := s.dead + if write.Unwritten? then {} else {e})
  }

  function Queued(s: Cluster, at: Place, m: Message, write: Write): (t: Cluster)
    ensures t.logs == s.logs && t.committed == s.committed
  {
    var copy := RetryCopy(m, Attempts(m) + 1);
    if write.Unwritten? then s
    else
      s.(retry := s.retry + [copy], enqueued := s.enqueued + {copy},
         outcomes := if write.Written? then s.outcomes[at := Requeued] else s.outcomes)
  }

  function Passed(s: Cluster, at: Place, write: Write): Cluster
    requires at.partition < |s.committed|
  {
    if write.Unwritten? then s else s.(committed := s.committed[at.partition := at.offset + 1])
  }

  /** The loop goes round again after a write that is known to have taken effect, and returns the error otherwise. */
  function EndOf(write: Write, error: End): Option<End> {
    if write.Written? then None else Some(error)
  }

  function PcOfEnd(end: Option<End>): Pc {
    if end.None? then Idle else Stopped
  }

  function BurialEnd(write: Write): Option<End> {
    Some(if write.Written? then Nil else DeadLetterError)
  }

  datatype Done = Done(cluster: Cluster, end: Option<End>)

  /** The state without the acting consumer, and how the turn ends, once the message is claimed. */
  function AfterClaiming(cfg: Config, s: Cluster, at: Place, m: Message, turn: Turn): Done
    requires at.partition < |s.committed|
  {
    if !m.unwraps then Done(Buried(s, m.event, turn.bury), BurialEnd(turn.bury))
    else if turn.result.Fine? then
      var handled := s.(outcomes := s.outcomes[at := Succeeded], successes := s.successes + multiset{m.event});
      Done(Passed(handled, at, turn.commit), EndOf(turn.commit, CommitError))
    else
      var released := Released(cfg, s, m.event, turn.releases);
      if Retries(cfg, m, turn.result.Permanent?) then
        Done(Queued(released, at, m, turn.requeue), EndOf(turn.requeue, QueueError))
      else Done(Buried(released, m.event, turn.bury), BurialEnd(turn.bury))
  }

  function AfterFetching(cfg: Config, s: Cluster, at: Place, m: Message, turn: Turn): Done
    requires at.partition < |s.committed|
  {
    if cfg.hasDb && !turn.claim.Written? then
      Done(if turn.claim.Unconfirmed? then WithClaim(cfg, s, m.event) else s, Some(ClaimError))
    else if cfg.hasDb && m.event in s.claims then
      Done(s.(outcomes := s.outcomes[at := Skipped]), None)
    else AfterClaiming(cfg, WithClaim(cfg, s, m.event), at, m, turn)
  }

  /** One turn as a whole: the next message of the partition is read, and dealt with. */
  function AfterTurn(cfg: Config, s: Cluster, c: nat, turn: Turn): Done
    requires Enabled(cfg, s, Fetch(c, turn.partition)) && |s.committed| == |s.logs|
  {
    var next := s.consumers[c].next;
    var at := Place(turn.partition, next[turn.partition]);
    var done := AfterFetching(cfg, s, at, MessageAt(s, at), turn);
    Done(Put(done.cluster, c, PcOfEnd(done.end), next[turn.partition := at.offset + 1]), done.end)
  }

  lemma TurnKeepsShape(cfg: Config, s: Cluster, c: nat, turn: Turn)
    requires Enabled(cfg, s, Fetch(c, turn.partition)) && |s.committed| == |s.logs|
    ensures var t := AfterTurn(cfg, s, c, turn).cluster; c in t.consumers && |t.committed| == |t.logs| == |s.logs|
  {
  }

  /** The turns one after the other, until one returns, or the next fetch fails. */
  function AfterTurns(cfg: Config, s: Cluster, c: nat, turns: seq<Turn>): (done: Done)
    requires c in s.consumers && |s.committed| == |s.logs|
    ensures done.end.Some?
    decreases |turns|
  {
    if turns == [] || !Enabled(cfg, s, Fetch(c, turns[0].partition)) then
      Done(Put(s, c, Stopped, s.consumers[c].next), Some(FetchError))
    else
      var done := AfterTurn(cfg, s, c, turns[0]);
      if done.end.Some? then done else
        TurnKeepsShape(cfg, s, c, turns[0]);
        AfterTurns(cfg, done.cluster, c, turns[1..])
  }

  lemma TurnLeaves(cfg: Config, s: Cluster, c: nat, turn: Turn)
    requires Enabled(cfg, s, Fetch(c, turn.partition)) && |s.committed| == |s.logs|
    ensures var done := AfterTurn(cfg, s, c, turn); PcOf(done.cluster, c) == PcOfEnd(done.end)
  {
  }

  // ---- what a turn brings about ----

  /** The turn gets hold of the message: it is not claimed yet, and the claim can be written. */
  predicate Claims(cfg: Config, s: Cluster, m: Message, turn: Turn) {
    cfg.hasDb ==> turn.claim.Written? && m.event !in s.claims
  }

  predicate Handles(cfg: Config, s: Cluster, m: Message, turn: Turn) {
    Claims(cfg, s, m, turn) && m.unwraps && turn.result.Fine?
  }

  predicate Fails(cfg: Config, s: Cluster, m: Message, turn: Turn) {
    Claims(cfg, s, m, turn) && m.unwraps && !turn.result.Fine?
  }

  /** The failure is passing and the message has attempts left. */
  predicate RetriesLater(cfg: Config, s: Cluster, m: Message, turn: Turn) {
    Fails(cfg, s, m, turn) && turn.result.Transient? && RetryAttempt(m.headers) < cfg.maxAttempts
  }

  /** The message does not unwrap, fails for good, or has no attempt left. */
  predicate GivesUp(cfg: Config, s: Cluster, m: Message, turn: Turn) {
    && Claims(cfg, s, m, turn)
    && (!m.unwraps || turn.result.Permanent? || (turn.result.Transient? && RetryAttempt(m.headers) >= cfg.maxAttempts))
  }

  /** Everything a turn with this message brings about, and exactly when. */
  ghost predicate BringsAbout(cfg: Config, s: Cluster, at: Place, turn: Turn, done: Done)
    requires ValidPlace(s, at) && |s.committed| == |s.logs|
  {
    var m, t := s.logs[at.partition][at.offset], done.cluster;
    && t.logs == s.logs
    // the handler has succeeded
    && t.successes == s.successes + (if Handles(cfg, s, m, turn) then multiset{m.event} else multiset{})
    // the offset one past the message is committed
    && t.committed == (if Handles(cfg, s, m, turn) && !turn.commit.Unwritten? then
                         s.committed[at.partition := at.offset + 1]
                       else s.committed)
    // the next attempt waits in the retry queue
    && t.retry == s.retry + (if RetriesLater(cfg, s, m, turn) && !turn.requeue.Unwritten? then
                               [Message(m.event, m.unwraps,
                                        [Header("x-ofm-retry-attempt", Itoa(RetryAttempt(m.headers) + 1))] + m.headers)]
                             else [])
    // the message is dead-lettered
    && t.dead == s.dead + (if GivesUp(cfg, s, m, turn) && !turn.bury.Unwritten? then {m.event} else {})
    // the claim stays
    && t.claims == (if !cfg.hasDb || turn.claim.Unwritten? || (Fails(cfg, s, m, turn) && turn.releases) then s.claims
                    else s.claims + {m.event})
    // the loop returns
    && done.end == (if cfg.hasDb && !turn.claim.Written? then Some(ClaimError)
                    else if !Claims(cfg, s, m, turn) then None
                    else if Handles(cfg, s, m, turn) then if turn.commit.Written? then None else Some(CommitError)
                    else if RetriesLater(cfg, s, m, turn) then if turn.requeue.Written? then None else Some(QueueError)
                    else Some(if turn.bury.Written? then Nil else DeadLetterError))
  }

  lemma UnclaimedDecision(cfg: Config, s: Cluster, at: Place, turn: Turn)
    requires ValidPlace(s, at) && |s.committed| == |s.logs| && !Claims(cfg, s, MessageAt(s, at), turn)
    ensures BringsAbout(cfg, s, at, turn, AfterFetching(cfg, s, at, MessageAt(s, at), turn))
  {
    hide Itoa, RetryAttempt, AfterClaiming;
  }

  lemma HandlingDecision(cfg: Config, s: Cluster, at: Place, turn: Turn)
    requires ValidPlace(s, at) && |s.committed| == |s.logs| && Claims(cfg, s, MessageAt(s, at), turn)
    requires !MessageAt(s, at).unwraps || turn.result.Fine?
    ensures BringsAbout(cfg, s, at, turn, AfterFetching(cfg, s, at, MessageAt(s, at), turn))
  {
    hide Itoa, RetryAttempt, RetryCopy, Retries;
  }

  lemma FailingDecision(cfg: Config, s: Cluster, at: Place, turn: Turn)
    requires ValidPlace(s, at) && |s.committed| == |s.logs| && Claims(cfg, s, MessageAt(s, at), turn)
    requires MessageAt(s, at).unwraps && !turn.result.Fine?
    ensures BringsAbout(cfg, s, at, turn, AfterFetching(cfg, s, at, MessageAt(s, at), turn))
  {
    hide Itoa, RetryAttempt;
    assert cfg.hasDb ==> WithClaim(cfg, s, MessageAt(s, at).event).claims - {MessageAt(s, at).event} == s.claims;
  }

  lemma FetchingDecision(cfg: Config, s: Cluster, at: Place, turn: Turn)
    requires ValidPlace(s, at) && |s.committed| == |s.logs|
    ensures BringsAbout(cfg, s, at, turn, AfterFetching(cfg, s, at, MessageAt(s, at), turn))
  {
    hide BringsAbout, AfterFetching, Claims;
    if !Claims(cfg, s, MessageAt(s, at), turn) {
      UnclaimedDecision(cfg, s, at, turn);
    } else if !MessageAt(s, at).unwraps || turn.result.Fine? {
      HandlingDecision(cfg, s, at, turn);
    } else {
      FailingDecision(cfg, s, at, turn);
    }
  }

  /**
    Everything a turn brings about, and exactly when: a handler success, a commit one past the
    message, the next attempt in the retry queue, a dead letter, a claim that stays, and its end.
   */
  lemma TurnDecision(cfg: Config, s: Cluster, c: nat, turn: Turn)
    requires Enabled(cfg, s, Fetch(c, turn.partition)) && |s.committed| == |s.logs|
    ensures var at, done := Place(turn.partition, s.consumers[c].next[turn.partition]), AfterTurn(cfg, s, c, turn);
            && BringsAbout(cfg, s, at, turn, done)
            && c in done.cluster.consumers
            && done.cluster.consumers[c].next == s.consumers[c].next[turn.partition := at.offset + 1]
  {
    hide AfterFetching, RetryAttempt, Itoa, Handles, Fails, RetriesLater, GivesUp, Claims;
    var at := Place(turn.partition, s.consumers[c].next[turn.partition]);
    FetchingDecision(cfg, s, at, turn);
  }

  // ---- turns with which nothing goes wrong ----

  predicate Smooth(turn: Turn) {
    turn.claim.Written? && turn.result.Fine? && turn.commit.Written?
  }

  function EventsOf(messages: seq<Message>): multiset<EventId> {
    if messages == [] then multiset{} else multiset{messages[0].event} + EventsOf(messages[1..])
  }

  /** The messages unwrap, and with a database their events are different and not claimed yet. */
  predicate Fresh(cfg: Config, s: Cluster, messages: seq<Message>) {
    && (forall i :: 0 <= i < |messages| ==> messages[i].unwraps)
    && (cfg.hasDb ==>
          && (forall i :: 0 <= i < |messages| ==> messages[i].event !in s.claims)
          && (forall i, j :: 0 <= i < j < |messages| ==> messages[i].event != messages[j].event))
  }

  lemma FetchCan(cfg: Config, s: Cluster, c: nat, p: nat)
    requires c in s.consumers && PcOf(s, c).Idle? && p in s.consumers[c].next
    requires ValidPlace(s, Place(p, s.consumers[c].next[p]))
    ensures Enabled(cfg, s, Fetch(c, p))
  {
  }

  /** A smooth turn on a fresh message handles it, keeps its claim, and commits one past it. */
  lemma SmoothTurnCommits(cfg: Config, s: Cluster, c: nat, turn: Turn)
    requires Enabled(cfg, s, Fetch(c, turn.partition)) && |s.committed| == |s.logs| && Smooth(turn)
    requires Fresh(cfg, s, [s.logs[turn.partition][s.consumers[c].next[turn.partition]]])
    ensures var o, done := s.consumers[c].next[turn.partition], AfterTurn(cfg, s, c, turn);
            var t, e := done.cluster, s.logs[turn.partition][o].event;
            && done.end.None? && PcOf(t, c).Idle? && c in t.consumers
            && t.consumers[c].next == s.consumers[c].next[turn.partition := o + 1]
            && t.committed == s.committed[turn.partition := o + 1] && t.logs == s.logs
            && t.successes == s.successes + multiset{e}
            && t.outcomes == s.outcomes[Place(turn.partition, o) := Succeeded]
            && t.claims == if cfg.hasDb then s.claims + {e} else s.claims
  {
    hide RetryCopy, Retries;
    var m := s.logs[turn.partition][s.consumers[c].next[turn.partition]];
    assert [m][0] == m && m.unwraps;
  }

  lemma RestIsFresh(cfg: Config, s: Cluster, t: Cluster, messages: seq<Message>)
    requires messages != [] && Fresh(cfg, s, messages)
    requires t.claims == if cfg.hasDb then s.claims + {messages[0].event} else s.claims
    ensures Fresh(cfg, t, messages[1..])
  {
  }

  lemma FirstIsFresh(cfg: Config, s: Cluster, messages: seq<Message>)
    requires messages != [] && Fresh(cfg, s, messages)
    ensures Fresh(cfg, s, [messages[0]])
  {
  }

  /** The loop handles a partition to its end, one turn a message, and commits past the last one. */
  lemma {:induction false} SmoothTurnsDrain(cfg: Config, s: Cluster, c: nat, p: nat, turns: seq<Turn>)
    requires c in s.consumers && PcOf(s, c).Idle? && p in s.consumers[c].next && |s.committed| == |s.logs|
    requires p < |s.logs| && s.consumers[c].next[p] + |turns| == |s.logs[p]|
    requires forall i :: 0 <= i < |turns| ==> Smooth(turns[i]) && turns[i].partition == p
    requires Fresh(cfg, s, s.logs[p][s.consumers[c].next[p]..])
    ensures var o, done := s.consumers[c].next[p], AfterTurns(cfg, s, c, turns);
            && done.end == Some(FetchError)
            && done.cluster.successes == s.successes + EventsOf(s.logs[p][o..])
            && done.cluster.committed == if turns == [] then s.committed else s.committed[p := |s.logs[p]|]
    decreases |turns|
  {
    hide AfterTurn, Enabled, Fresh;
    var o, left := s.consumers[c].next[p], s.logs[p][s.consumers[c].next[p]..];
    if turns == [] {
      assert left == [];
    } else {
      FetchCan(cfg, s, c, p);
      FirstIsFresh(cfg, s, left);
      SmoothTurnCommits(cfg, s, c, turns[0]);
      var t := AfterTurn(cfg, s, c, turns[0]).cluster;
      RestIsFresh(cfg, s, t, left);
      assert t.logs[p][o + 1..] == left[1..];
      SmoothTurnsDrain(cfg, t, c, p, turns[1..]);
      assert s.committed[p := o + 1][p := |s.logs[p]|] == s.committed[p := |s.logs[p]|];
      if turns[1..] == [] { assert o + 1 == |s.logs[p]|; }
    }
  }

  /** The positions a new session reads its partitions from. */
  function Positions(s: Cluster, partitions: seq<nat>): map<nat, nat>
    requires forall i :: 0 <= i < |partitions| ==> partitions[i] < |s.committed|
  {
    if partitions == [] then map[]
    else
      var last := partitions[|partitions| - 1];
      Positions(s, partitions[..|partitions| - 1])[last := s.committed[last]]
  }

  /** A session reads each of its partitions from the committed offset on. */
  lemma {:induction false} PositionsAreCommitted(s: Cluster, partitions: seq<nat>)
    requires forall i :: 0 <= i < |partitions| ==> partitions[i] < |s.committed|
    ensures forall p :: p in Positions(s, partitions) <==> p in partitions
    ensures forall p :: p in partitions ==> Positions(s, partitions)[p] == s.committed[p]
  {
    if partitions != [] {
      var front, last := partitions[..|partitions| - 1], partitions[|partitions| - 1];
      assert partitions == front + [last];
      PositionsAreCommitted(s, front);
    }
  }

  /**
    A consumer that starts on a partition, when nothing goes wrong, handles exactly what is not
    committed yet, and leaves all of it committed.
   */
  lemma RestartDrains(cfg: Config, s: Cluster, c: nat, p: nat, turns: seq<Turn>)
    requires p < |s.logs| == |s.committed| && s.committed[p] + |turns| == |s.logs[p]|
    requires forall i :: 0 <= i < |turns| ==> Smooth(turns[i]) && turns[i].partition == p
    requires Fresh(cfg, s, s.logs[p][s.committed[p]..])
    ensures var done := AfterTurns(cfg, Put(s, c, Idle, Positions(s, [p])), c, turns);
            && done.end == Some(FetchError)
            && done.cluster.successes == s.successes + EventsOf(s.logs[p][s.committed[p]..])
            && done.cluster.committed == s.committed[p := |s.logs[p]|]
  {
    hide AfterTurns, EventsOf, Smooth;
    PositionsAreCommitted(s, [p]);
    SmoothTurnsDrain(cfg, Put(s, c, Idle, Positions(s, [p])), c, p, turns);
  }

  /** A consumer that starts on these partitions and runs its turns; it cannot where they do not exist. */
  function Restarted(cfg: Config, s: Cluster, c: nat, partitions: seq<nat>, turns: seq<Turn>): Done {
    if |s.committed| == |s.logs| && forall i :: 0 <= i < |partitions| ==> partitions[i] < |s.committed| then
      AfterTurns(cfg, Put(s, c, Idle, Positions(s, partitions)), c, turns)
    else Done(s, Some(FetchError))
  }

  // ---- each step, on a cluster with the consumer's session put in place ----

  lemma PutTwice(s: Cluster, c: nat, pc: Pc, next: map<nat, nat>, pc': Pc, next': map<nat, nat>)
    ensures Put(Put(s, c, pc, next), c, pc', next') == Put(s, c, pc', next')
  {
    assert s.consumers[c := Consumer(pc, next)][c := Consumer(pc', next')] == s.consumers[c := Consumer(pc', next')];
  }

  lemma FetchPut(cfg: Config, s: Cluster, c: nat, p: nat)
    requires Enabled(cfg, s, Fetch(c, p))
    ensures var next := s.consumers[c].next;
            Next(cfg, s, Fetch(c, p)) == Put(s, c, Fetched(Place(p, next[p])), next[p := next[p] + 1])
  {
  }

  lemma ClaimPut(cfg: Config, s: Cluster, c: nat, at: Place, next: map<nat, nat>)
    requires ValidPlace(s, at)
    ensures var u, e := Put(s, c, Fetched(at), next), MessageAt(s, at).event;
            && Enabled(cfg, u, Claim(c))
            && Next(cfg, u, Claim(c)) == (if cfg.hasDb && e in s.claims then
                                            Put(s.(outcomes := s.outcomes[at := Skipped]), c, Idle, next)
                                          else Put(WithClaim(cfg, s, e), c, Claimed(at), next))
  {
    hide RetryCopy, Retries;
    PutTwice(s, c, Fetched(at), next, Idle, next);
    PutTwice(s, c, Fetched(at), next, Claimed(at), next);
  }

  lemma ClaimFailsPut(cfg: Config, s: Cluster, c: nat, at: Place, next: map<nat, nat>, applied: bool)
    requires ValidPlace(s, at) && cfg.hasDb
    ensures var u, e := Put(s, c, Fetched(at), next), MessageAt(s, at).event;
            && Enabled(cfg, u, ClaimFails(c, applied))
            && Next(cfg, u, ClaimFails(c, applied))
               == Put(if applied then WithClaim(cfg, s, e) else s, c, Stopped, next)
  {
    hide RetryCopy, Retries;
    PutTwice(s, c, Fetched(at), next, Stopped, next);
  }

  lemma HandlePut(cfg: Config, s: Cluster, c: nat, at: Place, next: map<nat, nat>, result: HandlerResult)
    requires ValidPlace(s, at) && MessageAt(s, at).unwraps
    ensures var u, e := Put(s, c, Claimed(at), next), MessageAt(s, at).event;
            var handled := s.(outcomes := s.outcomes[at := Succeeded], successes := s.successes + multiset{e});
            && Enabled(cfg, u, Handle(c, result))
            && Next(cfg, u, Handle(c, result)) == if result.Fine? then Put(handled, c, Handled(at), next)
                                                  else Put(s, c, Failed(at, result.Permanent?), next)
  {
    hide RetryCopy, Retries;
    PutTwice(s, c, Claimed(at), next, Handled(at), next);
    PutTwice(s, c, Claimed(at), next, Failed(at, result.Permanent?), next);
  }

  lemma UnwrapFailsPut(cfg: Config, s: Cluster, c: nat, at: Place, next: map<nat, nat>, write: Write)
    requires ValidPlace(s, at) && !MessageAt(s, at).unwraps
    ensures var u := Put(s, c, Claimed(at), next);
            && Enabled(cfg, u, UnwrapFails(c, write))
            && Next(cfg, u, UnwrapFails(c, write)) == Put(Buried(s, MessageAt(s, at).event, write), c, Stopped, next)
  {
    hide RetryCopy, Retries;
    PutTwice(s, c, Claimed(at), next, Stopped, next);
  }

  lemma CommitPut(cfg: Config, s: Cluster, c: nat, at: Place, next: map<nat, nat>, write: Write)
    requires at.partition < |s.committed|
    ensures var u := Put(s, c, Handled(at), next);
            && Enabled(cfg, u, Commit(c, write))
            && Next(cfg, u, Commit(c, write)) == Put(Passed(s, at, write), c, PcOfEnd(EndOf(write, CommitError)), next)
  {
    hide RetryCopy, Retries;
    PutTwice(s, c, Handled(at), next, Idle, next);
    PutTwice(s, c, Handled(at), next, Stopped, next);
  }

  lemma ReleasePut(cfg: Config, s: Cluster, c: nat, at: Place, next: map<nat, nat>, permanent: bool, releases: bool)
    requires ValidPlace(s, at)
    ensures var u := Put(s, c, Failed(at, permanent), next);
            && Enabled(cfg, u, Release(c, releases))
            && Next(cfg, u, Release(c, releases))
               == Put(Released(cfg, s, MessageAt(s, at).event, releases), c, Unsettled(at, permanent), next)
  {
    hide RetryCopy, Retries;
    PutTwice(s, c, Failed(at, permanent), next, Unsettled(at, permanent), next);
  }

  lemma RequeuePut(cfg: Config, s: Cluster, c: nat, at: Place, next: map<nat, nat>, permanent: bool, write: Write)
    requires ValidPlace(s, at) && Retries(cfg, MessageAt(s, at), permanent)
    ensures var u := Put(s, c, Unsettled(at, permanent), next);
            && Enabled(cfg, u, Requeue(c, write))
            && Next(cfg, u, Requeue(c, write))
               == Put(Queued(s, at, MessageAt(s, at), write), c, PcOfEnd(EndOf(write, QueueError)), next)
  {
    hide RetryCopy, Retries;
    PutTwice(s, c, Unsettled(at, permanent), next, Idle, next);
    PutTwice(s, c, Unsettled(at, permanent), next, Stopped, next);
  }

  lemma DeadLetterPut(cfg: Config, s: Cluster, c: nat, at: Place, next: map<nat, nat>, permanent: bool, write: Write)
    requires ValidPlace(s, at) && !Retries(cfg, MessageAt(s, at), permanent)
    ensures var u := Put(s, c, Unsettled(at, permanent), next);
            && Enabled(cfg, u, DeadLetter(c, write))
            && Next(cfg, u, DeadLetter(c, write)) == Put(Buried(s, MessageAt(s, at).event, write), c, Stopped, next)
  {
    hide RetryCopy, Retries;
    PutTwice(s, c, Unsettled(at, permanent), next, Stopped, next);
  }

  lemma StartPut(cfg: Config, s: Cluster, c: nat)
    requires PcOf(s, c).Stopped?
    ensures Enabled(cfg, s, Start(c)) && Next(cfg, s, Start(c)) == Put(s, c, Idle, map[])
  {
  }

  lemma AssignPut(cfg: Config, s: Cluster, c: nat, next: map<nat, nat>, p: nat)
    requires p < |s.committed|
    ensures var u := Put(s, c, Idle, next);
            Enabled(cfg, u, Assign(c, p)) && Next(cfg, u, Assign(c, p)) == Put(s, c, Idle, next[p := s.committed[p]])
  {
    hide RetryCopy, Retries;
    PutTwice(s, c, Idle, next, Idle, next[p := s.committed[p]]);
  }

  lemma FetchFailsPut(cfg: Config, s: Cluster, c: nat)
    requires PcOf(s, c).Idle?
    ensures Enabled(cfg, s, FetchFails(c)) && Next(cfg, s, FetchFails(c)) == Put(s, c, Stopped, s.consumers[c].next)
  {
  }

  class Broker {
    const cfg: Config
    var cluster: Cluster

    constructor (cfg: Config, cluster: Cluster)
      ensures this.cfg == cfg && this.cluster == cluster
    {
      this.cfg := cfg;
      this.cluster := cluster;
    }

    /** One action on the cluster. */
    method Act(c: nat, ghost topic: seq<nat>, l: Label, ghost start: Cluster, ghost trace: seq<Label>)
      returns (ghost longer: seq<Label>)
      requires Enabled(cfg, cluster, l) && OwnStep(c, topic, l)
      requires Reaches(cfg, start, trace, cluster) && OwnSteps(c, topic, trace)
      requires (l.Start? || ReadsOnly(cluster, c, topic))
      modifies this
      ensures cluster == Next(cfg, old(cluster), l) && longer == trace + [l]
      ensures Reaches(cfg, start, longer, cluster) && OwnSteps(c, topic, longer) && ReadsOnly(cluster, c, topic)
    {
      hide Next, Enabled;
      StepReadsOnly(cfg, cluster, l, topic);
      ReachesOneMore(cfg, start, trace, cluster, l);
      cluster := Next(cfg, cluster, l);
      longer := trace + [l];
    }

    /** The message the consumer has in hand. */
    function InHandOf(c: nat): Message
      requires InHand(PcOf(cluster, c)).Some? && Holds(cluster, InHand(PcOf(cluster, c)))
      reads this
    {
      MessageAt(cluster, PcOf(cluster, c).at)
    }

    /** What the loop does once the handler has failed. */
    method AfterFailure(c: nat, ghost topic: seq<nat>, turn: Turn, ghost start: Cluster, ghost before: seq<Label>,
                        ghost s: Cluster, ghost at: Place, ghost next: map<nat, nat>, permanent: bool)
      returns (end: Option<End>, ghost trace: seq<Label>)
      requires ValidPlace(s, at) && cluster == Put(s, c, Failed(at, permanent), next)
      requires Reaches(cfg, start, before, cluster) && OwnSteps(c, topic, before) && ReadsOnly(cluster, c, topic)
      modifies this
      ensures Reaches(cfg, start, trace, cluster) && OwnSteps(c, topic, trace) && ReadsOnly(cluster, c, topic)
      ensures trace != [] && (end == Some(Nil) <==> Buries(trace[|trace| - 1]))
      ensures var m := MessageAt(s, at);
              var released := Released(cfg, s, m.event, turn.releases);
              if Retries(cfg, m, permanent) then
                && end == EndOf(turn.requeue, QueueError)
                && cluster == Put(Queued(released, at, m, turn.requeue), c, PcOfEnd(end), next)
              else
                && end == BurialEnd(turn.bury)
                && cluster == Put(Buried(released, m.event, turn.bury), c, PcOfEnd(end), next)
    {
      hide Next, Reaches, RetryCopy, Enabled, OwnSteps, ReadsOnly, Put, Queued, Buried;
      var message := InHandOf(c);
      ReleasePut(cfg, s, c, at, next, permanent, turn.releases);
      trace := Act(c, topic, Release(c, turn.releases), start, before);
      ghost var released := Released(cfg, s, MessageAt(s, at).event, turn.releases);
      if !permanent && RetryAttempt(message.headers) < cfg.maxAttempts {
        RequeuePut(cfg, released, c, at, next, permanent, turn.requeue);
        trace := Act(c, topic, Requeue(c, turn.requeue), start, trace);
        return if turn.requeue.Written? then None else Some(QueueError), trace;
      }
      DeadLetterPut(cfg, released, c, at, next, permanent, turn.bury);
      trace := Act(c, topic, DeadLetter(c, turn.bury), start, trace);
      end := Some(if turn.bury.Written? then Nil else DeadLetterError);
    }

    /** What the loop does with a message it has claimed. */
    method AfterClaim(c: nat, ghost topic: seq<nat>, turn: Turn, ghost start: Cluster, ghost before: seq<Label>,
                      ghost s: Cluster, ghost at: Place, ghost next: map<nat, nat>)
      returns (end: Option<End>, ghost trace: seq<Label>)
      requires ValidPlace(s, at) && |s.committed| == |s.logs| && cluster == Put(s, c, Claimed(at), next)
      requires Reaches(cfg, start, before, cluster) && OwnSteps(c, topic, before) && ReadsOnly(cluster, c, topic)
      modifies this
      ensures Reaches(cfg, start, trace, cluster) && OwnSteps(c, topic, trace) && ReadsOnly(cluster, c, topic)
      ensures trace != [] && (end == Some(Nil) <==> Buries(trace[|trace| - 1]))
      ensures var done := AfterClaiming(cfg, s, at, MessageAt(s, at), turn);
              end == done.end && cluster == Put(done.cluster, c, PcOfEnd(end), next)
    {
      hide Next, Reaches, RetryCopy, Enabled, OwnSteps, Retries, ReadsOnly, Put, Queued, Buried, Passed, Released;
      if !InHandOf(c).unwraps {
        UnwrapFailsPut(cfg, s, c, at, next, turn.bury);
        trace := Act(c, topic, UnwrapFails(c, turn.bury), start, before);
        return Some(if turn.bury.Written? then Nil else DeadLetterError), trace;
      }
      HandlePut(cfg, s, c, at, next, turn.result);
      trace := Act(c, topic, Handle(c, turn.result), start, before);
      if !turn.result.Fine? {
        end, trace := AfterFailure(c, topic, turn, start, trace, s, at, next, turn.result.Permanent?);
        return;
      }
      ghost var handled :=
        s.(outcomes := s.outcomes[at := Succeeded], successes := s.successes + multiset{MessageAt(s, at).event});
      CommitPut(cfg, handled, c, at, next, turn.commit);
      trace := Act(c, topic, Commit(c, turn.commit), start, trace);
      end := if turn.commit.Written? then None else Some(CommitError);
    }

    /** The loop body for a message that can be fetched: None goes round again, Some returns. */
    method OneTurn(c: nat, ghost topic: seq<nat>, turn: Turn, ghost start: Cluster, ghost before: seq<Label>)
      returns (end: Option<End>, ghost trace: seq<Label>)
      requires Enabled(cfg, cluster, Fetch(c, turn.partition)) && |cluster.committed| == |cluster.logs|
      requires Reaches(cfg, start, before, cluster) && OwnSteps(c, topic, before) && ReadsOnly(cluster, c, topic)
      modifies this
      ensures Reaches(cfg, start, trace, cluster) && OwnSteps(c, topic, trace) && ReadsOnly(cluster, c, topic)
      ensures trace != [] && (end == Some(Nil) <==> Buries(trace[|trace| - 1]))
      ensures Done(cluster, end) == AfterTurn(cfg, old(cluster), c, turn)
    {
      hide Next, Reaches, RetryCopy, OwnSteps, Retries, ReadsOnly, Put, AfterClaiming, WithClaim;
      ghost var s, p := cluster, turn.partition;
      ghost var at, next := Place(p, s.consumers[c].next[p]), s.consumers[c].next[p := s.consumers[c].next[p] + 1];
      FetchReadsTopic(cfg, cluster, c, p, topic);
      FetchPut(cfg, cluster, c, p);
      hide Enabled;
      trace := Act(c, topic, Fetch(c, turn.partition), start, before);
      if cfg.hasDb && !turn.claim.Written? {
        ClaimFailsPut(cfg, s, c, at, next, turn.claim.Unconfirmed?);
        trace := Act(c, topic, ClaimFails(c, turn.claim.Unconfirmed?), start, trace);
        return Some(ClaimError), trace;
      }
      ClaimPut(cfg, s, c, at, next);
      trace := Act(c, topic, Claim(c), start, trace);
      if PcOf(cluster, c).Idle? {
        return None, trace;  // claimed before
      }
      end, trace := AfterClaim(c, topic, turn, start, trace, WithClaim(cfg, s, MessageAt(s, at).event), at, next);
    }

    /**
      Fetches, claims, handles and commits one message after the other, until a turn returns or a
      fetch fails. The loop takes only steps the cluster allows a consumer at that point, so every
      property of runs holds of it; it ends stopped, never by dying; and it returns nil exactly when
      it has dead-lettered a message.
     */
    method RunPullConsumer(c: nat, partitions: seq<nat>, turns: seq<Turn>) returns (end: End, ghost trace: seq<Label>)
      requires PcOf(cluster, c).Stopped? && |cluster.committed| == |cluster.logs|
      requires forall i :: 0 <= i < |partitions| ==> partitions[i] < |cluster.committed|
      modifies this
      ensures Reaches(cfg, old(cluster), trace, cluster) && OwnSteps(c, partitions, trace)
      ensures PcOf(cluster, c).Stopped? && |cluster.committed| == |cluster.logs| == old(|cluster.logs|)
      ensures trace != [] && (end == Nil <==> Buries(trace[|trace| - 1]))
      ensures Done(cluster, Some(end))
              == AfterTurns(cfg, Put(old(cluster), c, Idle, Positions(old(cluster), partitions)), c, turns)
    {
      hide Next, Reaches, RetryCopy, AfterTurn, Enabled;
      ghost var start, topic := cluster, partitions;
      trace := [];
      assert Reaches(cfg, start, trace, cluster) by { StandsAtStart(cfg, cluster); }
      StartPut(cfg, cluster, c);
      trace := Act(c, topic, Start(c), start, trace);
      for i := 0 to |partitions|
        invariant Reaches(cfg, start, trace, cluster) && OwnSteps(c, topic, trace) && ReadsOnly(cluster, c, topic)
        invariant cluster == Put(start, c, Idle, Positions(start, partitions[..i]))
      {
        assert partitions[i] in partitions && partitions[..i + 1][..i] == partitions[..i];
        AssignPut(cfg, start, c, Positions(start, partitions[..i]), partitions[i]);
        trace := Act(c, topic, Assign(c, partitions[i]), start, trace);
      }
      assert partitions[..|partitions|] == partitions;
      ghost var ready := cluster;
      for i := 0 to |turns|
        invariant Reaches(cfg, start, trace, cluster) && OwnSteps(c, topic, trace) && ReadsOnly(cluster, c, topic)
        invariant PcOf(cluster, c).Idle? && |cluster.committed| == |cluster.logs| == |start.committed|
        invariant AfterTurns(cfg, ready, c, turns) == AfterTurns(cfg, cluster, c, turns[i..])
      {
        if !Enabled(cfg, cluster, Fetch(c, turns[i].partition)) {
          break;
        }
        TurnKeepsShape(cfg, cluster, c, turns[i]);
        TurnLeaves(cfg, cluster, c, turns[i]);
        var returned;
        returned, trace := OneTurn(c, topic, turns[i], start, trace);
        assert turns[i..][1..] == turns[i + 1..];
        if returned.Some? {
          return returned.value, trace;
        }
      }
      FetchFailsPut(cfg, cluster, c);
      trace := Act(c, topic, FetchFails(c), start, trace);
      end := FetchError;
    }

    /**
      The registration subscriber: the consumer of its delete topic starts exactly when that of its
      create topic has returned nil, that is, has dead-lettered a create command; no delete command
      is fetched before.
     */
    method Subscribe(c: nat, creates: seq<nat>, deletes: seq<nat>, turns: seq<Turn>, deleteTurns: seq<Turn>)
      returns (end: End, ghost trace: seq<Label>, ghost deleteTrace: seq<Label>)
      requires PcOf(cluster, c).Stopped? && |cluster.committed| == |cluster.logs|
      requires forall i :: 0 <= i < |creates| ==> creates[i] < |cluster.committed|
      requires forall i :: 0 <= i < |deletes| ==> deletes[i] < |cluster.committed|
      requires forall p :: p in creates ==> p !in deletes
      modifies this
      ensures Reaches(cfg, old(cluster), trace + deleteTrace, cluster)
      ensures OwnSteps(c, creates, trace) && OwnSteps(c, deletes, deleteTrace)
      ensures forall i :: 0 <= i < |trace| && (trace[i].Fetch? || trace[i].Assign?) ==> trace[i].partition !in deletes
      ensures trace != [] && (deleteTrace != [] <==> Buries(trace[|trace| - 1]))
      ensures var first := AfterTurns(cfg, Put(old(cluster), c, Idle, Positions(old(cluster), creates)), c, turns);
              Done(cluster, Some(end))
              == if first.end != Some(Nil) then first
                 else Restarted(cfg, first.cluster, c, deletes, deleteTurns)
    {
      hide Next, Reaches, AfterTurns, Positions;
      deleteTrace := [];
      end, trace := RunPullConsumer(c, creates, turns);
      if end != Nil {
        assert trace + deleteTrace == trace;
        return;
      }
      ghost var between := cluster;
      end, deleteTrace := RunPullConsumer(c, deletes, deleteTurns);
      ReachesThen(cfg, old(cluster), trace, between, deleteTrace, cluster);
    }
  }
}
