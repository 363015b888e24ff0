/** How long a message can go on being retried. */
module KafkaRetries {
  import opened Wrappers
  import opened Text
  import opened KafkaConsumer

  // ---- what the retry queue holds ----

  /** A retry copy is read back as what it was made from. */
  lemma RetryCopyTells(m: Message, n: nat, other: Message, k: nat)
    requires RetryCopy(m, n) == RetryCopy(other, k)
    ensures m == other && n == k
  {
    var a, b := RetryCopy(m, n).headers, RetryCopy(other, k).headers;
    assert a[0] == b[0] && a[1..] == m.headers && b[1..] == other.headers;
    assert Value(Itoa(n)) == Value(Itoa(k));
  }

  predicate RetryOf(cfg: Config, m: Message, original: Message) {
    Attempts(original) < cfg.maxAttempts && m == RetryCopy(original, Attempts(original) + 1)
  }

  /** Everything ever enqueued is the next attempt of a message that had attempts left. */
  ghost predicate QueueInv(cfg: Config, s: Cluster) {
    forall m :: m in s.enqueued ==> exists original :: RetryOf(cfg, m, original)
  }

  lemma StepKeepsQueueInv(cfg: Config, s: Cluster, l: Label)
    requires Enabled(cfg, s, l) && QueueInv(cfg, s)
    ensures QueueInv(cfg, Next(cfg, s, l))
  {
    hide RetryCopy;
    if l.Requeue? {
      var original := MessageAt(s, PcOf(s, l.c).at);
      assert RetryOf(cfg, RetryCopy(original, Attempts(original) + 1), original);
    }
  }

  lemma EmptyQueue(cfg: Config, s: Cluster)
    requires Initial(s)
    ensures QueueInv(cfg, s)
  {
  }

  lemma {:induction false} QueueInvAlways(cfg: Config, states: seq<Cluster>, labels: seq<Label>, n: nat)
    requires IsRun(cfg, states, labels) && n <= |labels|
    ensures QueueInv(cfg, states[n])
  {
    hide Enabled, Next, QueueInv;
    if n == 0 {
      EmptyQueue(cfg, states[0]);
    } else {
      QueueInvAlways(cfg, states, labels, n - 1);
      assert Steps(cfg, states[n - 1], labels[n - 1], states[n]);
      StepKeepsQueueInv(cfg, states[n - 1], labels[n - 1]);
    }
  }

  lemma EnqueuedCounts(cfg: Config, s: Cluster, m: Message)
    requires QueueInv(cfg, s) && cfg.maxAttempts <= INT_MAX && RetryCopy(m, Attempts(m) + 1) in s.enqueued
    ensures Attempts(m) < cfg.maxAttempts && Attempts(RetryCopy(m, Attempts(m) + 1)) == Attempts(m) + 1
  {
    var copy := RetryCopy(m, Attempts(m) + 1);
    var original :| RetryOf(cfg, copy, original);
    RetryCopyTells(m, Attempts(m) + 1, original, Attempts(original) + 1);
    RetryCopyCounts(m, Attempts(m) + 1);
  }

  // ---- a failure is settled one way or the other ----

  /** The consumer is between the failure of its handler at a place and the retry or the dead letter. */
  predicate Failing(s: Cluster, c: nat, at: Place, permanent: bool) {
    PcOf(s, c) == Failed(at, permanent) || PcOf(s, c) == Unsettled(at, permanent)
  }

  lemma HandlerFails(cfg: Config, s: Cluster, c: nat, result: HandlerResult)
    requires Enabled(cfg, s, Handle(c, result)) && !result.Fine?
    ensures ValidPlace(s, PcOf(s, c).at)
    ensures Failing(Next(cfg, s, Handle(c, result)), c, PcOf(s, c).at, result.Permanent?)
    ensures Next(cfg, s, Handle(c, result)).logs == s.logs
  {
  }

  lemma FailingSettles(cfg: Config, s: Cluster, l: Label, c: nat, at: Place, permanent: bool)
    requires Enabled(cfg, s, l) && Failing(s, c, at, permanent) && ValidPlace(s, at)
    ensures Actor(l) != Some(c) || l.Assign? || l.Release? ==> Failing(Next(cfg, s, l), c, at, permanent)
    ensures Actor(l) == Some(c) && !l.Assign? && !l.Release? && !l.Crash? ==>
              if permanent || RetryAttempt(MessageAt(s, at).headers) >= cfg.maxAttempts then l.DeadLetter?
              else l.Requeue?
  {
    hide RetryCopy;
    StandsStill(cfg, s, l, c);
  }

  lemma {:induction false} FailsUntil(cfg: Config, states: seq<Cluster>, labels: seq<Label>, i: nat, k: nat, c: nat,
                                      at: Place, result: HandlerResult)
    requires IsRun(cfg, states, labels) && i < k <= |labels| && labels[i] == Handle(c, result) && !result.Fine?
    requires InHand(PcOf(states[i], c)) == Some(at)
    requires forall j :: i < j < k && Actor(labels[j]) == Some(c) ==> labels[j].Assign? || labels[j].Release?
    ensures ValidPlace(states[i], at) && ValidPlace(states[k], at)
    ensures MessageAt(states[k], at) == MessageAt(states[i], at)
    ensures Failing(states[k], c, at, result.Permanent?)
    decreases k
  {
    hide Enabled, Next, Failing;
    var j := k - 1;
    assert Steps(cfg, states[j], labels[j], states[k]);
    StandsStill(cfg, states[j], labels[j], c);
    if i == j {
      HandlerFails(cfg, states[i], c, result);
    } else {
      FailsUntil(cfg, states, labels, i, j, c, at, result);
      FailingSettles(cfg, states[j], labels[j], c, at, result.Permanent?);
    }
  }

  /**
    Over any run: after a handler has failed, the next thing its consumer does, but for releasing
    the claim and being assigned partitions, is to die, or to dead-letter the message if the failure
    is permanent or no attempt is left, and to enqueue a retry otherwise.
   */
  lemma FailureIsSettled(cfg: Config, states: seq<Cluster>, labels: seq<Label>, i: nat, k: nat, c: nat, at: Place,
                         result: HandlerResult)
    requires IsRun(cfg, states, labels) && i < k < |labels| && labels[i] == Handle(c, result) && !result.Fine?
    requires InHand(PcOf(states[i], c)) == Some(at)
    requires forall j :: i < j < k && Actor(labels[j]) == Some(c) ==> labels[j].Assign? || labels[j].Release?
    requires Actor(labels[k]) == Some(c) && !labels[k].Assign? && !labels[k].Release? && !labels[k].Crash?
    ensures ValidPlace(states[i], at)
    ensures labels[k].DeadLetter? <==>
              result.Permanent? || RetryAttempt(MessageAt(states[i], at).headers) >= cfg.maxAttempts
    ensures labels[k].Requeue? <==>
              result.Transient? && RetryAttempt(MessageAt(states[i], at).headers) < cfg.maxAttempts
  {
    hide Enabled, Next, Failing;
    FailsUntil(cfg, states, labels, i, k, c, at, result);
    assert Steps(cfg, states[k], labels[k], states[k + 1]);
    FailingSettles(cfg, states[k], labels[k], c, at, result.Permanent?);
  }

  // ---- a chain of retries ends ----

  function InHandMessage(s: Cluster, c: nat): Option<Message> {
    var at := InHand(PcOf(s, c));
    if at.Some? && ValidPlace(s, at.value) then Some(MessageAt(s, at.value)) else None
  }

  /** Step i of the run has the handler run on the message. */
  predicate RunsOn(states: seq<Cluster>, labels: seq<Label>, i: nat, m: Message) {
    i < |labels| && i < |states| && labels[i].Handle? && InHandMessage(states[i], labels[i].c) == Some(m)
  }

  /** The message is the retry enqueued, by step i of the run, for the one before. */
  predicate Succeeds(states: seq<Cluster>, i: nat, m: Message, next: Message) {
    i < |states| && next == RetryCopy(m, Attempts(m) + 1) && next in states[i].enqueued
  }

  /** Handler runs at growing steps of a run, each on the retry enqueued for the message of the one before. */
  ghost predicate IsChain(states: seq<Cluster>, labels: seq<Label>, steps: seq<nat>, messages: seq<Message>) {
    && |steps| == |messages| > 0
    && (forall j :: 0 <= j < |steps| ==> RunsOn(states, labels, steps[j], messages[j]))
    && (forall j :: 0 < j < |steps| ==>
          steps[j - 1] < steps[j] && Succeeds(states, steps[j], messages[j - 1], messages[j]))
  }

  /** How often the handler can run for a message that starts with the given attempt number. */
  function MaxRuns(cfg: Config, start: int): int {
    if start > cfg.maxAttempts then 1 else cfg.maxAttempts - start + 1
  }

  lemma {:induction false} AttemptsRise(cfg: Config, states: seq<Cluster>, labels: seq<Label>, steps: seq<nat>,
                                        messages: seq<Message>, j: nat)
    requires IsRun(cfg, states, labels) && cfg.maxAttempts <= INT_MAX && IsChain(states, labels, steps, messages)
    requires j < |messages|
    ensures Attempts(messages[j]) == Attempts(messages[0]) + j && (j > 0 ==> Attempts(messages[j]) <= cfg.maxAttempts)
  {
    hide Enabled, Next;
    if j > 0 {
      AttemptsRise(cfg, states, labels, steps, messages, j - 1);
      assert Succeeds(states, steps[j], messages[j - 1], messages[j]) && RunsOn(states, labels, steps[j], messages[j]);
      QueueInvAlways(cfg, states, labels, steps[j]);
      EnqueuedCounts(cfg, states[steps[j]], messages[j - 1]);
    }
  }

  /** A failure that is permanent is never retried, and one that is passing exactly while attempts are left. */
  lemma SettlingIff(cfg: Config, s: Cluster, c: nat, w: Write, m: Message)
    requires PcOf(s, c).Unsettled? && InHandMessage(s, c) == Some(m)
    ensures Enabled(cfg, s, Requeue(c, w)) <==> !PcOf(s, c).permanent && RetryAttempt(m.headers) < cfg.maxAttempts
    ensures Enabled(cfg, s, DeadLetter(c, w)) <==> PcOf(s, c).permanent || RetryAttempt(m.headers) >= cfg.maxAttempts
  {
  }

  /** A consumer whose handler has failed on the message, not for good, and has released the claim. */
  predicate SettlesFailure(s: Cluster, c: nat, m: Message) {
    PcOf(s, c).Unsettled? && !PcOf(s, c).permanent && InHandMessage(s, c) == Some(m)
  }

  lemma RetryOrDeadLetter(cfg: Config, s: Cluster, c: nat, w: Write, m: Message)
    requires SettlesFailure(s, c, m)
    ensures Enabled(cfg, s, Requeue(c, w)) <==> Attempts(m) < cfg.maxAttempts
    ensures Enabled(cfg, s, DeadLetter(c, w)) <==> Attempts(m) >= cfg.maxAttempts
    ensures forall l :: Enabled(cfg, s, l) && Actor(l) == Some(c) ==>
          l.Requeue? || l.DeadLetter? || l.Crash? || l.Assign?
  {
  }

  /**
    Over any run of the cluster, a chain of handler runs on a message and its retries ends: the
    attempt number rises by one from each run to the next, there are at most `MaxRuns` of them, and
    a failure of the last of those can only be dead-lettered, one of any earlier only be retried.
   */
  lemma ChainEnds(cfg: Config, states: seq<Cluster>, labels: seq<Label>, steps: seq<nat>, messages: seq<Message>)
    requires IsRun(cfg, states, labels) && cfg.maxAttempts <= INT_MAX && IsChain(states, labels, steps, messages)
    ensures |steps| <= MaxRuns(cfg, Attempts(messages[0]))
    ensures forall j :: 0 <= j < |steps| ==> Attempts(messages[j]) == Attempts(messages[0]) + j
    ensures forall s, c: nat, w :: SettlesFailure(s, c, messages[|steps| - 1]) ==>
              && (Enabled(cfg, s, Requeue(c, w)) <==> |steps| < MaxRuns(cfg, Attempts(messages[0])))
              && (Enabled(cfg, s, DeadLetter(c, w)) <==> |steps| == MaxRuns(cfg, Attempts(messages[0])))
    ensures forall s, c: nat, l ::
          SettlesFailure(s, c, messages[|steps| - 1]) && Enabled(cfg, s, l) && Actor(l) == Some(c) ==>
              l.Requeue? || l.DeadLetter? || l.Crash? || l.Assign?
  {
    var last := |steps| - 1;
    forall j | 0 <= j < |steps| ensures Attempts(messages[j]) == Attempts(messages[0]) + j {
      AttemptsRise(cfg, states, labels, steps, messages, j);
    }
    AttemptsRise(cfg, states, labels, steps, messages, last);
    forall s, c: nat, w | SettlesFailure(s, c, messages[last])
      ensures Enabled(cfg, s, Requeue(c, w)) <==> |steps| < MaxRuns(cfg, Attempts(messages[0]))
      ensures Enabled(cfg, s, DeadLetter(c, w)) <==> |steps| == MaxRuns(cfg, Attempts(messages[0]))
    {
      RetryOrDeadLetter(cfg, s, c, w, messages[last]);
    }
    forall s, c: nat, l | SettlesFailure(s, c, messages[last]) && Enabled(cfg, s, l) && Actor(l) == Some(c)
      ensures l.Requeue? || l.DeadLetter? || l.Crash? || l.Assign?
    {
      RetryOrDeadLetter(cfg, s, c, Written, messages[last]);
    }
  }
}
