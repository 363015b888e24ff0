/**
  The pull consumer over NATS: one fetcher and a fixed number of workers share a bounded channel, a
  wait group and a cancellable context. Every interleaving is a run of the steps below.
 */
module NatsRuntime {
  import opened Wrappers

  datatype Message = Message(subject: string, data: string)

  datatype Settings = Settings(workers: nat, queueSize: nat)

  /** The validator accepts positive sizes only. */
  type Config = c: Settings | c.workers > 0 && c.queueSize > 0 witness Settings(1, 1)

  /** The fetcher goroutine. `Draining` waits for the wait group, `Closing` is about to close the channel. */
  datatype Fetcher =
    | NotStarted
    | Checking
    | Fetching(batch: nat)
    | Dispatching(rest: seq<Message>)
    | Draining
    | Closing
    | Closed

  /** A worker goroutine; `i` is the position of its message among all messages started. */
  datatype Worker = Selecting | Handling(i: nat) | Acking(i: nat) | Naking(i: nat) | Exited

  datatype Settlement = Ack | Nak

  datatype State = State(
    cancelled: bool,
    queue: seq<Message>,
    closed: bool,
    pending: int,                     // the wait group's counter
    fetcher: Fetcher,
    workers: seq<Worker>,
    panicked: bool,                   // a send on, or a second close of, the closed channel
    sawClosed: bool,                  // a worker received ok == false
    fetched: seq<Message>,
    started: seq<Message>,
    dropped: seq<Message>,            // fetched, but given up at cancellation
    outcomes: map<nat, bool>,         // handler results, true for nil
    settled: map<nat, Settlement>)

  datatype Label =
    | Cancel
    | Spawn
    | Launch
    | SeesDone
    | Poll(batch: nat)
    | FetchFails
    | FetchReturns(messages: seq<Message>)
    | Send
    | GiveUp
    | BatchDone
    | WaitOver
    | CloseJobs
    | Leave(w: nat)
    | Receive(w: nat)
    | ReceiveClosed(w: nat)
    | HandlerReturns(w: nat, ok: bool)
    | Settle(w: nat)

  predicate At(s: State, w: nat, pc: Worker) {
    w < |s.workers| && s.workers[w] == pc
  }

  predicate Enabled(cfg: Config, s: State, l: Label) {
    match l
    case Cancel => !s.cancelled
    case Spawn => s.fetcher.NotStarted? && |s.workers| < cfg.workers
    case Launch => s.fetcher.NotStarted? && |s.workers| >= cfg.workers
    case SeesDone => s.fetcher.Checking? && s.cancelled
    case Poll(_) => s.fetcher.Checking? && !s.cancelled
    case FetchFails => s.fetcher.Fetching?
    case FetchReturns(messages) => s.fetcher.Fetching? && |messages| <= s.fetcher.batch
    case Send => s.fetcher.Dispatching? && s.fetcher.rest != [] && |s.queue| < cfg.queueSize
    case GiveUp => s.fetcher.Dispatching? && s.fetcher.rest != [] && s.cancelled
    case BatchDone => s.fetcher.Dispatching? && s.fetcher.rest == []
    case WaitOver => s.fetcher.Draining? && s.pending == 0
    case CloseJobs => s.fetcher.Closing?
    case Leave(w) => At(s, w, Selecting) && s.cancelled
    case Receive(w) => At(s, w, Selecting) && s.queue != []
    case ReceiveClosed(w) => At(s, w, Selecting) && s.queue == [] && s.closed
    case HandlerReturns(w, _) => w < |s.workers| && s.workers[w].Handling?
    case Settle(w) => w < |s.workers| && (s.workers[w].Acking? || s.workers[w].Naking?)
  }

  function Move(s: State, w: nat, pc: Worker): State
    requires w < |s.workers|
  {
    s.(workers := s.workers[w := pc])
  }

  function Next(cfg: Config, s: State, l: Label): State
    requires Enabled(cfg, s, l)
  {
    match l
    case Cancel => s.(cancelled := true)
    case Spawn => s.(pending := s.pending + 1, workers := s.workers + [Selecting])
    case Launch => s.(fetcher := Checking)
    case SeesDone => s.(fetcher := Draining)
    case Poll(batch) => s.(fetcher := Fetching(batch))
    case FetchFails => s.(fetcher := Checking)
    case FetchReturns(messages) => s.(fetcher := Dispatching(messages), fetched := s.fetched + messages)
    case Send =>
      if s.closed then s.(panicked := true)
      else s.(queue := s.queue + [s.fetcher.rest[0]], fetcher := Dispatching(s.fetcher.rest[1..]))
    case GiveUp => s.(fetcher := Draining, dropped := s.dropped + s.fetcher.rest)
    case BatchDone => s.(fetcher := Checking)
    case WaitOver => s.(fetcher := Closing)
    case CloseJobs => if s.closed then s.(panicked := true) else s.(closed := true, fetcher := Closed)
    case Leave(w) => Move(s, w, Exited).(pending := s.pending - 1)
    case Receive(w) => Move(s, w, Handling(|s.started|)).(queue := s.queue[1..], started := s.started + [s.queue[0]])
    case ReceiveClosed(w) => Move(s, w, Exited).(pending := s.pending - 1, sawClosed := true)
    case HandlerReturns(w, ok) =>
      var i := s.workers[w].i;
      Move(s, w, if ok then Acking(i) else Naking(i)).(outcomes := s.outcomes[i := ok])
    case Settle(w) =>
      // an error of the acknowledgement itself is only logged
      var pc := s.workers[w];
      Move(s, w, Selecting).(settled := s.settled[pc.i := if pc.Acking? then Ack else Nak])
  }

  const INITIAL := State(false, [], false, 0, NotStarted, [], false, false, [], [], [], map[], map[])

  predicate Steps(cfg: Config, s: State, l: Label, t: State) {
    Enabled(cfg, s, l) && t == Next(cfg, s, l)
  }

  predicate IsRun(cfg: Config, states: seq<State>, labels: seq<Label>) {
    && |states| == |labels| + 1 && states[0] == INITIAL
    && forall i :: 0 <= i < |labels| ==> Steps(cfg, states[i], labels[i], states[i + 1])
  }

  // ---- sums over workers ----

  function Sum(ws: seq<Worker>, f: Worker -> nat): nat {
    if ws == [] then 0 else f(ws[0]) + Sum(ws[1..], f)
  }

  lemma {:induction false} SumUpdate(ws: seq<Worker>, f: Worker -> nat, w: nat, pc: Worker)
    requires w < |ws|
    ensures Sum(ws[w := pc], f) + f(ws[w]) == Sum(ws, f) + f(pc)
  {
    var after := ws[w := pc];
    if w == 0 {
      assert after[1..] == ws[1..];
    } else {
      assert after[1..] == ws[1..][w - 1 := pc];
      SumUpdate(ws[1..], f, w - 1, pc);
    }
  }

  lemma {:induction false} SumAppend(ws: seq<Worker>, f: Worker -> nat, pc: Worker)
    ensures Sum(ws + [pc], f) == Sum(ws, f) + f(pc)
  {
    if ws == [] {
      assert ws + [pc] == [pc];
    } else {
      assert (ws + [pc])[1..] == ws[1..] + [pc];
      SumAppend(ws[1..], f, pc);
    }
  }

  lemma {:induction false} SumHasPart(ws: seq<Worker>, f: Worker -> nat, w: nat)
    requires w < |ws|
    ensures f(ws[w]) <= Sum(ws, f)
  {
    if w > 0 { SumHasPart(ws[1..], f, w - 1); }
  }

  lemma {:induction false} SumFromPart(ws: seq<Worker>, f: Worker -> nat)
    ensures Sum(ws, f) > 0 ==> exists w: nat :: w < |ws| && f(ws[w]) > 0
  {
    if ws != [] && f(ws[0]) == 0 {
      SumFromPart(ws[1..], f);
      if w: nat :| w < |ws[1..]| && f(ws[1..][w]) > 0 { assert f(ws[w + 1]) > 0; }
    }
  }

  function Alive(pc: Worker): nat {
    if pc.Exited? then 0 else 1
  }

  // ---- the channel is closed last ----

  predicate Stopping(f: Fetcher) {
    f.Draining? || f.Closing? || f.Closed?
  }

  ghost predicate ChannelInv(cfg: Config, s: State) {
    && |s.workers| <= cfg.workers && (!s.fetcher.NotStarted? ==> |s.workers| == cfg.workers)
    && s.pending == Sum(s.workers, Alive)
    && (Stopping(s.fetcher) ==> s.cancelled)
    && (s.fetcher.Closing? || s.fetcher.Closed? ==> s.pending == 0)
    && (s.closed <==> s.fetcher.Closed?)
    && (forall w :: 0 <= w < |s.workers| && s.workers[w].Exited? ==> s.cancelled)
    && !s.panicked && !s.sawClosed
  }

  lemma NobodyLeft(cfg: Config, s: State, w: nat)
    requires ChannelInv(cfg, s) && s.pending == 0 && w < |s.workers|
    ensures s.workers[w].Exited?
  {
    SumHasPart(s.workers, Alive, w);
  }

  /** The worker a step moves. */
  function MovedWorker(l: Label): Option<nat> {
    match l
    case Leave(w) => Some(w)
    case Receive(w) => Some(w)
    case ReceiveClosed(w) => Some(w)
    case HandlerReturns(w, _) => Some(w)
    case Settle(w) => Some(w)
    case _ => None
  }

  /** What a step does to the workers. */
  lemma WorkersAfter(cfg: Config, s: State, l: Label)
    requires Enabled(cfg, s, l)
    ensures var t := Next(cfg, s, l);
            match MovedWorker(l)
            case Some(w) => w < |s.workers| == |t.workers| && t.workers == s.workers[w := t.workers[w]]
            case None => t.workers == if l.Spawn? then s.workers + [Selecting] else s.workers
  {
  }

  /** Steps that are the fetcher's own, or start it. */
  predicate MovesFetcher(l: Label) {
    MovedWorker(l).None? && !l.Cancel? && !l.Spawn?
  }

  lemma FetcherAfter(cfg: Config, s: State, l: Label)
    requires Enabled(cfg, s, l) && !MovesFetcher(l)
    ensures var t := Next(cfg, s, l); t.fetcher == s.fetcher && t.fetched == s.fetched && t.dropped == s.dropped
  {
  }

  lemma StepCounts(cfg: Config, s: State, l: Label, f: Worker -> nat)
    requires Enabled(cfg, s, l)
    ensures var t, w := Next(cfg, s, l), MovedWorker(l);
            if w.Some? then w.value < |s.workers| == |t.workers|
                && Sum(t.workers, f) + f(s.workers[w.value]) == Sum(s.workers, f) + f(t.workers[w.value])
            else if l.Spawn? then Sum(t.workers, f) == Sum(s.workers, f) + f(Selecting)
            else t.workers == s.workers
  {
    hide Sum, Enabled, Next;
    WorkersAfter(cfg, s, l);
    if MovedWorker(l).Some? {
      var w := MovedWorker(l).value;
      SumUpdate(s.workers, f, w, Next(cfg, s, l).workers[w]);
    } else if l.Spawn? {
      SumAppend(s.workers, f, Selecting);
    }
  }

  lemma StepKeepsChannelInv(cfg: Config, s: State, l: Label)
    requires Enabled(cfg, s, l) && ChannelInv(cfg, s)
    ensures ChannelInv(cfg, Next(cfg, s, l))
  {
    hide Sum;
    StepCounts(cfg, s, l, Alive);
    if MovedWorker(l).Some? && s.pending == 0 {
      NobodyLeft(cfg, s, MovedWorker(l).value);
    }
  }

  lemma {:induction false} ChannelInvAlways(cfg: Config, states: seq<State>, labels: seq<Label>, n: nat)
    requires IsRun(cfg, states, labels) && n <= |labels|
    ensures ChannelInv(cfg, states[n])
  {
    hide Enabled, Next;
    if n > 0 {
      ChannelInvAlways(cfg, states, labels, n - 1);
      assert Steps(cfg, states[n - 1], labels[n - 1], states[n]);
      StepKeepsChannelInv(cfg, states[n - 1], labels[n - 1]);
    }
  }

  /**
    In every interleaving the channel is closed only after cancellation, when the fetch loop and
    every worker have left; nothing is sent on it afterwards, it is not closed twice, and no worker
    ever receives from the closed channel.
   */
  lemma ChannelIsClosedLast(cfg: Config, states: seq<State>, labels: seq<Label>, n: nat)
    requires IsRun(cfg, states, labels) && n <= |labels|
    ensures var s := states[n];
            && !s.panicked && !s.sawClosed
            && (s.closed ==> s.cancelled && s.fetcher.Closed? && |s.workers| == cfg.workers)
            && (s.closed ==> forall w :: 0 <= w < |s.workers| ==> s.workers[w].Exited?)
  {
    ChannelInvAlways(cfg, states, labels, n);
    var s := states[n];
    if s.closed {
      forall w | 0 <= w < |s.workers| ensures s.workers[w].Exited? { NobodyLeft(cfg, s, w); }
    }
  }

  // ---- order and conservation ----

  function Rest(f: Fetcher): seq<Message> {
    if f.Dispatching? then f.rest else []
  }

  ghost predicate OrderInv(cfg: Config, s: State) {
    && s.started + s.queue + Rest(s.fetcher) + s.dropped == s.fetched
    && |s.queue| <= cfg.queueSize
    && (s.dropped != [] ==> Stopping(s.fetcher))
  }

  /** A message moves from the front of one queue to the back of the one before it. */
  lemma MoveUp(before: seq<Message>, queue: seq<Message>)
    requires queue != []
    ensures before + [queue[0]] + queue[1..] == before + queue
  {
  }

  lemma SendKeepsOrder(cfg: Config, s: State)
    requires Enabled(cfg, s, Send) && OrderInv(cfg, s) && !s.closed
    ensures OrderInv(cfg, Next(cfg, s, Send))
  {
    var x := s.fetcher.rest[0];
    MoveUp(s.started + s.queue, s.fetcher.rest);
    assert s.started + (s.queue + [x]) == s.started + s.queue + [x];
  }

  lemma ReceiveKeepsOrder(cfg: Config, s: State, w: nat)
    requires Enabled(cfg, s, Receive(w)) && OrderInv(cfg, s)
    ensures OrderInv(cfg, Next(cfg, s, Receive(w)))
  {
    MoveUp(s.started, s.queue);
  }

  lemma StepKeepsOrderInv(cfg: Config, s: State, l: Label)
    requires Enabled(cfg, s, l) && OrderInv(cfg, s) && ChannelInv(cfg, s)
    ensures OrderInv(cfg, Next(cfg, s, l))
  {
    hide Sum;
    if l.Receive? {
      ReceiveKeepsOrder(cfg, s, l.w);
    } else if l.Send? {
      SendKeepsOrder(cfg, s);
    } else if l.FetchReturns? {
      assert s.started + s.queue + [] + [] == s.started + s.queue;
    } else if l.GiveUp? {
      assert s.dropped == [];
    }
  }

  lemma {:induction false} OrderInvAlways(cfg: Config, states: seq<State>, labels: seq<Label>, n: nat)
    requires IsRun(cfg, states, labels) && n <= |labels|
    ensures OrderInv(cfg, states[n])
  {
    hide Enabled, Next, ChannelInv;
    if n > 0 {
      OrderInvAlways(cfg, states, labels, n - 1);
      ChannelInvAlways(cfg, states, labels, n - 1);
      assert Steps(cfg, states[n - 1], labels[n - 1], states[n]);
      StepKeepsOrderInv(cfg, states[n - 1], labels[n - 1]);
    }
  }

  /**
    The messages workers have started, then the channel, then the part of the batch not dispatched
    yet, are everything fetched, in fetch order; the channel never holds more than its size. Before
    cancellation nothing is dropped, and what is dropped then is the tail of the last batch.
   */
  lemma FetchOrderIsKept(cfg: Config, states: seq<State>, labels: seq<Label>, n: nat)
    requires IsRun(cfg, states, labels) && n <= |labels|
    ensures var s := states[n];
            && s.started + s.queue + Rest(s.fetcher) + s.dropped == s.fetched && |s.queue| <= cfg.queueSize
            && (!s.cancelled ==> s.dropped == [])
            && (s.dropped != [] ==> Rest(s.fetcher) == [])
  {
    OrderInvAlways(cfg, states, labels, n);
    ChannelInvAlways(cfg, states, labels, n);
  }

  // ---- every started message is settled once, according to its handler ----

  function Held(pc: Worker): Option<nat> {
    if pc.Selecting? || pc.Exited? then None else Some(pc.i)
  }

  predicate HeldBy(s: State, w: nat, i: nat) {
    w < |s.workers| && Held(s.workers[w]) == Some(i)
  }

  predicate WorkerSound(s: State, pc: Worker) {
    match pc
    case Handling(i) => i < |s.started| && i !in s.outcomes && i !in s.settled
    case Acking(i) => i < |s.started| && i in s.outcomes && s.outcomes[i] && i !in s.settled
    case Naking(i) => i < |s.started| && i in s.outcomes && !s.outcomes[i] && i !in s.settled
    case _ => true
  }

  ghost predicate SettleInv(s: State) {
    && (forall w :: 0 <= w < |s.workers| ==> WorkerSound(s, s.workers[w]))
    && (forall v, w, i :: HeldBy(s, v, i) && HeldBy(s, w, i) ==> v == w)
    && (forall i :: i in s.outcomes ==> i < |s.started|)
    && (forall i :: i in s.settled ==> i in s.outcomes && (s.settled[i].Ack? <==> s.outcomes[i]))
    && (forall i :: 0 <= i < |s.started| && i !in s.settled ==> exists w: nat :: HeldBy(s, w, i))
  }

  lemma MovedWorkerStaysSound(cfg: Config, s: State, l: Label, w: nat)
    requires Enabled(cfg, s, l) && SettleInv(s) && MovedWorker(l) == Some(w)
    ensures w < |s.workers| == |Next(cfg, s, l).workers| && WorkerSound(Next(cfg, s, l), Next(cfg, s, l).workers[w])
  {
    assert WorkerSound(s, s.workers[w]);
  }

  /** A step records something only about the message its worker holds. */
  lemma RecordsOwnMessage(cfg: Config, s: State, l: Label, i: nat)
    requires Enabled(cfg, s, l)
    requires MovedWorker(l).Some? ==>
          MovedWorker(l).value < |s.workers| && Held(s.workers[MovedWorker(l).value]) != Some(i)
    ensures var t := Next(cfg, s, l);
            && (i in t.outcomes <==> i in s.outcomes) && (i in s.outcomes ==> t.outcomes[i] == s.outcomes[i])
            && (i in t.settled <==> i in s.settled) && |s.started| <= |t.started|
  {
    if l.HandlerReturns? || l.Settle? {
      assert s.workers[l.w].i != i;
    }
  }

  lemma StandsStill(cfg: Config, s: State, l: Label, w: nat)
    requires Enabled(cfg, s, l) && MovedWorker(l) != Some(w) && w < |s.workers|
    ensures w < |Next(cfg, s, l).workers| && Next(cfg, s, l).workers[w] == s.workers[w]
    ensures MovedWorker(l).Some? ==> MovedWorker(l).value < |s.workers|
  {
    hide Enabled, Next;
    WorkersAfter(cfg, s, l);
  }

  lemma HoldersDiffer(s: State, v: nat, w: nat)
    requires SettleInv(s) && v < |s.workers| && w < |s.workers| && v != w
    ensures Held(s.workers[v]).Some? ==> Held(s.workers[v]) != Held(s.workers[w])
  {
    if Held(s.workers[v]).Some? && Held(s.workers[v]) == Held(s.workers[w]) {
      assert HeldBy(s, v, s.workers[v].i) && HeldBy(s, w, s.workers[v].i);
    }
  }

  lemma BystanderStaysSound(cfg: Config, s: State, l: Label, w: nat)
    requires Enabled(cfg, s, l) && SettleInv(s) && MovedWorker(l) != Some(w) && w < |s.workers|
    ensures w < |Next(cfg, s, l).workers| && WorkerSound(Next(cfg, s, l), Next(cfg, s, l).workers[w])
  {
    hide Next, Enabled;
    var pc := s.workers[w];
    StandsStill(cfg, s, l, w);
    assert WorkerSound(s, pc);
    if Held(pc).Some? {
      if MovedWorker(l).Some? { HoldersDiffer(s, MovedWorker(l).value, w); }
      RecordsOwnMessage(cfg, s, l, pc.i);
    }
  }

  lemma WorkersStaySound(cfg: Config, s: State, l: Label, w: nat)
    requires Enabled(cfg, s, l) && SettleInv(s) && w < |Next(cfg, s, l).workers|
    ensures WorkerSound(Next(cfg, s, l), Next(cfg, s, l).workers[w])
  {
    hide SettleInv;
    if MovedWorker(l) == Some(w) {
      MovedWorkerStaysSound(cfg, s, l, w);
    } else if w < |s.workers| {
      BystanderStaysSound(cfg, s, l, w);
    }
  }

  lemma HeldBefore(cfg: Config, s: State, l: Label, w: nat, i: nat)
    requires Enabled(cfg, s, l) && HeldBy(Next(cfg, s, l), w, i)
    ensures HeldBy(s, w, i) || (l == Receive(w) && i == |s.started|)
  {
  }

  lemma HeldIsStarted(s: State, w: nat, i: nat)
    requires SettleInv(s) && HeldBy(s, w, i)
    ensures i < |s.started| && i !in s.settled
  {
    assert WorkerSound(s, s.workers[w]);
  }

  lemma HoldersStayDistinct(cfg: Config, s: State, l: Label, v: nat, w: nat, i: nat)
    requires Enabled(cfg, s, l) && SettleInv(s) && HeldBy(Next(cfg, s, l), v, i) && HeldBy(Next(cfg, s, l), w, i)
    ensures v == w
  {
    hide Next, Enabled, HeldBy, WorkerSound;
    HeldBefore(cfg, s, l, v, i);
    HeldBefore(cfg, s, l, w, i);
    if HeldBy(s, v, i) { HeldIsStarted(s, v, i); }
    if HeldBy(s, w, i) { HeldIsStarted(s, w, i); }
  }

  /** A worker lets go of a message only by settling it. */
  lemma HeldAfter(cfg: Config, s: State, l: Label, w: nat, i: nat)
    requires Enabled(cfg, s, l) && HeldBy(s, w, i)
    ensures HeldBy(Next(cfg, s, l), w, i) || i in Next(cfg, s, l).settled
  {
  }

  lemma StartedStayAccounted(cfg: Config, s: State, l: Label, i: nat)
    requires Enabled(cfg, s, l) && SettleInv(s) && i < |Next(cfg, s, l).started| && i !in Next(cfg, s, l).settled
    ensures exists w: nat :: HeldBy(Next(cfg, s, l), w, i)
  {
    var t := Next(cfg, s, l);
    if i >= |s.started| {
      assert HeldBy(t, l.w, i);
    } else if w: nat :| HeldBy(s, w, i) {
      HeldAfter(cfg, s, l, w, i);
    }
  }

  lemma OutcomesStaySound(cfg: Config, s: State, l: Label)
    requires Enabled(cfg, s, l) && SettleInv(s)
    ensures var t := Next(cfg, s, l);
            && (forall i :: i in t.outcomes ==> i < |t.started|)
            && (forall i :: i in t.settled ==> i in t.outcomes && (t.settled[i].Ack? <==> t.outcomes[i]))
            && (forall i :: i in s.outcomes ==> i in t.outcomes && t.outcomes[i] == s.outcomes[i])
            && (forall i :: i in s.settled ==> i in t.settled && t.settled[i] == s.settled[i])
  {
    if MovedWorker(l).Some? { assert WorkerSound(s, s.workers[MovedWorker(l).value]); }
  }

  lemma StepKeepsSettleInv(cfg: Config, s: State, l: Label)
    requires Enabled(cfg, s, l) && SettleInv(s)
    ensures SettleInv(Next(cfg, s, l))
  {
    var t := Next(cfg, s, l);
    forall w | 0 <= w < |t.workers| ensures WorkerSound(t, t.workers[w]) { WorkersStaySound(cfg, s, l, w); }
    forall v, w, i | HeldBy(t, v, i) && HeldBy(t, w, i) ensures v == w { HoldersStayDistinct(cfg, s, l, v, w, i); }
    forall i | 0 <= i < |t.started| && i !in t.settled ensures exists w: nat :: HeldBy(t, w, i) {
      StartedStayAccounted(cfg, s, l, i);
    }
    OutcomesStaySound(cfg, s, l);
  }

  lemma {:induction false} SettleInvAlways(cfg: Config, states: seq<State>, labels: seq<Label>, n: nat)
    requires IsRun(cfg, states, labels) && n <= |labels|
    ensures SettleInv(states[n])
  {
    hide Enabled, Next, WorkerSound;
    if n > 0 {
      SettleInvAlways(cfg, states, labels, n - 1);
      assert Steps(cfg, states[n - 1], labels[n - 1], states[n]);
      StepKeepsSettleInv(cfg, states[n - 1], labels[n - 1]);
    }
  }

  /**
    A message is acknowledged only after its handler returned nil, and negatively only after it
    failed; a started message that is neither is in the hands of exactly one worker; and at the
    close none is left over.
   */
  lemma SettledByOutcome(cfg: Config, states: seq<State>, labels: seq<Label>, n: nat, i: nat)
    requires IsRun(cfg, states, labels) && n <= |labels| && i < |states[n].started|
    ensures var s := states[n];
            && (i in s.settled ==> i in s.outcomes && (s.settled[i].Ack? <==> s.outcomes[i]))
            && (i !in s.settled ==> exists w: nat :: HeldBy(s, w, i) && forall v: nat :: HeldBy(s, v, i) ==> v == w)
            && (i in s.settled ==> forall w: nat :: !HeldBy(s, w, i))
            && (s.closed ==> i in s.settled)
  {
    SettleInvAlways(cfg, states, labels, n);
    ChannelIsClosedLast(cfg, states, labels, n);
    var s := states[n];
    if i in s.settled {
      forall w: nat | HeldBy(s, w, i) ensures false { HeldIsStarted(s, w, i); }
    }
  }

  /** Handler results and acknowledgements are final: each started message is handled and settled at most once. */
  lemma {:induction false} SettledOnce(cfg: Config, states: seq<State>, labels: seq<Label>, m: nat, n: nat, i: nat)
    requires IsRun(cfg, states, labels) && m <= n <= |labels|
    ensures i in states[m].outcomes ==> i in states[n].outcomes && states[n].outcomes[i] == states[m].outcomes[i]
    ensures i in states[m].settled ==> i in states[n].settled && states[n].settled[i] == states[m].settled[i]
    decreases n
  {
    hide Enabled, Next, WorkerSound;
    if m < n {
      SettledOnce(cfg, states, labels, m, n - 1, i);
      SettleInvAlways(cfg, states, labels, n - 1);
      assert Steps(cfg, states[n - 1], labels[n - 1], states[n]);
      OutcomesStaySound(cfg, states[n - 1], labels[n - 1]);
    }
  }

  // ---- shutdown ----

  lemma WorkerMoves(cfg: Config, s: State, w: nat) returns (l: Label)
    requires w < |s.workers| && !s.workers[w].Exited? && (s.cancelled || s.queue != [])
    ensures Enabled(cfg, s, l) && !l.Cancel?
  {
    match s.workers[w]
    case Selecting => l := if s.cancelled then Leave(w) else Receive(w);
    case Handling(_) => l := HandlerReturns(w, true);
    case Acking(_) => l := Settle(w);
    case Naking(_) => l := Settle(w);
  }

  /** Until the channel is closed somebody can move: nothing deadlocks, cancelled or not. */
  lemma NeverStuck(cfg: Config, states: seq<State>, labels: seq<Label>, n: nat) returns (l: Label)
    requires IsRun(cfg, states, labels) && n <= |labels| && !states[n].closed
    ensures Enabled(cfg, states[n], l) && !l.Cancel?
  {
    var s := states[n];
    ChannelInvAlways(cfg, states, labels, n);
    OrderInvAlways(cfg, states, labels, n);
    match s.fetcher
    case NotStarted => l := if |s.workers| < cfg.workers then Spawn else Launch;
    case Checking => l := if s.cancelled then SeesDone else Poll(0);
    case Fetching(_) => l := FetchFails;
    case Dispatching(rest) =>
      if rest == [] {
        l := BatchDone;
      } else if s.cancelled {
        l := GiveUp;
      } else if |s.queue| < cfg.queueSize {
        l := Send;
      } else {
        l := WorkerMoves(cfg, s, 0);
      }
    case Draining =>
      if s.pending == 0 {
        l := WaitOver;
      } else {
        SumFromPart(s.workers, Alive);
        var w: nat :| w < |s.workers| && Alive(s.workers[w]) > 0;
        l := WorkerMoves(cfg, s, w);
      }
    case Closing => l := CloseJobs;
  }

  function WorkerWeight(pc: Worker): nat {
    match pc
    case Exited => 0
    case Selecting => 1
    case Acking(_) => 2
    case Naking(_) => 2
    case Handling(_) => 3
  }

  function FetcherWeight(f: Fetcher): nat {
    match f
    case Closed => 0
    case Closing => 1
    case Draining => 2
    case Checking => 3
    case NotStarted => 4
    case Dispatching(rest) => 4 + 4 * |rest|
    case Fetching(batch) => 5 + 4 * batch
  }

  /** How many steps are left at most once the context is cancelled. */
  function StepsLeft(cfg: Config, s: State): int {
    2 * (cfg.workers - |s.workers|) + Sum(s.workers, WorkerWeight) + 3 * |s.queue| + FetcherWeight(s.fetcher)
  }

  lemma StepsRunOut(cfg: Config, s: State, l: Label)
    requires Enabled(cfg, s, l) && ChannelInv(cfg, s) && s.cancelled
    ensures Next(cfg, s, l).cancelled && 0 <= StepsLeft(cfg, Next(cfg, s, l)) < StepsLeft(cfg, s)
  {
    hide Sum;
    StepKeepsChannelInv(cfg, s, l);
    StepCounts(cfg, s, l, WorkerWeight);
  }

  lemma StepsLeftIsNatural(cfg: Config, s: State)
    requires ChannelInv(cfg, s)
    ensures StepsLeft(cfg, s) >= 0
  {
  }

  /**
    Once cancelled, a run has at most `StepsLeft` more steps, if handlers and fetches return; and
    it can stop only with the channel closed.
   */
  lemma {:induction false} ShutdownEnds(cfg: Config, states: seq<State>, labels: seq<Label>, m: nat, n: nat)
    requires IsRun(cfg, states, labels) && m <= n <= |labels| && states[m].cancelled
    ensures states[n].cancelled && 0 <= StepsLeft(cfg, states[n]) <= StepsLeft(cfg, states[m]) - (n - m)
    ensures (forall l :: !Enabled(cfg, states[n], l)) ==> states[n].closed
    decreases n
  {
    hide Enabled, Next, StepsLeft;
    ChannelInvAlways(cfg, states, labels, n);
    if m < n {
      ShutdownEnds(cfg, states, labels, m, n - 1);
      ChannelInvAlways(cfg, states, labels, n - 1);
      assert Steps(cfg, states[n - 1], labels[n - 1], states[n]);
      StepsRunOut(cfg, states[n - 1], labels[n - 1]);
    } else {
      StepsLeftIsNatural(cfg, states[n]);
    }
    if !states[n].closed {
      var l := NeverStuck(cfg, states, labels, n);
    }
  }
}
