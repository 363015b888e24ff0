/** The goroutines of the pull consumer as loops; between two of their own steps anything else may run. */
module NatsLoops {
  import opened Wrappers
  import opened NatsRuntime

  datatype Goroutine = Starter | TheFetcher | TheWorker(w: nat) | Elsewhere

  function Owner(l: Label): Goroutine {
    match l
    case Cancel => Elsewhere
    case Spawn => Starter
    case Launch => Starter
    case Leave(w) => TheWorker(w)
    case Receive(w) => TheWorker(w)
    case ReceiveClosed(w) => TheWorker(w)
    case HandlerReturns(w, _) => TheWorker(w)
    case Settle(w) => TheWorker(w)
    case _ => TheFetcher
  }

  /** What one wait for the scheduler brings: steps of others, then which ready case a select takes. */
  datatype Turn = Turn(others: seq<Label>, prefersDone: bool)

  /**
    One round of the fetch loop: what others do before and during the fetch, what the fetch brings,
    and the waits of the dispatch.
   */
  datatype Round = Round(before: seq<Label>, batch: nat, during: seq<Label>, messages: Option<seq<Message>>,
                         dispatch: seq<Turn>)

  /** One round of a worker: the wait of its select, and what others do while it handles and settles a message. */
  datatype Shift = Shift(turn: Turn, during: seq<Label>, ok: bool, settling: seq<Label>)

  /** A goroutine returned, or the schedule ran out while it still waited. */
  datatype Exit = Returned | Waiting

  /** Steps of others do not move a goroutine. */
  lemma FetcherStands(cfg: Config, s: State, l: Label)
    requires Enabled(cfg, s, l) && Owner(l) != TheFetcher && !s.fetcher.NotStarted?
    ensures var t := Next(cfg, s, l); t.fetcher == s.fetcher && t.fetched == s.fetched && t.dropped == s.dropped
  {
    hide Next;
    assert !MovesFetcher(l);
    FetcherAfter(cfg, s, l);
  }

  lemma StarterStands(cfg: Config, s: State, l: Label)
    requires Enabled(cfg, s, l) && Owner(l) != Starter && s.fetcher.NotStarted?
    ensures var t := Next(cfg, s, l); t.fetcher == s.fetcher && |t.workers| == |s.workers|
  {
    hide Next;
    assert !MovesFetcher(l) && !l.Spawn?;
    FetcherAfter(cfg, s, l);
    WorkersAfter(cfg, s, l);
  }

  lemma CancelledStays(cfg: Config, s: State, l: Label)
    requires Enabled(cfg, s, l) && s.cancelled
    ensures Next(cfg, s, l).cancelled
  {
  }

  lemma LeavingExits(cfg: Config, s: State, w: nat)
    requires Enabled(cfg, s, Leave(w))
    ensures Next(cfg, s, Leave(w)).cancelled && At(Next(cfg, s, Leave(w)), w, Exited)
  {
  }

  /** What a worker's steps do to it, from taking a message to settling it. */
  lemma TurnsOfWorker(cfg: Config, s: State, w: nat)
    requires w < |s.workers|
    ensures s.workers[w].Selecting? && s.queue != [] ==>
          Enabled(cfg, s, Receive(w)) && At(Next(cfg, s, Receive(w)), w, Handling(|s.started|))
    ensures s.workers[w].Handling? ==>
              forall ok :: Enabled(cfg, s, HandlerReturns(w, ok))
                        && At(Next(cfg, s, HandlerReturns(w, ok)), w,
                            if ok then Acking(s.workers[w].i) else Naking(s.workers[w].i))
    ensures s.workers[w].Acking? || s.workers[w].Naking? ==>
              && Enabled(cfg, s, Settle(w))
              && var t := Next(cfg, s, Settle(w));
                 At(t, w, Selecting) && s.workers[w].i in t.settled
                     && (t.settled[s.workers[w].i].Ack? <==> s.workers[w].Acking?)
  {
  }

  lemma OneMoreStep(cfg: Config, states: seq<State>, labels: seq<Label>, l: Label)
    requires IsRun(cfg, states, labels) && Enabled(cfg, states[|labels|], l)
    ensures IsRun(cfg, states + [Next(cfg, states[|labels|], l)], labels + [l])
  {
    hide Enabled, Next;
  }

  // ---- what the loops amount to ----

  function Do(cfg: Config, s: State, l: Label): State {
    if Enabled(cfg, s, l) then Next(cfg, s, l) else s
  }

  /** Those steps of a schedule that are not `me`'s and can be taken. */
  function Ran(cfg: Config, s: State, me: Goroutine, schedule: seq<Label>): State
    decreases |schedule|
  {
    if schedule == [] then s
    else
      var last, t := schedule[|schedule| - 1], Ran(cfg, s, me, schedule[..|schedule| - 1]);
      if Owner(last) == me then t else Do(cfg, t, last)
  }

  /** Each step of the schedule can be taken in its turn, and none of them is `me`'s. */
  predicate Leads(cfg: Config, s: State, me: Goroutine, schedule: seq<Label>, t: State)
    decreases |schedule|
  {
    if schedule == [] then s == t
    else
      && Owner(schedule[0]) != me && Enabled(cfg, s, schedule[0])
      && Leads(cfg, Next(cfg, s, schedule[0]), me, schedule[1..], t)
  }

  lemma {:induction false} RanThen(cfg: Config, s: State, me: Goroutine, l: Label, rest: seq<Label>)
    ensures Ran(cfg, s, me, [l] + rest) == Ran(cfg, if Owner(l) == me then s else Do(cfg, s, l), me, rest)
    decreases |rest|
  {
    hide Do, Owner;
    if rest == [] {
      assert [l] + rest == [l] && [l][..0] == [];
    } else {
      var front := rest[..|rest| - 1];
      RanThen(cfg, s, me, l, front);
      assert ([l] + rest)[..|rest|] == [l] + front;
    }
  }

  lemma NobodyRuns(cfg: Config, s: State, me: Goroutine)
    ensures Ran(cfg, s, me, []) == s
  {
  }

  /** Whatever others can do while a goroutine waits, they do. */
  lemma {:induction false} OthersRun(cfg: Config, s: State, me: Goroutine, schedule: seq<Label>, t: State)
    requires Leads(cfg, s, me, schedule, t)
    ensures Ran(cfg, s, me, schedule) == t
    decreases |schedule|
  {
    hide Enabled, Next, Owner, Ran;
    if schedule == [] {
      NobodyRuns(cfg, s, me);
    } else {
      OthersRun(cfg, Next(cfg, s, schedule[0]), me, schedule[1..], t);
      RanThen(cfg, s, me, schedule[0], schedule[1..]);
      assert [schedule[0]] + schedule[1..] == schedule;
    }
  }

  datatype Left = Left(state: State, exit: Exit)

  /** The state a dispatch leaves; the fetcher is draining after one that gave up. */
  function AfterDispatch(cfg: Config, s: State, turns: seq<Turn>): Left
    decreases |turns|
  {
    if turns == [] then Left(s, Waiting)
    else if s.fetcher == Dispatching([]) then Left(Do(cfg, s, BatchDone), Returned)
    else
      var t := Ran(cfg, s, TheFetcher, turns[0].others);
      var room := |t.queue| < cfg.queueSize;
      if t.cancelled && (turns[0].prefersDone || !room) then Left(Do(cfg, t, GiveUp), Returned)
      else AfterDispatch(cfg, if room then Do(cfg, t, Send) else t, turns[1..])
  }

  function AfterWaits(cfg: Config, s: State, waits: seq<seq<Label>>): Left
    decreases |waits|
  {
    if waits == [] then Left(s, Waiting)
    else
      var t := Ran(cfg, s, TheFetcher, waits[0]);
      if t.pending == 0 then Left(Do(cfg, Do(cfg, t, WaitOver), CloseJobs), Returned)
      else AfterWaits(cfg, t, waits[1..])
  }

  function AfterRounds(cfg: Config, s: State, rounds: seq<Round>, waits: seq<seq<Label>>): Left
    decreases |rounds|
  {
    if rounds == [] then Left(s, Waiting)
    else
      var r, t := rounds[0], Ran(cfg, s, TheFetcher, rounds[0].before);
      if t.cancelled then AfterWaits(cfg, Do(cfg, t, SeesDone), waits)
      else
        var polled := Ran(cfg, Do(cfg, t, Poll(r.batch)), TheFetcher, r.during);
        if r.messages.None? || |r.messages.value| > r.batch then
          AfterRounds(cfg, Do(cfg, polled, FetchFails), rounds[1..], waits)
        else
          var sent := AfterDispatch(cfg, Do(cfg, polled, FetchReturns(r.messages.value)), r.dispatch);
          if sent.exit.Waiting? then sent
          else if sent.state.fetcher.Draining? then AfterWaits(cfg, sent.state, waits)
          else AfterRounds(cfg, sent.state, rounds[1..], waits)
  }

  function WorkedOff(cfg: Config, s: State, w: nat, shift: Shift): State {
    var handled := Do(cfg, Ran(cfg, Do(cfg, s, Receive(w)), TheWorker(w), shift.during), HandlerReturns(w, shift.ok));
    Do(cfg, Ran(cfg, handled, TheWorker(w), shift.settling), Settle(w))
  }

  function AfterShifts(cfg: Config, s: State, w: nat, shifts: seq<Shift>): Left
    decreases |shifts|
  {
    if shifts == [] then Left(s, Waiting)
    else
      var t := Ran(cfg, s, TheWorker(w), shifts[0].turn.others);
      if t.cancelled && (shifts[0].turn.prefersDone || t.queue == []) then Left(Do(cfg, t, Leave(w)), Returned)
      else AfterShifts(cfg, if t.queue != [] then WorkedOff(cfg, t, w, shifts[0]) else t, w, shifts[1..])
  }

  lemma WaitEnds(cfg: Config, s: State)
    requires s.fetcher.Draining? && s.pending == 0 && !s.closed
    ensures Enabled(cfg, s, WaitOver)
    ensures var t := Next(cfg, s, WaitOver);
            !t.closed && Enabled(cfg, t, CloseJobs) && Next(cfg, t, CloseJobs).closed
  {
  }

  // ---- a worker on its own ----

  predicate Quiet(shift: Shift) {
    shift.turn.others == [] && shift.during == [] && shift.settling == []
  }

  lemma QuietShiftSettles(cfg: Config, s: State, w: nat, shift: Shift)
    requires At(s, w, Selecting) && s.queue != [] && Quiet(shift)
    ensures var t := WorkedOff(cfg, s, w, shift);
            && At(t, w, Selecting) && t.cancelled == s.cancelled
            && t.queue == s.queue[1..] && t.started == s.started + [s.queue[0]]
            && t.settled == s.settled[|s.started| := if shift.ok then Ack else Nak]
  {
    TurnsOfWorker(cfg, s, w);
    var s1 := Next(cfg, s, Receive(w));
    TurnsOfWorker(cfg, s1, w);
    var s2 := Next(cfg, s1, HandlerReturns(w, shift.ok));
    TurnsOfWorker(cfg, s2, w);
    assert WorkedOff(cfg, s, w, shift) == Next(cfg, s2, Settle(w)) by { hide Enabled, Next; }
  }

  predicate SettledBy(s: State, i: nat, ok: bool) {
    i in s.settled && (s.settled[i].Ack? <==> ok)
  }

  /**
    The messages waiting are taken in order, one a turn, and each is settled by its handler's result;
    after cancellation too, as long as the select prefers the channel.
   */
  lemma {:induction false} QuietShiftsSettle(cfg: Config, s: State, w: nat, shifts: seq<Shift>)
    requires At(s, w, Selecting) && |shifts| <= |s.queue|
    requires forall i :: 0 <= i < |shifts| ==> Quiet(shifts[i]) && (s.cancelled ==> !shifts[i].turn.prefersDone)
    ensures AfterShifts(cfg, s, w, shifts).exit.Waiting?
    ensures var t := AfterShifts(cfg, s, w, shifts).state;
            && At(t, w, Selecting)
            && t.started == s.started + s.queue[..|shifts|] && t.queue == s.queue[|shifts|..]
            && (forall i :: i in s.settled && i < |s.started| ==> i in t.settled && t.settled[i] == s.settled[i])
            && (forall i :: 0 <= i < |shifts| ==> SettledBy(t, |s.started| + i, shifts[i].ok))
    decreases |shifts|
  {
    hide WorkedOff, Enabled, Next;
    if shifts != [] {
      assert Quiet(shifts[0]);
      var s1 := WorkedOff(cfg, s, w, shifts[0]);
      QuietShiftSettles(cfg, s, w, shifts[0]);
      QuietShiftsSettle(cfg, s1, w, shifts[1..]);
      var t := AfterShifts(cfg, s1, w, shifts[1..]).state;
      assert AfterShifts(cfg, s1, w, shifts[1..]) == AfterShifts(cfg, s, w, shifts);
      assert s.queue[..|shifts|] == [s.queue[0]] + s1.queue[..|shifts| - 1];
      forall i | 0 <= i < |shifts|
        ensures SettledBy(t, |s.started| + i, shifts[i].ok)
      {
        if i > 0 { assert SettledBy(t, |s1.started| + (i - 1), shifts[1..][i - 1].ok); }
      }
    }
  }

  /** After cancellation a worker leaves as soon as its select prefers to, or finds nothing else ready. */
  lemma CancelledWorkerLeaves(cfg: Config, s: State, w: nat, shifts: seq<Shift>)
    requires At(s, w, Selecting) && s.cancelled && shifts != [] && shifts[0].turn.others == []
    requires shifts[0].turn.prefersDone || s.queue == []
    ensures AfterShifts(cfg, s, w, shifts)
            == Left(s.(workers := s.workers[w := Exited], pending := s.pending - 1), Returned)
  {
  }

  // ---- the fetcher on its own ----

  function Min(a: int, b: int): int {
    if a < b then a else b
  }

  predicate QuietTurns(turns: seq<Turn>) {
    forall i :: 0 <= i < |turns| ==> turns[i].others == []
  }

  lemma SendTakesOne(cfg: Config, s: State)
    requires s.fetcher.Dispatching? && s.fetcher.rest != [] && !s.closed && |s.queue| < cfg.queueSize
    ensures Enabled(cfg, s, Send)
    ensures Next(cfg, s, Send)
            == s.(queue := s.queue + [s.fetcher.rest[0]], fetcher := Dispatching(s.fetcher.rest[1..]))
  {
  }

  lemma DispatchEnds(cfg: Config, s: State)
    requires s.fetcher == Dispatching([])
    ensures Enabled(cfg, s, BatchDone) && Next(cfg, s, BatchDone) == s.(fetcher := Checking)
  {
  }

  lemma SendingOn(queue: seq<Message>, rest: seq<Message>, n: nat)
    requires n < |rest|
    ensures queue + [rest[0]] + rest[1..] == queue + rest
    ensures queue + [rest[0]] + rest[1..][..n] == queue + rest[..n + 1] && rest[1..][n..] == rest[n + 1..]
  {
  }

  /**
    A batch goes into the channel in order, one message a turn, until the batch is sent, the channel
    is full, or the turns are used up; the dispatch is over only once all of it is sent.
   */
  lemma {:induction false} QuietDispatchSends(cfg: Config, s: State, turns: seq<Turn>)
    requires s.fetcher.Dispatching? && !s.cancelled && !s.closed && |s.queue| <= cfg.queueSize && QuietTurns(turns)
    ensures var rest := s.fetcher.rest;
            var sent := Min(|turns|, Min(|rest|, cfg.queueSize - |s.queue|));
            AfterDispatch(cfg, s, turns)
            == if sent == |rest| < |turns| then Left(s.(queue := s.queue + rest, fetcher := Checking), Returned)
               else Left(s.(queue := s.queue + rest[..sent], fetcher := Dispatching(rest[sent..])), Waiting)
    decreases |turns|
  {
    hide Next, Enabled;
    var rest, room := s.fetcher.rest, cfg.queueSize - |s.queue|;
    if turns == [] {
      assert s.queue + rest[..0] == s.queue && rest[0..] == rest;
    } else if rest == [] {
      DispatchEnds(cfg, s);
      assert s.queue + rest == s.queue;
    } else {
      assert turns[0].others == [];
      if room > 0 {
        SendTakesOne(cfg, s);
        QuietDispatchSends(cfg, Next(cfg, s, Send), turns[1..]);
        SendingOn(s.queue, rest, Min(|turns| - 1, Min(|rest| - 1, room - 1)));
      } else {
        QuietDispatchSends(cfg, s, turns[1..]);
      }
    }
  }

  /** What a round brings: nothing when the fetch fails. */
  function BroughtBy(r: Round): seq<Message> {
    if r.messages.Some? && |r.messages.value| <= r.batch then r.messages.value else []
  }

  function Brought(rounds: seq<Round>): seq<Message> {
    if rounds == [] then [] else BroughtBy(rounds[0]) + Brought(rounds[1..])
  }

  /** Nobody else moves during the round, and there are turns enough to send what it brings. */
  predicate QuietRound(r: Round) {
    r.before == [] && r.during == [] && QuietTurns(r.dispatch) && |BroughtBy(r)| < |r.dispatch|
  }

  lemma QuietRoundFetches(cfg: Config, s: State, rounds: seq<Round>, waits: seq<seq<Label>>)
    requires s.fetcher == Checking && !s.cancelled && !s.closed && rounds != [] && QuietRound(rounds[0])
    requires |s.queue| + |BroughtBy(rounds[0])| <= cfg.queueSize
    ensures var more := BroughtBy(rounds[0]);
            AfterRounds(cfg, s, rounds, waits)
            == AfterRounds(cfg, s.(fetched := s.fetched + more, queue := s.queue + more), rounds[1..], waits)
  {
    hide AfterDispatch, AfterWaits;
    var r := rounds[0];
    var polled := Next(cfg, s, Poll(r.batch));
    if r.messages.Some? && |r.messages.value| <= r.batch {
      var dispatching := Next(cfg, polled, FetchReturns(r.messages.value));
      QuietDispatchSends(cfg, dispatching, r.dispatch);
      assert s.(fetched := s.fetched + r.messages.value, queue := s.queue + r.messages.value)
          == dispatching.(queue := s.queue + r.messages.value, fetcher := Checking);
    } else {
      assert s.fetched + [] == s.fetched && s.queue + [] == s.queue;
    }
  }

  /**
    Round after round, what the fetches bring goes into the channel, all of it and in order, while
    there is room; a failed fetch brings nothing and is followed by the next.
   */
  lemma {:induction false} QuietRoundsFetch(cfg: Config, s: State, rounds: seq<Round>, waits: seq<seq<Label>>)
    requires s.fetcher == Checking && !s.cancelled && !s.closed
    requires forall i :: 0 <= i < |rounds| ==> QuietRound(rounds[i])
    requires |s.queue| + |Brought(rounds)| <= cfg.queueSize
    ensures AfterRounds(cfg, s, rounds, waits)
            == Left(s.(fetched := s.fetched + Brought(rounds), queue := s.queue + Brought(rounds)), Waiting)
    decreases |rounds|
  {
    hide QuietRound, BroughtBy;
    if rounds == [] {
      assert s.fetched + [] == s.fetched && s.queue + [] == s.queue;
    } else {
      hide AfterRounds;
      var more := BroughtBy(rounds[0]);
      var t := s.(fetched := s.fetched + more, queue := s.queue + more);
      QuietRoundFetches(cfg, s, rounds, waits);
      QuietRoundsFetch(cfg, t, rounds[1..], waits);
      assert t.fetched + Brought(rounds[1..]) == s.fetched + Brought(rounds);
      assert t.queue + Brought(rounds[1..]) == s.queue + Brought(rounds);
    }
  }

  lemma {:induction false} QuietWaits(cfg: Config, s: State, waits: seq<seq<Label>>)
    requires s.fetcher.Draining? && !s.closed && forall i :: 0 <= i < |waits| ==> waits[i] == []
    ensures AfterWaits(cfg, s, waits)
            == if s.pending == 0 && waits != [] then Left(s.(fetcher := Closed, closed := true), Returned)
               else Left(s, Waiting)
    decreases |waits|
  {
    if waits != [] {
      assert waits[0] == [];
      QuietWaits(cfg, s, waits[1..]);
    }
  }

  /** Cancelled before a fetch, the fetcher polls no more: it closes the channel if no worker is left, or waits. */
  lemma {:induction false} CancelledFetcherCloses(cfg: Config, s: State, rounds: seq<Round>, waits: seq<seq<Label>>)
    requires s.fetcher == Checking && s.cancelled && !s.closed && rounds != [] && rounds[0].before == []
    requires waits != [] && forall i :: 0 <= i < |waits| ==> waits[i] == []
    ensures AfterRounds(cfg, s, rounds, waits)
            == if s.pending == 0 then Left(s.(fetcher := Closed, closed := true), Returned)
               else Left(s.(fetcher := Draining), Waiting)
  {
    hide AfterWaits;
    QuietWaits(cfg, s.(fetcher := Draining), waits);
  }

  /** Cancelled during a dispatch, the fetcher gives up the rest when its select prefers to, or the channel is full. */
  lemma CancelledDispatchGivesUp(cfg: Config, s: State, turns: seq<Turn>)
    requires s.fetcher.Dispatching? && s.fetcher.rest != [] && s.cancelled && turns != [] && turns[0].others == []
    requires turns[0].prefersDone || |s.queue| >= cfg.queueSize
    ensures AfterDispatch(cfg, s, turns)
            == Left(s.(fetcher := Draining, dropped := s.dropped + s.fetcher.rest), Returned)
  {
  }

  class PullConsumerRuntime {
    const cfg: Config
    var state: State
    ghost var states: seq<State>
    ghost var labels: seq<Label>

    /** Everything that has happened so far is a run. */
    ghost predicate Valid()
      reads this
    {
      IsRun(cfg, states, labels) && state == states[|labels|]
    }

    constructor (cfg: Config)
      ensures Valid() && this.cfg == cfg && state == INITIAL && labels == []
    {
      this.cfg := cfg;
      state := INITIAL;
      states, labels := [INITIAL], [];
    }

    method Step(l: Label)
      requires Valid() && Enabled(cfg, state, l)
      modifies this
      ensures Valid() && state == Next(cfg, old(state), l) && labels == old(labels) + [l]
    {
      hide Enabled, Next;
      OneMoreStep(cfg, states, labels, l);
      state := Next(cfg, state, l);
      states, labels := states + [state], labels + [l];
    }

    /** Others run while `me` stands still. */
    method Others(me: Goroutine, schedule: seq<Label>)
      requires Valid()
      modifies this
      ensures Valid() && old(labels) <= labels && state == Ran(cfg, old(state), me, schedule)
      ensures forall i :: |old(labels)| <= i < |labels| ==> Owner(labels[i]) != me
      ensures me.TheFetcher? && !old(state).fetcher.NotStarted? ==>
              state.fetcher == old(state).fetcher && state.fetched == old(state).fetched
                  && state.dropped == old(state).dropped
      ensures me.Starter? && old(state).fetcher.NotStarted? ==>
            state.fetcher.NotStarted? && |state.workers| == |old(state).workers|
      ensures me.TheWorker? && me.w < |old(state).workers| ==>
            me.w < |state.workers| && state.workers[me.w] == old(state).workers[me.w]
      ensures old(state).cancelled ==> state.cancelled
    {
      hide Enabled, Next, IsRun;
      for i := 0 to |schedule|
        invariant Valid() && old(labels) <= labels && state == Ran(cfg, old(state), me, schedule[..i])
        invariant forall i :: |old(labels)| <= i < |labels| ==> Owner(labels[i]) != me
        invariant me.TheFetcher? && !old(state).fetcher.NotStarted? ==>
            state.fetcher == old(state).fetcher && state.fetched == old(state).fetched
                && state.dropped == old(state).dropped
        invariant me.Starter? && old(state).fetcher.NotStarted? ==>
              state.fetcher.NotStarted? && |state.workers| == |old(state).workers|
        invariant me.TheWorker? && me.w < |old(state).workers| ==>
              me.w < |state.workers| && state.workers[me.w] == old(state).workers[me.w]
        invariant old(state).cancelled ==> state.cancelled
      {
        assert schedule[..i + 1][..i] == schedule[..i];
        if Owner(schedule[i]) != me && Enabled(cfg, state, schedule[i]) {
          if state.cancelled { CancelledStays(cfg, state, schedule[i]); }
          match me {
            case Starter => if state.fetcher.NotStarted? { StarterStands(cfg, state, schedule[i]); }
            case TheFetcher => if !state.fetcher.NotStarted? { FetcherStands(cfg, state, schedule[i]); }
            case TheWorker(w) => if w < |state.workers| { StandsStill(cfg, state, schedule[i], w); }
            case Elsewhere =>
          }
          Step(schedule[i]);
        }
      }
      assert schedule[..|schedule|] == schedule;
    }

    /** Adds each worker to the wait group before it starts, and starts the fetcher last. */
    method Start(schedule: seq<seq<Label>>)
      requires Valid() && state == INITIAL && |schedule| == cfg.workers
      modifies this
      ensures Valid() && state.fetcher == Checking && |state.workers| == cfg.workers
    {
      hide IsRun;
      for i := 0 to cfg.workers
        invariant Valid() && state.fetcher.NotStarted? && |state.workers| == i
      {
        Others(Starter, schedule[i]);
        Step(Spawn);
      }
      Step(Launch);
    }

    /** Sends the batch message by message; true when it gave up because of cancellation. */
    method DispatchFetchedMessages(turns: seq<Turn>) returns (exit: Exit, stop: bool)
      requires Valid() && state.fetcher.Dispatching?
      modifies this
      ensures Valid() && state.fetched == old(state).fetched
      ensures Left(state, exit) == AfterDispatch(cfg, old(state), turns)
      ensures exit.Returned? && !stop ==> state.fetcher == Checking && state.dropped == old(state).dropped
      ensures exit.Returned? && stop ==>
            state.cancelled && state.fetcher == Draining && state.dropped != old(state).dropped
      ensures exit.Waiting? ==> !stop && state.fetcher.Dispatching? && state.dropped == old(state).dropped
    {
      hide IsRun, Ran;
      stop := false;
      for i := 0 to |turns|
        invariant Valid() && state.fetcher.Dispatching? && state.fetched == old(state).fetched
        invariant state.dropped == old(state).dropped
        invariant AfterDispatch(cfg, old(state), turns) == AfterDispatch(cfg, state, turns[i..])
      {
        assert turns[i..][1..] == turns[i + 1..];
        if state.fetcher.rest == [] {
          Step(BatchDone);
          return Returned, false;
        }
        Others(TheFetcher, turns[i].others);
        assert !state.closed by { ChannelInvAlways(cfg, states, labels, |labels|); }
        var room := |state.queue| < cfg.queueSize;
        if state.cancelled && (turns[i].prefersDone || !room) {
          Step(GiveUp);
          return Returned, true;
        }
        if room {
          Step(Send);
        }
      }
      exit := Waiting;
    }

    /** Waits for the wait group, then closes the channel. */
    method WaitAndClose(waits: seq<seq<Label>>) returns (exit: Exit)
      requires Valid() && state.fetcher.Draining?
      modifies this
      ensures Valid() && Left(state, exit) == AfterWaits(cfg, old(state), waits)
      ensures exit.Returned? ==> state.closed
      ensures exit.Waiting? ==> !state.closed && state.fetcher == Draining
    {
      hide IsRun, Next, Enabled, Ran;
      for i := 0 to |waits|
        invariant Valid() && state.fetcher.Draining?
        invariant AfterWaits(cfg, old(state), waits) == AfterWaits(cfg, state, waits[i..])
      {
        assert waits[i..][1..] == waits[i + 1..];
        Others(TheFetcher, waits[i]);
        if state.pending == 0 {
          assert !state.closed by { ChannelInvAlways(cfg, states, labels, |labels|); }
          WaitEnds(cfg, state);
          Step(WaitOver);
          Step(CloseJobs);
          return Returned;
        }
      }
      assert !state.closed by { ChannelInvAlways(cfg, states, labels, |labels|); }
      exit := Waiting;
    }

    /** The fetch loop: it returns only once the channel is closed, and by then every worker has left. */
    method RunFetcher(rounds: seq<Round>, waits: seq<seq<Label>>) returns (exit: Exit)
      requires Valid() && state.fetcher == Checking
      modifies this
      ensures Valid() && (exit.Returned? <==> state.closed)
      ensures Left(state, exit) == AfterRounds(cfg, old(state), rounds, waits)
      ensures exit.Returned? ==> forall w :: 0 <= w < |state.workers| ==> state.workers[w].Exited?
    {
      hide IsRun, Ran, AfterDispatch, AfterWaits;
      var stop := false;
      exit := Waiting;
      for i := 0 to |rounds|
        invariant Valid() && state.fetcher == Checking && !stop && exit.Waiting?
        invariant AfterRounds(cfg, old(state), rounds, waits) == AfterRounds(cfg, state, rounds[i..], waits)
      {
        assert rounds[i..][1..] == rounds[i + 1..];
        Others(TheFetcher, rounds[i].before);
        if state.cancelled {
          Step(SeesDone);
          stop := true;
          break;
        }
        Step(Poll(rounds[i].batch));
        Others(TheFetcher, rounds[i].during);
        if rounds[i].messages.None? || |rounds[i].messages.value| > rounds[i].batch {
          Step(FetchFails);
          continue;
        }
        Step(FetchReturns(rounds[i].messages.value));
        exit, stop := DispatchFetchedMessages(rounds[i].dispatch);
        if exit.Waiting? || stop {
          break;
        }
        exit := Waiting;
      }
      if stop {
        exit := WaitAndClose(waits);
      }
      ChannelIsClosedLast(cfg, states, labels, |labels|);
    }

    /** Handles and settles the message at the head of the channel. */
    method WorkOff(w: nat, shift: Shift)
      requires Valid() && At(state, w, Selecting) && state.queue != []
      modifies this
      ensures Valid() && At(state, w, Selecting) && state == WorkedOff(cfg, old(state), w, shift)
      ensures |old(state).started| in state.settled && (state.settled[|old(state).started|].Ack? <==> shift.ok)
    {
      hide IsRun, Next, Enabled;
      TurnsOfWorker(cfg, state, w);
      Step(Receive(w));
      Others(TheWorker(w), shift.during);
      TurnsOfWorker(cfg, state, w);
      Step(HandlerReturns(w, shift.ok));
      Others(TheWorker(w), shift.settling);
      TurnsOfWorker(cfg, state, w);
      Step(Settle(w));
    }

    /**
      A worker's loop: it returns only after cancellation, never because the channel was closed,
      and with its last message settled.
     */
    method RunWorker(w: nat, shifts: seq<Shift>) returns (exit: Exit)
      requires Valid() && At(state, w, Selecting)
      modifies this
      ensures Valid() && w < |state.workers| && Left(state, exit) == AfterShifts(cfg, old(state), w, shifts)
      ensures exit.Returned? ==> state.cancelled && state.workers[w].Exited? && Leave(w) in labels
      ensures exit.Waiting? ==> state.workers[w].Selecting?
    {
      hide IsRun, Next;
      for i := 0 to |shifts|
        invariant Valid() && At(state, w, Selecting)
        invariant AfterShifts(cfg, old(state), w, shifts) == AfterShifts(cfg, state, w, shifts[i..])
      {
        assert shifts[i..][1..] == shifts[i + 1..];
        Others(TheWorker(w), shifts[i].turn.others);
        if state.cancelled && (shifts[i].turn.prefersDone || state.queue == []) {
          LeavingExits(cfg, state, w);
          Step(Leave(w));
          return Returned;
        }
        if state.queue != [] {
          WorkOff(w, shifts[i]);
        } else if state.closed {
          ChannelIsClosedLast(cfg, states, labels, |labels|);
          assert false;
        }
      }
      exit := Waiting;
    }
  }
}
