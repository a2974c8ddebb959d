/**
 What one iteration of the loop does after its event is picked, told by slots, heaps and the
 events themselves: the network, the framework's actions, the trace, and when the loop stops.
 */
module LoopEffects {
  import opened Prelude
  import opened Machines
  import opened SimEvents
  import opened Queues
  import opened SimState
  import opened Selector
  import opened Scheduler
  import opened Simulator
  import opened SchedulerEffects
  import Traces

  // ---------- The network ----------

  /** From s to r event e was added to one heap of that endpoint, and nothing else changed. */
  ghost predicate OnlyGained(s: Sim, r: Sim, client: bool, id: Queue, e: SimEvent) {
    && OnlySide(s, r, client, 0)
    && At(r, client) == At(s, client).(queue := At(r, client).queue)
    && Gained(At(s, client).queue, At(r, client).queue, id, e)
  }

  /** The first packet that the blocking of the endpoint holds back is of the trace, and the padding may be replaced. */
  predicate Replaces(s: Sim, next: SimEvent) {
    var ep := At(s, next.client);
    var held := PeekBlocking(ep.queue, ep.bypassable).0;
    next.replace && held.Some? && held.value.client == next.client && held.value.event == TETunnelSent
    && !held.value.padding
  }

  /**
   The packet held back that comes first left its heap and may bypass now, in place of the padding;
   that it was held delays the trace.
   */
  ghost predicate LetThrough(s: Sim, r: Sim, client: bool, now: int) {
    var ep, ep' := At(s, client), At(r, client);
    exists rest: Queues, id: Queue, held: SimEvent ::
      && held.event == TETunnelSent && held.client == client && !held.padding
      && Lost(ep.queue, rest, id, held) && (id == Blocking || (id == Bypassable && !ep.bypassable))
      && ep' == ep.(queue := ep'.queue) && At(r, !client) == At(s, !client)
      && Gained(rest, ep'.queue, Bypassable, held.(bypass := true, replace := false))
      && OwesDelay(s, r, DelayOnReplace(ep.(queue := rest), now, held.(bypass := true, replace := false)), now, client)
      && r.drawn == s.drawn
  }

  /** From s to r a delay was pushed, or nothing was; the network itself stays. */
  ghost predicate OwesDelay(s: Sim, r: Sim, delay: Option<nat>, t: int, client: bool) {
    && r.net == s.net && r.lags == s.lags
    && r.pending == (if delay.Some? then PushDelay(s, delay.value, t, client).pending else s.pending)
    && r.pushed == s.pushed + (if delay.Some? then delay.value else 0)
  }

  /** Padding that was sent enters the queue, or is replaced by a held packet, or is dropped for one. */
  lemma PaddingIsSent(s: Sim, next: SimEvent, now: int)
    requires next.event.TEPaddingSent?
    ensures var r := NetworkStack(s, next, now).0;
            && (!Replaces(s, next) ==>
                  OnlyGained(s, r, next.client, if next.bypass then Bypassable else Blocking,
                             SimEvent(TETunnelSent, next.time, next.delay, next.client, true, next.bypass,
                                      next.replace)))
            && (Replaces(s, next) && !next.bypass ==> r == s)
            && (Replaces(s, next) && next.bypass ==> LetThrough(s, r, next.client, now))
  {
    hide PeekBlocking, ReplaceByHeld, LetThrough;
    if Replaces(s, next) && next.bypass {
      HeldIsLetThrough(s, next.client, now);
    }
  }

  lemma HeldIsLetThrough(s: Sim, client: bool, now: int)
    requires var held := PeekBlocking(At(s, client).queue, At(s, client).bypassable).0;
             held.Some? && held.value.client == client && held.value.event == TETunnelSent && !held.value.padding
    ensures LetThrough(s, ReplaceByHeld(s, client, now), client, now)
  {
    hide Peek, Pop, TookFirst, DelayOnReplace, PushDelay;
    var ep := At(s, client);
    var (held, id) := PeekBlocking(ep.queue, ep.bypassable);
    var h := Select(ep.queue, id);
    PeekThere(h);
    PopTakesFirst(h);
    var (rest, e) := Dequeue(ep.queue, id, ep.sum);
    assert Lost(ep.queue, rest, id, e) && e == held.value;
    var entry := e.(bypass := true, replace := false);
    var s1 := Put(s, client, ep.(queue := rest));
    var delay := DelayOnReplace(ep.(queue := rest), now, entry);
    var s2 := if delay.Some? then PushDelay(s1, delay.value, now, client) else s1;
    DelayOnly(s, s1, if delay.Some? then delay.value else 0, now, client);
    var r := ReplaceByHeld(s, client, now);
    assert r == PushEvent(s2, entry);
    assert Gained(rest, At(r, client).queue, Bypassable, entry);
  }

  /** Pushing a delay reads and changes no endpoint. */
  lemma DelayOnly(s: Sim, s1: Sim, delay: nat, t: int, client: bool)
    requires s1 == s.(client := s1.client, server := s1.server)
    ensures var r := PushDelay(s1, delay, t, client);
            && r == s1.(pending := r.pending, pushed := s.pushed + delay)
            && r.pending == PushDelay(s, delay, t, client).pending
  {
  }

  /**
   A packet enters the tunnel: it counts in the window of its endpoint, and arrives at the other
   after the way, the congestion of the window and the lag there; a normal packet left earlier by
   its own lag, padding later, and a normal packet arrives no earlier than now. Congestion that is
   not absorbed delays the trace.
   */
  lemma PacketEntersTunnel(s: Sim, next: SimEvent, now: int)
    requires next.event == TETunnelSent
    ensures var (r, activity) := NetworkStack(s, next, now);
            var ep, ep' := At(s, next.client), At(r, next.client);
            var lag := s.lags(s.drawn);
            var extra := Congestion(s.net, |AddToWindow(ep.window, now, s.net.window)|);
            var passed := HeldBy(ep, next.time + 100_000_000)
                          || TraceBy(ep.(sum := s.client.sum), next.time + 1_000_000);
            var way := s.net.delay + extra + lag;
            && activity && r.drawn == s.drawn + 1
            && ep' == ep.(window := AddToWindow(ep.window, now, s.net.window))
            && OwesDelay(s, r, if extra > 0 && !passed then Some(extra) else None, now, next.client)
            && At(r, !next.client) == At(s, !next.client).(queue := At(r, !next.client).queue)
            && Gained(At(s, !next.client).queue, At(r, !next.client).queue, Internal,
                      SimEvent(TETunnelRecv,
                               if next.padding then next.time + next.delay + way
                               else Max(next.time - next.delay + way, now),
                               lag, !next.client, next.padding, false, false))
  {
    hide AddToWindow, Congestion, PropagatesDelay, PushDelay, HeldBy, TraceBy;
    var (lag, s1) := Lag(s);
    var ep := At(s1, next.client);
    var window := AddToWindow(ep.window, now, s.net.window);
    var s2 := Put(s1, next.client, ep.(window := window));
    var extra := Congestion(s.net, |window|);
    CongestionDelay(At(s2, next.client), next, s.client.sum);
    SameQueue(ep, window, s.client.sum, next.time);
    DelayOnly(s.(drawn := s.drawn + 1), s2, extra, now, next.client);
    DelayIgnoresLags(s, extra, now, next.client);
  }

  lemma DelayIgnoresLags(s: Sim, delay: nat, t: int, client: bool)
    ensures PushDelay(s.(drawn := s.drawn + 1), delay, t, client).pending == PushDelay(s, delay, t, client).pending
  {
  }

  lemma SameQueue(ep: Endpoint, window: seq<int>, sum: nat, t: int)
    ensures HeldBy(ep.(window := window), t + 100_000_000) == HeldBy(ep, t + 100_000_000)
    ensures TraceBy(ep.(window := window).(sum := sum), t + 1_000_000) == TraceBy(ep.(sum := sum), t + 1_000_000)
  {
    hide Earlier;
    var a := ep.(window := window);
    assert forall e :: Held(a, e) <==> Held(ep, e);
  }

  /**
   The other events: a packet of the trace waits for the tunnel, one that arrives is reported as
   padding exactly if it is padding and as normal exactly if it is not, and the rest does nothing.
   */
  lemma PacketGoesOn(s: Sim, next: SimEvent, now: int)
    ensures var (r, activity) := NetworkStack(s, next, now);
            && (activity <==> next.event == TETunnelSent || next.event == TETunnelRecv)
            && match next.event
               case TENormalSent =>
                 OnlyGained(s, r, next.client, Blocking,
                            SimEvent(TETunnelSent, next.time, next.delay, next.client, false, false, false))
               case TETunnelRecv =>
                 && (next.padding ==>
                       OnlyGained(s, r, next.client, Internal,
                                  SimEvent(TEPaddingRecv, next.time, next.delay, next.client, true, false, false)))
                 && (!next.padding ==>
                       OnlyGained(s, r, next.client, Internal,
                                  SimEvent(TENormalRecv, next.time, next.delay, next.client, false, false, false)))
               case TEPaddingSent(_) => true
               case TETunnelSent => true
               case _ => r == s
  {
    hide SendPaddingPacket, EnterTunnel;
  }

  // ---------- Answers of the framework ----------

  /** Whether an answer sets the timer: it replaces, or ends later than the timer, or now if none is set. */
  predicate SetsTimer(timer: Option<int>, a: TriggerAction, now: int) {
    a.TAUpdateTimer? && (a.replace || (if timer.Some? then timer.value else now) < now + a.duration)
  }

  /** What an answer does to the two slots of its machine. */
  ghost predicate SlotsAnswered(action: Option<Scheduled>, timer: Option<int>, action': Option<Scheduled>,
                                timer': Option<int>, a: TriggerAction, now: int, lag: nat)
  {
    match a
    case TACancel(_, ActionTimer) => action' == None && timer' == timer
    case TACancel(_, InternalTimer) => action' == action && timer' == None
    case TACancel(_, AllTimers) => action' == None && timer' == None
    case TASendPadding(_, wait, _, _) => action' == Some(Scheduled(a, now + wait + lag)) && timer' == timer
    case TABlockOutgoing(_, wait, _, _, _) => action' == Some(Scheduled(a, now + wait + lag)) && timer' == timer
    case TAUpdateTimer(_, duration, _) =>
      action' == action && timer' == if SetsTimer(timer, a, now) then Some(now + duration) else timer
  }

  /** What one answer does: the slots of its machine, and that its timer began, if it sets one. */
  ghost predicate Answered(ep: Endpoint, ep': Endpoint, client: bool, a: TriggerAction, now: int, lag: nat)
    requires a.machine < |ep.actions| && a.machine < |ep.timers|
  {
    var m := a.machine;
    && m < |ep'.actions| && m < |ep'.timers|
    && ep' == ep.(actions := ep.actions[m := ep'.actions[m]], timers := ep.timers[m := ep'.timers[m]],
                  queue := ep'.queue)
    && SlotsAnswered(ep.actions[m], ep.timers[m], ep'.actions[m], ep'.timers[m], a, now, lag)
    && if SetsTimer(ep.timers[m], a, now)
       then Gained(ep.queue, ep'.queue, Internal, SimEvent(TETimerBegin(m), now, 0, client, false, false, false))
       else ep'.queue == ep.queue
  }

  lemma OneAnswer(s: Sim, client: bool, a: TriggerAction, now: int, lag: nat)
    requires a.machine < |At(s, client).actions| == |At(s, client).timers|
    ensures var r := Perform1(s, client, a, now, lag);
            OnlySide(s, r, client, 0) && Answered(At(s, client), At(r, client), client, a, now, lag)
  {
    var ep := At(s, client);
    assert ep.actions[a.machine := ep.actions[a.machine]] == ep.actions;
    assert ep.timers[a.machine := ep.timers[a.machine]] == ep.timers;
  }

  /** The beginnings of timers that the answers from k on set, in their order. */
  function Begins(timers: seq<Option<int>>, client: bool, actions: seq<TriggerAction>, k: nat, now: int): seq<SimEvent>
    requires OnePerMachine(actions, |timers|) && k <= |actions|
    decreases |actions| - k
  {
    if k == |actions| then []
    else
      var m := actions[k].machine;
      (if SetsTimer(timers[m], actions[k], now)
       then [SimEvent(TETimerBegin(m), now, 0, client, false, false, false)] else [])
      + Begins(timers, client, actions, k + 1, now)
  }

  /** No answer from k on is for machine m. */
  ghost predicate Unanswered(actions: seq<TriggerAction>, k: nat, m: nat) {
    forall i :: k <= i < |actions| ==> actions[i].machine != m
  }

  /** The answers from k on were performed: each machine's slots by its own answer, all others as they were. */
  ghost predicate AllAnswered(ep: Endpoint, ep': Endpoint, client: bool, actions: seq<TriggerAction>, k: nat,
                              now: int, lag: nat)
    requires Fits(ep, actions) && k <= |actions|
  {
    && |ep'.actions| == |ep.actions| && |ep'.timers| == |ep.timers|
    && ep' == ep.(actions := ep'.actions, timers := ep'.timers, queue := ep'.queue)
    && (forall i :: k <= i < |actions| ==>
          var m := actions[i].machine;
          SlotsAnswered(ep.actions[m], ep.timers[m], ep'.actions[m], ep'.timers[m], actions[i], now, lag))
    && (forall m :: 0 <= m < |ep.actions| && Unanswered(actions, k, m) ==>
          ep'.actions[m] == ep.actions[m] && ep'.timers[m] == ep.timers[m])
    && ep'.queue == ep.queue.(internal := ep'.queue.internal)
    && ep'.queue.internal.items == ep.queue.internal.items + Begins(ep.timers, client, actions, k, now)
  }

  lemma {:induction false} BeginsElsewhere(timers: seq<Option<int>>, timers': seq<Option<int>>, client: bool,
                                           actions: seq<TriggerAction>, k: nat, now: int)
    requires |timers'| == |timers| && OnePerMachine(actions, |timers|) && k <= |actions|
    requires forall i :: k <= i < |actions| ==> timers'[actions[i].machine] == timers[actions[i].machine]
    ensures Begins(timers', client, actions, k, now) == Begins(timers, client, actions, k, now)
    decreases |actions| - k
  {
    if k < |actions| {
      BeginsElsewhere(timers, timers', client, actions, k + 1, now);
    }
  }

  lemma {:induction false} AnswersFrom(s: Sim, client: bool, actions: seq<TriggerAction>, k: nat, now: int, lag: nat)
    requires Fits(At(s, client), actions) && k <= |actions|
    ensures var r := PerformFrom(s, client, actions, k, now, lag);
            OnlySide(s, r, client, 0) && AllAnswered(At(s, client), At(r, client), client, actions, k, now, lag)
    decreases |actions| - k
  {
    hide Perform1, SlotsAnswered, SetsTimer;
    if k < |actions| {
      OneAnswer(s, client, actions[k], now, lag);
      var s1 := Perform1(s, client, actions[k], now, lag);
      AnswersFrom(s1, client, actions, k + 1, now, lag);
      BeginsElsewhere(At(s, client).timers, At(s1, client).timers, client, actions, k + 1, now);
      var r := PerformFrom(s1, client, actions, k + 1, now, lag);
      OneMoreAnswer(At(s, client), At(s1, client), At(r, client), client, actions, k, now, lag);
    } else {
      NoMoreAnswers(At(s, client), client, actions, now, lag);
    }
  }

  lemma NoMoreAnswers(ep: Endpoint, client: bool, actions: seq<TriggerAction>, now: int, lag: nat)
    requires Fits(ep, actions)
    ensures AllAnswered(ep, ep, client, actions, |actions|, now, lag)
  {
  }

  lemma OneMoreBegin(ep: Endpoint, mid: Endpoint, ep': Endpoint, client: bool, actions: seq<TriggerAction>, k: nat,
                     now: int, lag: nat)
    requires Fits(ep, actions) && k < |actions| && Fits(mid, actions)
    requires Answered(ep, mid, client, actions[k], now, lag)
    requires AllAnswered(mid, ep', client, actions, k + 1, now, lag)
    requires Begins(mid.timers, client, actions, k + 1, now) == Begins(ep.timers, client, actions, k + 1, now)
    ensures ep'.queue == ep.queue.(internal := ep'.queue.internal)
    ensures ep'.queue.internal.items == ep.queue.internal.items + Begins(ep.timers, client, actions, k, now)
  {
    hide SlotsAnswered, SetsTimer, Unanswered;
  }

  lemma OneMoreAnswer(ep: Endpoint, mid: Endpoint, ep': Endpoint, client: bool, actions: seq<TriggerAction>, k: nat,
                      now: int, lag: nat)
    requires Fits(ep, actions) && k < |actions| && Fits(mid, actions)
    requires Answered(ep, mid, client, actions[k], now, lag)
    requires AllAnswered(mid, ep', client, actions, k + 1, now, lag)
    requires Begins(mid.timers, client, actions, k + 1, now) == Begins(ep.timers, client, actions, k + 1, now)
    ensures AllAnswered(ep, ep', client, actions, k, now, lag)
  {
    hide SlotsAnswered, SetsTimer, Begins, Gained;
    OneMoreBegin(ep, mid, ep', client, actions, k, now, lag);
    var m := actions[k].machine;
    assert Unanswered(actions, k + 1, m);
    forall i | k < i < |actions|
      ensures mid.actions[actions[i].machine] == ep.actions[actions[i].machine]
      ensures mid.timers[actions[i].machine] == ep.timers[actions[i].machine]
    {
      assert actions[i].machine != m;
    }
    forall j | 0 <= j < |ep.actions| && Unanswered(actions, k, j)
      ensures Unanswered(actions, k + 1, j) && j != m
    {
      assert actions[k].machine != j;
    }
  }

  /**
   After the framework's answer every machine's slots are as its one action asks, at the time of
   the event and with one lag for all actions; machines without an action keep theirs. Exactly the
   timers that were set are queued to begin.
   */
  lemma AnswersPerformed(s: Sim, client: bool, now: int, actions: seq<TriggerAction>)
    requires Fits(At(s, client), actions)
    ensures var r := TriggerUpdate(s, client, now, actions);
            && OnlySide(s, r, client, 1)
            && AllAnswered(At(s, client), At(r, client), client, actions, 0, now, s.lags(s.drawn))
  {
    hide PerformFrom, AllAnswered;
    var (lag, s1) := Lag(s);
    AnswersFrom(s1, client, actions, 0, now, lag);
  }

  // ---------- The trace and the stops ----------

  /** The time that the trace shows for an event and for what the network makes of it is the same. */
  lemma TracedAlike(e: SimEvent, i: nat)
    ensures e.event == TENormalSent && !e.padding ==> Traced(e).time == Traced(e.(event := TETunnelSent)).time
    ensures e.event == TEPaddingSent(i) && e.padding ==> Traced(e).time == Traced(e.(event := TETunnelSent)).time
    ensures e.event == TETunnelRecv ==>
              && Traced(e).time == Traced(e.(event := TENormalRecv)).time
              && Traced(e).time == Traced(e.(event := TEPaddingRecv)).time
    ensures Traced(e) == e.(time := Traced(e).time)
  {
  }

  /** The trace shows a trace packet when it was sent, without the lag of its report, and padding with it. */
  lemma TracedAsSent(t: int, lag: nat, client: bool, i: nat, bypass: bool, replace: bool)
    ensures Traced(SimEvent(TENormalSent, t + lag, lag, client, false, false, false)).time == t
    ensures Traced(SimEvent(TEPaddingSent(i), t, lag, client, true, bypass, replace)).time == t + lag
    ensures Traced(SimEvent(TETunnelRecv, t + lag, lag, client, false, bypass, replace)).time == t
  {
  }

  /**
   One more line of a trace: a packet sent goes to the client's heap, a packet received to the
   server's, earlier by the way. Each direction keeps the largest number of packets within 100 ms.
   */
  lemma ParsedLine(lines: seq<Traces.Line>, line: Traces.Line, x: Traces.Setting)
    ensures var p, r := Traces.Parse(lines, x), Traces.Parse(lines + [line], x);
            var lag := x.lags(p.drawn);
            var t := x.start + line.time;
            match line.direction
            case Sent =>
              && r.client.items == p.client.items + [SimEvent(TENormalSent, t + lag, lag, true, false, false, false)]
              && r.sent == AddToWindow(p.sent, t, 100_000_000) && r.mostSent == Max(p.mostSent, |r.sent|)
              && r == p.(client := r.client, drawn := p.drawn + 1, sent := r.sent, mostSent := r.mostSent)
            case Received =>
              && r.server.items
                 == p.server.items + [SimEvent(TENormalSent, t - x.delay + lag, lag, false, false, false, false)]
              && r.received == AddToWindow(p.received, t, 100_000_000)
              && r.mostReceived == Max(p.mostReceived, |r.received|)
              && r == p.(server := r.server, drawn := p.drawn + 1, received := r.received,
                         mostReceived := r.mostReceived)
            case Ignored => r == p
  {
    assert (lines + [line])[..|lines|] == lines;
    hide AddToWindow;
  }

  ghost predicate Quiet<T>(slots: seq<Option<T>>, machines: nat) {
    |slots| == machines && forall i :: 0 <= i < machines ==> slots[i] == None
  }

  /** An endpoint that has only trace packets: no slot is set, nothing is blocked or owed. */
  ghost predicate Unused(ep: Endpoint, machines: nat) {
    && Quiet(ep.actions, machines) && Quiet(ep.timers, machines)
    && ep.until == None && !ep.bypassable && ep.sum == 0 && ep.window == []
    && ep.queue.blocking.items == ep.queue.bypassable.items == ep.queue.internal.items == []
  }

  /**
   Where a simulation starts: at its first packet, with unused endpoints, and with a network that
   lets through the given rate, or else ten times the busiest 100 ms of the trace, and delays every
   further packet of a second by a second over that rate.
   */
  lemma StartsWith(p: Traces.Parsed, pps: Option<nat>, m: nat, n: nat, x: Traces.Setting)
    requires Traces.Start(p, pps, m, n, x).Some?
    ensures var l := Traces.Start(p, pps, m, n, x).value;
            var rate := if pps.Some? then pps.value else 10 * Max(p.mostSent, p.mostReceived);
            && rate % 0x1_0000_0000 > 0
            && l.sim.net == Net(x.delay, 1_000_000_000, rate, 1_000_000_000 / (rate % 0x1_0000_0000))
            && Unused(l.sim.client, m) && l.sim.client.queue.base == p.client
            && Unused(l.sim.server, n) && l.sim.server.queue.base == p.server
            && l.sim.pending.items == [] && l.sim.pushed == 0 && l.sim.lags == x.lags && l.sim.drawn == p.drawn
            && l.iterations == 0 && l.trace == l.done == [] && l.gates == []
            && (forall e :: e in p.client.items || e in p.server.items ==> l.now <= e.time)
            && (exists e :: (e in p.client.items || e in p.server.items) && e.time == l.now)
  {
    hide Peek;
    if p.client.items != [] {
      TopIsSoonest(p.client);
    }
    if p.server.items != [] {
      TopIsSoonest(p.server);
    }
    PeekThere(p.client);
    PeekThere(p.server);
    var l := Traces.Start(p, pps, m, n, x).value;
    assert exists e :: (e in p.client.items || e in p.server.items) && e.time == l.now by {
      var e := if Peek(p.client).Some? && Peek(p.client).value.time == l.now then Peek(p.client).value
               else Peek(p.server).value;
      assert e.time == l.now;
    }
  }

  /** The loop has reached its limits, or nothing of the trace is left and it is not to go on. */
  predicate Done(args: Args, l: Loop) {
    || (args.maxTraceLength != 0 && args.maxTraceLength <= |l.trace|)
    || (args.maxIterations != 0 && args.maxIterations <= l.iterations)
    || (!args.continueAfter && NoNormalPackets(l.sim.client.queue) && NoNormalPackets(l.sim.server.queue))
  }

  /**
   One iteration, by what the scheduler picks. Without an event the loop stops and nothing changes
   but the state of the scheduler. An event in the past is a panic. Otherwise the clock goes to the
   event, the network and then the answer of its own endpoint are performed, the event is added to
   the trace if the filters let it, and the loop stops exactly if it is done.
   */
  lemma IterationDone(args: Args, l: Loop, a: Answer)
    requires Lawful(l.sim, a)
    ensures var r := Iterate(args, l, a);
            match PickNext(l.sim, l.now)
            case Bug => r.Crashed?
            case Idle(s) => r == Stopped(l.(sim := s))
            case Next(s, e) =>
              if e.time < l.now then r.Crashed?
              else
                && !r.Crashed?
                && (r.Stopped? <==> Done(args, r.loop))
                && r.loop.now == e.time && r.loop.iterations == l.iterations + 1 && r.loop.done == l.done + [e]
                && r.loop.gates == l.gates + [Gate(At(s, e.client).until.Some?, At(s, e.client).bypassable)]
                && (r.loop.trace == if (args.onlyNetwork && e.event != TETunnelSent && e.event != TETunnelRecv)
                                       || (args.onlyClient && !e.client)
                                    then l.trace else l.trace + [Traced(e)])
                && Fits(At(NetworkStack(s, e, e.time).0, e.client), For(a, e.client))
                && r.loop.sim == TriggerUpdate(NetworkStack(s, e, e.time).0, e.client, e.time,
                                               if e.client then a.client else a.server)
  {
    hide PickNext, NetworkStack, TriggerUpdate, Traced, NoNormalPackets, Fits;
    PickKeepsMachines(l.sim, l.now);
    var p := PickNext(l.sim, l.now);
    if p.Next? {
      NetworkKeepsMachines(p.sim, p.event, p.event.time);
      PacketGoesOn(p.sim, p.event, p.event.time);
      LawfulAfter(l.sim, p.sim, NetworkStack(p.sim, p.event, p.event.time).0, a, p.event.client);
    }
  }

  lemma LawfulAfter(s: Sim, p: Sim, q: Sim, a: Answer, client: bool)
    requires Lawful(s, a) && SameMachines(s, p) && SameMachines(p, q)
    ensures Lawful(q, a) && Fits(At(q, client), For(a, client))
  {
  }
}
