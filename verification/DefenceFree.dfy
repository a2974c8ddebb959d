/**
 Without defences the simulator changes nothing: for every non-empty trace sorted by time,
 without machines, integration lags or a cap, the client sees exactly the packets of the
 trace, at their times and in their directions. The bottleneck never delays a packet, because
 a second is covered by ten windows of 100 ms.
 */
module DefenceFree {
  import opened Prelude
  import opened Machines
  import opened SimEvents
  import opened Queues
  import opened SimState
  import opened Selector
  import opened Scheduler
  import opened Timing
  import opened Simulator
  import opened SoundRuns
  import opened Conservation
  import opened Windows
  import opened Traces

  // ---------- The trace ----------

  ghost predicate SortedLines(lines: seq<Line>) {
    forall i, j :: 0 <= i < j < |lines| ==> lines[i].time <= lines[j].time
  }

  /** The times of the lines in one direction, moved by an offset. */
  function TimesOf(lines: seq<Line>, d: Direction, offset: int): seq<int> {
    if lines == [] then []
    else
      var before, last := TimesOf(lines[..|lines| - 1], d, offset), lines[|lines| - 1];
      if last.direction == d then before + [offset + last.time] else before
  }

  /** The packets of the trace at time t as the client sees them. */
  function Raw(lines: seq<Line>, d: Direction, start: int, t: int): nat {
    CountIn(TimesOf(lines, d, start), t, t)
  }

  lemma {:induction false} TimesSorted(lines: seq<Line>, d: Direction, offset: int)
    requires SortedLines(lines)
    ensures Windows.Nondecreasing(TimesOf(lines, d, offset))
    ensures lines != [] ==> forall i :: 0 <= i < |TimesOf(lines, d, offset)| ==>
              offset <= TimesOf(lines, d, offset)[i] <= offset + lines[|lines| - 1].time
  {
    if lines != [] {
      TimesSorted(lines[..|lines| - 1], d, offset);
    }
  }

  lemma {:induction false} CountShift(lines: seq<Line>, d: Direction, o: int, o': int, lo: int, hi: int)
    ensures CountIn(TimesOf(lines, d, o), lo, hi) == CountIn(TimesOf(lines, d, o'), lo + o' - o, hi + o' - o)
  {
    if lines != [] {
      var before, last := lines[..|lines| - 1], lines[|lines| - 1];
      CountShift(before, d, o, o', lo, hi);
      if last.direction == d {
        CountInAppend(TimesOf(before, d, o), o + last.time, lo, hi);
        CountInAppend(TimesOf(before, d, o'), o' + last.time, lo + o' - o, hi + o' - o);
      }
    }
  }

  // ---------- What parsing knows ----------

  /** The largest count bounds every window that ends at an entry. */
  ghost predicate Covers(ts: seq<int>, most: nat) {
    forall i :: 0 <= i < |ts| ==> WindowAt(ts, PARSE_WINDOW, ts[i]) <= most
  }

  lemma CoversAppend(ts: seq<int>, t: int, most: nat)
    requires Windows.Nondecreasing(ts + [t]) && Covers(ts, most)
    ensures var n := |WindowAfter(ts + [t], PARSE_WINDOW)|;
            Covers(ts + [t], if n > most then n else most)
  {
    var us := ts + [t];
    WindowIsExact(us, PARSE_WINDOW);
    forall i | 0 <= i < |us|
      ensures WindowAt(us, PARSE_WINDOW, us[i]) <= Max(|WindowAfter(us, PARSE_WINDOW)|, most)
    {
      if us[i] < t {
        assert us[i] == ts[i] && WindowAt(ts, PARSE_WINDOW, ts[i]) <= most;
        CountInAppend(ts, t, us[i] - PARSE_WINDOW, us[i]);
      }
    }
  }

  /** The parsed state, in terms of the lines; `lags` is zero. */
  ghost predicate ParsedWell(p: Parsed, lines: seq<Line>, x: Setting) {
    && p.sent == WindowAfter(TimesOf(lines, Sent, x.start), PARSE_WINDOW)
    && p.received == WindowAfter(TimesOf(lines, Received, x.start), PARSE_WINDOW)
    && Covers(TimesOf(lines, Sent, x.start), p.mostSent)
    && Covers(TimesOf(lines, Received, x.start), p.mostReceived)
    && (forall e :: e in p.client.items || e in p.server.items ==> e.delay == 0)
    && |p.client.items| + |p.server.items| <= |lines|
  }

  lemma NothingParsed(x: Setting)
    ensures ParsedWell(Parse([], x), [], x)
  {
  }

  lemma WindowAppend(ts: seq<int>, t: int)
    ensures WindowAfter(ts + [t], PARSE_WINDOW) == AddToWindow(WindowAfter(ts, PARSE_WINDOW), t, PARSE_WINDOW)
  {
    assert (ts + [t])[..|ts|] == ts;
  }

  lemma {:induction false} ParseWell(lines: seq<Line>, x: Setting)
    requires SortedLines(lines) && forall n :: x.lags(n) == 0
    ensures ParsedWell(Parse(lines, x), lines, x)
  {
    hide CountIn, AddToWindow, WindowAfter, Covers, TimesOf;
    if lines == [] {
      NothingParsed(x);
    } else {
      var before, last := lines[..|lines| - 1], lines[|lines| - 1];
      ParseWell(before, x);
      TimesStep(lines, Sent, x.start);
      TimesStep(lines, Received, x.start);
      if last.direction != Ignored {
        TimesSorted(lines, last.direction, x.start);
        var ts, t := TimesOf(before, last.direction, x.start), x.start + last.time;
        WindowAppend(ts, t);
        var p := Parse(before, x);
        CoversAppend(ts, t, if last.direction == Sent then p.mostSent else p.mostReceived);
      }
    }
  }

  function BaseOf(p: Parsed, client: bool): Heap {
    if client then p.client else p.server
  }

  function DirectionOf(client: bool): Direction {
    if client then Sent else Received
  }

  /** The client sends its packets when the trace says, the server one network delay before. */
  function OffsetOf(x: Setting, client: bool): int {
    if client then x.start else x.start - x.delay
  }

  lemma TracePacketCounts(time: int, client: bool, t: int)
    ensures One(TracePacket(time, 0, client), Sends(client, t)) == if time == t then 1 else 0
  {
  }

  /** How often a time is among the parsed packets of an endpoint. */
  lemma {:induction false} ParseCounts(lines: seq<Line>, x: Setting, client: bool, t: int)
    requires forall n :: x.lags(n) == 0
    ensures Tally(BaseOf(Parse(lines, x), client).items, Sends(client, t))
         == CountIn(TimesOf(lines, DirectionOf(client), OffsetOf(x, client)), t, t)
  {
    hide One, AddToWindow, CountIn, TimesOf, Tally;
    if lines != [] {
      var before, last := lines[..|lines| - 1], lines[|lines| - 1];
      ParseCounts(before, x, client, t);
      TimesStep(lines, DirectionOf(client), OffsetOf(x, client));
      if last.direction == DirectionOf(client) {
        var time := OffsetOf(x, client) + last.time;
        TracePacketCounts(time, client, t);
        TallyAppend(BaseOf(Parse(before, x), client).items, TracePacket(time, 0, client), Sends(client, t));
        CountInAppend(TimesOf(before, DirectionOf(client), OffsetOf(x, client)), time, t, t);
      }
    } else {
      NothingCounts(t, Sends(client, t));
    }
  }

  lemma TimesStep(lines: seq<Line>, d: Direction, offset: int)
    requires lines != []
    ensures var before, last := TimesOf(lines[..|lines| - 1], d, offset), lines[|lines| - 1];
            TimesOf(lines, d, offset) == if last.direction == d then before + [offset + last.time] else before
  {
  }

  lemma NothingCounts(t: int, k: Kind)
    ensures Tally([], k) == 0 && CountIn([], t, t) == 0 && forall d, o :: TimesOf([], d, o) == []
  {
  }

  lemma {:induction false} TallyEach(items: seq<SimEvent>, k: Kind, n: nat)
    requires forall e :: e in items ==> One(e, k) == n
    ensures Tally(items, k) == n * |items|
  {
    if items != [] {
      TallyEach(items[..|items| - 1], k, n);
    }
  }

  /** The key to the bottleneck: no second holds more than ten times the largest 100 ms count. */
  lemma SecondIsTenWindows(ts: seq<int>, most: nat, floor: int, x: int)
    requires Covers(ts, most) && forall i :: 0 <= i < |ts| ==> floor < ts[i]
    ensures CountIn(ts, x - SECOND, x) <= 10 * most
  {
    forall y
      ensures WindowAt(ts, PARSE_WINDOW, y) <= most
    {
      AnyWindow(ts, PARSE_WINDOW, most, floor, y);
    }
    ManyWindows(ts, PARSE_WINDOW, most, 10, x);
    CountGrows(ts, x - SECOND, x, x - 10 * (PARSE_WINDOW + 1) + 1, x);
  }

  // ---------- The loop without defences ----------

  /** The times at which packets of an endpoint entered the tunnel, in order. */
  function Entered(done: seq<SimEvent>, client: bool): seq<int> {
    if done == [] then []
    else
      var before, e := Entered(done[..|done| - 1], client), done[|done| - 1];
      if e.client == client && e.event == TETunnelSent then before + [e.time] else before
  }

  lemma EnteredAppend(done: seq<SimEvent>, e: SimEvent, client: bool)
    ensures var before := Entered(done, client);
            Entered(done + [e], client)
            == if e.client == client && e.event == TETunnelSent then before + [e.time] else before
  {
    assert (done + [e])[..|done|] == done;
  }

  lemma {:induction false} EnteredSorted(done: seq<SimEvent>, client: bool)
    requires forall i, j :: 0 <= i < j < |done| ==> done[i].time <= done[j].time
    ensures Windows.Nondecreasing(Entered(done, client))
    ensures done != [] ==> forall i :: 0 <= i < |Entered(done, client)| ==>
              Entered(done, client)[i] <= done[|done| - 1].time
  {
    if done != [] {
      EnteredSorted(done[..|done| - 1], client);
    }
  }

  lemma {:induction false} EnteredCounts(done: seq<SimEvent>, client: bool, t: int)
    ensures CountIn(Entered(done, client), t, t) == Tally(done, Enters(client, t))
  {
    if done != [] {
      var before, e := done[..|done| - 1], done[|done| - 1];
      EnteredCounts(before, client, t);
      if e.client == client && e.event == TETunnelSent {
        CountInAppend(Entered(before, client), e.time, t, t);
      }
    }
  }

  /** Pointwise fewer means fewer in any interval. */
  lemma {:induction false} CountPointwise(a: seq<int>, b: seq<int>, lo: int, hi: int)
    requires forall t :: CountIn(a, t, t) <= CountIn(b, t, t)
    ensures CountIn(a, lo, hi) <= CountIn(b, lo, hi)
    decreases if hi >= lo then hi - lo + 1 else 0
  {
    if hi < lo {
      CountNone(a, lo, hi);
    } else {
      CountPointwise(a, b, lo, hi - 1);
      CountSplit(a, lo, hi - 1, hi);
      CountSplit(b, lo, hi - 1, hi);
      assert CountIn(a, hi, hi) <= CountIn(b, hi, hi);
    }
  }

  /** An endpoint without machines or blocking, whose packets carry no lag and wait for nothing. */
  ghost predicate PlainSide(ep: Endpoint, now: int) {
    && ep.actions == [] && ep.timers == [] && ep.until.None? && ep.sum == 0
    && ep.queue.bypassable.items == []
    && (forall e :: e in ep.queue.base.items ==> e.delay == 0)
    && (forall e :: e in ep.queue.blocking.items ==> e.delay == 0 && !e.padding && e.time == now)
    && (forall e :: e in ep.queue.internal.items ==>
          e.delay == 0 && !e.padding && (e.event == TETunnelRecv || e.event == TENormalRecv))
  }

  ghost predicate PlainSim(s: Sim, now: int) {
    && PlainSide(s.client, now) && PlainSide(s.server, now)
    && s.pending.items == [] && (forall n :: s.lags(n) == 0)
    && s.net.window == SECOND
  }

  /** The times of all packets that an endpoint sends, over a network with that delay. */
  datatype Sending = Sending(client: seq<int>, server: seq<int>, delay: nat)

  function Times(x: Sending, client: bool): seq<int> {
    if client then x.client else x.server
  }

  /** Packets on their way and packets in the tunnel add up to the trace; none is ever delayed. */
  ghost predicate Accounts(s: Sim, done: seq<SimEvent>, x: Sending) {
    && (forall c: bool, t: int {:trigger Sends(c, t)} ::
          Total(s, Sends(c, t)) + Tally(done, Enters(c, t)) == CountIn(Times(x, c), t, t))
    && (forall t: int {:trigger Comes(t)} ::
          Total(s, Comes(t)) + Tally(done, Comes(t)) == Tally(done, Enters(false, t - s.net.delay)))
    && s.net.delay == x.delay
    && s.client.window == WindowAfter(Entered(done, true), SECOND)
    && s.server.window == WindowAfter(Entered(done, false), SECOND)
  }

  ghost predicate WithinLimit(x: Sending, limit: nat) {
    && (forall t :: WindowAt(x.client, SECOND, t) <= limit)
    && (forall t :: WindowAt(x.server, SECOND, t) <= limit)
  }

  /** The trace shows what the client has seen. */
  ghost predicate Shown(trace: seq<SimEvent>, done: seq<SimEvent>) {
    forall t: int {:trigger Comes(t)} ::
      Tally(trace, Enters(true, t)) == Tally(done, Enters(true, t)) && Tally(trace, Comes(t)) == Tally(done, Comes(t))
  }

  ghost predicate Plain(l: Loop, x: Sending) {
    && SoundLoop(l) && PlainSim(l.sim, l.now)
    && Accounts(l.sim, l.done, x) && Shown(l.trace, l.done)
    && WithinLimit(x, l.sim.net.limit)
  }

  // ---------- One iteration: the event ----------

  /** What an iteration takes out of the queues: the top of a heap, as it is. */
  ghost predicate Taken(s: Sim, r: Sim, e: SimEvent, client: bool, id: Queue) {
    var ep := At(s, client);
    && Select(ep.queue, id).items != []
    && e == Peek(Select(ep.queue, id)).value && e.client == client && Home(e) == id
    && r == Put(s, client, ep.(queue := Dequeue(ep.queue, id, 0).0))
  }

  lemma PlainWaits(s: Sim, now: int)
    requires PlainSim(s, now)
    ensures var w := WaitsAt(s, now);
            && w.action.Never? && w.timer.Never? && w.unblock.Never? && w.delay.Never?
            && w.queue == PeekQueue(s, Never, now)
  {
    hide PeekQueue;
  }

  /** A picked packet goes at its own time; while packets wait for the tunnel, that is now. */
  lemma PlainTime(s: Sim, now: int, p: Pick)
    requires Sound(s, now) && PlainSim(s, now) && p.wait.In? && Selector.Names(s, p, now)
    requires NoneSoonerUnlessBypassing(s.client, now, p.wait.ns) && NoneSoonerUnlessBypassing(s.server, now, p.wait.ns)
    ensures Peek(Select(At(s, p.client).queue, p.queue)).value.time == now + p.wait.ns
    ensures s.client.queue.blocking.items != [] || s.server.queue.blocking.items != [] ==> p.wait.ns == 0
  {
    hide SoundSide, Peek, Tally;
    SideOf(s, p.client, now);
    TopTimely(At(s, p.client), p.client, now, p.queue);
    TopIn(Select(At(s, p.client).queue, p.queue));
    if s.client.queue.blocking.items != [] {
      assert p.wait.ns <= WaitOf(s.client, Blocking, s.client.queue.blocking.items[0], now);
    }
    if s.server.queue.blocking.items != [] {
      assert p.wait.ns <= WaitOf(s.server, Blocking, s.server.queue.blocking.items[0], now);
    }
  }

  lemma TopIn(h: Heap)
    requires h.items != []
    ensures Peek(h).Some? && Peek(h).value in h.items
  {
  }

  lemma PlainTake(s: Sim, now: int, p: Pick)
    requires Sound(s, now) && PlainSim(s, now) && p.wait.In? && Selector.Names(s, p, now)
    requires Peek(Select(At(s, p.client).queue, p.queue)).value.time == now + p.wait.ns
    ensures TakeQueued(s, p, now).Yield?
    ensures Taken(s, TakeQueued(s, p, now).sim, TakeQueued(s, p, now).event, p.client, p.queue)
    ensures TakeQueued(s, p, now).event.time == now + p.wait.ns
  {
    hide SoundSide, Peek, Pop;
    TakeShape(s, p, now);
    SideOf(s, p.client, now);
    TopTimely(At(s, p.client), p.client, now, p.queue);
  }

  /** The scheduler in a plain state: idle when nothing is queued, else the first event at its time. */
  lemma PlainPick(s: Sim, now: int) returns (client: bool, id: Queue)
    requires Sound(s, now) && PlainSim(s, now)
    ensures var n := PickNext(s, now);
            if Size(s.client.queue) + Size(s.server.queue) == 0 then n == Idle(s)
            else
              && n.Next? && Taken(s, n.sim, n.event, client, id) && now <= n.event.time
              && (s.client.queue.blocking.items != [] || s.server.queue.blocking.items != [] ==> n.event.time == now)
  {
    hide PlainSim, WaitsAt, PeekQueue, Sound, TakeQueued, Taken, Selector.Names, NoneSoonerUnlessBypassing,
         NoneSoonerAtAll, Typed, Overtaken, Searches;
    PlainWaits(s, now);
    TypedOf(s, now);
    SelectorRefinesMinimum(s, Never, now);
    var p := PeekQueue(s, Never, now);
    client, id := p.client, p.queue;
    if p.wait.In? {
      PlainTime(s, now, p);
      PlainTake(s, now, p);
      NonEmptyPick(s, now, p);
    } else {
      assert Choose(WaitsAt(s, now)).NoChoice?;
    }
  }

  lemma TypedOf(s: Sim, now: int)
    requires Sound(s, now)
    ensures TypedSim(s)
  {
  }

  lemma NonEmptyPick(s: Sim, now: int, p: Pick)
    requires p.wait.In? && Selector.Names(s, p, now)
    ensures Size(s.client.queue) + Size(s.server.queue) > 0
  {
  }

  // ---------- One iteration: the network ----------

  /** The events that a plain run processes. */
  predicate Ordinary(e: SimEvent) {
    && e.delay == 0 && !e.padding
    && (e.event == TENormalSent || e.event == TETunnelSent || e.event == TETunnelRecv || e.event == TENormalRecv)
  }

  /** The next stage of a packet. */
  function Stage(e: SimEvent, delay: nat): Option<SimEvent> {
    match e.event
    case TENormalSent => Some(Packet(TETunnelSent, e.time, 0, e.client, false, false, false))
    case TETunnelSent => Some(Packet(TETunnelRecv, e.time + delay, 0, !e.client, false, false, false))
    case TETunnelRecv => Some(Packet(TENormalRecv, e.time, 0, e.client, false, false, false))
    case _ => None
  }

  function Staged(s: Sim, e: SimEvent): Sim {
    var stage := Stage(e, s.net.delay);
    if stage.Some? then PushEvent(s, stage.value) else s
  }

  /** From s to r, besides the queues, only the window of a packet entering the tunnel has changed. */
  ghost predicate OnlyWindow(s: Sim, r: Sim, e: SimEvent) {
    && r.client == s.client.(queue := r.client.queue, window := r.client.window)
    && r.server == s.server.(queue := r.server.queue, window := r.server.window)
    && r.pending == s.pending && r.lags == s.lags && r.net == s.net
    && r.client.window == (if e.event == TETunnelSent && e.client
                           then AddToWindow(s.client.window, e.time, s.net.window) else s.client.window)
    && r.server.window == (if e.event == TETunnelSent && !e.client
                           then AddToWindow(s.server.window, e.time, s.net.window) else s.server.window)
  }

  lemma PlainNetwork(s: Sim, e: SimEvent)
    requires Ordinary(e) && forall n :: s.lags(n) == 0
    requires e.event == TETunnelSent ==> |AddToWindow(At(s, e.client).window, e.time, s.net.window)| <= s.net.limit
    ensures var r := NetworkStack(s, e, e.time).0;
            && SameQueues(r, Staged(s, e)) && OnlyWindow(s, r, e)
            && (NetworkStack(s, e, e.time).1 <==> e.event == TETunnelSent || e.event == TETunnelRecv)
  {
    hide Enqueue, PeekBlocking, AddToWindow, PropagatesDelay, PushDelay;
  }

  lemma PlainProcess(args: Args, l: Loop, s: Sim, e: SimEvent, a: Answer)
    requires Lawful(NetworkStack(s, e, e.time).0, a) && For(a, e.client) == []
    requires Ordinary(e) && forall n :: s.lags(n) == 0
    requires e.event == TETunnelSent ==> |AddToWindow(At(s, e.client).window, e.time, s.net.window)| <= s.net.limit
    ensures var l' := Process(args, l, s, e, a);
            && SameQueues(l'.sim, Staged(s, e)) && OnlyWindow(s, l'.sim, e)
            && l'.now == e.time && l'.done == l.done + [e]
            && (l'.trace == l.trace + [e]
                || (l'.trace == l.trace && !(e.client && (e.event == TETunnelSent || e.event == TETunnelRecv))))
  {
    hide NetworkStack, OnlyWindow, Staged;
    PlainNetwork(s, e);
    OnlyWindowLag(s, NetworkStack(s, e, e.time).0, e);
    assert Traced(e) == e;
  }

  lemma OnlyWindowLag(s: Sim, r: Sim, e: SimEvent)
    requires OnlyWindow(s, r, e)
    ensures OnlyWindow(s, Lag(r).1, e) && SameQueues(Lag(r).1, r)
  {
  }

  // ---------- One iteration: the accounts ----------

  /** How a packet's next stage balances the event taken out. */
  lemma StageBalances(e: SimEvent, delay: nat, c: bool, t: int)
    requires Ordinary(e)
    ensures var stage := Stage(e, delay);
            && (if stage.Some? then One(stage.value, Sends(c, t)) else 0) + One(e, Enters(c, t)) == One(e, Sends(c, t))
            && (if stage.Some? then One(stage.value, Comes(t)) else 0) == One(e, Enters(false, t - delay))
            && (if stage.Some? then One(stage.value, Effort) else 0) + 1 == One(e, Effort)
  {
  }

  lemma TakenTotal(s: Sim, r: Sim, e: SimEvent, client: bool, id: Queue, k: Kind)
    requires Taken(s, r, e, client, id)
    ensures Total(r, k) + One(e, k) == Total(s, k)
  {
    hide Total, QueueTally, One, Peek, Pop;
    var ep := At(s, client);
    DequeueTally(ep.queue, id, 0, k);
    PutTotal(s, client, ep.(queue := Dequeue(ep.queue, id, 0).0), k);
  }

  lemma StagedTotal(s: Sim, e: SimEvent, r: Sim, k: Kind)
    requires SameQueues(r, Staged(s, e))
    ensures var stage := Stage(e, s.net.delay);
            Total(r, k) == Total(s, k) + (if stage.Some? then One(stage.value, k) else 0)
  {
    hide Total, One, PushEvent;
    SameTotal(r, Staged(s, e), k);
    var stage := Stage(e, s.net.delay);
    if stage.Some? {
      PushTotal(s, stage.value, k);
    }
  }

  /** A packet about to enter is counted in the trace. */
  lemma EnteredWithin(l: Loop, x: Sending, r: Sim, e: SimEvent, client: bool, id: Queue, t: int)
    requires Accounts(l.sim, l.done, x) && Taken(l.sim, r, e, client, id) && e.event == TETunnelSent
    ensures CountIn(Entered(l.done + [e], client), t, t) <= CountIn(Times(x, client), t, t)
  {
    assert One(e, Enters(client, t)) == One(e, Sends(client, t));
    assert Total(l.sim, Sends(client, t)) + Tally(l.done, Enters(client, t)) == CountIn(Times(x, client), t, t);
    EnteredOnce(l, r, e, client, id, t);
  }

  lemma EnteredOnce(l: Loop, r: Sim, e: SimEvent, client: bool, id: Queue, t: int)
    requires Taken(l.sim, r, e, client, id)
    ensures CountIn(Entered(l.done + [e], client), t, t) == Tally(l.done, Enters(client, t)) + One(e, Enters(client, t))
    ensures One(e, Sends(client, t)) <= Total(l.sim, Sends(client, t))
  {
    hide Taken, Tally, CountIn, Total, One, Entered;
    EnteredCounts(l.done + [e], client, t);
    TallyAppend(l.done, e, Enters(client, t));
    TakenTotal(l.sim, r, e, client, id, Sends(client, t));
  }

  /** So the window of the second that ends now stays within the limit. */
  lemma WindowBelowLimit(l: Loop, x: Sending, r: Sim, e: SimEvent, client: bool, id: Queue)
    requires Plain(l, x) && Taken(l.sim, r, e, client, id) && e.event == TETunnelSent && l.now <= e.time
    ensures |AddToWindow(At(r, client).window, e.time, r.net.window)| <= r.net.limit
  {
    hide SoundLoop, PlainSide, Accounts, Shown, Taken, AddToWindow, Entered, WindowAfter, CountIn, WindowAt;
    var entered := Entered(l.done + [e], client);
    WindowOf(l, x, client);
    TakenKeepsWindow(l.sim, r, e, client, id);
    TakenEntered(l, r, e, client, id);
    DoneSorted(l, e);
    EnteredSorted(l.done + [e], client);
    WindowIsExact(entered, SECOND);
    forall t
      ensures CountIn(entered, t, t) <= CountIn(Times(x, client), t, t)
    {
      EnteredWithin(l, x, r, e, client, id, t);
    }
    CountPointwise(entered, Times(x, client), e.time - SECOND, e.time);
    LimitOfSecond(x, l.sim.net.limit, client, e.time);
  }

  lemma WindowOf(l: Loop, x: Sending, client: bool)
    requires Accounts(l.sim, l.done, x)
    ensures At(l.sim, client).window == WindowAfter(Entered(l.done, client), SECOND)
  {
  }

  lemma TakenEntered(l: Loop, r: Sim, e: SimEvent, client: bool, id: Queue)
    requires Taken(l.sim, r, e, client, id) && e.event == TETunnelSent
    ensures var entered := Entered(l.done + [e], client);
            && entered != [] && entered[|entered| - 1] == e.time
            && WindowAfter(entered, SECOND) == AddToWindow(WindowAfter(Entered(l.done, client), SECOND), e.time, SECOND)
  {
    hide WindowAfter;
    EnteredAppend(l.done, e, client);
    WindowStep(Entered(l.done, client), e.time);
  }

  lemma LimitOfSecond(x: Sending, limit: nat, client: bool, t: int)
    requires WithinLimit(x, limit)
    ensures CountIn(Times(x, client), t - SECOND, t) <= limit
  {
    assert WindowAt(Times(x, client), SECOND, t) <= limit;
  }

  lemma DoneSorted(l: Loop, e: SimEvent)
    requires SoundLoop(l) && l.now <= e.time
    ensures forall i, j :: 0 <= i < j < |l.done + [e]| ==> (l.done + [e])[i].time <= (l.done + [e])[j].time
  {
  }

  lemma TakenKeepsWindow(s: Sim, r: Sim, e: SimEvent, client: bool, id: Queue)
    requires Taken(s, r, e, client, id)
    ensures r.client.window == s.client.window && r.server.window == s.server.window
    ensures r.net == s.net && r.lags == s.lags && r.pending == s.pending
  {
  }

  lemma SendsStep(l: Loop, x: Sending, r: Sim, e: SimEvent, client: bool, id: Queue, s': Sim, c: bool, t: int)
    requires Ordinary(e) && Taken(l.sim, r, e, client, id) && SameQueues(s', Staged(r, e))
    ensures Total(s', Sends(c, t)) + Tally(l.done + [e], Enters(c, t))
         == Total(l.sim, Sends(c, t)) + Tally(l.done, Enters(c, t))
  {
    hide *;
    TakenTotal(l.sim, r, e, client, id, Sends(c, t));
    StagedTotal(r, e, s', Sends(c, t));
    StageBalances(e, r.net.delay, c, t);
    TallyAppend(l.done, e, Enters(c, t));
  }

  lemma ComesStep(l: Loop, r: Sim, e: SimEvent, client: bool, id: Queue, s': Sim, t: int)
    requires Ordinary(e) && Taken(l.sim, r, e, client, id) && SameQueues(s', Staged(r, e))
    ensures Total(s', Comes(t)) + Tally(l.done + [e], Comes(t)) - Tally(l.done + [e], Enters(false, t - r.net.delay))
         == Total(l.sim, Comes(t)) + Tally(l.done, Comes(t)) - Tally(l.done, Enters(false, t - r.net.delay))
  {
    hide *;
    TakenTotal(l.sim, r, e, client, id, Comes(t));
    StagedTotal(r, e, s', Comes(t));
    StageBalances(e, r.net.delay, client, t);
    TallyAppend(l.done, e, Comes(t));
    TallyAppend(l.done, e, Enters(false, t - r.net.delay));
  }

  lemma WindowsStep(l: Loop, x: Sending, r: Sim, e: SimEvent, client: bool, id: Queue, s': Sim, c: bool)
    requires Accounts(l.sim, l.done, x) && l.sim.net.window == SECOND
    requires Taken(l.sim, r, e, client, id) && OnlyWindow(r, s', e)
    ensures At(s', c).window == WindowAfter(Entered(l.done + [e], c), SECOND)
    ensures s'.net == l.sim.net
  {
    hide Accounts, Taken, WindowAfter, AddToWindow, Entered;
    WindowOf(l, x, c);
    TakenKeepsWindow(l.sim, r, e, client, id);
    EnteredAppend(l.done, e, c);
    WindowStep(Entered(l.done, c), e.time);
  }

  lemma StepAccounts(l: Loop, x: Sending, r: Sim, e: SimEvent, client: bool, id: Queue, s': Sim)
    requires Accounts(l.sim, l.done, x) && l.sim.net.window == SECOND && Ordinary(e)
    requires Taken(l.sim, r, e, client, id)
    requires SameQueues(s', Staged(r, e)) && OnlyWindow(r, s', e)
    ensures Accounts(s', l.done + [e], x)
  {
    hide Taken, OnlyWindow, SameQueues, Staged, Total, Tally, CountIn, Ordinary, WindowAfter, Entered, Times;
    TakenKeepsWindow(l.sim, r, e, client, id);
    WindowsStep(l, x, r, e, client, id, s', true);
    WindowsStep(l, x, r, e, client, id, s', false);
    forall c: bool, t: int
      ensures Total(s', Sends(c, t)) + Tally(l.done + [e], Enters(c, t)) == CountIn(Times(x, c), t, t)
    {
      SendsStep(l, x, r, e, client, id, s', c, t);
    }
    forall t: int
      ensures Total(s', Comes(t)) + Tally(l.done + [e], Comes(t))
           == Tally(l.done + [e], Enters(false, t - s'.net.delay))
    {
      ComesStep(l, r, e, client, id, s', t);
    }
  }

  lemma WindowStep(entered: seq<int>, t: int)
    ensures WindowAfter(entered + [t], SECOND) == AddToWindow(WindowAfter(entered, SECOND), t, SECOND)
  {
    assert (entered + [t])[..|entered|] == entered;
  }

  lemma StepShown(trace: seq<SimEvent>, done: seq<SimEvent>, trace': seq<SimEvent>, e: SimEvent)
    requires Shown(trace, done)
    requires || trace' == trace + [e]
             || (trace' == trace && !(e.client && (e.event == TETunnelSent || e.event == TETunnelRecv)))
    ensures Shown(trace', done + [e])
  {
    forall t: int
      ensures Tally(trace', Enters(true, t)) == Tally(done + [e], Enters(true, t))
      ensures Tally(trace', Comes(t)) == Tally(done + [e], Comes(t))
    {
      hide Tally;
      assert Tally(trace, Comes(t)) == Tally(done, Comes(t));
      TallyAppend(trace, e, Enters(true, t));
      TallyAppend(trace, e, Comes(t));
      TallyAppend(done, e, Enters(true, t));
      TallyAppend(done, e, Comes(t));
    }
  }

  /** Taking the event and queueing the next stage leaves a plain state at the event's time. */
  lemma StepPlain(s: Sim, now: int, r: Sim, e: SimEvent, client: bool, id: Queue, s': Sim)
    requires Sound(s, now) && PlainSim(s, now) && Taken(s, r, e, client, id) && now <= e.time
    requires s.client.queue.blocking.items != [] || s.server.queue.blocking.items != [] ==> e.time == now
    requires SameQueues(s', Staged(r, e)) && OnlyWindow(r, s', e)
    ensures Ordinary(e) && PlainSim(s', e.time)
  {
    TakenPlain(s, now, r, e, client, id);
    hide Taken, Sound, AddToWindow, Select;
    if Stage(e, r.net.delay).Some? {
      StagePlain(r, e, Stage(e, r.net.delay).value);
    }
  }

  lemma TakenPlain(s: Sim, now: int, r: Sim, e: SimEvent, client: bool, id: Queue)
    requires Sound(s, now) && PlainSim(s, now) && Taken(s, r, e, client, id) && now <= e.time
    requires s.client.queue.blocking.items != [] || s.server.queue.blocking.items != [] ==> e.time == now
    ensures Ordinary(e) && PlainSim(r, e.time)
  {
    var ep := At(s, client);
    var h := Select(ep.queue, id);
    PopRemovesPeek(h);
    TopIn(h);
    hide Peek, Pop, ActionsFrom, TimersFrom, EventsFrom, PacketsBy;
    assert SoundSide(ep, client, now);
  }

  /** The next stage of an ordinary packet fits a plain state at the same time. */
  lemma StagePlain(s: Sim, e: SimEvent, next: SimEvent)
    requires PlainSim(s, e.time) && Ordinary(e) && Stage(e, s.net.delay) == Some(next)
    ensures PlainSim(PushEvent(s, next), e.time)
  {
    var h := Select(At(s, next.client).queue, Home(next));
    assert forall y :: y in Push(h, next).items <==> y in h.items || y == next;
  }

  // ---------- The whole run ----------

  /** Nothing is on its way into the tunnel or to the client. */
  ghost predicate Finished(s: Sim) {
    && (forall c: bool, t: int {:trigger Sends(c, t)} :: Total(s, Sends(c, t)) == 0)
    && (forall t: int {:trigger Comes(t)} :: Total(s, Comes(t)) == 0)
  }

  lemma EmptyFinished(s: Sim)
    requires Size(s.client.queue) + Size(s.server.queue) == 0
    ensures Finished(s)
  {
    forall c: bool, t: int
      ensures Total(s, Sends(c, t)) == 0
    {
      hide QueueTally;
      EmptyTally(s.client.queue, Sends(c, t));
      EmptyTally(s.server.queue, Sends(c, t));
    }
    forall t: int
      ensures Total(s, Comes(t)) == 0
    {
      hide QueueTally;
      EmptyTally(s.client.queue, Comes(t));
      EmptyTally(s.server.queue, Comes(t));
    }
  }

  lemma EmptyTally(q: Queues, k: Kind)
    requires Size(q) == 0
    ensures QueueTally(q, k) == 0
  {
  }

  lemma NoNormalFinished(s: Sim)
    requires TypedSim(s) && NoNormal(s)
    ensures Finished(s)
  {
    forall c: bool, t: int
      ensures Total(s, Sends(c, t)) == 0
    {
      hide Typed, NoNormalPackets, QueueTally;
      NoNormalCounts(s.client.queue, true, Sends(c, t));
      NoNormalCounts(s.server.queue, false, Sends(c, t));
    }
    forall t: int
      ensures Total(s, Comes(t)) == 0
    {
      hide Typed, NoNormalPackets, QueueTally;
      NoNormalCounts(s.client.queue, true, Comes(t));
      NoNormalCounts(s.server.queue, false, Comes(t));
    }
  }

  lemma NoNormalCounts(q: Queues, side: bool, k: Kind)
    requires Typed(q, side) && NoNormalPackets(q) && (k.Sends? || k.Comes?)
    ensures QueueTally(q, k) == 0
  {
    TallyNone(q.base.items, k);
    TallyNone(q.blocking.items, k);
    TallyNone(q.bypassable.items, k);
    TallyNone(q.internal.items, k);
  }

  const SILENCE := Answer([], [])

  /** One iteration of a plain run without caps: it stays plain and brings the packets one step further. */
  lemma IteratePlain(args: Args, l: Loop, x: Sending)
    requires Plain(l, x) && Lawful(l.sim, SILENCE) && args.maxTraceLength == 0 && args.maxIterations == 0
    ensures var r := Iterate(args, l, SILENCE);
            && !r.Crashed? && Plain(r.loop, x)
            && (r.Stopped? ==> Finished(r.loop.sim))
            && (r.Going? ==> Total(r.loop.sim, Effort) < Total(l.sim, Effort))
  {
    hide PickNext, Process, NetworkStack, NoNormal, PlainSim, Accounts, Shown, Finished, Total, Taken, OnlyWindow,
         SameQueues,
         Staged, Ordinary, Sound, Quiescent, FailsClosed, At, AddToWindow, WithinLimit, Size;
    IterateSound(args, l, SILENCE);
    PickKeepsMachines(l.sim, l.now);
    var client, id := PlainPick(l.sim, l.now);
    var p := PickNext(l.sim, l.now);
    if p.Idle? {
      EmptyFinished(l.sim);
    } else {
      StepLoop(args, l, x, client, id);
      TypedOf(Process(args, l, p.sim, p.event, SILENCE).sim, Process(args, l, p.sim, p.event, SILENCE).now);
      if NoNormal(Process(args, l, p.sim, p.event, SILENCE).sim) {
        NoNormalFinished(Process(args, l, p.sim, p.event, SILENCE).sim);
      }
    }
  }

  lemma StepLoop(args: Args, l: Loop, x: Sending, client: bool, id: Queue)
    requires Plain(l, x) && Lawful(l.sim, SILENCE)
    requires var n := PickNext(l.sim, l.now);
             && n.Next? && Taken(l.sim, n.sim, n.event, client, id) && l.now <= n.event.time
             && (l.sim.client.queue.blocking.items != [] || l.sim.server.queue.blocking.items != [] ==>
                   n.event.time == l.now)
    ensures var n := PickNext(l.sim, l.now);
            && Lawful(NetworkStack(n.sim, n.event, n.event.time).0, SILENCE)
            && Plain(Process(args, l, n.sim, n.event, SILENCE), x)
            && Total(Process(args, l, n.sim, n.event, SILENCE).sim, Effort) < Total(l.sim, Effort)
  {
    hide PickNext, Process, NetworkStack, PlainSim, Accounts, Shown, Total, Taken, OnlyWindow, SameQueues, Staged,
         Ordinary,
         Sound, AddToWindow, WithinLimit, Stage, At, One;
    PickNextSound(l.sim, l.now);
    PickKeepsMachines(l.sim, l.now);
    var n := PickNext(l.sim, l.now);
    var r, e := n.sim, n.event;
    NetworkKeepsMachines(r, e, e.time);
    assert Lawful(NetworkStack(r, e, e.time).0, SILENCE);
    TakenOrdinary(l.sim, l.now, r, e, client, id);
    TakenKeepsWindow(l.sim, r, e, client, id);
    if e.event == TETunnelSent {
      WindowBelowLimit(l, x, r, e, client, id);
    }
    TakenSide(l.sim, r, e, client, id);
    LagsZero(l.sim, l.now);
    PlainProcess(args, l, r, e, SILENCE);
    ProcessSound(args, l, r, e, SILENCE);
    var l' := Process(args, l, r, e, SILENCE);
    StepPlain(l.sim, l.now, r, e, client, id, l'.sim);
    StepAccounts(l, x, r, e, client, id, l'.sim);
    StepShown(l.trace, l.done, l'.trace, e);
    OnlyWindowNet(r, l'.sim, e);
    TakenTotal(l.sim, r, e, client, id, Effort);
    StagedTotal(r, e, l'.sim, Effort);
    StageBalances(e, r.net.delay, client, 0);
  }

  lemma TakenOrdinary(s: Sim, now: int, r: Sim, e: SimEvent, client: bool, id: Queue)
    requires Sound(s, now) && PlainSim(s, now) && Taken(s, r, e, client, id) && now <= e.time
    requires s.client.queue.blocking.items != [] || s.server.queue.blocking.items != [] ==> e.time == now
    ensures Ordinary(e)
  {
    hide *;
    TakenPlain(s, now, r, e, client, id);
  }

  lemma TakenSide(s: Sim, r: Sim, e: SimEvent, client: bool, id: Queue)
    requires Taken(s, r, e, client, id)
    ensures e.client == client
  {
  }

  lemma LagsZero(s: Sim, now: int)
    requires PlainSim(s, now)
    ensures (forall n :: s.lags(n) == 0) && s.net.window == SECOND
  {
  }

  lemma OnlyWindowNet(s: Sim, r: Sim, e: SimEvent)
    requires OnlyWindow(s, r, e)
    ensures r.net == s.net
  {
  }

  lemma {:induction false} RunPlain(args: Args, l: Loop, x: Sending, script: seq<Answer>)
    requires Plain(l, x) && args.maxTraceLength == 0 && args.maxIterations == 0
    requires |script| > Total(l.sim, Effort)
    requires forall i :: 0 <= i < |script| ==> script[i] == SILENCE && Lawful(l.sim, script[i])
    ensures var r := Run(args, l, script);
            r.Stopped? && Plain(r.loop, x) && Finished(r.loop.sim)
    decreases |script|
  {
    hide Iterate, Plain, Finished, Total, Lawful;
    assert script[0] == SILENCE && Lawful(l.sim, script[0]);
    IteratePlain(args, l, x);
    IterateKeepsMachines(args, l, script[0]);
    var r := Iterate(args, l, script[0]);
    if r.Going? {
      LawfulStays(l.sim, r.loop.sim, script);
      RunPlain(args, r.loop, x, script[1..]);
    }
  }

  // ---------- The start ----------

  function SendingOf(lines: seq<Line>, x: Setting): Sending {
    Sending(TimesOf(lines, Sent, OffsetOf(x, true)), TimesOf(lines, Received, OffsetOf(x, false)), x.delay)
  }

  /** No second of the trace holds more packets than the parsed rate. */
  lemma StartWithinLimit(lines: seq<Line>, x: Setting)
    requires SortedLines(lines) && forall n :: x.lags(n) == 0
    ensures WithinLimit(SendingOf(lines, x), PacketsPerSecond(Parse(lines, x)))
  {
    hide Parse, CountIn;
    ParseWell(lines, x);
    var p := Parse(lines, x);
    var sent, received := TimesOf(lines, Sent, x.start), TimesOf(lines, Received, x.start);
    TimesSorted(lines, Sent, x.start);
    TimesSorted(lines, Received, x.start);
    TimesNotBefore(lines, Sent, x.start);
    TimesNotBefore(lines, Received, x.start);
    forall t
      ensures WindowAt(sent, SECOND, t) <= PacketsPerSecond(p)
    {
      SecondIsTenWindows(sent, p.mostSent, x.start - 1, t);
    }
    forall t
      ensures WindowAt(SendingOf(lines, x).server, SECOND, t) <= PacketsPerSecond(p)
    {
      CountShift(lines, Received, x.start - x.delay, x.start, t - SECOND, t);
      SecondIsTenWindows(received, p.mostReceived, x.start - 1, t + x.delay);
    }
  }

  lemma {:induction false} TimesNotBefore(lines: seq<Line>, d: Direction, offset: int)
    ensures forall i :: 0 <= i < |TimesOf(lines, d, offset)| ==> offset - 1 < TimesOf(lines, d, offset)[i]
  {
    if lines != [] {
      TimesNotBefore(lines[..|lines| - 1], d, offset);
    }
  }

  lemma BaseTotal(l: Loop, k: Kind)
    requires Fresh(l)
    ensures Total(l.sim, k) == Tally(l.sim.client.queue.base.items, k) + Tally(l.sim.server.queue.base.items, k)
  {
  }

  lemma StartSends(lines: seq<Line>, x: Setting, l: Loop, c: bool, t: int)
    requires forall n :: x.lags(n) == 0
    requires Fresh(l)
    requires l.sim.client.queue.base == Parse(lines, x).client && l.sim.server.queue.base == Parse(lines, x).server
    ensures Total(l.sim, Sends(c, t)) == CountIn(Times(SendingOf(lines, x), c), t, t)
    ensures Total(l.sim, Comes(t)) == 0
  {
    hide Parse, CountIn, TimesOf, Fresh, Total, Tally;
    var p := Parse(lines, x);
    ParseTyped(lines, x);
    BaseTotal(l, Sends(c, t));
    BaseTotal(l, Comes(t));
    ParseCounts(lines, x, c, t);
    TallyNone(BaseOf(p, !c).items, Sends(c, t));
    TallyNone(p.client.items, Comes(t));
    TallyNone(p.server.items, Comes(t));
  }

  lemma StartEffort(lines: seq<Line>, x: Setting, l: Loop)
    requires Fresh(l)
    requires l.sim.client.queue.base == Parse(lines, x).client && l.sim.server.queue.base == Parse(lines, x).server
    ensures Total(l.sim, Effort) == 4 * (|Parse(lines, x).client.items| + |Parse(lines, x).server.items|)
  {
    hide Parse, Fresh, Total, Tally;
    ParseTyped(lines, x);
    BaseTotal(l, Effort);
    TallyEach(Parse(lines, x).client.items, Effort, 4);
    TallyEach(Parse(lines, x).server.items, Effort, 4);
  }

  lemma StartShape(lines: seq<Line>, x: Setting, l: Loop)
    requires Start(Parse(lines, x), None, 0, 0, x) == Some(l)
    ensures l.sim.client == StartEndpoint(Parse(lines, x).client, 0, x)
    ensures l.sim.server == StartEndpoint(Parse(lines, x).server, 0, x)
    ensures l.sim.pending.items == [] && l.sim.lags == x.lags && l.done == [] && l.trace == []
    ensures l.sim.net.delay == x.delay && l.sim.net.window == SECOND
    ensures l.sim.net.limit == PacketsPerSecond(Parse(lines, x))
    ensures Lawful(l.sim, SILENCE)
  {
    hide Parse, Peek;
  }

  /** The parsed start accounts for the whole trace. */
  lemma StartAccounts(lines: seq<Line>, x: Setting, l: Loop)
    requires forall n :: x.lags(n) == 0
    requires Start(Parse(lines, x), None, 0, 0, x) == Some(l) && Fresh(l)
    ensures Accounts(l.sim, l.done, SendingOf(lines, x))
  {
    hide Parse, Start, CountIn, TimesOf, Fresh, Total, Times, SendingOf;
    StartShape(lines, x, l);
    assert SendingOf(lines, x).delay == x.delay by { SendingDelay(lines, x); }
    forall c: bool, t: int
      ensures Total(l.sim, Sends(c, t)) + Tally(l.done, Enters(c, t)) == CountIn(Times(SendingOf(lines, x), c), t, t)
    {
      StartSends(lines, x, l, c, t);
    }
    forall t: int
      ensures Total(l.sim, Comes(t)) + Tally(l.done, Comes(t)) == Tally(l.done, Enters(false, t - l.sim.net.delay))
    {
      StartSends(lines, x, l, true, t);
    }
  }

  lemma SendingDelay(lines: seq<Line>, x: Setting)
    ensures SendingOf(lines, x).delay == x.delay
  {
  }

  lemma StartPlainSim(lines: seq<Line>, x: Setting, l: Loop)
    requires SortedLines(lines) && forall n :: x.lags(n) == 0
    requires Start(Parse(lines, x), None, 0, 0, x) == Some(l)
    ensures PlainSim(l.sim, l.now)
    ensures |Parse(lines, x).client.items| + |Parse(lines, x).server.items| <= |lines|
  {
    hide Parse, Start, WindowAfter, TimesOf, Covers;
    StartShape(lines, x, l);
    ParseWell(lines, x);
  }

  lemma StartPlain(lines: seq<Line>, x: Setting, l: Loop)
    requires SortedLines(lines) && forall n :: x.lags(n) == 0
    requires Start(Parse(lines, x), None, 0, 0, x) == Some(l)
    ensures Plain(l, SendingOf(lines, x))
    ensures Total(l.sim, Effort) <= 4 * |lines|
    ensures Lawful(l.sim, SILENCE)
  {
    hide Parse, Start, Sound, PlainSim, Accounts, WithinLimit, Total, PacketsPerSecond, SendingOf, SortedLines, Lawful;
    StartIsFresh(lines, None, 0, 0, x);
    StartShape(lines, x, l);
    StartPlainSim(lines, x, l);
    StartWithinLimit(lines, x);
    StartAccounts(lines, x, l);
    StartEffort(lines, x, l);
  }

  /**
   The identity. For a trace sorted by time with a packet in it, and a rate that the cast to 32
   bits does not make zero, without machines, lags, a configured rate or caps, the simulator
   starts, its loop stops by itself, and in its sorted result, for every time and both
   directions, the client's packets into and out of the tunnel are as many as in the trace.
   */
  lemma DefenceFreeIdentity(args: Args, lines: seq<Line>, x: Setting, script: seq<Answer>)
    requires SortedLines(lines) && forall n :: x.lags(n) == 0
    requires HasPacket(lines) && PacketsPerSecond(Parse(lines, x)) % U32_RANGE != 0
    requires args.maxTraceLength == 0 && args.maxIterations == 0
    requires |script| > 4 * |lines| && forall i :: 0 <= i < |script| ==> script[i] == SILENCE
    ensures Start(Parse(lines, x), None, 0, 0, x).Some?
    ensures var l := Start(Parse(lines, x), None, 0, 0, x).value;
            && Lawful(l.sim, SILENCE)
            && var r := Run(args, l, script);
               && r.Stopped?
               && InOrder(SortByTime(r.loop.trace))
               && (forall t :: Tally(SortByTime(r.loop.trace), Enters(true, t)) == Raw(lines, Sent, x.start, t))
               && (forall t :: Tally(SortByTime(r.loop.trace), Comes(t)) == Raw(lines, Received, x.start, t))
  {
    hide Run, Parse, Start, Plain, Finished, SortByTime, TimesOf, Tally, CountIn, Lawful, PacketsPerSecond;
    StartsUnlessRateVanishes(lines, x, 0, 0);
    var l := Start(Parse(lines, x), None, 0, 0, x).value;
    StartPlain(lines, x, l);
    RunPlain(args, l, SendingOf(lines, x), script);
    var r := Run(args, l, script).loop;
    SortKeeps(r.trace, Effort);
    forall t
      ensures Tally(SortByTime(r.trace), Enters(true, t)) == Raw(lines, Sent, x.start, t)
      ensures Tally(SortByTime(r.trace), Comes(t)) == Raw(lines, Received, x.start, t)
    {
      SortKeeps(r.trace, Enters(true, t));
      SortKeeps(r.trace, Comes(t));
      FinishedShown(r, SendingOf(lines, x), t);
      CountShift(lines, Received, x.start - x.delay, x.start, t - x.delay, t - x.delay);
    }
  }

  /** At the end of a plain run the trace shows what the endpoints sent. */
  lemma FinishedShown(l: Loop, x: Sending, t: int)
    requires Plain(l, x) && Finished(l.sim)
    ensures Tally(l.trace, Enters(true, t)) == CountIn(x.client, t, t)
    ensures Tally(l.trace, Comes(t)) == CountIn(x.server, t - x.delay, t - x.delay)
  {
    hide SoundLoop, PlainSim, WithinLimit, Total, Tally, CountIn;
    var s := t - l.sim.net.delay;
    assert Sends(true, t) == Sends(true, t) && Sends(false, s) == Sends(false, s) && Comes(t) == Comes(t);
    assert Total(l.sim, Sends(true, t)) == 0 && Total(l.sim, Comes(t)) == 0;
    assert Total(l.sim, Sends(false, s)) == 0;
    assert CountIn(Times(x, true), t, t) == Tally(l.done, Enters(true, t));
    assert CountIn(Times(x, false), s, s) == Tally(l.done, Enters(false, s));
  }
}
