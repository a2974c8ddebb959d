/** From a trace to the simulator's start, and from its end to the sorted result. */
module Traces {
  import opened Prelude
  import opened Machines
  import opened SimEvents
  import opened Queues
  import opened SimState
  import opened Selector
  import opened Scheduler
  import opened Timing
  import opened Simulator
  import opened SoundRuns
  import opened Conservation
  import opened Windows

  /** A line of a trace: a packet of the client, a packet to the client, or padding, which is ignored. */
  datatype Direction = Sent | Received | Ignored

  datatype Line = Line(time: nat, direction: Direction)

  const PARSE_WINDOW: nat := 100 * MILLISECOND
  const SECOND: nat := 1000 * MILLISECOND

  /** The base heaps, the two parsing windows with their largest counts, and the lags drawn. */
  datatype Parsed = Parsed(client: Heap, server: Heap, sent: seq<int>, received: seq<int>,
                           mostSent: nat, mostReceived: nat, drawn: nat)

  /** What parsing needs to know: the time zero of the trace, the network delay, lags, and the tie rule. */
  datatype Setting = Setting(start: int, delay: nat, lags: nat -> nat, tie: (nat, seq<SimEvent>) -> nat,
                             delayTie: (nat, seq<PendingDelay>) -> nat)

  function EmptyHeap(x: Setting): Heap {
    Heap([], 0, x.tie)
  }

  function TracePacket(time: int, lag: nat, client: bool): SimEvent {
    SimEvent(TENormalSent, time + lag, lag, client, false, false, false)
  }

  function ParseLine(p: Parsed, line: Line, x: Setting): Parsed {
    var t := x.start + line.time;
    match line.direction
    case Sent =>
      var lag := x.lags(p.drawn);
      var sent := AddToWindow(p.sent, t, PARSE_WINDOW);
      p.(client := Push(p.client, TracePacket(t, lag, true)), drawn := p.drawn + 1, sent := sent,
         mostSent := if |sent| > p.mostSent then |sent| else p.mostSent)
    case Received =>
      var lag := x.lags(p.drawn);
      var received := AddToWindow(p.received, t, PARSE_WINDOW);
      p.(server := Push(p.server, TracePacket(t - x.delay, lag, false)), drawn := p.drawn + 1, received := received,
         mostReceived := if |received| > p.mostReceived then |received| else p.mostReceived)
    case Ignored => p
  }

  function Parse(lines: seq<Line>, x: Setting): Parsed {
    if lines == [] then Parsed(EmptyHeap(x), EmptyHeap(x), [], [], 0, 0, 0)
    else ParseLine(Parse(lines[..|lines| - 1], x), lines[|lines| - 1], x)
  }

  /** Ten times the largest number of packets in 100 ms, in either direction. */
  function PacketsPerSecond(p: Parsed): nat {
    10 * (if p.mostSent > p.mostReceived then p.mostSent else p.mostReceived)
  }

  function NoTimersSet<T>(machines: nat): seq<Option<T>> {
    seq(machines, i => None)
  }

  function StartEndpoint(base: Heap, machines: nat, x: Setting): Endpoint {
    Endpoint(Queues(base, EmptyHeap(x), EmptyHeap(x), EmptyHeap(x)), NoTimersSet(machines), NoTimersSet(machines),
             None, false, 0, [])
  }

  function FirstTime(p: Parsed): Option<int> {
    match (Peek(p.client), Peek(p.server))
    case (Some(c), Some(v)) => Some(if c.time <= v.time then c.time else v.time)
    case (Some(c), None) => Some(c.time)
    case (None, Some(v)) => Some(v.time)
    case (None, None) => None
  }

  /**
   The loop at the start; None stands for the panics of the source: an empty queue, and a
   packet rate that is zero once cast to u32.
   */
  function Start(p: Parsed, pps: Option<nat>, clientMachines: nat, serverMachines: nat, x: Setting): Option<Loop> {
    var first := FirstTime(p);
    var limit := if pps.Some? then pps.value else PacketsPerSecond(p);
    if first.None? || limit % U32_RANGE == 0 then None
    else
      var net := Net(x.delay, SECOND, limit, SECOND / (limit % U32_RANGE));
      Some(Loop(Sim(StartEndpoint(p.client, clientMachines, x), StartEndpoint(p.server, serverMachines, x),
                    DelayHeap([], 0, x.delayTie), net, x.lags, p.drawn, 0),
                first.value, [], 0, [], []))
  }

  /** The parsed heaps hold trace packets of their own side. */
  ghost predicate ParsedTyped(p: Parsed) {
    && (forall e :: e in p.client.items ==> Home(e) == Base && e.client && !e.padding)
    && (forall e :: e in p.server.items ==> Home(e) == Base && !e.client && !e.padding)
  }

  lemma {:induction false} ParseTyped(lines: seq<Line>, x: Setting)
    ensures ParsedTyped(Parse(lines, x))
  {
    if lines != [] {
      ParseTyped(lines[..|lines| - 1], x);
    }
  }

  /** Any parsed trace that does not panic gives a fresh start, so every law of whole runs applies to it. */
  lemma StartIsFresh(lines: seq<Line>, pps: Option<nat>, clientMachines: nat, serverMachines: nat, x: Setting)
    requires Start(Parse(lines, x), pps, clientMachines, serverMachines, x).Some?
    ensures Fresh(Start(Parse(lines, x), pps, clientMachines, serverMachines, x).value)
  {
    var p := Parse(lines, x);
    ParseTyped(lines, x);
    hide Parse;
    var l := Start(p, pps, clientMachines, serverMachines, x).value;
    assert forall e :: e in p.client.items ==> l.now <= e.time;
    assert forall e :: e in p.server.items ==> l.now <= e.time;
    hide Peek;
    assert SoundSide(l.sim.client, true, l.now);
    assert SoundSide(l.sim.server, false, l.now);
  }

  /** The trace has a packet, in either direction. */
  predicate HasPacket(lines: seq<Line>) {
    exists line :: line in lines && line.direction != Ignored
  }

  lemma {:induction false} WindowSize(times: seq<int>, now: int, window: nat)
    ensures |Prune(times, now, window)| <= |times|
    ensures times != [] && times[|times| - 1] == now ==> Prune(times, now, window) != []
  {
    if times != [] && Since(now, times[0]) > window {
      WindowSize(times[1..], now, window);
    }
  }

  /** The windows of the parser never hold more than the trace, and hold a packet once there was one. */
  lemma {:induction false} ParsedCounts(lines: seq<Line>, x: Setting)
    ensures var p := Parse(lines, x);
            && |p.sent| <= |lines| && |p.received| <= |lines|
            && p.mostSent <= |lines| && p.mostReceived <= |lines|
            && (HasPacket(lines) <==> p.client.items != [] || p.server.items != [])
            && (HasPacket(lines) <==> p.mostSent > 0 || p.mostReceived > 0)
  {
    hide Prune;
    if lines != [] {
      var before, line := lines[..|lines| - 1], lines[|lines| - 1];
      ParsedCounts(before, x);
      assert lines == before + [line];
      var p, t := Parse(before, x), x.start + line.time;
      WindowSize(p.sent + [t], t, PARSE_WINDOW);
      WindowSize(p.received + [t], t, PARSE_WINDOW);
    }
  }

  /**
   Exactly when a trace can be simulated at its own rate: it has a packet, and the rate, which
   is at most ten per line, does not vanish when it is cast to 32 bits.
   */
  lemma StartsUnlessRateVanishes(lines: seq<Line>, x: Setting, clientMachines: nat, serverMachines: nat)
    ensures var p := Parse(lines, x);
            && (Start(p, None, clientMachines, serverMachines, x).Some? <==>
                  HasPacket(lines) && PacketsPerSecond(p) % U32_RANGE != 0)
            && PacketsPerSecond(p) <= 10 * |lines|
            && (HasPacket(lines) ==> 10 <= PacketsPerSecond(p))
  {
    ParsedCounts(lines, x);
    hide Parse, HasPacket;
  }

  lemma NothingPruned(times: seq<int>, now: int, window: nat)
    requires forall i :: 0 <= i < |times| ==> times[i] == now
    ensures Prune(times, now, window) == times
  {
  }

  /** Lines that all say the same count as one burst. */
  lemma {:induction false} BurstCounts(lines: seq<Line>, t: nat, x: Setting)
    requires forall i :: 0 <= i < |lines| ==> lines[i] == Line(t, Sent)
    ensures var p := Parse(lines, x);
            && |p.sent| == p.mostSent == |lines| && p.mostReceived == 0
            && forall i :: 0 <= i < |p.sent| ==> p.sent[i] == x.start + t
  {
    hide Prune, Push;
    if lines != [] {
      var before := lines[..|lines| - 1];
      BurstCounts(before, t, x);
      NothingPruned(Parse(before, x).sent + [x.start + t], x.start + t, PARSE_WINDOW);
    }
  }

  const VANISHING: nat := 0x8000_0000

  /** A trace of 2^31 packets sent at once cannot be simulated at its own rate: 32 bits of it are zero. */
  lemma RateVanishes(x: Setting, clientMachines: nat, serverMachines: nat)
    ensures var lines := seq(VANISHING, i => Line(0, Sent));
            && HasPacket(lines)
            && Start(Parse(lines, x), None, clientMachines, serverMachines, x).None?
  {
    var lines := seq(VANISHING, i => Line(0, Sent));
    assert lines[0] in lines;
    BurstCounts(lines, 0, x);
    hide Parse;
    var rate := PacketsPerSecond(Parse(lines, x));
    assert rate == 5 * U32_RANGE;
  }

  // ---------- The sorted result ----------

  /** Insert an event behind all events at or before its time. */
  function Insert(sorted: seq<SimEvent>, e: SimEvent): seq<SimEvent> {
    if sorted == [] || sorted[|sorted| - 1].time <= e.time then sorted + [e]
    else Insert(sorted[..|sorted| - 1], e) + [sorted[|sorted| - 1]]
  }

  /** The stable sort by time that ends the simulation. */
  function SortByTime(trace: seq<SimEvent>): seq<SimEvent> {
    if trace == [] then [] else Insert(SortByTime(trace[..|trace| - 1]), trace[|trace| - 1])
  }

  ghost predicate InOrder(trace: seq<SimEvent>) {
    forall i, j :: 0 <= i < j < |trace| ==> trace[i].time <= trace[j].time
  }

  ghost predicate UpTo(trace: seq<SimEvent>, t: int) {
    forall i :: 0 <= i < |trace| ==> trace[i].time <= t
  }

  lemma {:induction false} InsertSorted(sorted: seq<SimEvent>, e: SimEvent)
    requires InOrder(sorted)
    ensures InOrder(Insert(sorted, e))
    ensures forall t :: UpTo(sorted, t) && e.time <= t ==> UpTo(Insert(sorted, e), t)
  {
    if sorted != [] && e.time < sorted[|sorted| - 1].time {
      var last := |sorted| - 1;
      assert forall i :: 0 <= i < last ==> sorted[..last][i] == sorted[i];
      InsertSorted(sorted[..last], e);
      assert UpTo(Insert(sorted[..last], e), sorted[last].time);
    }
  }

  lemma {:induction false} InsertTally(sorted: seq<SimEvent>, e: SimEvent, k: Kind)
    ensures Tally(Insert(sorted, e), k) == Tally(sorted, k) + One(e, k)
  {
    hide One;
    if sorted == [] || sorted[|sorted| - 1].time <= e.time {
      TallyAppend(sorted, e, k);
    } else {
      var last := |sorted| - 1;
      InsertTally(sorted[..last], e, k);
      TallyAppend(Insert(sorted[..last], e), sorted[last], k);
    }
  }

  /** Sorting orders the trace by time and keeps every event, kind by kind. */
  lemma {:induction false} SortKeeps(trace: seq<SimEvent>, k: Kind)
    ensures InOrder(SortByTime(trace))
    ensures Tally(SortByTime(trace), k) == Tally(trace, k)
  {
    hide Insert, One;
    if trace != [] {
      SortKeeps(trace[..|trace| - 1], k);
      InsertSorted(SortByTime(trace[..|trace| - 1]), trace[|trace| - 1]);
      InsertTally(SortByTime(trace[..|trace| - 1]), trace[|trace| - 1], k);
    }
  }

  /** The events of the trace at time t, in their order. */
  function AtTime(trace: seq<SimEvent>, t: int): seq<SimEvent> {
    if trace == [] then []
    else
      var last := trace[|trace| - 1];
      AtTime(trace[..|trace| - 1], t) + (if last.time == t then [last] else [])
  }

  lemma AtTimeAppend(trace: seq<SimEvent>, e: SimEvent, t: int)
    ensures AtTime(trace + [e], t) == AtTime(trace, t) + (if e.time == t then [e] else [])
  {
    assert (trace + [e])[..|trace|] == trace;
  }

  lemma {:induction false} InsertLast(sorted: seq<SimEvent>, e: SimEvent, t: int)
    ensures AtTime(Insert(sorted, e), t) == AtTime(sorted, t) + (if e.time == t then [e] else [])
  {
    if sorted == [] || sorted[|sorted| - 1].time <= e.time {
      AtTimeAppend(sorted, e, t);
    } else {
      var last := |sorted| - 1;
      InsertLast(sorted[..last], e, t);
      AtTimeAppend(Insert(sorted[..last], e), sorted[last], t);
    }
  }

  /** The sort is stable: at every time the same events in the same order, so nothing is lost or made up. */
  lemma {:induction false} SortIsStable(trace: seq<SimEvent>, t: int)
    ensures AtTime(SortByTime(trace), t) == AtTime(trace, t)
  {
    hide Insert;
    if trace != [] {
      SortIsStable(trace[..|trace| - 1], t);
      InsertLast(SortByTime(trace[..|trace| - 1]), trace[|trace| - 1], t);
    }
  }
}
