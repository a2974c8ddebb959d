/**
 A run from a trace in which the selector misses the minimum. Three packets of the client, two
 of them at once, go through a network of one packet per second, so that congestion delays the
 third. Three machines of the client then block, bypassably, and send one padding packet that
 blocking holds back and one that may bypass it.
 */
module Overtaking {
  import opened Prelude
  import opened Machines
  import opened SimEvents
  import opened Queues
  import opened SimState
  import opened Selector
  import opened Scheduler
  import opened Timing
  import opened Loops = Simulator
  import opened SoundRuns
  import opened Conservation
  import opened Traces

  const DELAY: nat := 10 * MILLISECOND
  const THIRD: nat := 2 * MILLISECOND
  const BLOCKED: nat := 3 * MILLISECOND
  const HOLD: nat := 2 * SECOND

  function FirstListed(): (nat, seq<SimEvent>) -> nat {
    (n, items) => 0
  }

  function FirstPending(): (nat, seq<PendingDelay>) -> nat {
    (n, items) => 0
  }

  function NoLags(): nat -> nat {
    n => 0
  }

  function Scenery(): Setting {
    Setting(0, DELAY, NoLags(), FirstListed(), FirstPending())
  }

  function Burst(): seq<Line> {
    [Line(0, Sent), Line(0, Sent), Line(THIRD, Sent)]
  }

  function HeapOf(items: seq<SimEvent>, ops: nat): Heap {
    Heap(items, ops, FirstListed())
  }

  function Unused(): Heap {
    HeapOf([], 0)
  }

  // ---------- The cast ----------

  const AT_ONCE := TracePacket(0, 0, true)
  const DELAYED := TracePacket(THIRD, 0, true)
  const LEAVING := SimEvent(TETunnelSent, 0, 0, true, false, false, false)
  const ARRIVAL := SimEvent(TETunnelRecv, DELAY, 0, false, false, false, false)
  const LATE_ARRIVAL := SimEvent(TETunnelRecv, DELAY + SECOND, 0, false, false, false, false)
  const BLOCKING_ON := SimEvent(TEBlockingBegin(0), BLOCKED, 0, true, false, true, false)
  const PADDING := SimEvent(TEPaddingSent(1), BLOCKED + 1, 0, true, true, false, false)
  const BYPASS_PADDING := SimEvent(TEPaddingSent(2), BLOCKED + 2, 0, true, true, true, false)
  const HELD := SimEvent(TETunnelSent, BLOCKED + 1, 0, true, true, false, false)
  const BYPASSING := SimEvent(TETunnelSent, BLOCKED + 2, 0, true, true, true, false)

  const BLOCK: TriggerAction := TABlockOutgoing(0, BLOCKED, HOLD, true, false)
  const PAD: TriggerAction := TASendPadding(1, BLOCKED + 1, false, false)
  const PAD_PAST: TriggerAction := TASendPadding(2, BLOCKED + 2, true, false)

  const SILENT := Answer([], [])
  const DEFENCE := Answer([BLOCK, PAD, PAD_PAST], [])

  type Slots = seq<Option<Scheduled>>

  function AllSet(): Slots {
    [Some(Scheduled(BLOCK, BLOCKED)), Some(Scheduled(PAD, BLOCKED + 1)), Some(Scheduled(PAD_PAST, BLOCKED + 2))]
  }

  // ---------- The scenes ----------

  function Client(q: Queues, slots: Slots, until: Option<int>, sum: nat, window: seq<int>): Endpoint {
    Endpoint(q, slots, [None, None, None], until, until.Some?, sum, window)
  }

  function Server(arrivals: Heap, sum: nat): Endpoint {
    Endpoint(Queues(Unused(), Unused(), Unused(), arrivals), [], [], None, false, sum, [])
  }

  /** Before or after congestion has delayed both endpoints by a second. */
  function Scene(q: Queues, slots: Slots, until: Option<int>, delayed: bool, window: seq<int>,
                 arrivals: Heap, drawn: nat): Sim
  {
    var sum := if delayed then SECOND else 0;
    Sim(Client(q, slots, until, sum, window), Server(arrivals, sum),
        DelayHeap([], if delayed then 4 else 0, FirstPending()),
        Net(DELAY, SECOND, 1, SECOND), NoLags(), drawn, sum)
  }

  /** Two packets at once and a third one 2 ms later. */
  function Scene0(): Sim {
    Scene(Queues(HeapOf([AT_ONCE, AT_ONCE, DELAYED], 3), Unused(), Unused(), Unused()),
          [None, None, None], None, false, [], Unused(), 3)
  }

  function Scene1(): Sim {
    Scene(Queues(HeapOf([AT_ONCE, DELAYED], 4), HeapOf([LEAVING], 1), Unused(), Unused()),
          [None, None, None], None, false, [], Unused(), 4)
  }

  function Scene2(): Sim {
    Scene(Queues(HeapOf([AT_ONCE, DELAYED], 4), HeapOf([], 2), Unused(), Unused()),
          [None, None, None], None, false, [0], HeapOf([ARRIVAL], 1), 6)
  }

  function Scene3(): Sim {
    Scene(Queues(HeapOf([DELAYED], 5), HeapOf([LEAVING], 3), Unused(), Unused()),
          [None, None, None], None, false, [0], HeapOf([ARRIVAL], 1), 7)
  }

  /** The second packet is one too many: a second of delay is pending at both endpoints. */
  function Scene4(): Sim {
    Scene(Queues(HeapOf([DELAYED], 5), HeapOf([], 4), Unused(), Unused()), AllSet(), None, false, [0, 0],
          HeapOf([ARRIVAL, LATE_ARRIVAL], 2), 9).(
      pending := DelayHeap([PendingDelay(0, SECOND, true), PendingDelay(0, SECOND, false)], 2, FirstPending()),
      pushed := SECOND)
  }

  /** From here on the third packet is delayed; `internal` and `blocking` have seen some operations. */
  function Onward(slots: Slots, blocking: Heap, bypassable: Heap, internal: Heap, until: Option<int>, drawn: nat): Sim {
    Scene(Queues(HeapOf([DELAYED], 5), blocking, bypassable, internal), slots, until, true, [0, 0],
          HeapOf([ARRIVAL, LATE_ARRIVAL], 2), drawn)
  }

  function Scene5(): Sim {
    Onward(AllSet()[0 := None], HeapOf([], 4), Unused(), HeapOf([], 2), Some(BLOCKED + HOLD), 12)
  }

  function Scene6(): Sim {
    Onward(AllSet()[0 := None][1 := None], HeapOf([HELD], 5), Unused(), HeapOf([], 4), Some(BLOCKED + HOLD), 14)
  }

  /** One packet held back, one that may bypass, and the delayed packet of the trace. */
  function Scene7(): Sim {
    Onward([None, None, None], HeapOf([HELD], 5), HeapOf([BYPASSING], 1), HeapOf([], 6), Some(BLOCKED + HOLD), 16)
  }

  // ---------- The selector misses ----------

  lemma Tops()
    ensures var c, v := Scene7().client.queue, Scene7().server.queue;
            && Peek(c.base) == Some(DELAYED) && Peek(c.blocking) == Some(HELD)
            && Peek(c.bypassable) == Some(BYPASSING) && Peek(c.internal) == None
            && Peek(v.base) == Peek(v.blocking) == Peek(v.bypassable) == None && Peek(v.internal) == Some(ARRIVAL)
  {
  }

  /** The selector answers 7 ms, for an arrival, while a packet that may bypass waits for nothing. */
  lemma SelectorMisses()
    ensures PeekQueue(Scene7(), In(HOLD - 2), BLOCKED + 2) == Pick(In(DELAY - BLOCKED - 2), Internal, false)
    ensures BYPASSING in Scene7().client.queue.bypassable.items
    ensures WaitOf(Scene7().client, Bypassable, BYPASSING, BLOCKED + 2) == 0
  {
    hide Peek;
    Tops();
  }

  /** The first event is held, so both endpoints have to be searched. */
  lemma HasToSearch()
    ensures Searches(Scene7(), In(HOLD - 2), BLOCKED + 2)
  {
    hide Peek;
    Tops();
  }

  /** So it has to miss, by what is in the queues. */
  lemma PacketInFront()
    ensures TypedSim(Scene7()) && Searches(Scene7(), In(HOLD - 2), BLOCKED + 2)
    ensures InFront(Scene7().client, Scene7().server, BLOCKED + 2)
  {
    hide Peek, Searches;
    HasToSearch();
    Tops();
  }

  // ---------- The start ----------

  lemma ParsesBurst()
    ensures var p := Parse(Burst(), Scenery());
            && p.client == HeapOf([AT_ONCE, AT_ONCE, DELAYED], 3) && p.server == Unused() && p.drawn == 3
  {
    hide AddToWindow;
    var x := Scenery();
    var l0, l1, l2 := [Line(0, Sent)], [Line(0, Sent), Line(0, Sent)], Burst();
    assert l0[..0] == [] && l1[..1] == l0 && l2[..2] == l1;
    var p0 := Parse([], x);
    var p1 := Parse(l0, x);
    assert p1 == ParseLine(p0, l0[0], x);
    assert p1.client == HeapOf([AT_ONCE], 1);
    var p2 := Parse(l1, x);
    assert p2 == ParseLine(p1, l1[1], x);
    assert p2.client == HeapOf([AT_ONCE, AT_ONCE], 2);
    assert Parse(l2, x) == ParseLine(p2, l2[2], x);
  }

  function Opening(): Loop {
    Loop(Scene0(), 0, [], 0, [], [])
  }

  lemma StartsThere()
    ensures Traces.Start(Parse(Burst(), Scenery()), Some(1), 3, 0, Scenery()) == Some(Opening())
  {
    ParsesBurst();
    hide Parse;
    var p := Parse(Burst(), Scenery());
    assert Peek(p.client) == Some(AT_ONCE) && Peek(p.server) == None;
    assert FirstTime(p) == Some(0);
    assert NoTimersSet<Scheduled>(3) == [None, None, None] && NoTimersSet<int>(3) == [None, None, None];
    assert NoTimersSet<Scheduled>(0) == [] && NoTimersSet<int>(0) == [];
  }

  // ---------- Rounds ----------

  lemma ThreeTimes(a: Option<int>, b: Option<int>, c: Option<int>, now: int)
    ensures Soonest([a, b, c], 0, now, Never) == Sharpen(c, now, Sharpen(b, now, Sharpen(a, now, Never)))
    ensures forall best :: Soonest([], 0, now, best) == best
  {
    var t := [a, b, c];
    var w1 := Sharpen(a, now, Never);
    var w2 := Sharpen(b, now, w1);
    var w3 := Sharpen(c, now, w2);
    assert Soonest(t, 3, now, w3) == w3;
    assert Soonest(t, 2, now, w2) == w3;
    assert Soonest(t, 1, now, w1) == w3;
  }

  function TimeIn(slot: Option<Scheduled>): Option<int> {
    if slot.Some? then Some(slot.value.time) else None
  }

  /** The waits for timers and actions, with three machines at the client. */
  lemma ThreeMachines(s: Sim, now: int)
    requires s.client.timers == [None, None, None] && s.server.timers == [] && s.server.actions == []
    requires |s.client.actions| == 3
    ensures SoonestTimer(s, now) == Never
    ensures var a := s.client.actions;
            SoonestAction(s, now)
            == Sharpen(TimeIn(a[2]), now, Sharpen(TimeIn(a[1]), now, Sharpen(TimeIn(a[0]), now, Never)))
    ensures var a := s.client.actions;
            DueTimes(a) == [TimeIn(a[0]), TimeIn(a[1]), TimeIn(a[2])] && DueTimes(s.server.actions) == []
  {
    var a := s.client.actions;
    assert DueTimes(a) == [TimeIn(a[0]), TimeIn(a[1]), TimeIn(a[2])] && DueTimes(s.server.actions) == [];
    ThreeTimes(None, None, None, now);
    ThreeTimes(TimeIn(a[0]), TimeIn(a[1]), TimeIn(a[2]), now);
  }

  lemma ThreeSlots(s: Sim, now: int, target: int)
    requires |s.client.actions| == 3 && s.client.timers == [None, None, None]
    requires s.server.timers == [] && s.server.actions == []
    ensures var a := s.client.actions;
            IndexOf(DueTimes(a), 0, target)
            == if TimeIn(a[0]) == Some(target) then Some(0)
               else if TimeIn(a[1]) == Some(target) then Some(1)
               else if TimeIn(a[2]) == Some(target) then Some(2) else None
  {
    ThreeMachines(s, now);
    var t := DueTimes(s.client.actions);
    assert IndexOf(t, 2, target) == if t[2] == Some(target) then Some(2) else None;
    assert IndexOf(t, 1, target) == if t[1] == Some(target) then Some(1) else IndexOf(t, 2, target);
  }

  /** A delay that is due at once takes effect before anything else. */
  lemma DelayFirst(s: Sim, now: int)
    requires WaitForDelay(s, now) == In(0)
    ensures Advance(s, now) == Again(PopDelay(s))
  {
    hide SoonestAction, SoonestTimer, SoonestUnblock, PeekQueue;
  }

  /** A round in which the queue has the shortest wait. */
  lemma QueueFirst(s: Sim, now: int, earliest: Wait, p: Pick)
    requires SoonestTimer(s, now) == Never && s.pending.items == []
    requires earliest == Least(SoonestAction(s, now), SoonestUnblock(s, now).0)
    requires PeekQueue(s, earliest, now) == p && p.wait.In?
    requires AtMost(p.wait, SoonestAction(s, now)) && !AtMost(SoonestUnblock(s, now).0, p.wait)
    ensures Advance(s, now) == TakeQueued(s, p, now)
  {
    hide SoonestAction, SoonestTimer, SoonestUnblock, PeekQueue, TakeQueued;
  }

  /** A round in which an action has the shortest wait. */
  lemma ActionFirst(s: Sim, now: int, earliest: Wait)
    requires SoonestTimer(s, now) == Never && s.pending.items == [] && SoonestAction(s, now).In?
    requires earliest == Least(SoonestAction(s, now), SoonestUnblock(s, now).0)
    requires !AtMost(PeekQueue(s, earliest, now).wait, SoonestAction(s, now))
    requires !AtMost(SoonestUnblock(s, now).0, SoonestAction(s, now))
    ensures Advance(s, now) == FireAction(s, now + SoonestAction(s, now).ns)
  {
    hide SoonestAction, SoonestTimer, SoonestUnblock, PeekQueue, FireAction;
  }

  predicate Uncapped(args: Args) {
    args.maxTraceLength == 0 && args.maxIterations == 0
  }

  /** What an event that was taken out leads to. */
  function Reaction(s: Sim, e: SimEvent, a: Answer): Sim
    requires Lawful(NetworkStack(s, e, e.time).0, a)
  {
    TriggerUpdate(NetworkStack(s, e, e.time).0, e.client, e.time, For(a, e.client))
  }

  /** An iteration leads from one scene to the next. */
  ghost predicate Leads(args: Args, s: Sim, now: int, a: Answer, s': Sim, now': int) {
    && Lawful(s, a)
    && forall l: Loop :: l.sim == s && l.now == now ==>
         var r := Iterate(args, l, a);
         r.Going? && r.loop.sim == s' && r.loop.now == now'
  }

  /** Without caps, and with trace packets left, an iteration leads where the event does. */
  lemma EventLeads(args: Args, s: Sim, now: int, a: Answer, taken: Sim, e: SimEvent)
    requires Uncapped(args) && Lawful(s, a) && PickNext(s, now) == Next(taken, e) && now <= e.time
    requires Lawful(NetworkStack(taken, e, e.time).0, a)
    requires Reaction(taken, e, a).client.queue.base.items != []
    ensures Leads(args, s, now, a, Reaction(taken, e, a), e.time)
  {
    hide PickNext, NetworkStack, TriggerUpdate, Lawful;
  }

  lemma Silence(s: Sim, client: bool, now: int)
    requires Fits(At(s, client), [])
    ensures TriggerUpdate(s, client, now, []) == s.(drawn := s.drawn + 1)
  {
  }

  /** The scheduler, when its first round yields an event. */
  lemma YieldsAtOnce(s: Sim, now: int, taken: Sim, e: SimEvent)
    requires Advance(s, now) == Yield(taken, e)
    ensures PickNext(s, now) == Next(taken, e)
  {
    hide Advance;
  }

  /** The scheduler, when its first round goes on. */
  lemma GoesOn(s: Sim, now: int, s': Sim)
    requires Advance(s, now) == Again(s')
    ensures PickNext(s, now) == PickNext(s', now)
  {
    hide Advance;
    RoundsShrink(s, now);
  }

  // ---------- The burst ----------

  function Taken0(): Sim {
    Scene(Queues(HeapOf([AT_ONCE, DELAYED], 4), Unused(), Unused(), Unused()),
          [None, None, None], None, false, [], Unused(), 3)
  }

  lemma Takes0()
    ensures PickNext(Scene0(), 0) == Next(Taken0(), AT_ONCE)
  {
    var s := Scene0();
    ThreeMachines(s, 0);
    assert Peek(s.client.queue.base) == Some(AT_ONCE);
    var pick := Pick(In(0), Base, true);
    assert PeekQueue(s, Never, 0) == pick;
    assert RemoveAt([AT_ONCE, AT_ONCE, DELAYED], 0) == [AT_ONCE, DELAYED];
    QueueFirst(s, 0, Never, pick);
    YieldsAtOnce(s, 0, Taken0(), AT_ONCE);
  }

  lemma Reacts0()
    ensures Lawful(NetworkStack(Taken0(), AT_ONCE, 0).0, SILENT)
    ensures Reaction(Taken0(), AT_ONCE, SILENT) == Scene1()
  {
    var s := NetworkStack(Taken0(), AT_ONCE, 0).0;
    assert s.client.queue.blocking.items == [LEAVING];
    hide NetworkStack;
    Silence(s, true, 0);
  }

  function Taken1(): Sim {
    Scene(Queues(HeapOf([AT_ONCE, DELAYED], 4), HeapOf([], 2), Unused(), Unused()),
          [None, None, None], None, false, [], Unused(), 4)
  }

  lemma Takes1()
    ensures PickNext(Scene1(), 0) == Next(Taken1(), LEAVING)
  {
    var s := Scene1();
    ThreeMachines(s, 0);
    assert Peek(s.client.queue.base) == Some(AT_ONCE) && Peek(s.client.queue.blocking) == Some(LEAVING);
    var pick := Pick(In(0), Blocking, true);
    assert PeekQueue(s, Never, 0) == pick;
    assert RemoveAt([LEAVING], 0) == [];
    QueueFirst(s, 0, Never, pick);
    YieldsAtOnce(s, 0, Taken1(), LEAVING);
  }

  lemma Reacts1()
    ensures Lawful(NetworkStack(Taken1(), LEAVING, 0).0, SILENT)
    ensures Reaction(Taken1(), LEAVING, SILENT) == Scene2()
  {
    assert AddToWindow([], 0, SECOND) == [0];
    var s := NetworkStack(Taken1(), LEAVING, 0).0;
    assert s.server.queue.internal.items == [ARRIVAL];
    hide NetworkStack;
    Silence(s, true, 0);
  }

  function Taken2(): Sim {
    Scene(Queues(HeapOf([DELAYED], 5), HeapOf([], 2), Unused(), Unused()),
          [None, None, None], None, false, [0], HeapOf([ARRIVAL], 1), 6)
  }

  lemma Takes2()
    ensures PickNext(Scene2(), 0) == Next(Taken2(), AT_ONCE)
  {
    var s := Scene2();
    ThreeMachines(s, 0);
    assert Peek(s.client.queue.base) == Some(AT_ONCE) && Peek(s.server.queue.internal) == Some(ARRIVAL);
    var pick := Pick(In(0), Base, true);
    assert PeekQueue(s, Never, 0) == pick;
    assert RemoveAt([AT_ONCE, DELAYED], 0) == [DELAYED];
    QueueFirst(s, 0, Never, pick);
    YieldsAtOnce(s, 0, Taken2(), AT_ONCE);
  }

  lemma Reacts2()
    ensures Lawful(NetworkStack(Taken2(), AT_ONCE, 0).0, SILENT)
    ensures Reaction(Taken2(), AT_ONCE, SILENT) == Scene3()
  {
    var s := NetworkStack(Taken2(), AT_ONCE, 0).0;
    assert s.client.queue.blocking.items == [LEAVING];
    hide NetworkStack;
    Silence(s, true, 0);
  }

  function Taken3(): Sim {
    Scene(Queues(HeapOf([DELAYED], 5), HeapOf([], 4), Unused(), Unused()),
          [None, None, None], None, false, [0], HeapOf([ARRIVAL], 1), 7)
  }

  lemma Takes3()
    ensures PickNext(Scene3(), 0) == Next(Taken3(), LEAVING)
  {
    var s := Scene3();
    ThreeMachines(s, 0);
    assert Peek(s.client.queue.base) == Some(DELAYED) && Peek(s.client.queue.blocking) == Some(LEAVING);
    assert Peek(s.server.queue.internal) == Some(ARRIVAL);
    var pick := Pick(In(0), Blocking, true);
    assert PeekQueue(s, Never, 0) == pick;
    assert RemoveAt([LEAVING], 0) == [];
    QueueFirst(s, 0, Never, pick);
    YieldsAtOnce(s, 0, Taken3(), LEAVING);
  }

  /** Congestion: the second packet arrives a second later, and that second is pushed. */
  function Congested(): Sim {
    Scene4().(client := Scene4().client.(actions := [None, None, None]), drawn := 8)
  }

  /** The second delay of the third packet, scheduled while the second one is on its way. */
  lemma PushesSecond()
    ensures var s := Taken3().(client := Taken3().client.(window := [0, 0]), drawn := 8);
            && PropagatesDelay(s.client, LEAVING, 0)
            && PushDelay(s, SECOND, 0, true) == s.(pending := Congested().pending, pushed := SECOND)
  {
    var s := Taken3().(client := Taken3().client.(window := [0, 0]), drawn := 8);
    assert Peek(s.client.queue.base) == Some(DELAYED);
    assert PushDelay(s, SECOND, 0, true).pending.items == Congested().pending.items;
  }

  lemma CongestsThen()
    ensures NetworkStack(Taken3(), LEAVING, 0).0 == Congested()
  {
    hide PushDelay, PropagatesDelay;
    PushesSecond();
    assert AddToWindow([0], 0, SECOND) == [0, 0];
    assert Congestion(Taken3().net, 2) == SECOND;
    assert NetworkStack(Taken3(), LEAVING, 0).0.server.queue.internal.items == [ARRIVAL, LATE_ARRIVAL];
  }

  lemma Reacts3()
    ensures Lawful(NetworkStack(Taken3(), LEAVING, 0).0, DEFENCE)
    ensures Reaction(Taken3(), LEAVING, DEFENCE) == Scene4()
  {
    CongestsThen();
    hide NetworkStack;
    var s := Congested();
    var (lag, s0) := Lag(s);
    var s1 := Perform1(s0, true, BLOCK, 0, 0);
    var s2 := Perform1(s1, true, PAD, 0, 0);
    var s3 := Perform1(s2, true, PAD_PAST, 0, 0);
    assert s3.client.actions == AllSet();
    assert PerformFrom(s3, true, DEFENCE.client, 3, 0, 0) == s3;
    assert PerformFrom(s2, true, DEFENCE.client, 2, 0, 0) == s3;
    assert PerformFrom(s1, true, DEFENCE.client, 1, 0, 0) == s3;
  }

  // ---------- Blocking and padding ----------

  function Quiet(): Sim {
    Onward(AllSet(), HeapOf([], 4), Unused(), Unused(), None, 9)
  }

  /** The delay takes effect at both endpoints. */
  lemma TakesEffect()
    ensures PickNext(Scene4(), 0) == PickNext(Quiet(), 0)
  {
    var s := Scene4();
    var s1 := PopDelay(s);
    assert s1.pending.items == [PendingDelay(0, SECOND, false)];
    DelayFirst(s, 0);
    DelayFirst(s1, 0);
    assert PopDelay(s1).pending.items == [];
    assert PopDelay(s1) == Quiet();
    hide PopDelay, Advance;
    GoesOn(s, 0, s1);
    GoesOn(s1, 0, Quiet());
  }

  function Begun(): Sim {
    Onward(AllSet()[0 := None], HeapOf([], 4), Unused(), HeapOf([BLOCKING_ON], 1), Some(BLOCKED + HOLD), 11)
  }

  lemma LooksFires4()
    ensures PeekQueue(Quiet(), In(BLOCKED), 0).wait == Never
  {
    var s := Quiet();
    assert Peek(s.client.queue.base) == Some(DELAYED) && Peek(s.server.queue.internal) == Some(ARRIVAL);
  }

  lemma Fires4()
    ensures PickNext(Quiet(), 0) == PickNext(Begun(), 0)
  {
    hide PeekQueue, SoonestAction, SoonestTimer;
    var s := Quiet();
    ThreeMachines(s, 0);
    LooksFires4();
    ActionFirst(s, 0, In(BLOCKED));
    ThreeSlots(s, 0, BLOCKED);
    assert FireAction(s, BLOCKED) == FireActionAt(s, true, 0);
    assert FireActionAt(s, true, 0).sim.client.queue.internal.items == [BLOCKING_ON];
    hide FireAction, Advance;
    GoesOn(s, 0, Begun());
  }

  function Taken4(): Sim {
    Begun().(client := Begun().client.(queue := Begun().client.queue.(internal := HeapOf([], 2))))
  }

  lemma LooksTakes4()
    ensures PeekQueue(Begun(), In(BLOCKED + 1), 0) == Pick(In(BLOCKED), Internal, true)
  {
    var s := Begun();
    assert Peek(s.client.queue.base) == Some(DELAYED) && Peek(s.client.queue.internal) == Some(BLOCKING_ON);
    assert Peek(s.server.queue.internal) == Some(ARRIVAL);
  }

  lemma Takes4()
    ensures PickNext(Begun(), 0) == Next(Taken4(), BLOCKING_ON)
  {
    hide PeekQueue, SoonestAction, SoonestTimer;
    var s := Begun();
    ThreeMachines(s, 0);
    assert Peek(s.client.queue.base) == Some(DELAYED) && Peek(s.client.queue.internal) == Some(BLOCKING_ON);
    assert Peek(s.server.queue.internal) == Some(ARRIVAL);
    var pick := Pick(In(BLOCKED), Internal, true);
    LooksTakes4();
    assert RemoveAt([BLOCKING_ON], 0) == [];
    QueueFirst(s, 0, In(BLOCKED + 1), pick);
    YieldsAtOnce(s, 0, Taken4(), BLOCKING_ON);
  }

  lemma Reacts4()
    ensures Lawful(NetworkStack(Taken4(), BLOCKING_ON, BLOCKED).0, SILENT)
    ensures Reaction(Taken4(), BLOCKING_ON, SILENT) == Scene5()
  {
    var s := NetworkStack(Taken4(), BLOCKING_ON, BLOCKED).0;
    assert |AllSet()| == 3 && s == Taken4();
    hide NetworkStack;
    Silence(s, true, BLOCKED);
  }

  function Padded5(): Sim {
    Onward(AllSet()[0 := None][1 := None], HeapOf([], 4), Unused(), HeapOf([PADDING], 3), Some(BLOCKED + HOLD), 13)
  }

  lemma LooksFires5()
    ensures PeekQueue(Scene5(), In(1), BLOCKED).wait == Never
  {
    var s := Scene5();
    assert Peek(s.client.queue.base) == Some(DELAYED) && Peek(s.server.queue.internal) == Some(ARRIVAL);
  }

  lemma Fires5()
    ensures PickNext(Scene5(), BLOCKED) == PickNext(Padded5(), BLOCKED)
  {
    hide PeekQueue, SoonestAction, SoonestTimer;
    var s := Scene5();
    ThreeMachines(s, BLOCKED);
    LooksFires5();
    ActionFirst(s, BLOCKED, In(1));
    ThreeSlots(s, 0, BLOCKED + 1);
    assert FireAction(s, BLOCKED + 1) == FireActionAt(s, true, 1);
    assert FireActionAt(s, true, 1).sim.client.queue.internal.items == [PADDING];
    hide FireAction, Advance;
    GoesOn(s, BLOCKED, Padded5());
  }

  function Taken5(): Sim {
    Padded5().(client := Padded5().client.(queue := Padded5().client.queue.(internal := HeapOf([], 4))))
  }

  lemma Takes5()
    ensures PickNext(Padded5(), BLOCKED) == Next(Taken5(), PADDING)
  {
    var s := Padded5();
    ThreeMachines(s, BLOCKED);
    assert Peek(s.client.queue.base) == Some(DELAYED) && Peek(s.client.queue.internal) == Some(PADDING);
    assert Peek(s.server.queue.internal) == Some(ARRIVAL);
    var pick := Pick(In(1), Internal, true);
    assert PeekQueue(s, In(2), BLOCKED) == pick;
    assert RemoveAt([PADDING], 0) == [];
    QueueFirst(s, BLOCKED, In(2), pick);
    YieldsAtOnce(s, BLOCKED, Taken5(), PADDING);
  }

  lemma Reacts5()
    ensures Lawful(NetworkStack(Taken5(), PADDING, BLOCKED + 1).0, SILENT)
    ensures Reaction(Taken5(), PADDING, SILENT) == Scene6()
  {
    var s := NetworkStack(Taken5(), PADDING, BLOCKED + 1).0;
    assert s.client.queue.blocking.items == [HELD];
    hide NetworkStack;
    Silence(s, true, BLOCKED + 1);
  }

  function Padded6(): Sim {
    Onward([None, None, None], HeapOf([HELD], 5), Unused(), HeapOf([BYPASS_PADDING], 5), Some(BLOCKED + HOLD), 15)
  }

  lemma LooksFires6()
    ensures PeekQueue(Scene6(), In(1), BLOCKED + 1).wait == In(DELAY - BLOCKED - 1)
  {
    var s := Scene6();
    assert Peek(s.client.queue.base) == Some(DELAYED) && Peek(s.client.queue.blocking) == Some(HELD);
    assert Peek(s.server.queue.internal) == Some(ARRIVAL);
  }

  lemma Fires6()
    ensures PickNext(Scene6(), BLOCKED + 1) == PickNext(Padded6(), BLOCKED + 1)
  {
    hide PeekQueue, SoonestAction, SoonestTimer;
    var s := Scene6();
    ThreeMachines(s, BLOCKED + 1);
    LooksFires6();
    ActionFirst(s, BLOCKED + 1, In(1));
    ThreeSlots(s, 0, BLOCKED + 2);
    assert FireAction(s, BLOCKED + 2) == FireActionAt(s, true, 2);
    assert FireActionAt(s, true, 2).sim.client.queue.internal.items == [BYPASS_PADDING];
    hide FireAction, Advance;
    GoesOn(s, BLOCKED + 1, Padded6());
  }

  function Taken6(): Sim {
    Padded6().(client := Padded6().client.(queue := Padded6().client.queue.(internal := HeapOf([], 6))))
  }

  lemma Takes6()
    ensures PickNext(Padded6(), BLOCKED + 1) == Next(Taken6(), BYPASS_PADDING)
  {
    var s := Padded6();
    ThreeMachines(s, BLOCKED + 1);
    assert Peek(s.client.queue.base) == Some(DELAYED) && Peek(s.client.queue.blocking) == Some(HELD);
    assert Peek(s.client.queue.internal) == Some(BYPASS_PADDING) && Peek(s.server.queue.internal) == Some(ARRIVAL);
    var pick := Pick(In(1), Internal, true);
    assert PeekQueue(s, In(HOLD - 1), BLOCKED + 1) == pick;
    assert RemoveAt([BYPASS_PADDING], 0) == [];
    QueueFirst(s, BLOCKED + 1, In(HOLD - 1), pick);
    YieldsAtOnce(s, BLOCKED + 1, Taken6(), BYPASS_PADDING);
  }

  lemma Reacts6()
    ensures Lawful(NetworkStack(Taken6(), BYPASS_PADDING, BLOCKED + 2).0, SILENT)
    ensures Reaction(Taken6(), BYPASS_PADDING, SILENT) == Scene7()
  {
    var s := NetworkStack(Taken6(), BYPASS_PADDING, BLOCKED + 2).0;
    assert s.client.queue.bypassable.items == [BYPASSING];
    hide NetworkStack;
    Silence(s, true, BLOCKED + 2);
  }

  /** So the scheduler takes the arrival, 7 ms later. */
  lemma ArrivalGoesFirst()
    ensures var n := PickNext(Scene7(), BLOCKED + 2);
            n.Next? && n.event == ARRIVAL
  {
    var s := Scene7();
    ThreeMachines(s, BLOCKED + 2);
    SelectorMisses();
    assert Peek(s.server.queue.internal) == Some(ARRIVAL);
    var pick := Pick(In(DELAY - BLOCKED - 2), Internal, false);
    hide PeekQueue, SoonestAction, SoonestTimer;
    QueueFirst(s, BLOCKED + 2, In(HOLD - 2), pick);
    var r := TakeQueued(s, pick, BLOCKED + 2);
    YieldsAtOnce(s, BLOCKED + 2, r.sim, r.event);
  }

  // ---------- The run ----------

  function SceneAt(k: nat): Sim {
    match k
    case 0 => Scene0()
    case 1 => Scene1()
    case 2 => Scene2()
    case 3 => Scene3()
    case 4 => Scene4()
    case 5 => Scene5()
    case 6 => Scene6()
    case _ => Scene7()
  }

  function TimeAt(k: nat): int {
    if k <= 4 then 0 else BLOCKED + (k - 5)
  }

  /** The machines act once, when the second packet has left. */
  function AnswerAt(k: nat): Answer {
    if k == 3 then DEFENCE else SILENT
  }

  function AnswersFrom(k: nat): seq<Answer>
    decreases 7 - k
  {
    if k >= 7 then [] else [AnswerAt(k)] + AnswersFrom(k + 1)
  }

  lemma SceneLeads(args: Args, k: nat)
    requires Uncapped(args) && k < 7
    ensures Leads(args, SceneAt(k), TimeAt(k), AnswerAt(k), SceneAt(k + 1), TimeAt(k + 1))
  {
    hide PickNext, NetworkStack, Reaction, Leads;
    match k
    case 0 =>
      Takes0();
      Reacts0();
      EventLeads(args, Scene0(), 0, SILENT, Taken0(), AT_ONCE);
    case 1 =>
      Takes1();
      Reacts1();
      EventLeads(args, Scene1(), 0, SILENT, Taken1(), LEAVING);
    case 2 =>
      Takes2();
      Reacts2();
      EventLeads(args, Scene2(), 0, SILENT, Taken2(), AT_ONCE);
    case 3 =>
      Takes3();
      Reacts3();
      EventLeads(args, Scene3(), 0, DEFENCE, Taken3(), LEAVING);
    case 4 =>
      TakesEffect();
      Fires4();
      Takes4();
      Reacts4();
      EventLeads(args, Scene4(), 0, SILENT, Taken4(), BLOCKING_ON);
    case 5 =>
      Fires5();
      Takes5();
      Reacts5();
      EventLeads(args, Scene5(), BLOCKED, SILENT, Taken5(), PADDING);
    case _ =>
      Fires6();
      Takes6();
      Reacts6();
      EventLeads(args, Scene6(), BLOCKED + 1, SILENT, Taken6(), BYPASS_PADDING);
  }

  lemma {:induction false} AnswersLawful(k: nat, j: nat)
    requires j <= 7
    ensures forall i :: 0 <= i < |AnswersFrom(j)| ==> Lawful(SceneAt(k), AnswersFrom(j)[i])
    decreases 7 - j
  {
    if j < 7 {
      AnswersLawful(k, j + 1);
      assert |AllSet()| == 3;
      assert Lawful(SceneAt(k), AnswerAt(j));
    }
  }

  lemma {:induction false} RunLeads(args: Args, l: Loop, k: nat)
    requires Uncapped(args) && k <= 7 && l.sim == SceneAt(k) && l.now == TimeAt(k)
    ensures forall i :: 0 <= i < |AnswersFrom(k)| ==> Lawful(l.sim, AnswersFrom(k)[i])
    ensures var r := Run(args, l, AnswersFrom(k));
            r.Going? && r.loop.sim == Scene7() && r.loop.now == BLOCKED + 2
    decreases 7 - k
  {
    hide Iterate, SceneAt, Lawful;
    AnswersLawful(k, k);
    if k < 7 {
      SceneLeads(args, k);
      var l' := Iterate(args, l, AnswerAt(k)).loop;
      RunLeads(args, l', k + 1);
      assert AnswersFrom(k)[0] == AnswerAt(k) && AnswersFrom(k)[1..] == AnswersFrom(k + 1);
    } else {
      LastScene();
    }
  }

  lemma LastScene()
    ensures SceneAt(7) == Scene7()
  {
  }

  /**
   From the start that a trace gives, seven iterations reach a sound state in which the selector
   answers 7 ms, for an arrival at the server, although a packet of the client that may bypass
   its blocking waits for nothing; the scheduler then takes the arrival.
   */
  lemma OvertakenHappens(args: Args)
    requires Uncapped(args)
    ensures var start := Traces.Start(Parse(Burst(), Scenery()), Some(1), 3, 0, Scenery());
            && start.Some?
            && (forall i :: 0 <= i < |AnswersFrom(0)| ==> Lawful(start.value.sim, AnswersFrom(0)[i]))
            && var r := Run(args, start.value, AnswersFrom(0));
               && r.Going? && Sound(r.loop.sim, r.loop.now)
               && var s, now := r.loop.sim, r.loop.now;
                  && PeekQueue(s, In(HOLD - 2), now) == Pick(In(DELAY - BLOCKED - 2), Internal, false)
                  && BYPASSING in s.client.queue.bypassable.items
                  && WaitOf(s.client, Bypassable, BYPASSING, now) == 0
                  && PickNext(s, now).Next? && PickNext(s, now).event == ARRIVAL
  {
    hide Iterate, Run, Fresh, SoundLoop, Sound, PeekQueue, PickNext, Scene7, Traces.Start, Parse, Lawful, WaitOf,
         AnswersFrom;
    StartsThere();
    StartIsFresh(Burst(), Some(1), 3, 0, Scenery());
    RunLeads(args, Opening(), 0);
    SelectorMisses();
    ArrivalGoesFirst();
    FreshIsSound(Opening());
    RunSound(args, Opening(), AnswersFrom(0));
    SoundLoopIsSound(Run(args, Opening(), AnswersFrom(0)).loop);
  }

  lemma FreshIsSound(l: Loop)
    requires Fresh(l)
    ensures SoundLoop(l)
  {
    hide SoundLoop;
  }

  lemma SoundLoopIsSound(l: Loop)
    requires SoundLoop(l)
    ensures Sound(l.sim, l.now)
  {
    hide Sound;
  }
}
