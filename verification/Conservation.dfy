/**
 Conservation. Every trace packet is somewhere: waiting in the base heap, waiting for the
 tunnel, in the tunnel, or received; and no more packets bypass blocking than padding packets
 were sent to bypass it.
 */
module Conservation {
  import opened Prelude
  import opened Machines
  import opened SimEvents
  import opened Queues
  import opened SimState
  import opened Selector
  import opened Scheduler
  import opened Timing
  import opened Simulator
  import opened SoundRuns

  // ---------- Counting over both endpoints ----------

  function QueueTally(q: Queues, k: Kind): nat {
    Tally(q.base.items, k) + Tally(q.blocking.items, k) + Tally(q.bypassable.items, k) + Tally(q.internal.items, k)
  }

  function Total(s: Sim, k: Kind): nat {
    QueueTally(s.client.queue, k) + QueueTally(s.server.queue, k)
  }

  /** The queues of s and r are the same. */
  ghost predicate SameQueues(s: Sim, r: Sim) {
    s.client.queue == r.client.queue && s.server.queue == r.server.queue
  }

  lemma EnqueueTally(q: Queues, e: SimEvent, k: Kind)
    ensures QueueTally(Enqueue(q, e), k) == QueueTally(q, k) + One(e, k)
  {
    hide Tally, One;
    TallyAppend(Select(q, Home(e)).items, e, k);
  }

  lemma DequeueTally(q: Queues, id: Queue, sum: nat, k: Kind)
    requires Select(q, id).items != []
    ensures QueueTally(q, k) == QueueTally(Dequeue(q, id, sum).0, k) + One(Peek(Select(q, id)).value, k)
  {
    hide Tally, One, Pop, Peek;
    TallyPop(Select(q, id), k);
  }

  lemma PutTotal(s: Sim, client: bool, ep: Endpoint, k: Kind)
    ensures Total(Put(s, client, ep), k) + QueueTally(At(s, client).queue, k) == Total(s, k) + QueueTally(ep.queue, k)
  {
    hide QueueTally;
  }

  lemma PushTotal(s: Sim, e: SimEvent, k: Kind)
    ensures Total(PushEvent(s, e), k) == Total(s, k) + One(e, k)
  {
    hide QueueTally, Enqueue, Total, One, Put, At;
    var ep := At(s, e.client);
    EnqueueTally(ep.queue, e, k);
    PutTotal(s, e.client, ep.(queue := Enqueue(ep.queue, e)), k);
  }

  lemma SameTotal(s: Sim, r: Sim, k: Kind)
    requires SameQueues(s, r)
    ensures Total(s, k) == Total(r, k)
  {
  }

  // ---------- The scheduler ----------

  /** The events that timers and expiries put into the queue are not packets in the tunnel. */
  predicate NoPacket(e: SimEvent) {
    e.event != TETunnelSent && e.event != TETunnelRecv && e.event != TENormalSent
  }

  lemma NoPacketCounts(e: SimEvent, k: Kind)
    requires NoPacket(e) && OfPackets(k)
    ensures One(e, k) == 0
  {
  }

  lemma UnblockQueues(s: Sim, expire: int, client: bool)
    ensures SameQueues(s, Unblock(s, expire, client))
  {
    hide ExpiryDelay;
  }

  lemma EndTotal(s: Sim, expire: int, client: bool, k: Kind)
    requires OfPackets(k)
    ensures var r := EndBlocking(s, expire, client);
            && Total(r.sim, k) == Total(s, k)
            && (r.Yield? ==> One(r.event, k) == 0)
  {
    hide Total, One, Unblock, PushEvent;
    var (lag, s1) := Lag(s);
    var s2 := Unblock(s1, expire, client);
    UnblockQueues(s1, expire, client);
    SameTotal(s, s1, k);
    SameTotal(s1, s2, k);
    var e := SimEvent(TEBlockingEnd, expire + lag, lag, client, false, false, false);
    NoPacketCounts(e, k);
    PushTotal(s2, e, k);
  }

  /** Taking the picked event removes exactly the top of its heap, shifted and moved forward. */
  lemma TakeTotal(s: Sim, p: Pick, now: int, k: Kind)
    requires p.wait.In? && TakeQueued(s, p, now).Yield?
    ensures var r := TakeQueued(s, p, now);
            var h := Select(At(s, p.client).queue, p.queue);
            && h.items != []
            && Total(r.sim, k) + One(Peek(h).value, k) == Total(s, k)
            && r.event == Peek(h).value.(time := r.event.time)
  {
    hide Total, QueueTally, One, Peek, Pop, Put;
    var ep := At(s, p.client);
    if Select(ep.queue, p.queue).items != [] {
      DequeueTally(ep.queue, p.queue, ep.sum, k);
      PutTotal(s, p.client, ep.(queue := Dequeue(ep.queue, p.queue, ep.sum).0), k);
    }
  }

  lemma FireTimerTotal(s: Sim, target: int, k: Kind)
    requires OfPackets(k) && FireTimer(s, target).Again?
    ensures Total(FireTimer(s, target).sim, k) == Total(s, k)
  {
    hide Total, One, PushEvent;
    var c := IndexOf(s.client.timers, 0, target);
    var client := c.Some?;
    var m := if client then c.value else IndexOf(s.server.timers, 0, target).value;
    var ep := At(s, client);
    var s1 := Put(s, client, ep.(timers := ep.timers[m := None]));
    SameTotal(s, s1, k);
    NoPacketCounts(TimerEnded(m, target, client), k);
    PushTotal(s1, TimerEnded(m, target, client), k);
  }

  lemma PerformTotal(s: Sim, client: bool, a: Scheduled, k: Kind)
    requires OfPackets(k) && Scheduler.Perform(s, client, a).Again?
    ensures Total(Scheduler.Perform(s, client, a).sim, k) == Total(s, k)
  {
    hide Total, One, PushEvent, Block;
    var (lag1, s1) := Lag(s);
    SameTotal(s, s1, k);
    match a.action
    case TASendPadding(i, _, bypass, replace) =>
      var e := SimEvent(TEPaddingSent(i), a.time, lag1, client, true, bypass, replace);
      NoPacketCounts(e, k);
      PushTotal(s1, e, k);
    case TABlockOutgoing(i, _, duration, bypass, replace) =>
      var (lag2, s2) := Lag(s1);
      var ep := Block(At(s2, client), a.time, duration, bypass, replace);
      BlockQueue(At(s2, client), a.time, duration, bypass, replace);
      var s3 := Put(s2, client, ep);
      SameTotal(s, s3, k);
      var e := SimEvent(TEBlockingBegin(i), a.time + lag1 + lag2, lag1 + lag2, client, false, ep.bypassable, false);
      NoPacketCounts(e, k);
      PushTotal(s3, e, k);
    case _ =>
  }

  lemma BlockQueue(ep: Endpoint, time: int, duration: nat, bypass: bool, replace: bool)
    ensures Block(ep, time, duration, bypass, replace).queue == ep.queue
  {
  }

  lemma FireActionTotal(s: Sim, target: int, k: Kind)
    requires OfPackets(k) && FireAction(s, target).Again?
    ensures Total(FireAction(s, target).sim, k) == Total(s, k)
  {
    hide Total, Scheduler.Perform;
    var c := IndexOf(DueTimes(s.client.actions), 0, target);
    var client := c.Some?;
    var m := if client then c.value else IndexOf(DueTimes(s.server.actions), 0, target).value;
    var ep := At(s, client);
    var s1 := Put(s, client, ep.(actions := ep.actions[m := None]));
    SameTotal(s, s1, k);
    PerformTotal(s1, client, ep.actions[m].value, k);
  }

  lemma PopDelayTotal(s: Sim, k: Kind)
    requires s.pending.items != []
    ensures Total(PopDelay(s), k) == Total(s, k)
  {
    hide Total;
    SameTotal(s, PopDelay(s), k);
  }

  /** A round loses and adds no packet: what it yields it has taken out of the queues. */
  lemma AdvanceTotal(s: Sim, now: int, k: Kind)
    requires Timeless(k) && OfPackets(k)
    ensures var r := Advance(s, now);
            && (r.Yield? ==> Total(r.sim, k) + One(r.event, k) == Total(s, k))
            && (r.Again? ==> Total(r.sim, k) == Total(s, k))
  {
    hide WaitsAt, Choose, Chosen, EndBlocking, FireTimer, FireAction, TakeQueued, PopDelay, Total, Armed;
    var w := WaitsAt(s, now);
    ChosenIsLeast(w);
    FireYieldsNothing(s, now);
    match Choose(w)
    case NoChoice =>
    case TakeDelay => PopDelayTotal(s, k);
    case TakeExpiry => EndTotal(s, now + w.unblock.ns, w.unblockClient, k);
    case TakeEvent =>
      TakeNeverAgain(s, w.queue, now);
      if TakeQueued(s, w.queue, now).Yield? {
        TakeTotal(s, w.queue, now, k);
      }
    case TakeTimer =>
      if FireTimer(s, now + w.timer.ns).Again? {
        FireTimerTotal(s, now + w.timer.ns, k);
      }
    case TakeAction =>
      if FireAction(s, now + w.action.ns).Again? {
        FireActionTotal(s, now + w.action.ns, k);
      }
  }

  lemma FireYieldsNothing(s: Sim, now: int)
    ensures forall target :: !FireTimer(s, target).Yield? && !FireAction(s, target).Yield?
  {
    hide PushEvent, Put;
  }

  lemma TakeNeverAgain(s: Sim, p: Pick, now: int)
    requires p.wait.In?
    ensures !TakeQueued(s, p, now).Again?
  {
    hide Dequeue;
  }

  lemma {:induction false} PickTotal(s: Sim, now: int, k: Kind)
    requires Timeless(k) && OfPackets(k)
    ensures var n := PickNext(s, now);
            && (n.Next? ==> Total(n.sim, k) + One(n.event, k) == Total(s, k))
            && (n.Idle? ==> Total(n.sim, k) == Total(s, k))
    decreases Timers(s), Blockings(s), |s.pending.items|
  {
    hide Advance, Total, One;
    AdvanceTotal(s, now, k);
    if Advance(s, now).Again? {
      RoundsShrink(s, now);
      PickTotal(Advance(s, now).sim, now, k);
    }
  }

  // ---------- The network and the framework's answers ----------

  /** What processing event e puts back into the queues, of kind k, at most; exactly if k is Carries. */
  function Onward(e: SimEvent, k: Kind): nat {
    match k
    case Carries(client) => if Is(e, k) && !Is(e, Arrives(client)) then 1 else 0
    case Bypasses(client) => One(e, BypassPadding(client))
    case _ => 0
  }

  /** A kind whose count the network keeps (Carries) or bounds (Bypasses). */
  predicate Tracked(k: Kind) {
    k.Carries? || k.Bypasses?
  }

  /** r has gained at most n events of kind k over s, and exactly n if k is Carries. */
  ghost predicate Gains(s: Sim, r: Sim, k: Kind, n: nat) {
    Total(r, k) <= Total(s, k) + n && (k.Carries? ==> Total(r, k) == Total(s, k) + n)
  }

  lemma ReplaceGains(s: Sim, client: bool, now: int, k: Kind)
    requires Tracked(k) && PeekBlocking(At(s, client).queue, At(s, client).bypassable).0.Some?
    requires PeekBlocking(At(s, client).queue, At(s, client).bypassable).0.value.client == client
    ensures Gains(s, ReplaceByHeld(s, client, now), k, if k == Bypasses(client) then 1 else 0)
  {
    hide Total, QueueTally, PeekBlocking, Dequeue, Select, DelayOnReplace, PushDelay, PushEvent, Put, At, Peek;
    var ep := At(s, client);
    var (held, id) := PeekBlocking(ep.queue, ep.bypassable);
    HeldTop(ep);
    var (queue, e) := Dequeue(ep.queue, id, ep.sum);
    DequeueTally(ep.queue, id, ep.sum, k);
    PutTotal(s, client, ep.(queue := queue), k);
    var entry := e.(bypass := true, replace := false);
    var s1 := Put(s, client, ep.(queue := queue));
    var delay := DelayOnReplace(ep.(queue := queue), now, entry);
    var s2 := if delay.Some? then PushDelay(s1, delay.value, now, client) else s1;
    DelayQueues(s1, if delay.Some? then delay.value else 0, now, client);
    SameTotal(s1, s2, k);
    PushTotal(s2, entry, k);
  }

  /** The held packet is the top of its heap and comes out as it is. */
  lemma HeldTop(ep: Endpoint)
    requires PeekBlocking(ep.queue, ep.bypassable).0.Some?
    ensures var (held, id) := PeekBlocking(ep.queue, ep.bypassable);
            && Select(ep.queue, id).items != []
            && Peek(Select(ep.queue, id)) == held
            && Dequeue(ep.queue, id, ep.sum).1 == held.value
  {
    hide Peek, Pop, NotBefore;
    BlockingSoonest(ep);
  }

  lemma DelayQueues(s: Sim, delay: nat, t: int, client: bool)
    ensures SameQueues(s, PushDelay(s, delay, t, client))
  {
  }

  lemma SendPaddingGains(s: Sim, next: SimEvent, now: int, k: Kind)
    requires Tracked(k) && next.event.TEPaddingSent?
    ensures Gains(s, SendPaddingPacket(s, next, now), k, Onward(next, k))
  {
    hide Total, PeekBlocking, ReplaceByHeld, PushEvent, At;
    var ep := At(s, next.client);
    var (held, id) := PeekBlocking(ep.queue, ep.bypassable);
    if held.Some? && held.value.client == next.client {
      ReplaceGains(s, next.client, now, k);
    }
    PushTotal(s, Packet(TETunnelSent, next.time, next.delay, next.client, true, next.bypass, next.replace), k);
  }

  lemma EnterTunnelGains(s: Sim, next: SimEvent, now: int, k: Kind)
    requires Tracked(k) && next.event == TETunnelSent
    ensures Gains(s, EnterTunnel(s, next, now), k, Onward(next, k))
  {
    hide Total, PushEvent, PushDelay, PropagatesDelay, AddToWindow, Congestion;
    var (lag, s1) := Lag(s);
    var ep := At(s1, next.client);
    var window := AddToWindow(ep.window, now, s.net.window);
    var s2 := Put(s1, next.client, ep.(window := window));
    var extra := Congestion(s.net, |window|);
    var push := extra > 0 && PropagatesDelay(At(s2, next.client), next, s.client.sum);
    var s3 := if push then PushDelay(s2, extra, now, next.client) else s2;
    DelayQueues(s2, extra, now, next.client);
    SameTotal(s, s3, k);
    var travel := extra + s.net.delay;
    var arrival := if next.padding then next.time + next.delay + travel + lag
                   else Max(next.time - next.delay + travel + lag, now);
    PushTotal(s3, Packet(TETunnelRecv, arrival, lag, !next.client, next.padding, false, false), k);
  }

  /** Each trace packet taken out goes back in one stage further, until it is received. */
  lemma NetworkGains(s: Sim, next: SimEvent, now: int, k: Kind)
    requires Tracked(k) && (next.event == TENormalSent ==> !next.padding)
    ensures Gains(s, NetworkStack(s, next, now).0, k, Onward(next, k))
  {
    hide Total, PushEvent, SendPaddingPacket, EnterTunnel;
    match next.event
    case TENormalSent =>
      PushTotal(s, Packet(TETunnelSent, next.time, next.delay, next.client, false, false, false), k);
    case TEPaddingSent(_) => SendPaddingGains(s, next, now, k);
    case TETunnelSent => EnterTunnelGains(s, next, now, k);
    case TETunnelRecv =>
      PushTotal(s, Packet(if next.padding then TEPaddingRecv else TENormalRecv,
                          next.time, next.delay, next.client, next.padding, false, false), k);
    case _ =>
  }

  lemma Perform1Total(s: Sim, client: bool, a: TriggerAction, now: int, lag: nat, k: Kind)
    requires a.machine < |At(s, client).actions| == |At(s, client).timers| && OfPackets(k)
    ensures Total(Perform1(s, client, a, now, lag), k) == Total(s, k)
  {
    hide Total, PushEvent, One;
    if a.TAUpdateTimer? {
      var ep := At(s, client);
      var s1 := Put(s, client, SetTimer(ep, a.machine, Some(now + a.duration)));
      SameTotal(s, s1, k);
      var e := Packet(TETimerBegin(a.machine), now, 0, client, false, false, false);
      NoPacketCounts(e, k);
      PushTotal(s1, e, k);
    } else {
      SameTotal(s, Perform1(s, client, a, now, lag), k);
    }
  }

  lemma {:induction false} PerformFromTotal(s: Sim, client: bool, actions: seq<TriggerAction>, i: nat, now: int,
                                            lag: nat, k: Kind)
    requires Fits(At(s, client), actions) && i <= |actions| && OfPackets(k)
    ensures Total(PerformFrom(s, client, actions, i, now, lag), k) == Total(s, k)
    decreases |actions| - i
  {
    hide Total, Perform1;
    if i < |actions| {
      Perform1Total(s, client, actions[i], now, lag, k);
      PerformFromTotal(Perform1(s, client, actions[i], now, lag), client, actions, i + 1, now, lag, k);
    }
  }

  lemma TriggerTotal(s: Sim, client: bool, now: int, actions: seq<TriggerAction>, k: Kind)
    requires Fits(At(s, client), actions) && OfPackets(k)
    ensures Total(TriggerUpdate(s, client, now, actions), k) == Total(s, k)
  {
    hide Total, PerformFrom;
    var (lag, s1) := Lag(s);
    SameTotal(s, s1, k);
    PerformFromTotal(s1, client, actions, 0, now, lag, k);
  }

  // ---------- Trace packets are conserved ----------

  /** Trace packets of an endpoint on their way, and those that have come out of the tunnel. */
  function OnTheWay(l: Loop, client: bool): nat {
    Total(l.sim, Carries(client))
  }

  function Received(l: Loop, client: bool): nat {
    Tally(l.done, Arrives(client))
  }

  lemma ProcessGains(args: Args, l: Loop, s: Sim, e: SimEvent, a: Answer, k: Kind)
    requires Lawful(NetworkStack(s, e, e.time).0, a)
    requires Tracked(k) && (e.event == TENormalSent ==> !e.padding)
    ensures Gains(s, Process(args, l, s, e, a).sim, k, Onward(e, k))
    ensures Process(args, l, s, e, a).done == l.done + [e]
  {
    hide Total, NetworkStack, TriggerUpdate, Onward;
    NetworkGains(s, e, e.time, k);
    TriggerTotal(NetworkStack(s, e, e.time).0, e.client, e.time, For(a, e.client), k);
  }

  /** In a sound state what the scheduler yields as NormalSent is a trace packet. */
  lemma YieldedIsPlain(s: Sim, now: int)
    requires Sound(s, now)
    ensures PickNext(s, now).Next? && PickNext(s, now).event.event == TENormalSent ==> !PickNext(s, now).event.padding
    decreases Timers(s), Blockings(s), |s.pending.items|
  {
    hide Sound, WaitsAt, Choose, Chosen, EndBlocking, FireTimer, FireAction, TakeQueued, PopDelay, Armed;
    ActSound(s, now);
    var w := WaitsAt(s, now);
    ChosenIsLeast(w);
    FireYieldsNothing(s, now);
    EndYieldsNoPacket(s, now);
    if Choose(w).TakeEvent? {
      QueueNamed(s, now);
      TakenIsPlain(s, w.queue, now);
    }
    if Advance(s, now).Again? {
      RoundsShrink(s, now);
      YieldedIsPlain(Advance(s, now).sim, now);
    }
  }

  lemma EndYieldsNoPacket(s: Sim, now: int)
    ensures forall expire, client :: EndBlocking(s, expire, client).Yield? ==>
              EndBlocking(s, expire, client).event.event == TEBlockingEnd
  {
    hide Unblock, PushEvent;
  }

  lemma TakenIsPlain(s: Sim, p: Pick, now: int)
    requires Sound(s, now) && p.wait.In? && Selector.Names(s, p, now)
    ensures TakeQueued(s, p, now).Yield? && TakeQueued(s, p, now).event.event == TENormalSent ==>
              !TakeQueued(s, p, now).event.padding
  {
    TakeShape(s, p, now);
    var h := Select(At(s, p.client).queue, p.queue);
    assert Peek(h).value in h.items;
    hide Pop, Peek, WaitOf;
  }

  /**
   In every iteration from a sound loop and for each endpoint: the trace packets on their way
   plus those received stay the same in number; and the packets that have bypassed or may
   bypass blocking never outnumber the padding packets sent to bypass it.
   */
  ghost predicate Conserved(l: Loop, l': Loop, client: bool) {
    && OnTheWay(l', client) + Received(l', client) == OnTheWay(l, client) + Received(l, client)
    && BypassLeft(l', client) <= BypassLeft(l, client)
  }

  /** Packets that bypassed or may bypass, less the padding sent to bypass. */
  function BypassLeft(l: Loop, client: bool): int {
    Total(l.sim, Bypasses(client)) + Tally(l.done, Bypasses(client)) - Tally(l.done, BypassPadding(client))
  }

  lemma IterateConserves(args: Args, l: Loop, a: Answer, client: bool)
    requires SoundLoop(l) && Lawful(l.sim, a)
    ensures !Iterate(args, l, a).Crashed? && Conserved(l, Iterate(args, l, a).loop, client)
  {
    hide PickNext, Process, NetworkStack, NoNormal, SoundLoop, Total, Tally, Onward, One, Is;
    IterateSound(args, l, a);
    PickKeepsMachines(l.sim, l.now);
    SoundNow(l);
    YieldedIsPlain(l.sim, l.now);
    PickTotal(l.sim, l.now, Carries(client));
    PickTotal(l.sim, l.now, Bypasses(client));
    var p := PickNext(l.sim, l.now);
    if p.Next? {
      NetworkKeepsMachines(p.sim, p.event, p.event.time);
      ProcessGains(args, l, p.sim, p.event, a, Carries(client));
      ProcessGains(args, l, p.sim, p.event, a, Bypasses(client));
      TallyAppend(l.done, p.event, Arrives(client));
      TallyAppend(l.done, p.event, Bypasses(client));
      TallyAppend(l.done, p.event, BypassPadding(client));
      OnwardCounts(p.event, client);
    }
  }

  lemma SoundNow(l: Loop)
    requires SoundLoop(l)
    ensures Sound(l.sim, l.now)
  {
  }

  lemma OnwardCounts(e: SimEvent, client: bool)
    ensures Onward(e, Carries(client)) + One(e, Arrives(client)) == One(e, Carries(client))
    ensures Onward(e, Bypasses(client)) == One(e, BypassPadding(client))
  {
  }

  lemma {:induction false} RunConserves(args: Args, l: Loop, script: seq<Answer>, client: bool)
    requires SoundLoop(l) && forall i :: 0 <= i < |script| ==> Lawful(l.sim, script[i])
    ensures !Run(args, l, script).Crashed? && Conserved(l, Run(args, l, script).loop, client)
    decreases |script|
  {
    hide Iterate, SoundLoop, OnTheWay, Received, BypassLeft;
    if script != [] {
      IterateSound(args, l, script[0]);
      IterateConserves(args, l, script[0], client);
      IterateKeepsMachines(args, l, script[0]);
      var r := Iterate(args, l, script[0]);
      if r.Going? {
        LawfulStays(l.sim, r.loop.sim, script);
        RunConserves(args, r.loop, script[1..], client);
      }
    }
  }

  // ---------- From the start ----------

  /**
   Sound, with packets in the base heaps only, and nothing done. Whatever a trace gives at the
   start is fresh; a fresh loop may also have delays, timers and blocking already.
   */
  ghost predicate Fresh(l: Loop) {
    && SoundLoop(l) && l.done == []
    && (var q := l.sim.client.queue; q.blocking.items == q.bypassable.items == q.internal.items == [])
    && (var q := l.sim.server.queue; q.blocking.items == q.bypassable.items == q.internal.items == [])
  }

  lemma {:induction false} TallyAll(items: seq<SimEvent>, k: Kind)
    requires forall e :: e in items ==> One(e, k) == 1
    ensures Tally(items, k) == |items|
  {
    if items != [] {
      TallyAll(items[..|items| - 1], k);
    }
  }

  lemma FreshCounts(l: Loop, client: bool)
    requires Fresh(l)
    ensures OnTheWay(l, client) == |At(l.sim, client).queue.base.items| && Received(l, client) == 0
    ensures BypassLeft(l, client) == 0
  {
    assert Typed(l.sim.client.queue, true) && Typed(l.sim.server.queue, false);
    var mine, other := At(l.sim, client).queue.base.items, At(l.sim, !client).queue.base.items;
    TallyAll(mine, Carries(client));
    TallyNone(other, Carries(client));
    TallyNone(mine, Bypasses(client));
    TallyNone(other, Bypasses(client));
    hide Typed, Is, One, Sound;
  }

  /** With no normal packets left, as the loop decides it, nothing is on its way. */
  lemma NoNormalNothingOnTheWay(l: Loop, client: bool)
    requires SoundLoop(l) && NoNormal(l.sim)
    ensures OnTheWay(l, client) == 0
  {
    assert TypedSim(l.sim);
    NoNormalTally(l.sim.client.queue, true, client);
    NoNormalTally(l.sim.server.queue, false, client);
    hide Typed, NoNormalPackets, QueueTally, Sound;
  }

  lemma NoNormalTally(q: Queues, side: bool, client: bool)
    requires Typed(q, side) && NoNormalPackets(q)
    ensures QueueTally(q, Carries(client)) == 0
  {
    TallyNone(q.base.items, Carries(client));
    TallyNone(q.blocking.items, Carries(client));
    TallyNone(q.bypassable.items, Carries(client));
    TallyNone(q.internal.items, Carries(client));
    hide Is;
  }

  /**
   In every run from a fresh start, whatever the machines do: packets received and packets on
   their way add up to the trace, so a run that stops because no normal packets are left has
   delivered every packet of the trace.
   */
  lemma EveryPacketArrives(args: Args, l: Loop, script: seq<Answer>, client: bool)
    requires Fresh(l) && forall i :: 0 <= i < |script| ==> Lawful(l.sim, script[i])
    ensures var r := Run(args, l, script);
            && !r.Crashed?
            && OnTheWay(r.loop, client) + Received(r.loop, client) == |At(l.sim, client).queue.base.items|
            && (NoNormal(r.loop.sim) ==> Received(r.loop, client) == |At(l.sim, client).queue.base.items|)
  {
    hide Run, Total, Tally, NoNormal, Sound, OnTheWay, Received, BypassLeft;
    FreshCounts(l, client);
    RunConserves(args, l, script, client);
    RunSound(args, l, script);
    var r := Run(args, l, script);
    if NoNormal(r.loop.sim) {
      NoNormalNothingOnTheWay(r.loop, client);
    }
  }

  /**
   In every run from a fresh start, the packets that an endpoint sent past blocking and those
   it still may are no more than the padding packets it sent to bypass blocking.
   */
  lemma BypassIsPaidFor(args: Args, l: Loop, script: seq<Answer>, client: bool)
    requires Fresh(l) && forall i :: 0 <= i < |script| ==> Lawful(l.sim, script[i])
    ensures var r := Run(args, l, script);
            && !r.Crashed?
            && Tally(r.loop.done, Bypasses(client)) + |At(r.loop.sim, client).queue.bypassable.items|
               <= Tally(r.loop.done, BypassPadding(client))
  {
    hide Run, Total, Tally, Sound;
    FreshCounts(l, client);
    RunConserves(args, l, script, client);
    RunSound(args, l, script);
    BypassingQueued(Run(args, l, script).loop, client);
  }

  lemma BypassingQueued(l: Loop, client: bool)
    requires SoundLoop(l)
    ensures |At(l.sim, client).queue.bypassable.items| <= Total(l.sim, Bypasses(client))
  {
    assert TypedSim(l.sim);
    TallyAll(At(l.sim, client).queue.bypassable.items, Bypasses(client));
    hide Typed, Sound, Is, One;
  }
}
