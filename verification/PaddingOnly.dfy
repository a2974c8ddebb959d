/**
 Padding leaves the trace alone. Machines that pad in any way, but never block, do not move a
 single packet of the trace, as long as there are no lags and no congestion.
 */
module PaddingOnly {
  import opened Prelude
  import opened Machines
  import opened SimEvents
  import opened Queues
  import opened SimState
  import opened Selector
  import opened Scheduler
  import opened Timing
  import opened Simulator
  import opened SoundRuns
  import opened Conservation
  import opened Windows
  import opened Traces
  import opened DefenceFree

  // ---------- States without blocking, lag and congestion ----------

  predicate NeverBlocks(actions: seq<TriggerAction>) {
    forall i :: 0 <= i < |actions| ==> !actions[i].TABlockOutgoing?
  }

  /** An endpoint that does not block and will not, and whose packets carry no lag. */
  ghost predicate CalmSide(ep: Endpoint) {
    && ep.until.None? && ep.sum == 0
    && (forall i :: 0 <= i < |ep.actions| && ep.actions[i].Some? ==> ep.actions[i].value.action.TASendPadding?)
    && (forall id :: Punctual(Select(ep.queue, id).items))
  }

  ghost predicate Punctual(items: seq<SimEvent>) {
    forall e :: e in items ==> e.delay == 0
  }

  /** No delay is pending but for delays of no time, and the network adds none. */
  ghost predicate Calm(s: Sim) {
    && CalmSide(s.client) && CalmSide(s.server)
    && (forall d :: d in s.pending.items ==> d.delay == 0)
    && (forall n :: s.lags(n) == 0)
    && s.net.added == 0
  }

  ghost predicate AllAt(items: seq<SimEvent>, now: int) {
    forall e :: e in items ==> e.time == now
  }

  /** Packets that wait for the tunnel do not wait. */
  ghost predicate Prompt(s: Sim, now: int) {
    && AllAt(s.client.queue.blocking.items, now) && AllAt(s.client.queue.bypassable.items, now)
    && AllAt(s.server.queue.blocking.items, now) && AllAt(s.server.queue.bypassable.items, now)
  }

  /** An event that may be queued at time now. */
  predicate PromptEvent(e: SimEvent, now: int) {
    e.delay == 0 && (e.event == TETunnelSent ==> e.time == now)
  }

  lemma EnqueueCalm(q: Queues, e: SimEvent)
    requires e.delay == 0 && forall id :: Punctual(Select(q, id).items)
    ensures forall id :: Punctual(Select(Enqueue(q, e), id).items)
  {
    forall id
      ensures Punctual(Select(Enqueue(q, e), id).items)
    {
      assert Punctual(Select(q, id).items);
      assert Select(Enqueue(q, e), id) == if id == Home(e) then Push(Select(q, id), e) else Select(q, id);
    }
  }

  lemma DequeueCalm(q: Queues, id: Queue)
    requires Select(q, id).items != [] && forall other :: Punctual(Select(q, other).items)
    ensures forall other :: Punctual(Select(Dequeue(q, id, 0).0, other).items)
    ensures forall other, e :: e in Select(Dequeue(q, id, 0).0, other).items ==> e in Select(q, other).items
  {
    hide Pop, Peek;
    PopRemovesPeek(Select(q, id));
    forall other
      ensures Punctual(Select(Dequeue(q, id, 0).0, other).items)
      ensures forall e :: e in Select(Dequeue(q, id, 0).0, other).items ==> e in Select(q, other).items
    {
      assert Punctual(Select(q, other).items);
      assert Select(Dequeue(q, id, 0).0, other) == if other == id then Pop(Select(q, id)) else Select(q, other);
    }
  }

  lemma PushCalm(s: Sim, e: SimEvent, now: int)
    requires Calm(s) && Prompt(s, now) && PromptEvent(e, now)
    ensures Calm(PushEvent(s, e)) && Prompt(PushEvent(s, e), now)
  {
    EnqueueCalm(At(s, e.client).queue, e);
  }

  lemma PopDelayCalm(s: Sim, now: int)
    requires Calm(s) && Prompt(s, now) && s.pending.items != []
    ensures Calm(PopDelay(s)) && Prompt(PopDelay(s), now)
  {
    var k := SoonestDelay(s.pending);
    assert s.pending.items[k] in s.pending.items;
    hide Punctual, AllAt;
  }

  lemma PutSlotsCalm(s: Sim, now: int, client: bool, ep: Endpoint)
    requires Calm(s) && Prompt(s, now)
    requires ep == At(s, client).(actions := ep.actions, timers := ep.timers)
    requires forall i :: 0 <= i < |ep.actions| && ep.actions[i].Some? ==> ep.actions[i].value.action.TASendPadding?
    ensures Calm(Put(s, client, ep)) && Prompt(Put(s, client, ep), now)
  {
    hide Punctual, AllAt;
  }

  lemma LagCalm(s: Sim, now: int)
    requires Calm(s) && Prompt(s, now)
    ensures Lag(s).0 == 0 && Calm(Lag(s).1) && Prompt(Lag(s).1, now)
  {
    hide Punctual, AllAt;
  }

  // ---------- Rounds ----------

  lemma FireTimerCalm(s: Sim, now: int, target: int)
    requires Calm(s) && Prompt(s, now) && FireTimer(s, target).Again?
    ensures Calm(FireTimer(s, target).sim) && Prompt(FireTimer(s, target).sim, now)
  {
    hide Calm, Prompt, PushEvent, Put;
    var c := IndexOf(s.client.timers, 0, target);
    var client := c.Some?;
    var m := if client then c.value else IndexOf(s.server.timers, 0, target).value;
    var ep := At(s, client);
    CalmSlots(s, client);
    PutSlotsCalm(s, now, client, ep.(timers := ep.timers[m := None]));
    PushCalm(Put(s, client, ep.(timers := ep.timers[m := None])), TimerEnded(m, target, client), now);
  }

  lemma CalmSlots(s: Sim, client: bool)
    requires Calm(s)
    ensures var a := At(s, client).actions;
            forall i :: 0 <= i < |a| && a[i].Some? ==> a[i].value.action.TASendPadding?
  {
  }

  lemma FireActionCalm(s: Sim, now: int, target: int)
    requires Calm(s) && Prompt(s, now) && FireAction(s, target).Again?
    ensures Calm(FireAction(s, target).sim) && Prompt(FireAction(s, target).sim, now)
  {
    hide Calm, Prompt, PushEvent, Put, Lag;
    var c := IndexOf(DueTimes(s.client.actions), 0, target);
    var client := c.Some?;
    var m := if client then c.value else IndexOf(DueTimes(s.server.actions), 0, target).value;
    var ep := At(s, client);
    CalmSlots(s, client);
    var a := ep.actions[m].value;
    var s1 := Put(s, client, ep.(actions := ep.actions[m := None]));
    PutSlotsCalm(s, now, client, ep.(actions := ep.actions[m := None]));
    LagCalm(s1, now);
    var (lag, s2) := Lag(s1);
    var e := SimEvent(TEPaddingSent(a.action.machine), a.time, lag, client, true, a.action.bypass, a.action.replace);
    PushCalm(s2, e, now);
  }

  /** With nothing blocked, a pick has the wait of its event and none comes sooner. */
  lemma CalmPick(s: Sim, now: int, earliest: Wait)
    requires Sound(s, now) && Calm(s) && PeekQueue(s, earliest, now).wait.In?
    ensures var p := PeekQueue(s, earliest, now);
            && Names(s, p, now)
            && NoneSoonerAtAll(s.client, now, p.wait.ns) && NoneSoonerAtAll(s.server, now, p.wait.ns)
  {
    hide PeekQueue, SoundSide, NoneSoonerAtAll, Overtaken, NoneSoonerUnlessBypassing, Searches;
    TypedOf(s, now);
    SelectorRefinesMinimum(s, earliest, now);
    NoDelaySumNotOvertaken(s.client);
    NoDelaySumNotOvertaken(s.server);
  }

  lemma CalmTop(s: Sim, now: int, p: Pick)
    requires Sound(s, now) && Calm(s) && Prompt(s, now) && p.wait.In? && Names(s, p, now)
    ensures var e := Peek(Select(At(s, p.client).queue, p.queue)).value;
            now + p.wait.ns == e.time && e.delay == 0 && (e.event == TENormalSent ==> !e.padding)
  {
    hide SoundSide, Peek;
    SideOf(s, p.client, now);
    TopTimely(At(s, p.client), p.client, now, p.queue);
    TopIn(Select(At(s, p.client).queue, p.queue));
    SideTyped(s, now, p.client);
  }

  lemma SideTyped(s: Sim, now: int, client: bool)
    requires Sound(s, now)
    ensures Typed(At(s, client).queue, client)
  {
  }

  lemma TakenCalm(s: Sim, now: int, p: Pick)
    requires Sound(s, now) && Calm(s) && Prompt(s, now) && p.wait.In? && Names(s, p, now)
    requires NoneSoonerAtAll(s.client, now, p.wait.ns) && NoneSoonerAtAll(s.server, now, p.wait.ns)
    ensures var r := TakeQueued(s, p, now);
            && r.Yield? && r.event == Peek(Select(At(s, p.client).queue, p.queue)).value
            && Calm(r.sim) && Prompt(r.sim, r.event.time)
  {
    hide SoundSide, Peek, Pop, Dequeue, Punctual, CalmSide, NoneSoonerAtAll;
    CalmTop(s, now, p);
    NoneWaits(s.client, now, p.wait.ns);
    NoneWaits(s.server, now, p.wait.ns);
    TakesTop(s, now, p);
    DequeueCalmSide(At(s, p.client), p.queue, now);
  }

  /** An event that goes at its own time comes out as it is. */
  lemma TakesTop(s: Sim, now: int, p: Pick)
    requires Calm(s) && p.wait.In? && Names(s, p, now)
    requires now + p.wait.ns == Peek(Select(At(s, p.client).queue, p.queue)).value.time
    ensures var r := TakeQueued(s, p, now);
            var ep := At(s, p.client);
            && r.Yield? && r.event == Peek(Select(ep.queue, p.queue)).value
            && r.sim == Put(s, p.client, ep.(queue := Dequeue(ep.queue, p.queue, 0).0))
  {
    hide Pop, Peek;
  }

  lemma DequeueCalmSide(ep: Endpoint, id: Queue, now: int)
    requires CalmSide(ep) && Select(ep.queue, id).items != []
    requires AllAt(ep.queue.blocking.items, now) && AllAt(ep.queue.bypassable.items, now)
    ensures var r := ep.(queue := Dequeue(ep.queue, id, 0).0);
            && CalmSide(r) && AllAt(r.queue.blocking.items, now) && AllAt(r.queue.bypassable.items, now)
            && (ep.queue.blocking.items == [] ==> r.queue.blocking.items == [])
            && (ep.queue.bypassable.items == [] ==> r.queue.bypassable.items == [])
  {
    hide Pop, Peek, Punctual, Dequeue;
    DequeueCalm(ep.queue, id);
    var r := Dequeue(ep.queue, id, 0).0;
    forall e | e in r.blocking.items
      ensures e.time == now && e in ep.queue.blocking.items
    {
      assert e in Select(r, Blocking).items;
    }
    forall e | e in r.bypassable.items
      ensures e.time == now && e in ep.queue.bypassable.items
    {
      assert e in Select(r, Bypassable).items;
    }
    Inhabited(r.blocking.items);
    Inhabited(r.bypassable.items);
  }

  /** Where everything waits, nothing is ready for the tunnel. */
  lemma NoneWaits(ep: Endpoint, now: int, d: nat)
    requires CalmSide(ep) && AllAt(ep.queue.blocking.items, now) && AllAt(ep.queue.bypassable.items, now)
    requires NoneSoonerAtAll(ep, now, d)
    ensures d > 0 ==> ep.queue.blocking.items == [] && ep.queue.bypassable.items == []
  {
    Inhabited(ep.queue.blocking.items);
    Inhabited(ep.queue.bypassable.items);
    assert forall e :: e in ep.queue.blocking.items ==>
        e in Select(ep.queue, Blocking).items && WaitOf(ep, Blocking, e, now) == 0;
    assert forall e :: e in ep.queue.bypassable.items ==>
        e in Select(ep.queue, Bypassable).items && WaitOf(ep, Bypassable, e, now) == 0;
  }

  /** A round keeps the calm, and what it yields it takes out of the queues as it is. */
  lemma CalmRound(s: Sim, now: int, k: Kind)
    requires Sound(s, now) && Calm(s) && Prompt(s, now) && OfPackets(k)
    ensures var r := Advance(s, now);
            && (r.Again? ==> Calm(r.sim) && Prompt(r.sim, now) && Total(r.sim, k) == Total(s, k))
            && (r.Yield? ==>
                  && Calm(r.sim) && Prompt(r.sim, r.event.time) && Total(r.sim, k) + One(r.event, k) == Total(s, k)
                  && r.event.delay == 0 && (r.event.event == TENormalSent ==> !r.event.padding))
  {
    hide Calm, Prompt, Sound, WaitsAt, Choose, Chosen, EndBlocking, FireTimer, FireAction, TakeQueued, PopDelay, Total,
         One, Names, NoneSoonerAtAll;
    var w := WaitsAt(s, now);
    ChosenIsLeast(w);
    CalmWaits(s, now);
    FireYieldsNothing(s, now);
    match Choose(w)
    case NoChoice =>
    case TakeDelay =>
      PopDelayTotal(s, k);
      PopDelayCalm(s, now);
    case TakeExpiry =>
    case TakeEvent =>
      TakeNeverAgain(s, w.queue, now);
      CalmPick(s, now, Earliest(w));
      CalmTop(s, now, w.queue);
      TakenCalm(s, now, w.queue);
      TakeTotal(s, w.queue, now, k);
    case TakeTimer =>
      if FireTimer(s, now + w.timer.ns).Again? {
        FireTimerTotal(s, now + w.timer.ns, k);
        FireTimerCalm(s, now, now + w.timer.ns);
      }
    case TakeAction =>
      if FireAction(s, now + w.action.ns).Again? {
        FireActionTotal(s, now + w.action.ns, k);
        FireActionCalm(s, now, now + w.action.ns);
      }
  }

  function Earliest(w: Waits): Wait {
    Least(Least(Least(w.action, w.timer), w.unblock), w.delay)
  }

  lemma CalmWaits(s: Sim, now: int)
    requires Calm(s)
    ensures var w := WaitsAt(s, now); w.unblock.Never? && w.queue == PeekQueue(s, Earliest(w), now)
    ensures WaitsAt(s, now).delay.In? ==> s.pending.items != []
  {
    hide PeekQueue, SoonestAction, SoonestTimer, Punctual;
  }

  lemma {:induction false} CalmPicks(s: Sim, now: int, k: Kind)
    requires Sound(s, now) && Calm(s) && Prompt(s, now) && OfPackets(k)
    ensures var n := PickNext(s, now);
            && (n.Idle? ==> Calm(n.sim) && Prompt(n.sim, now) && Total(n.sim, k) == Total(s, k))
            && (n.Next? ==>
                  && Calm(n.sim) && Prompt(n.sim, n.event.time) && Total(n.sim, k) + One(n.event, k) == Total(s, k)
                  && n.event.delay == 0 && (n.event.event == TENormalSent ==> !n.event.padding))
    decreases Timers(s), Blockings(s), |s.pending.items|
  {
    hide Advance, Calm, Prompt, Sound, Total, One;
    CalmRound(s, now, k);
    ActSound(s, now);
    var r := Advance(s, now);
    if r.Again? {
      RoundsShrink(s, now);
      CalmPicks(r.sim, now, k);
    }
  }

  // ---------- The network ----------

  /** What the network puts back for an event of the trace, of a kind with a time. */
  function PutBack(e: SimEvent, k: Kind, delay: nat): nat {
    match k
    case SendsTrace(_, _) => if e.event == TENormalSent && Is(e, k) then 1 else 0
    case ComesTrace(time) => if Is(e, EntersTrace(false, time - delay)) then 1 else 0
    case _ => 0
  }

  predicate OfTrace(k: Kind) {
    k.SendsTrace? || k.ComesTrace?
  }

  lemma ReplaceCalm(s: Sim, client: bool, now: int, k: Kind)
    requires Calm(s) && Prompt(s, now) && OfTrace(k) && TypedSim(s)
    requires var held := PeekBlocking(At(s, client).queue, At(s, client).bypassable).0;
             held.Some? && held.value.event == TETunnelSent && held.value.client == client
    ensures var r := ReplaceByHeld(s, client, now);
            Calm(r) && Prompt(r, now) && Total(r, k) == Total(s, k)
  {
    hide Total, QueueTally, PeekBlocking, Dequeue, Select, DelayOnReplace, PushDelay, PushEvent, At, Put, Peek, Calm,
         Prompt, TypedSim;
    var ep := At(s, client);
    var (held, id) := PeekBlocking(ep.queue, ep.bypassable);
    HeldTop(ep);
    HeldCalm(s, client, now);
    var (queue, e) := Dequeue(ep.queue, id, ep.sum);
    DequeueTally(ep.queue, id, ep.sum, k);
    PutTotal(s, client, ep.(queue := queue), k);
    var entry := e.(bypass := true, replace := false);
    var s1 := Put(s, client, ep.(queue := queue));
    NoDelayOnReplace(ep.(queue := queue), now, entry);
    var delay := DelayOnReplace(ep.(queue := queue), now, entry);
    var s2 := if delay.Some? then PushDelay(s1, delay.value, now, client) else s1;
    PushNoDelay(s1, now, client);
    DelayQueues(s1, if delay.Some? then delay.value else 0, now, client);
    SameTotal(s1, s2, k);
    PushTotal(s2, entry, k);
    PushCalm(s2, entry, now);
  }

  /** The held packet is due now, and taking it out keeps the calm. */
  lemma HeldCalm(s: Sim, client: bool, now: int)
    requires Calm(s) && Prompt(s, now)
    requires PeekBlocking(At(s, client).queue, At(s, client).bypassable).0.Some?
    ensures var ep := At(s, client);
            var (held, id) := PeekBlocking(ep.queue, ep.bypassable);
            && held.value.time == now && held.value.delay == 0 && ep.sum == 0
            && Select(ep.queue, id).items != []
            && var s1 := Put(s, client, ep.(queue := Dequeue(ep.queue, id, 0).0));
               Calm(s1) && Prompt(s1, now)
  {
    hide Peek, Pop, Dequeue, NotBefore, Punctual, CalmSide;
    var ep := At(s, client);
    BlockingSoonest(ep);
    var (held, id) := PeekBlocking(ep.queue, ep.bypassable);
    TopIn(Select(ep.queue, id));
    HeldPunctual(ep, id, held.value);
    DequeueCalmSide(ep, id, now);
  }

  lemma HeldPunctual(ep: Endpoint, id: Queue, e: SimEvent)
    requires CalmSide(ep) && e in Select(ep.queue, id).items
    ensures e.delay == 0 && ep.sum == 0
  {
    assert Punctual(Select(ep.queue, id).items);
  }

  lemma NoDelayOnReplace(ep: Endpoint, now: int, head: SimEvent)
    requires head.time == now
    ensures DelayOnReplace(ep, now, head) in {None, Some(0)}
  {
    hide AnyWithin, BaseWithin;
  }

  lemma PushNoDelay(s: Sim, now: int, client: bool)
    requires Calm(s) && Prompt(s, now)
    ensures Calm(PushDelay(s, 0, now, client)) && Prompt(PushDelay(s, 0, now, client), now)
  {
    hide Punctual, AllAt;
  }

  lemma SendPaddingCalm(s: Sim, next: SimEvent, k: Kind)
    requires Calm(s) && Prompt(s, next.time) && TypedSim(s) && OfTrace(k)
    requires next.event.TEPaddingSent? && next.delay == 0
    ensures var r := SendPaddingPacket(s, next, next.time);
            Calm(r) && Prompt(r, next.time) && Total(r, k) == Total(s, k)
  {
    hide Total, PeekBlocking, ReplaceByHeld, PushEvent, At, Calm, Prompt, TypedSim;
    var ep := At(s, next.client);
    var (held, _) := PeekBlocking(ep.queue, ep.bypassable);
    if held.Some? && held.value.client == next.client && held.value.event == TETunnelSent {
      ReplaceCalm(s, next.client, next.time, k);
    }
    var padding := Packet(TETunnelSent, next.time, next.delay, next.client, true, next.bypass, next.replace);
    PushTotal(s, padding, k);
    PushCalm(s, padding, next.time);
  }

  lemma WindowCalm(s: Sim, now: int, client: bool, window: seq<int>)
    requires Calm(s) && Prompt(s, now)
    ensures var r := Put(s, client, At(s, client).(window := window));
            Calm(r) && Prompt(r, now) && SameQueues(s, r)
  {
    hide Punctual, AllAt;
  }

  lemma NoCongestion(s: Sim, count: nat)
    requires Calm(s)
    ensures Congestion(s.net, count) == 0
  {
  }

  lemma EnterTunnelCalm(s: Sim, next: SimEvent, k: Kind)
    requires Calm(s) && Prompt(s, next.time) && OfTrace(k) && next.event == TETunnelSent && next.delay == 0
    ensures var r := EnterTunnel(s, next, next.time);
            && Calm(r) && Prompt(r, next.time) && r.net == s.net
            && Total(r, k) == Total(s, k) + PutBack(next, k, s.net.delay)
  {
    hide Total, PushEvent, PushDelay, PropagatesDelay, AddToWindow, Congestion, Calm, Prompt;
    var (lag, s1) := Lag(s);
    LagCalm(s, next.time);
    SameTotal(s, s1, k);
    var ep := At(s1, next.client);
    var window := AddToWindow(ep.window, next.time, s.net.window);
    var s2 := Put(s1, next.client, ep.(window := window));
    WindowCalm(s1, next.time, next.client, window);
    SameTotal(s1, s2, k);
    NoCongestion(s, |window|);
    var arrival := Packet(TETunnelRecv, next.time + s.net.delay, 0, !next.client, next.padding, false, false);
    PushTotal(s2, arrival, k);
    PushCalm(s2, arrival, next.time);
    PushKeepsNet(s2, arrival);
  }

  lemma PushKeepsNet(s: Sim, e: SimEvent)
    ensures PushEvent(s, e).net == s.net
  {
  }

  /** The network keeps the calm, and puts each packet of the trace back one stage further. */
  lemma NetworkCalm(s: Sim, e: SimEvent, k: Kind)
    requires Calm(s) && Prompt(s, e.time) && TypedSim(s) && OfTrace(k) && e.delay == 0
    requires e.event == TENormalSent ==> !e.padding
    ensures var r := NetworkStack(s, e, e.time).0;
            && Calm(r) && Prompt(r, e.time)
            && Total(r, k) == Total(s, k) + PutBack(e, k, s.net.delay)
    ensures NetworkStack(s, e, e.time).1 <==> e.event == TETunnelSent || e.event == TETunnelRecv
  {
    hide Total, PushEvent, SendPaddingPacket, EnterTunnel, Calm, Prompt, TypedSim;
    match e.event
    case TENormalSent =>
      var packet := Packet(TETunnelSent, e.time, e.delay, e.client, false, false, false);
      PushTotal(s, packet, k);
      PushCalm(s, packet, e.time);
    case TEPaddingSent(_) => SendPaddingCalm(s, e, k);
    case TETunnelSent => EnterTunnelCalm(s, e, k);
    case TETunnelRecv =>
      var received := if e.padding then TEPaddingRecv else TENormalRecv;
      var packet := Packet(received, e.time, e.delay, e.client, e.padding, false, false);
      PushTotal(s, packet, k);
      PushCalm(s, packet, e.time);
    case _ =>
  }

  // ---------- The framework's answer ----------

  lemma Perform1Calm(s: Sim, client: bool, a: TriggerAction, now: int)
    requires Calm(s) && Prompt(s, now) && !a.TABlockOutgoing?
    requires a.machine < |At(s, client).actions| == |At(s, client).timers|
    ensures Calm(Perform1(s, client, a, now, 0)) && Prompt(Perform1(s, client, a, now, 0), now)
  {
    hide Calm, Prompt, PushEvent, Put, At;
    CalmSlots(s, client);
    var ep := At(s, client);
    match a
    case TACancel(m, kind) =>
      var ep1 := if kind == InternalTimer then ep else SetAction(ep, m, None);
      PutSlotsCalm(s, now, client, if kind == ActionTimer then ep1 else SetTimer(ep1, m, None));
    case TASendPadding(m, wait, _, _) =>
      PutSlotsCalm(s, now, client, SetAction(ep, m, Some(Scheduled(a, now + wait + 0))));
    case TAUpdateTimer(m, duration, replace) =>
      PutSlotsCalm(s, now, client, SetTimer(ep, m, Some(now + duration)));
      PushCalm(Put(s, client, SetTimer(ep, m, Some(now + duration))),
               Packet(TETimerBegin(m), now, 0, client, false, false, false), now);
  }

  lemma {:induction false} PerformFromCalm(s: Sim, client: bool, actions: seq<TriggerAction>, i: nat, now: int)
    requires Calm(s) && Prompt(s, now) && NeverBlocks(actions) && Fits(At(s, client), actions) && i <= |actions|
    ensures Calm(PerformFrom(s, client, actions, i, now, 0)) && Prompt(PerformFrom(s, client, actions, i, now, 0), now)
    decreases |actions| - i
  {
    hide Calm, Prompt, Perform1;
    if i < |actions| {
      Perform1Calm(s, client, actions[i], now);
      PerformFromCalm(Perform1(s, client, actions[i], now, 0), client, actions, i + 1, now);
    }
  }

  lemma TriggerCalm(s: Sim, client: bool, now: int, actions: seq<TriggerAction>, k: Kind)
    requires Calm(s) && Prompt(s, now) && NeverBlocks(actions) && Fits(At(s, client), actions) && OfTrace(k)
    ensures var r := TriggerUpdate(s, client, now, actions);
            Calm(r) && Prompt(r, now) && Total(r, k) == Total(s, k)
  {
    hide Calm, Prompt, PerformFrom, Total, NeverBlocks;
    LagCalm(s, now);
    TriggerTotal(s, client, now, actions, k);
    PerformFromCalm(Lag(s).1, client, actions, 0, now);
  }

  // ---------- The network stays ----------

  lemma EndNet(s: Sim, expire: int, client: bool)
    ensures EndBlocking(s, expire, client).sim.net == s.net
  {
    hide ExpiryDelay, Enqueue;
  }

  lemma FireNet(s: Sim, target: int)
    ensures FireTimer(s, target).Again? ==> FireTimer(s, target).sim.net == s.net
    ensures FireAction(s, target).Again? ==> FireAction(s, target).sim.net == s.net
  {
    hide Enqueue, Block;
  }

  lemma TakeNet(s: Sim, p: Pick, now: int)
    requires p.wait.In?
    ensures TakeQueued(s, p, now).Yield? ==> TakeQueued(s, p, now).sim.net == s.net
  {
    hide Dequeue;
  }

  lemma RoundNet(s: Sim, now: int)
    ensures var r := Advance(s, now);
            r.Again? || r.Yield? ==> r.sim.net == s.net
  {
    hide WaitsAt, Choose, EndBlocking, FireTimer, FireAction, TakeQueued;
    var w := WaitsAt(s, now);
    ChosenIsLeast(w);
    FireYieldsNothing(s, now);
    match Choose(w)
    case NoChoice =>
    case TakeDelay =>
    case TakeExpiry => EndNet(s, now + w.unblock.ns, w.unblockClient);
    case TakeEvent =>
      TakeNet(s, w.queue, now);
      TakeNeverAgain(s, w.queue, now);
    case TakeTimer => FireNet(s, now + w.timer.ns);
    case TakeAction => FireNet(s, now + w.action.ns);
  }

  lemma {:induction false} PickNet(s: Sim, now: int)
    ensures var n := PickNext(s, now);
            n.Next? || n.Idle? ==> n.sim.net == s.net
    decreases Timers(s), Blockings(s), |s.pending.items|
  {
    hide Advance;
    RoundNet(s, now);
    var r := Advance(s, now);
    if r.Again? {
      RoundsShrink(s, now);
      PickNet(r.sim, now);
    }
  }

  lemma ReplaceNet(s: Sim, client: bool, now: int)
    requires PeekBlocking(At(s, client).queue, At(s, client).bypassable).0.Some?
    ensures ReplaceByHeld(s, client, now).net == s.net
  {
    hide PeekBlocking, Dequeue, DelayOnReplace, Enqueue;
  }

  lemma EnterNet(s: Sim, e: SimEvent, now: int)
    ensures EnterTunnel(s, e, now).net == s.net
  {
    hide Enqueue, AddToWindow, Congestion, PropagatesDelay;
  }

  lemma NetworkNet(s: Sim, e: SimEvent, now: int)
    ensures NetworkStack(s, e, now).0.net == s.net
  {
    hide PeekBlocking, Enqueue, EnterTunnel, ReplaceByHeld;
    EnterNet(s, e, now);
    if PeekBlocking(At(s, e.client).queue, At(s, e.client).bypassable).0.Some? {
      ReplaceNet(s, e.client, now);
    }
  }

  lemma {:induction false} PerformNet(s: Sim, client: bool, actions: seq<TriggerAction>, i: nat, now: int, lag: nat)
    requires Fits(At(s, client), actions) && i <= |actions|
    ensures PerformFrom(s, client, actions, i, now, lag).net == s.net
    decreases |actions| - i
  {
    hide Enqueue;
    if i < |actions| {
      PerformNet(Perform1(s, client, actions[i], now, lag), client, actions, i + 1, now, lag);
    }
  }

  lemma TriggerNet(s: Sim, client: bool, now: int, actions: seq<TriggerAction>)
    requires Fits(At(s, client), actions)
    ensures TriggerUpdate(s, client, now, actions).net == s.net
  {
    hide PerformFrom;
    PerformNet(Lag(s).1, client, actions, 0, now, Lag(s).0);
  }

  // ---------- The account of the trace ----------

  /** Packets of the trace on their way and in the tunnel add up to the trace; none is ever delayed. */
  ghost predicate TraceAccount(s: Sim, done: seq<SimEvent>, x: Sending) {
    && (forall c: bool, t: int {:trigger SendsTrace(c, t)} ::
          Total(s, SendsTrace(c, t)) + Tally(done, EntersTrace(c, t)) == CountIn(Times(x, c), t, t))
    && (forall t: int {:trigger ComesTrace(t)} ::
          Total(s, ComesTrace(t)) + Tally(done, ComesTrace(t)) == Tally(done, EntersTrace(false, t - x.delay)))
  }

  /** The simulator's trace shows the packets of the trace that the client has seen. */
  ghost predicate TraceShown(trace: seq<SimEvent>, done: seq<SimEvent>) {
    forall t: int {:trigger ComesTrace(t)} ::
      && Tally(trace, EntersTrace(true, t)) == Tally(done, EntersTrace(true, t))
      && Tally(trace, ComesTrace(t)) == Tally(done, ComesTrace(t))
  }

  ghost predicate CalmLoop(l: Loop, x: Sending) {
    && SoundLoop(l) && Calm(l.sim) && Prompt(l.sim, l.now) && l.sim.net.delay == x.delay
    && TraceAccount(l.sim, l.done, x) && TraceShown(l.trace, l.done)
  }

  lemma ShownStep(trace: seq<SimEvent>, done: seq<SimEvent>, trace': seq<SimEvent>, e: SimEvent)
    requires TraceShown(trace, done)
    requires || trace' == trace + [e]
             || (trace' == trace && !(e.client && (e.event == TETunnelSent || e.event == TETunnelRecv)))
    ensures TraceShown(trace', done + [e])
  {
    forall t: int
      ensures Tally(trace', EntersTrace(true, t)) == Tally(done + [e], EntersTrace(true, t))
      ensures Tally(trace', ComesTrace(t)) == Tally(done + [e], ComesTrace(t))
    {
      hide Tally;
      assert Tally(trace, ComesTrace(t)) == Tally(done, ComesTrace(t));
      TallyAppend(trace, e, EntersTrace(true, t));
      TallyAppend(trace, e, ComesTrace(t));
      TallyAppend(done, e, EntersTrace(true, t));
      TallyAppend(done, e, ComesTrace(t));
    }
  }

  /** What the network puts back and what the event was balance what has entered the tunnel. */
  lemma StepBalances(e: SimEvent, c: bool, t: int, delay: nat)
    ensures PutBack(e, SendsTrace(c, t), delay) + One(e, EntersTrace(c, t)) == One(e, SendsTrace(c, t))
    ensures PutBack(e, ComesTrace(t), delay) == One(e, EntersTrace(false, t - delay))
  {
  }

  lemma SilentLines(e: SimEvent)
    requires e.delay == 0
    ensures Traced(e) == e
  {
  }

  /** What an event does, of one kind, from the pick to the framework's answer. */
  lemma ReactionTotal(s: Sim, now: int, a: Answer, k: Kind)
    requires Sound(s, now) && Calm(s) && Prompt(s, now) && OfTrace(k) && PickNext(s, now).Next?
    requires NeverBlocks(a.client) && NeverBlocks(a.server)
    requires var n := PickNext(s, now); Lawful(NetworkStack(n.sim, n.event, n.event.time).0, a)
    ensures var n := PickNext(s, now);
            var e := n.event;
            var r := TriggerUpdate(NetworkStack(n.sim, e, e.time).0, e.client, e.time, For(a, e.client));
            && Calm(r) && Prompt(r, e.time) && r.net == s.net && e.delay == 0
            && (NetworkStack(n.sim, e, e.time).1 <==> e.event == TETunnelSent || e.event == TETunnelRecv)
            && Total(r, k) + One(e, k) == Total(s, k) + PutBack(e, k, s.net.delay)
  {
    hide PickNext, NetworkStack, TriggerUpdate, Calm, Prompt, Sound, Total, One, PutBack, NeverBlocks, FitsMachines;
    CalmPicks(s, now, k);
    PickNextSound(s, now);
    PickNet(s, now);
    var n := PickNext(s, now);
    var e := n.event;
    SaneTyped(n, now);
    NetworkCalm(n.sim, e, k);
    NetworkNet(n.sim, e, e.time);
    var s1 := NetworkStack(n.sim, e, e.time).0;
    TriggerCalm(s1, e.client, e.time, For(a, e.client), k);
    TriggerNet(s1, e.client, e.time, For(a, e.client));
  }

  lemma SaneTyped(n: Next, now: int)
    requires NextSane(n, now) && n.Next?
    ensures TypedSim(n.sim)
  {
    TypedOf(n.sim, n.event.time);
  }

  /** The state that an event leads to. */
  function Behind(n: Next, a: Answer): Sim
    requires n.Next? && Lawful(NetworkStack(n.sim, n.event, n.event.time).0, a)
  {
    TriggerUpdate(NetworkStack(n.sim, n.event, n.event.time).0, n.event.client, n.event.time, For(a, n.event.client))
  }

  lemma AccountStep(l: Loop, a: Answer, x: Sending)
    requires Sound(l.sim, l.now) && Calm(l.sim) && Prompt(l.sim, l.now) && l.sim.net.delay == x.delay
    requires TraceAccount(l.sim, l.done, x) && PickNext(l.sim, l.now).Next?
    requires NeverBlocks(a.client) && NeverBlocks(a.server)
    requires var n := PickNext(l.sim, l.now); Lawful(NetworkStack(n.sim, n.event, n.event.time).0, a)
    ensures var n := PickNext(l.sim, l.now);
            TraceAccount(Behind(n, a), l.done + [n.event], x)
  {
    hide PickNext, NetworkStack, TriggerUpdate, Calm, Prompt, Sound, Total, One, PutBack, Tally, CountIn, NeverBlocks,
         FitsMachines;
    var n := PickNext(l.sim, l.now);
    var e, r := n.event, Behind(n, a);
    forall c: bool, t: int
      ensures Total(r, SendsTrace(c, t)) + Tally(l.done + [e], EntersTrace(c, t)) == CountIn(Times(x, c), t, t)
    {
      var k := SendsTrace(c, t);
      ReactionTotal(l.sim, l.now, a, k);
      StepBalances(e, c, t, x.delay);
      TallyAppend(l.done, e, EntersTrace(c, t));
      assert Total(l.sim, k) + Tally(l.done, EntersTrace(c, t)) == CountIn(Times(x, c), t, t);
    }
    forall t: int
      ensures Total(r, ComesTrace(t)) + Tally(l.done + [e], ComesTrace(t))
           == Tally(l.done + [e], EntersTrace(false, t - x.delay))
    {
      var k := ComesTrace(t);
      ReactionTotal(l.sim, l.now, a, k);
      StepBalances(e, false, t, x.delay);
      TallyAppend(l.done, e, k);
      TallyAppend(l.done, e, EntersTrace(false, t - x.delay));
      assert Total(l.sim, k) + Tally(l.done, k) == Tally(l.done, EntersTrace(false, t - x.delay));
    }
  }

  lemma IdleAccount(l: Loop, x: Sending)
    requires Sound(l.sim, l.now) && Calm(l.sim) && Prompt(l.sim, l.now)
    requires TraceAccount(l.sim, l.done, x) && PickNext(l.sim, l.now).Idle?
    ensures TraceAccount(PickNext(l.sim, l.now).sim, l.done, x)
  {
    hide PickNext, Calm, Prompt, Sound, Total, One, Tally, CountIn;
    var r := PickNext(l.sim, l.now).sim;
    forall c: bool, t: int
      ensures Total(r, SendsTrace(c, t)) + Tally(l.done, EntersTrace(c, t)) == CountIn(Times(x, c), t, t)
    {
      CalmPicks(l.sim, l.now, SendsTrace(c, t));
      assert Total(l.sim, SendsTrace(c, t)) + Tally(l.done, EntersTrace(c, t)) == CountIn(Times(x, c), t, t);
    }
    forall t: int
      ensures Total(r, ComesTrace(t)) + Tally(l.done, ComesTrace(t)) == Tally(l.done, EntersTrace(false, t - x.delay))
    {
      CalmPicks(l.sim, l.now, ComesTrace(t));
      assert Total(l.sim, ComesTrace(t)) + Tally(l.done, ComesTrace(t))
          == Tally(l.done, EntersTrace(false, t - x.delay));
    }
  }

  lemma ProcessParts(args: Args, l: Loop, n: Next, a: Answer)
    requires n.Next? && n.event.delay == 0 && Lawful(NetworkStack(n.sim, n.event, n.event.time).0, a)
    requires var e := n.event;
             NetworkStack(n.sim, e, e.time).1 <==> e.event == TETunnelSent || e.event == TETunnelRecv
    ensures var e := n.event;
            var l' := Process(args, l, n.sim, e, a);
            && l'.sim == Behind(n, a) && l'.now == e.time && l'.done == l.done + [e]
            && (|| l'.trace == l.trace + [e]
                || (l'.trace == l.trace && !(e.client && (e.event == TETunnelSent || e.event == TETunnelRecv))))
  {
    hide NetworkStack, TriggerUpdate, FitsMachines;
    SilentLines(n.event);
  }

  /** An iteration keeps the account of the trace. */
  lemma IterateCalm(args: Args, l: Loop, a: Answer, x: Sending)
    requires CalmLoop(l, x) && Lawful(l.sim, a) && NeverBlocks(a.client) && NeverBlocks(a.server)
    ensures var r := Iterate(args, l, a);
            !r.Crashed? && CalmLoop(r.loop, x)
  {
    hide PickNext, Process, NetworkStack, NoNormal, Calm, Prompt, SoundLoop, TraceAccount, TraceShown, NeverBlocks,
         FitsMachines;
    IterateSound(args, l, a);
    SoundNow(l);
    PickKeepsMachines(l.sim, l.now);
    var n := PickNext(l.sim, l.now);
    if n.Next? && l.now <= n.event.time {
      var e := n.event;
      NetworkKeepsMachines(n.sim, e, e.time);
      ReactionTotal(l.sim, l.now, a, ComesTrace(0));
      AccountStep(l, a, x);
      ProcessParts(args, l, n, a);
      ShownStep(l.trace, l.done, Process(args, l, n.sim, e, a).trace, e);
    } else if n.Idle? {
      CalmPicks(l.sim, l.now, ComesTrace(0));
      PickNet(l.sim, l.now);
      IdleAccount(l, x);
    }
  }

  lemma {:induction false} RunCalm(args: Args, l: Loop, script: seq<Answer>, x: Sending)
    requires CalmLoop(l, x)
    requires forall i :: 0 <= i < |script| ==> Lawful(l.sim, script[i])
    requires forall i :: 0 <= i < |script| ==> NeverBlocks(script[i].client) && NeverBlocks(script[i].server)
    ensures var r := Run(args, l, script);
            !r.Crashed? && CalmLoop(r.loop, x)
    decreases |script|
  {
    hide Iterate, CalmLoop, NeverBlocks, Lawful;
    if script != [] {
      IterateCalm(args, l, script[0], x);
      IterateKeepsMachines(args, l, script[0]);
      var r := Iterate(args, l, script[0]);
      if r.Going? {
        LawfulStays(l.sim, r.loop.sim, script);
        RunCalm(args, r.loop, script[1..], x);
      }
    }
  }

  // ---------- From the start to the end ----------

  /** Trace packets count alike with and without padding, where there is none. */
  lemma {:induction false} NoPaddingTally(items: seq<SimEvent>, c: bool, t: int)
    requires forall e :: e in items ==> !e.padding
    ensures Tally(items, SendsTrace(c, t)) == Tally(items, Sends(c, t))
    ensures Tally(items, ComesTrace(t)) == Tally(items, Comes(t))
  {
    if items != [] {
      NoPaddingTally(items[..|items| - 1], c, t);
    }
  }

  lemma StartAccount(lines: seq<Line>, x: Setting, l: Loop)
    requires forall n :: x.lags(n) == 0
    requires Fresh(l) && l.sim.client.queue.base == Parse(lines, x).client
    requires l.sim.server.queue.base == Parse(lines, x).server
    ensures TraceAccount(l.sim, l.done, SendingOf(lines, x))
  {
    hide Parse, CountIn, TimesOf, Fresh, Total, Tally, Times, SendingOf;
    FreshDone(l);
    ParseTyped(lines, x);
    forall c: bool, t: int
      ensures Total(l.sim, SendsTrace(c, t)) + Tally(l.done, EntersTrace(c, t))
           == CountIn(Times(SendingOf(lines, x), c), t, t)
    {
      StartSends(lines, x, l, c, t);
      BaseTotal(l, Sends(c, t));
      BaseTotal(l, SendsTrace(c, t));
      NoPaddingTally(l.sim.client.queue.base.items, c, t);
      NoPaddingTally(l.sim.server.queue.base.items, c, t);
      TallyNone(l.done, EntersTrace(c, t));
    }
    forall t: int
      ensures Total(l.sim, ComesTrace(t)) + Tally(l.done, ComesTrace(t))
           == Tally(l.done, EntersTrace(false, t - SendingOf(lines, x).delay))
    {
      StartSends(lines, x, l, true, t);
      BaseTotal(l, Comes(t));
      BaseTotal(l, ComesTrace(t));
      NoPaddingTally(l.sim.client.queue.base.items, true, t);
      NoPaddingTally(l.sim.server.queue.base.items, true, t);
      TallyNone(l.done, ComesTrace(t));
      TallyNone(l.done, EntersTrace(false, t - SendingOf(lines, x).delay));
    }
  }

  lemma FreshDone(l: Loop)
    requires Fresh(l)
    ensures l.done == []
  {
    hide SoundLoop;
  }

  /** The parsed packets carry no lag. */
  lemma {:induction false} ParsePunctual(lines: seq<Line>, x: Setting)
    requires forall n :: x.lags(n) == 0
    ensures Punctual(Parse(lines, x).client.items) && Punctual(Parse(lines, x).server.items)
  {
    hide AddToWindow;
    if lines != [] {
      ParsePunctual(lines[..|lines| - 1], x);
    }
  }

  /** A rate of more than a packet per nanosecond, once cast to 32 bits, never delays a packet. */
  predicate Generous(pps: nat) {
    pps % U32_RANGE > SECOND
  }

  lemma StartCalm(lines: seq<Line>, pps: nat, clientMachines: nat, serverMachines: nat, x: Setting)
    requires (forall n :: x.lags(n) == 0) && Generous(pps) && HasPacket(lines)
    ensures var start := Start(Parse(lines, x), Some(pps), clientMachines, serverMachines, x);
            && start.Some? && start.value.sim.net.delay == x.delay
            && Calm(start.value.sim) && Prompt(start.value.sim, start.value.now)
            && start.value.sim.client.queue.base == Parse(lines, x).client
            && start.value.sim.server.queue.base == Parse(lines, x).server && start.value.trace == []
  {
    hide Parse, Peek, HasPacket, StartEndpoint, CalmSide, FirstTime;
    ParsedCounts(lines, x);
    ParsePunctual(lines, x);
    var p := Parse(lines, x);
    HasFirstTime(p);
    StartSideCalm(p.client, clientMachines, x);
    StartSideCalm(p.server, serverMachines, x);
    assert SECOND / (pps % U32_RANGE) == 0;
  }

  lemma HasFirstTime(p: Parsed)
    ensures p.client.items != [] || p.server.items != [] ==> FirstTime(p).Some?
  {
  }

  lemma StartSideCalm(base: Heap, machines: nat, x: Setting)
    requires Punctual(base.items)
    ensures var ep := StartEndpoint(base, machines, x);
            && CalmSide(ep) && ep.queue.base == base
            && ep.queue.blocking.items == [] && ep.queue.bypassable.items == []
  {
  }

  lemma NothingShown()
    ensures TraceShown([], [])
  {
  }

  /** Where the loop sees no normal packet, no packet of the trace is left on its way. */
  lemma NoneLeft(s: Sim, now: int, c: bool, t: int)
    requires Sound(s, now) && NoNormal(s)
    ensures Total(s, SendsTrace(c, t)) == 0 && Total(s, ComesTrace(t)) == 0
  {
    SideTyped(s, now, true);
    SideTyped(s, now, false);
    NoneIn(s.client.queue, true, c, t);
    NoneIn(s.server.queue, false, c, t);
  }

  lemma NoneIn(q: Queues, client: bool, c: bool, t: int)
    requires Typed(q, client) && NoNormalPackets(q)
    ensures QueueTally(q, SendsTrace(c, t)) == 0 && QueueTally(q, ComesTrace(t)) == 0
  {
    NoNormalMeansNoPadding(q, client);
    TallyNone(q.internal.items, SendsTrace(c, t));
    TallyNone(q.internal.items, ComesTrace(t));
  }

  /**
   For every trace with a packet, without lags and with a generous rate, and however the machines
   of both endpoints pad, as long as they never block: the simulator starts and never panics, and
   once the loop sees no normal packet any more, the sorted result shows, for every time and both
   directions, exactly the packets of the trace among the client's packets without padding.
   */
  lemma PaddingLeavesTraceAlone(args: Args, lines: seq<Line>, pps: nat, clientMachines: nat, serverMachines: nat,
                                x: Setting, script: seq<Answer>)
    requires (forall n :: x.lags(n) == 0) && Generous(pps) && HasPacket(lines)
    requires forall i :: 0 <= i < |script| ==>
               OnePerMachine(script[i].client, clientMachines) && OnePerMachine(script[i].server, serverMachines)
    requires forall i :: 0 <= i < |script| ==> NeverBlocks(script[i].client) && NeverBlocks(script[i].server)
    ensures var start := Start(Parse(lines, x), Some(pps), clientMachines, serverMachines, x);
            && start.Some?
            && (forall i :: 0 <= i < |script| ==> Lawful(start.value.sim, script[i]))
            && var r := Run(args, start.value, script);
               && !r.Crashed?
               && (NoNormal(r.loop.sim) ==>
                     && InOrder(SortByTime(r.loop.trace))
                     && forall t: int {:trigger ComesTrace(t)} ::
                          && Tally(SortByTime(r.loop.trace), EntersTrace(true, t)) == Raw(lines, Sent, x.start, t)
                          && Tally(SortByTime(r.loop.trace), ComesTrace(t)) == Raw(lines, Received, x.start, t))
  {
    hide Run, Parse, Calm, Prompt, SoundLoop, SortByTime, TimesOf, Tally, CountIn, NoNormal, TraceAccount, TraceShown,
         NeverBlocks, OnePerMachine, HasPacket, Generous;
    StartCalm(lines, pps, clientMachines, serverMachines, x);
    StartIsFresh(lines, Some(pps), clientMachines, serverMachines, x);
    var l := Start(Parse(lines, x), Some(pps), clientMachines, serverMachines, x).value;
    StartAccount(lines, x, l);
    NothingShown();
    SendingDelay(lines, x);
    RunCalm(args, l, script, SendingOf(lines, x));
    var r := Run(args, l, script).loop;
    if NoNormal(r.sim) {
      SortKeeps(r.trace, Effort);
      forall t: int
        ensures Tally(SortByTime(r.trace), EntersTrace(true, t)) == Raw(lines, Sent, x.start, t)
        ensures Tally(SortByTime(r.trace), ComesTrace(t)) == Raw(lines, Received, x.start, t)
      {
        SortKeeps(r.trace, EntersTrace(true, t));
        SortKeeps(r.trace, ComesTrace(t));
        TraceThrough(r, SendingOf(lines, x), t);
        CountShift(lines, Received, x.start - x.delay, x.start, t - x.delay, t - x.delay);
      }
    }
  }

  /** At the end the trace shows what the endpoints sent. */
  lemma TraceThrough(l: Loop, x: Sending, t: int)
    requires CalmLoop(l, x) && NoNormal(l.sim)
    ensures Tally(l.trace, EntersTrace(true, t)) == CountIn(x.client, t, t)
    ensures Tally(l.trace, ComesTrace(t)) == CountIn(x.server, t - x.delay, t - x.delay)
  {
    hide Sound, NoNormal, Calm, Prompt, Total, Tally, CountIn;
    NoneLeft(l.sim, l.now, true, t);
    NoneLeft(l.sim, l.now, false, t - x.delay);
    assert Total(l.sim, SendsTrace(true, t)) + Tally(l.done, EntersTrace(true, t)) == CountIn(Times(x, true), t, t);
    var s := t - x.delay;
    assert Total(l.sim, SendsTrace(false, s)) + Tally(l.done, EntersTrace(false, s)) == CountIn(Times(x, false), s, s);
    assert Total(l.sim, ComesTrace(t)) + Tally(l.done, ComesTrace(t)) == Tally(l.done, EntersTrace(false, t - x.delay));
  }
}
