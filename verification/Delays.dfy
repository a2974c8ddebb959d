/**
 Aggregate delays. Whatever delay is pushed reaches both endpoints: base delay plus pending
 delays is the same on both sides, the sum of everything pushed, and base delays only grow.
 */
module Delays {
  import opened Prelude
  import opened Machines
  import opened SimEvents
  import opened Queues
  import opened SimState
  import opened Selector
  import opened Scheduler
  import opened Timing
  import opened Simulator
  import opened Traces

  /** The pending delays of one endpoint. */
  function PendingSum(items: seq<PendingDelay>, client: bool): nat {
    if items == [] then 0
    else
      var last := items[|items| - 1];
      PendingSum(items[..|items| - 1], client) + (if last.client == client then last.delay else 0)
  }

  /** What an endpoint has been or will be delayed by. */
  function Owed(s: Sim, client: bool): nat {
    At(s, client).sum + PendingSum(s.pending.items, client)
  }

  /** From s to r both endpoints owe what was pushed in between, and no base delay fell. */
  ghost predicate Paid(s: Sim, r: Sim) {
    && Owed(r, true) - r.pushed == Owed(s, true) - s.pushed
    && Owed(r, false) - r.pushed == Owed(s, false) - s.pushed
    && s.client.sum <= r.client.sum && s.server.sum <= r.server.sum
  }

  /** Nothing about delays changed. */
  ghost predicate SameDelays(s: Sim, r: Sim) {
    && s.client.sum == r.client.sum && s.server.sum == r.server.sum
    && s.pending == r.pending && s.pushed == r.pushed
  }

  lemma SamePaid(s: Sim, r: Sim)
    requires SameDelays(s, r)
    ensures Paid(s, r)
  {
  }

  lemma PendingAppend(items: seq<PendingDelay>, d: PendingDelay, client: bool)
    ensures PendingSum(items + [d], client) == PendingSum(items, client) + (if d.client == client then d.delay else 0)
  {
    assert (items + [d])[..|items|] == items;
  }

  lemma {:induction false} PendingRemove(items: seq<PendingDelay>, k: nat, client: bool)
    requires k < |items|
    ensures PendingSum(items, client)
         == PendingSum(items[..k] + items[k + 1..], client) + (if items[k].client == client then items[k].delay else 0)
  {
    var last := |items| - 1;
    if k < last {
      PendingRemove(items[..last], k, client);
      assert items[..k] + items[k + 1..] == (items[..last][..k] + items[..last][k + 1..]) + [items[last]];
      PendingAppend(items[..last][..k] + items[..last][k + 1..], items[last], client);
    } else {
      assert items[..k] + items[k + 1..] == items[..last];
    }
  }

  /**
   A delay that ends now takes effect, counted from when it began, after four network delays at
   its own endpoint, and at the other after three from the client and one from the server; but
   never before now.
   */
  lemma DelayTakesEffectInTime(s: Sim, delay: nat, now: int, client: bool)
    ensures var d := s.net.delay;
            var begin := now - delay;
            PushDelay(s, delay, now, client).pending.items == s.pending.items
              + [PendingDelay(Max(now, begin + (if client then 4 * d else d)), delay, true),
                 PendingDelay(Max(now, begin + (if client then 3 * d else 4 * d)), delay, false)]
  {
    var r := PushDelay(s, delay, now, client).pending.items;
    assert |r| == |s.pending.items| + 2 && r[..|s.pending.items|] == s.pending.items;
  }

  lemma PushDelayPaid(s: Sim, delay: nat, t: int, client: bool)
    ensures Paid(s, PushDelay(s, delay, t, client))
  {
    var d := s.net.delay;
    var a := PendingDelay(t + (if client then Rest(4 * d, delay) else Rest(d, delay)), delay, true);
    var b := PendingDelay(t + (if client then Rest(3 * d, delay) else Rest(4 * d, delay)), delay, false);
    var items := s.pending.items;
    PendingAppend(items, a, true);
    PendingAppend(items, a, false);
    PendingAppend(items + [a], b, true);
    PendingAppend(items + [a], b, false);
    hide PendingSum, Rest;
    assert PushDelay(s, delay, t, client).pending.items == items + [a] + [b];
  }

  lemma PopDelayPaid(s: Sim)
    requires s.pending.items != []
    ensures Paid(s, PopDelay(s))
  {
    hide PendingSum, SoonestDelay;
    PendingRemove(s.pending.items, SoonestDelay(s.pending), true);
    PendingRemove(s.pending.items, SoonestDelay(s.pending), false);
  }

  // ---------- Through the scheduler and the loop ----------

  lemma PushEventSame(s: Sim, e: SimEvent)
    ensures SameDelays(s, PushEvent(s, e))
  {
    hide Enqueue;
  }

  lemma EndPaid(s: Sim, expire: int, client: bool)
    ensures Paid(s, EndBlocking(s, expire, client).sim)
  {
    hide ExpiryDelay, PushDelay, PushEvent, PendingSum;
    var (lag, s1) := Lag(s);
    var ep := At(s1, client).(until := None);
    var s2 := Put(s1, client, ep);
    SamePaid(s, s2);
    var delay := ExpiryDelay(ep, expire);
    PushDelayPaid(s2, if delay.Some? then delay.value else 0, expire, client);
    var s3 := Unblock(s1, expire, client);
    assert s3 == if delay.Some? then PushDelay(s2, delay.value, expire, client) else s2;
    PushEventSame(s3, SimEvent(TEBlockingEnd, expire + lag, lag, client, false, false, false));
  }

  lemma FireSame(s: Sim, target: int)
    ensures FireTimer(s, target).Again? ==> SameDelays(s, FireTimer(s, target).sim)
    ensures FireAction(s, target).Again? ==> SameDelays(s, FireAction(s, target).sim)
    ensures !FireTimer(s, target).Yield? && !FireAction(s, target).Yield?
  {
    hide Enqueue;
  }

  lemma TakeSame(s: Sim, p: Pick, now: int)
    requires p.wait.In?
    ensures TakeQueued(s, p, now).Yield? ==> SameDelays(s, TakeQueued(s, p, now).sim)
    ensures !TakeQueued(s, p, now).Again?
  {
    hide Dequeue;
  }

  lemma AdvancePaid(s: Sim, now: int)
    ensures var r := Advance(s, now);
            r.Again? || r.Yield? ==> Paid(s, r.sim)
  {
    hide WaitsAt, Choose, Chosen, EndBlocking, FireTimer, FireAction, TakeQueued, PopDelay, Owed;
    var w := WaitsAt(s, now);
    ChosenIsLeast(w);
    match Choose(w)
    case NoChoice =>
    case TakeDelay => PopDelayPaid(s);
    case TakeExpiry => EndPaid(s, now + w.unblock.ns, w.unblockClient);
    case TakeEvent =>
      TakeSame(s, w.queue, now);
      if TakeQueued(s, w.queue, now).Yield? {
        SamePaid(s, TakeQueued(s, w.queue, now).sim);
      }
    case TakeTimer =>
      FireSame(s, now + w.timer.ns);
      if FireTimer(s, now + w.timer.ns).Again? {
        SamePaid(s, FireTimer(s, now + w.timer.ns).sim);
      }
    case TakeAction =>
      FireSame(s, now + w.action.ns);
      if FireAction(s, now + w.action.ns).Again? {
        SamePaid(s, FireAction(s, now + w.action.ns).sim);
      }
  }

  lemma {:induction false} PickPaid(s: Sim, now: int)
    ensures var n := PickNext(s, now);
            n.Next? || n.Idle? ==> Paid(s, n.sim)
    decreases Timers(s), Blockings(s), |s.pending.items|
  {
    hide Advance, Owed;
    AdvancePaid(s, now);
    if Advance(s, now).Again? {
      RoundsShrink(s, now);
      PickPaid(Advance(s, now).sim, now);
    }
  }

  lemma ReplacePaid(s: Sim, client: bool, now: int)
    requires PeekBlocking(At(s, client).queue, At(s, client).bypassable).0.Some?
    ensures Paid(s, ReplaceByHeld(s, client, now))
  {
    hide PeekBlocking, Peek, NotBefore, Dequeue, DelayOnReplace, PushDelay, PushEvent, PendingSum;
    var ep := At(s, client);
    BlockingSoonest(ep);
    var (_, id) := PeekBlocking(ep.queue, ep.bypassable);
    var (queue, e) := Dequeue(ep.queue, id, ep.sum);
    var entry := e.(bypass := true, replace := false);
    var s1 := Put(s, client, ep.(queue := queue));
    SamePaid(s, s1);
    var delay := DelayOnReplace(ep.(queue := queue), now, entry);
    PushDelayPaid(s1, if delay.Some? then delay.value else 0, now, client);
    var s2 := if delay.Some? then PushDelay(s1, delay.value, now, client) else s1;
    PushEventSame(s2, entry);
  }

  lemma EnterTunnelPaid(s: Sim, next: SimEvent, now: int)
    ensures Paid(s, EnterTunnel(s, next, now))
  {
    hide PushDelay, PushEvent, PropagatesDelay, AddToWindow, Congestion, PendingSum;
    var (lag, s1) := Lag(s);
    var ep := At(s1, next.client);
    var window := AddToWindow(ep.window, now, s.net.window);
    var s2 := Put(s1, next.client, ep.(window := window));
    SamePaid(s, s2);
    var extra := Congestion(s.net, |window|);
    var push := extra > 0 && PropagatesDelay(At(s2, next.client), next, s.client.sum);
    PushDelayPaid(s2, extra, now, next.client);
    var s3 := if push then PushDelay(s2, extra, now, next.client) else s2;
    var travel := extra + s.net.delay;
    var arrival := if next.padding then next.time + next.delay + travel + lag
                   else Max(next.time - next.delay + travel + lag, now);
    PushEventSame(s3, Packet(TETunnelRecv, arrival, lag, !next.client, next.padding, false, false));
  }

  lemma NetworkPaid(s: Sim, next: SimEvent, now: int)
    ensures Paid(s, NetworkStack(s, next, now).0)
  {
    hide PushEvent, ReplaceByHeld, EnterTunnel, PeekBlocking, Owed, At;
    SamePaid(s, s);
    match next.event
    case TENormalSent =>
      var e := Packet(TETunnelSent, next.time, next.delay, next.client, false, false, false);
      PushEventSame(s, e);
      SamePaid(s, PushEvent(s, e));
    case TEPaddingSent(_) =>
      if PeekBlocking(At(s, next.client).queue, At(s, next.client).bypassable).0.Some? {
        ReplacePaid(s, next.client, now);
      }
      var e := Packet(TETunnelSent, next.time, next.delay, next.client, true, next.bypass, next.replace);
      PushEventSame(s, e);
      SamePaid(s, PushEvent(s, e));
    case TETunnelSent => EnterTunnelPaid(s, next, now);
    case TETunnelRecv =>
      var e := Packet(if next.padding then TEPaddingRecv else TENormalRecv,
                      next.time, next.delay, next.client, next.padding, false, false);
      PushEventSame(s, e);
      SamePaid(s, PushEvent(s, e));
    case _ =>
  }

  lemma {:induction false} PerformFromSame(s: Sim, client: bool, actions: seq<TriggerAction>, k: nat, now: int,
                                           lag: nat)
    requires Fits(At(s, client), actions) && k <= |actions|
    ensures SameDelays(s, PerformFrom(s, client, actions, k, now, lag))
    decreases |actions| - k
  {
    hide Enqueue;
    if k < |actions| {
      PerformFromSame(Perform1(s, client, actions[k], now, lag), client, actions, k + 1, now, lag);
    }
  }

  lemma IteratePaid(args: Args, l: Loop, a: Answer)
    requires Lawful(l.sim, a)
    ensures !Iterate(args, l, a).Crashed? ==> Paid(l.sim, Iterate(args, l, a).loop.sim)
  {
    hide PickNext, NetworkStack, PerformFrom, Traced, NoNormal, Owed;
    PickPaid(l.sim, l.now);
    PickKeepsMachines(l.sim, l.now);
    var p := PickNext(l.sim, l.now);
    if p.Next? && l.now <= p.event.time {
      var e := p.event;
      NetworkKeepsMachines(p.sim, e, e.time);
      NetworkPaid(p.sim, e, e.time);
      var s1 := NetworkStack(p.sim, e, e.time).0;
      var (lag, s2) := Lag(s1);
      PerformFromSame(s2, e.client, For(a, e.client), 0, e.time, lag);
      SamePaid(s1, PerformFrom(s2, e.client, For(a, e.client), 0, e.time, lag));
    }
  }

  /**
   After any run whatsoever that did not crash: both endpoints owe the same more than at the
   start, namely the delays pushed during the run, and neither base delay has fallen.
   */
  lemma {:induction false} DelaysAreConserved(args: Args, l: Loop, script: seq<Answer>)
    requires forall i :: 0 <= i < |script| ==> Lawful(l.sim, script[i])
    ensures var r := Run(args, l, script);
            !r.Crashed? ==> Paid(l.sim, r.loop.sim)
    decreases |script|
  {
    hide Iterate, Owed;
    if script != [] {
      IteratePaid(args, l, script[0]);
      IterateKeepsMachines(args, l, script[0]);
      var r := Iterate(args, l, script[0]);
      if r.Going? {
        LawfulStays(l.sim, r.loop.sim, script);
        DelaysAreConserved(args, r.loop, script[1..]);
      }
    }
  }

  lemma StartOwesNothing(p: Parsed, pps: Option<nat>, clientMachines: nat, serverMachines: nat, x: Setting)
    requires Start(p, pps, clientMachines, serverMachines, x).Some?
    ensures var s := Start(p, pps, clientMachines, serverMachines, x).value.sim;
            Owed(s, true) == 0 && Owed(s, false) == 0 && s.pushed == 0
  {
    hide FirstTime, PacketsPerSecond;
  }

  /**
   In every state that a run from a parsed trace reaches, both endpoints owe the same: all the
   delay ever pushed.
   */
  lemma BothOweWhatWasPushed(args: Args, p: Parsed, pps: Option<nat>, clientMachines: nat, serverMachines: nat,
                             x: Setting, script: seq<Answer>)
    requires Start(p, pps, clientMachines, serverMachines, x).Some?
    requires var l := Start(p, pps, clientMachines, serverMachines, x).value;
             forall i :: 0 <= i < |script| ==> Lawful(l.sim, script[i])
    ensures var r := Run(args, Start(p, pps, clientMachines, serverMachines, x).value, script);
            !r.Crashed? ==> Owed(r.loop.sim, true) == r.loop.sim.pushed == Owed(r.loop.sim, false)
  {
    hide Run, Owed, Start, Lawful;
    StartOwesNothing(p, pps, clientMachines, serverMachines, x);
    DelaysAreConserved(args, Start(p, pps, clientMachines, serverMachines, x).value, script);
  }

  // ---------- The delay of an expiry ----------

  lemma {:induction false} TailBounds(items: seq<SimEvent>, k: nat, head: int, tail: int, t: int)
    requires k <= |items| && head <= tail <= head + MILLISECOND && tail <= t
    requires forall e :: e in items ==> e.time <= t
    ensures tail <= Tail(items, k, head, tail) <= head + MILLISECOND && Tail(items, k, head, tail) <= t
    ensures forall i :: k <= i < |items| && Since(items[i].time, head) <= MILLISECOND ==>
              items[i].time <= Tail(items, k, head, tail)
    decreases |items| - k
  {
    if k < |items| {
      var x := items[k].time;
      assert items[k] in items;
      TailBounds(items, k + 1, head, if Since(x, head) <= MILLISECOND && x > tail then x else tail, t);
    }
  }

  /**
   When blocking expires and delays the trace by r: r is positive, at most what the head of
   the blocked packets waited, and at least that less a millisecond.
   */
  lemma ExpiryDelayBounds(ep: Endpoint, client: bool, now: int, expire: int)
    requires SoundSide(ep, client, now) && now <= expire
    requires ExpiryDelay(ep, expire).Some?
    ensures var head := PeekBlocking(ep.queue, false).0;
            var r := ExpiryDelay(ep, expire).value;
            head.Some? && 0 < r && expire - head.value.time - MILLISECOND <= r <= expire - head.value.time
  {
    hide Typed, Tail, Peek, ActionsFrom, TimersFrom, EventsFrom, BaseWithin, NotBefore;
    BlockingSoonest(ep.(bypassable := false));
    var (head, id) := PeekBlocking(ep.queue, false);
    TopTimely(ep, client, now, id);
    var h := head.value.time;
    TailBounds(ep.queue.blocking.items, 0, h, h, now);
    TailBounds(ep.queue.bypassable.items, 0, h, Tail(ep.queue.blocking.items, 0, h, h), now);
  }

  /**
   In a sound state, a round of the scheduler that ends blocking pushes nothing, or a delay
   within those bounds of what the first packet held at that endpoint has waited.
   */
  lemma ExpiryRoundPushes(s: Sim, now: int)
    requires Sound(s, now) && Choose(WaitsAt(s, now)).TakeExpiry?
    ensures var w := WaitsAt(s, now);
            var r := Advance(s, now);
            && (r.Again? || r.Yield?) && w.unblock.In?
            && var expire := now + w.unblock.ns;
               var head := PeekBlocking(At(s, w.unblockClient).queue, false).0;
               || r.sim.pushed == s.pushed
               || (&& head.Some? && s.pushed < r.sim.pushed
                   && expire - head.value.time - MILLISECOND <= r.sim.pushed - s.pushed <= expire - head.value.time)
  {
    hide WaitsAt, Choose, SoundSide, ExpiryDelay, PeekBlocking, Enqueue, AtMost;
    var w := WaitsAt(s, now);
    ChosenIsLeast(w);
    var expire := now + w.unblock.ns;
    var ep := At(s, w.unblockClient).(until := None);
    UnblockedSide(s, now, w.unblockClient);
    if ExpiryDelay(ep, expire).Some? {
      ExpiryDelayBounds(ep, w.unblockClient, now, expire);
    }
  }

  lemma UnblockedSide(s: Sim, now: int, client: bool)
    requires Sound(s, now)
    ensures SoundSide(At(s, client).(until := None), client, now)
  {
    hide Typed;
  }
}
