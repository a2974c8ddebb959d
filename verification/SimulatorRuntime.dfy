/**
 The simulator as the source writes it: endpoint state, bottleneck and main loop are
 objects updated in place. Every method has exactly the effect of its specification.
 */
module SimulatorRuntime {
  import opened Prelude
  import opened Machines
  import opened SimEvents
  import opened Queues
  import opened SimState
  import opened Selector
  import opened Spec = Scheduler
  import opened Loops = Simulator
  import opened SoundRuns
  import opened Conservation
  import opened Windows
  import opened Traces
  import opened EventQueues
  import opened Scans

  /** The timers and the blocking of one endpoint. */
  class EndpointState {
    var actions: seq<Option<Scheduled>>
    var timers: seq<Option<int>>
    var until: Option<int>
    var bypassable: bool

    constructor (e: Endpoint)
      ensures actions == e.actions && timers == e.timers && until == e.until && bypassable == e.bypassable
    {
      actions, timers, until, bypassable := e.actions, e.timers, e.until, e.bypassable;
    }
  }

  /** The network between the endpoints, with the delays that are still to take effect. */
  class NetworkBottleneck {
    var clientSum: nat
    var serverSum: nat
    var pending: DelayHeap
    var pushed: nat
    const net: Net
    const clientWindow: WindowCount
    const serverWindow: WindowCount

    ghost predicate Valid()
      reads this, clientWindow, serverWindow
    {
      && clientWindow != serverWindow
      && clientWindow.Valid() && serverWindow.Valid()
      && clientWindow.window == serverWindow.window == net.window
    }

    constructor (net: Net, pending: DelayHeap)
      ensures Valid() && fresh(clientWindow) && fresh(serverWindow)
      ensures this.net == net && this.pending == pending && pushed == 0
      ensures clientSum == 0 && serverSum == 0 && clientWindow.times == [] && serverWindow.times == []
    {
      this.net, this.pending := net, pending;
      clientSum, serverSum, pushed := 0, 0, 0;
      clientWindow := new WindowCount(net.window);
      serverWindow := new WindowCount(net.window);
    }

    /** The delay of a packet that enters the tunnel, beyond that of the network. */
    method Sample(now: int, client: bool) returns (extra: nat)
      requires Valid()
      modifies clientWindow, serverWindow
      ensures Valid()
      ensures var old_ := if client then old(clientWindow.times) else old(serverWindow.times);
              var window := AddToWindow(old_, now, net.window);
              && extra == Congestion(net, |window|)
              && clientWindow.times == (if client then window else old(clientWindow.times))
              && serverWindow.times == (if client then old(serverWindow.times) else window)
    {
      var window := if client then clientWindow else serverWindow;
      var count := window.Add(now);
      extra := 0;
      if count > net.limit {
        extra := net.added * ((count - net.limit) % U32_RANGE);
      }
    }
  }

  /** What the scheduler comes up with. */
  datatype Outcome = Event(event: SimEvent) | Finished | Panicked

  ghost predicate Matches(o: Outcome, s: Sim, n: Spec.Next) {
    match n
    case Next(s', e) => o == Event(e) && s == s'
    case Idle(s') => o == Finished && s == s'
    case Bug => o == Panicked
  }

  lemma HeldIsThere(q: Queues, bypassable: bool)
    requires PeekBlocking(q, bypassable).0.Some?
    ensures var (e, id) := PeekBlocking(q, bypassable);
            Select(q, id).items != [] && id != Base
  {
    hide Peek;
  }

  /** What a round leads to. */
  function After(s: Sim, now: int, r: Spec.Round): Spec.Next {
    match r
    case Yield(s', e) => Spec.Next.Next(s', e)
    case Again(s') => Spec.PickNext(s', now)
    case Nothing => Spec.Idle(s)
    case Panic => Spec.Bug
  }

  /** The scheduler goes round by round, and another round is always a smaller one. */
  lemma RoundByRound(s: Sim, now: int)
    ensures var r := Spec.Act(s, now, Spec.WaitsAt(s, now));
            && Spec.PickNext(s, now) == After(s, now, r)
            && (r.Again? ==> Spec.Smaller(r.sim, s))
  {
    Spec.RoundsShrink(s, now);
    hide Spec.Act, Spec.WaitsAt;
  }

  /** The loop over the rest of the script is one iteration and then the loop over what remains. */
  lemma RunOnce(args: Loops.Args, l: Loops.Loop, script: seq<Loops.Answer>, k: nat)
    requires k < |script| && forall i :: 0 <= i < |script| ==> Loops.Lawful(l.sim, script[i])
    ensures var r := Loops.Iterate(args, l, script[k]);
            && (!r.Crashed? ==> forall i :: 0 <= i < |script| ==> Loops.Lawful(r.loop.sim, script[i]))
            && Loops.Run(args, l, script[k..]) == if r.Going? then Loops.Run(args, r.loop, script[k + 1..]) else r
  {
    hide Loops.Iterate, OnePerMachine;
    var rest := script[k..];
    assert rest[0] == script[k] && rest[1..] == script[k + 1..];
    assert forall i :: 0 <= i < |rest| ==> rest[i] == script[k + i];
    Loops.IterateKeepsMachines(args, l, script[k]);
  }

  /** The picked event leaves an answer lawful, and so does the network. */
  lemma PickStaysLawful(l: Loops.Loop, a: Loops.Answer)
    requires Loops.Lawful(l.sim, a)
    ensures var p := Spec.PickNext(l.sim, l.now);
            p.Next? ==>
              && Loops.Lawful(p.sim, a)
              && Loops.Lawful(Loops.NetworkStack(p.sim, p.event, p.event.time).0, a)
  {
    hide Spec.PickNext, Loops.NetworkStack, OnePerMachine;
    Loops.PickKeepsMachines(l.sim, l.now);
    var p := Spec.PickNext(l.sim, l.now);
    if p.Next? {
      Loops.NetworkKeepsMachines(p.sim, p.event, p.event.time);
    }
  }

  /** How a simulation ended: at a stopping condition, with the script, or in a panic. */
  datatype Ending = Stop | Open | Crash

  function EndOf(r: Loops.Status): Ending {
    match r
    case Stopped(_) => Stop
    case Going(_) => Open
    case Crashed => Crash
  }

  class Simulator {
    const clientQueue: EventQueue
    const serverQueue: EventQueue
    const client: EndpointState
    const server: EndpointState
    const network: NetworkBottleneck
    const lags: nat -> nat
    var drawn: nat

    function Parts(): set<object> {
      {this, clientQueue, serverQueue, client, server, network, network.clientWindow, network.serverWindow}
    }

    /** The whole state as one value. */
    function Value(): Sim
      reads Parts()
    {
      Sim(Endpoint(clientQueue.Value(), client.actions, client.timers, client.until, client.bypassable,
                   network.clientSum, network.clientWindow.times),
          Endpoint(serverQueue.Value(), server.actions, server.timers, server.until, server.bypassable,
                   network.serverSum, network.serverWindow.times),
          network.pending, network.net, lags, drawn, network.pushed)
    }

    ghost predicate Valid()
      reads Parts()
    {
      clientQueue != serverQueue && client != server && network.Valid()
    }

    /** An object in the given state, in which the network has not carried anything yet. */
    constructor (s: Sim)
      requires s.client.sum == 0 && s.client.window == [] && s.server.sum == 0 && s.server.window == [] && s.pushed == 0
      ensures Valid() && fresh(Parts()) && Value() == s
    {
      clientQueue := new EventQueue(s.client.queue);
      serverQueue := new EventQueue(s.server.queue);
      client := new EndpointState(s.client);
      server := new EndpointState(s.server);
      network := new NetworkBottleneck(s.net, s.pending);
      lags, drawn := s.lags, s.drawn;
    }

    // ---------- Small steps ----------

    method PushSim(e: SimEvent)
      requires Valid()
      modifies clientQueue, serverQueue
      ensures Valid() && Value() == PushEvent(old(Value()), e)
    {
      if e.client {
        clientQueue.Add(e);
      } else {
        serverQueue.Add(e);
      }
    }

    method DrawLag() returns (lag: nat)
      requires Valid()
      modifies this
      ensures Valid() && (lag, Value()) == Lag(old(Value()))
    {
      lag := lags(drawn);
      drawn := drawn + 1;
    }

    /** Schedule a delay suffered at one endpoint for both. */
    method PushAggregateDelay(delay: nat, now: int, atClient: bool)
      requires Valid()
      modifies network
      ensures Valid() && Value() == PushDelay(old(Value()), delay, now, atClient)
    {
      var d := network.net.delay;
      var c, v := 0, 0;
      if atClient {
        if 4 * d > delay {
          c := 4 * d - delay;
        }
        if 3 * d > delay {
          v := 3 * d - delay;
        }
      } else {
        if d > delay {
          c := d - delay;
        }
        if 4 * d > delay {
          v := 4 * d - delay;
        }
      }
      var h := network.pending;
      h := h.(items := h.items + [PendingDelay(now + c, delay, true)], ops := h.ops + 1);
      h := h.(items := h.items + [PendingDelay(now + v, delay, false)], ops := h.ops + 1);
      network.pending := h;
      network.pushed := network.pushed + delay;
    }

    method PopAggregateDelay()
      requires Valid() && network.pending.items != []
      modifies network
      ensures Valid() && Value() == PopDelay(old(Value()))
    {
      var h := network.pending;
      var k := SoonestDelay(h);
      var d := h.items[k];
      network.pending := h.(items := h.items[..k] + h.items[k + 1..], ops := h.ops + 1);
      if d.client {
        network.clientSum := network.clientSum + d.delay;
      } else {
        network.serverSum := network.serverSum + d.delay;
      }
    }

    // ---------- The scheduler ----------

    /** Clear the first due internal timer, the client's first, and queue its end. */
    method DoInternalTimer(target: int) returns (found: bool)
      requires Valid()
      modifies clientQueue, serverQueue, client, server
      ensures Valid()
      ensures Spec.FireTimer(old(Value()), target) == if found then Again(Value()) else Panic
    {
      var machine := FindDue(client.timers, target);
      if machine.Some? {
        client.timers := client.timers[machine.value := None];
        clientQueue.Add(TimerEnded(machine.value, target, true));
        return true;
      }
      machine := FindDue(server.timers, target);
      if machine.Some? {
        server.timers := server.timers[machine.value := None];
        serverQueue.Add(TimerEnded(machine.value, target, false));
        return true;
      }
      return false;
    }

    /** Block an endpoint from `time` on, unless it is blocked for longer already. */
    method BlockFor(atClient: bool, time: int, duration: nat, bypass: bool, replace: bool)
      requires Valid()
      modifies client, server
      ensures Valid()
      ensures var ep := Spec.Block(At(old(Value()), atClient), time, duration, bypass, replace);
              Value() == Put(old(Value()), atClient, ep) && At(Value(), atClient) == ep
    {
      var side := if atClient then client else server;
      var current := if side.until.Some? then side.until.value else time;
      if replace || time + duration > current {
        side.until := Some(time + duration);
        side.bypassable := bypass;
      }
    }

    /** Blocking starts, and its start is reported after two lags. */
    method StartBlocking(a: Scheduled, atClient: bool)
      requires Valid() && a.action.TABlockOutgoing?
      modifies Parts()
      ensures Valid()
      ensures Spec.Perform(old(Value()), atClient, a) == Again(Value())
    {
      hide PushEvent, Spec.Block, Put, At, Value;
      var lag1 := DrawLag();
      var lag2 := DrawLag();
      BlockFor(atClient, a.time, a.action.duration, a.action.bypass, a.action.replace);
      var bypassable := At(Value(), atClient).bypassable;
      PushSim(SimEvent(TEBlockingBegin(a.action.machine), a.time + lag1 + lag2, lag1 + lag2, atClient, false,
                       bypassable, false));
    }

    /** Perform an action whose time has come. */
    method DoAction(a: Scheduled, atClient: bool) returns (done: bool)
      requires Valid()
      modifies Parts()
      ensures Valid()
      ensures Spec.Perform(old(Value()), atClient, a) == if done then Again(Value()) else Panic
    {
      hide PushEvent, Spec.Block;
      match a.action
      case TACancel(_, _) => return false;
      case TAUpdateTimer(_, _, _) => return false;
      case TASendPadding(machine, _, bypass, replace) =>
        var lag := DrawLag();
        PushSim(SimEvent(TEPaddingSent(machine), a.time, lag, atClient, true, bypass, replace));
        return true;
      case TABlockOutgoing(_, _, _, _, _) =>
        StartBlocking(a, atClient);
        return true;
    }

    /** Clear the first due scheduled action, the client's first, and perform it. */
    method DoScheduledAction(target: int) returns (found: bool)
      requires Valid()
      modifies Parts()
      ensures Valid()
      ensures Spec.FireAction(old(Value()), target) == if found then Again(Value()) else Panic
    {
      hide Spec.Perform;
      var machine := FindDue(DueTimes(client.actions), target);
      if machine.Some? {
        var a := client.actions[machine.value].value;
        client.actions := client.actions[machine.value := None];
        found := DoAction(a, true);
        return;
      }
      machine := FindDue(DueTimes(server.actions), target);
      if machine.Some? {
        var a := server.actions[machine.value].value;
        server.actions := server.actions[machine.value := None];
        found := DoAction(a, false);
        return;
      }
      return false;
    }

    /** Turn blocking off and schedule the delay that the blocked packets suffered. */
    method StopBlocking(expire: int, atClient: bool)
      requires Valid()
      modifies client, server, network
      ensures Valid() && Value() == Spec.Unblock(old(Value()), expire, atClient)
    {
      hide PushDelay, PeekBlocking, DelayOnExpire;
      var side := if atClient then client else server;
      side.until := None;
      var ep := At(Value(), atClient);
      var (head, _) := PeekBlocking(ep.queue, false);
      if head.Some? && head.value.time < expire {
        var delay := DelayWhenExpired(ep, expire, head.value);
        if delay.Some? {
          PushAggregateDelay(delay.value, expire, atClient);
        }
      }
    }

    /** The end of blocking: the next event, unless it is reported late. */
    method ExpireBlocking(expire: int, atClient: bool) returns (e: Option<SimEvent>)
      requires Valid()
      modifies Parts()
      ensures Valid()
      ensures Spec.EndBlocking(old(Value()), expire, atClient) ==
                if e.Some? then Yield(Value(), e.value) else Again(Value())
    {
      hide PushEvent, Spec.Unblock;
      var lag := DrawLag();
      StopBlocking(expire, atClient);
      var end := SimEvent(TEBlockingEnd, expire + lag, lag, atClient, false, false, false);
      if lag > 0 {
        PushSim(end);
        return None;
      }
      return Some(end);
    }

    /** Take the picked event out of its queue; blocking may have moved it forward in time. */
    method TakeFromQueue(p: Pick, now: int) returns (e: Option<SimEvent>)
      requires Valid() && p.wait.In?
      modifies clientQueue, serverQueue
      ensures Valid()
      ensures Spec.TakeQueued(old(Value()), p, now) == if e.Some? then Yield(Value(), e.value) else Panic
    {
      hide Dequeue;
      if p.client {
        e := clientQueue.Remove(p.queue, network.clientSum);
      } else {
        e := serverQueue.Remove(p.queue, network.serverSum);
      }
      if e.Some? && now + p.wait.ns > e.value.time {
        e := Some(e.value.(time := now + p.wait.ns));
      }
    }

    /** Everything that could be next, and how long it would take. */
    method PeekAll(now: int)
      returns (action: Wait, timer: Wait, unblock: Wait, atClient: bool, delay: Wait, queued: Pick)
      requires Valid()
      ensures Spec.WaitsAt(Value(), now) == Spec.Waits(action, timer, unblock, atClient, delay, queued)
      ensures delay.In? ==> network.pending.items != []
    {
      hide PeekQueue, Soonest;
      action := PeekScheduledAction(client.actions, server.actions, now);
      timer := PeekScheduledTimer(client.timers, server.timers, now);
      var (b, side) := SoonestUnblock(Value(), now);
      unblock, atClient := b, side;
      delay := WaitForDelay(Value(), now);
      queued := PeekQueue(Value(), Least(Least(Least(action, timer), unblock), delay), now);
    }

    /** The next event to process. The most urgent thing is done first, until that is an event. */
    method PickNext(now: int) returns (o: Outcome)
      requires Valid()
      modifies Parts()
      ensures Valid() && Matches(o, Value(), Spec.PickNext(old(Value()), now))
      decreases Spec.Timers(Value()), Spec.Blockings(Value()), |network.pending.items|
    {
      hide Spec.FireTimer, Spec.FireAction, Spec.EndBlocking, Spec.TakeQueued, PopDelay, Spec.WaitsAt, Spec.Timers,
           Spec.Blockings, Spec.PickNext, Spec.Advance;
      ghost var s := Value();
      var action, timer, unblock, atClient, delay, queued := PeekAll(now);
      RoundByRound(s, now);
      if action == Never && timer == Never && unblock == Never && delay == Never && queued.wait == Never {
        return Finished;
      }
      if AtMost(delay, action) && AtMost(delay, timer) && AtMost(delay, unblock) && AtMost(delay, queued.wait) {
        PopAggregateDelay();
        o := PickNext(now);
        return;
      }
      if AtMost(unblock, action) && AtMost(unblock, timer) && AtMost(unblock, queued.wait) {
        var end := ExpireBlocking(now + unblock.ns, atClient);
        if end.Some? {
          return Event(end.value);
        }
        o := PickNext(now);
        return;
      }
      if AtMost(queued.wait, action) && AtMost(queued.wait, timer) {
        var e := TakeFromQueue(queued, now);
        return if e.Some? then Event(e.value) else Panicked;
      }
      var found;
      if AtMost(timer, action) {
        found := DoInternalTimer(now + timer.ns);
      } else {
        found := DoScheduledAction(now + action.ns);
      }
      if !found {
        return Panicked;
      }
      o := PickNext(now);
    }

    // ---------- The network ----------

    /** Bypassing padding gives its place to the held packet, which goes on as a bypassing packet. */
    method ReplaceByHeldPacket(atClient: bool, now: int)
      requires Valid() && PeekBlocking(At(Value(), atClient).queue, At(Value(), atClient).bypassable).0.Some?
      modifies Parts()
      ensures Valid() && Value() == Loops.ReplaceByHeld(old(Value()), atClient, now)
    {
      hide PeekBlocking, Dequeue, PushDelay, DelayOnReplace, PushEvent;
      var ep := At(Value(), atClient);
      var (_, id) := PeekBlocking(ep.queue, ep.bypassable);
      HeldIsThere(ep.queue, ep.bypassable);
      var popped;
      if atClient {
        popped := clientQueue.Remove(id, network.clientSum);
      } else {
        popped := serverQueue.Remove(id, network.serverSum);
      }
      var entry := popped.value.(bypass := true, replace := false);
      var delay := DelayWhenReplaced(At(Value(), atClient), now, entry);
      if delay.Some? {
        PushAggregateDelay(delay.value, now, atClient);
      }
      PushSim(entry);
    }

    /** Padding goes into the tunnel, unless a held packet replaces it. */
    method SendPadding(next: SimEvent, now: int)
      requires Valid()
      modifies Parts()
      ensures Valid() && Value() == Loops.SendPaddingPacket(old(Value()), next, now)
    {
      hide PeekBlocking, PushEvent, Loops.ReplaceByHeld;
      if next.replace {
        var ep := At(Value(), next.client);
        var (held, _) := PeekBlocking(ep.queue, ep.bypassable);
        if held.Some? && held.value.client == next.client && held.value.event == TETunnelSent && !held.value.padding {
          if next.bypass {
            ReplaceByHeldPacket(next.client, now);
          }
          return;
        }
      }
      PushSim(SimEvent(TETunnelSent, next.time, next.delay, next.client, true, next.bypass, next.replace));
    }

    /** Congestion delays the trace as well, unless more packets follow closely. */
    method SpreadCongestion(extra: nat, next: SimEvent, now: int)
      requires Valid()
      modifies network
      ensures Valid()
      ensures var s := old(Value());
              Value() == if extra > 0 && PropagatesDelay(At(s, next.client), next, s.client.sum)
                         then PushDelay(s, extra, now, next.client) else s
    {
      hide PushDelay, PropagatesDelay;
      if extra > 0 {
        var propagates := Propagates(At(Value(), next.client), next, network.clientSum);
        if propagates {
          PushAggregateDelay(extra, now, next.client);
        }
      }
    }

    /** The network carries a packet to the other endpoint. */
    method Carry(next: SimEvent, now: int)
      requires Valid()
      modifies Parts()
      ensures Valid() && Value() == Loops.EnterTunnel(old(Value()), next, now)
    {
      hide PushEvent, PushDelay, PropagatesDelay, AddToWindow, Congestion;
      var lag := DrawLag();
      var extra := network.Sample(now, next.client);
      SpreadCongestion(extra, next, now);
      var travel := extra + network.net.delay;
      var reported := next.time + next.delay + travel + lag;
      if !next.padding {
        reported := Max(next.time - next.delay + travel + lag, now);
      }
      PushSim(SimEvent(TETunnelRecv, reported, lag, !next.client, next.padding, false, false));
    }

    /** The network's part of an event; tells whether a packet was sent or received. */
    method SimNetworkStack(next: SimEvent, now: int) returns (activity: bool)
      requires Valid()
      modifies Parts()
      ensures Valid() && (Value(), activity) == Loops.NetworkStack(old(Value()), next, now)
    {
      hide PushEvent, Loops.SendPaddingPacket, Loops.EnterTunnel;
      match next.event
      case TENormalSent =>
        PushSim(SimEvent(TETunnelSent, next.time, next.delay, next.client, false, false, false));
        return false;
      case TEPaddingSent(_) =>
        SendPadding(next, now);
        return false;
      case TETunnelSent =>
        Carry(next, now);
        return true;
      case TETunnelRecv =>
        var received := if next.padding then TEPaddingRecv else TENormalRecv;
        PushSim(SimEvent(received, next.time, next.delay, next.client, next.padding, false, false));
        return true;
      case _ => return false;
    }

    // ---------- The framework's answer ----------

    /** Cancel, set or update the timers of the action's machine. */
    method Apply(a: TriggerAction, atClient: bool, now: int, lag: nat)
      requires Valid()
      requires a.machine < |At(Value(), atClient).actions| == |At(Value(), atClient).timers|
      modifies Parts()
      ensures Valid() && Value() == Loops.Perform1(old(Value()), atClient, a, now, lag)
    {
      hide PushEvent;
      var side := if atClient then client else server;
      match a
      case TACancel(m, kind) =>
        if kind != InternalTimer {
          side.actions := side.actions[m := None];
        }
        if kind != ActionTimer {
          side.timers := side.timers[m := None];
        }
      case TASendPadding(m, wait, _, _) =>
        side.actions := side.actions[m := Some(Scheduled(a, now + wait + lag))];
      case TABlockOutgoing(m, wait, _, _, _) =>
        side.actions := side.actions[m := Some(Scheduled(a, now + wait + lag))];
      case TAUpdateTimer(m, duration, replace) =>
        var current := if side.timers[m].Some? then side.timers[m].value else now;
        if replace || current < now + duration {
          side.timers := side.timers[m := Some(now + duration)];
          PushSim(SimEvent(TETimerBegin(m), now, 0, atClient, false, false, false));
        }
    }

    /** Apply the actions that the endpoint's framework answered with. */
    method TriggerUpdate(atClient: bool, now: int, actions: seq<TriggerAction>)
      requires Valid() && Loops.Fits(At(Value(), atClient), actions)
      modifies Parts()
      ensures Valid() && Value() == Loops.TriggerUpdate(old(Value()), atClient, now, actions)
    {
      hide Loops.Perform1, Value;
      var lag := DrawLag();
      ghost var s := Value();
      for k := 0 to |actions|
        invariant Valid() && Loops.Fits(At(Value(), atClient), actions)
        invariant Loops.PerformFrom(s, atClient, actions, 0, now, lag)
               == Loops.PerformFrom(Value(), atClient, actions, k, now, lag)
      {
        Apply(actions[k], atClient, now, lag);
      }
    }

    // ---------- The loop ----------

    /** The loop state, with the queues and timers of this object. */
    ghost function LoopAt(now: int, trace: seq<SimEvent>, iterations: nat,
                          done: seq<SimEvent>, gates: seq<Loops.Gate>): Loops.Loop
      reads Parts()
    {
      Loops.Loop(Value(), now, trace, iterations, done, gates)
    }

    /** One event: network, framework, and a line of the trace if it is wanted. */
    method ProcessEvent(args: Loops.Args, next: SimEvent, a: Loops.Answer, trace: seq<SimEvent>)
      returns (longer: seq<SimEvent>)
      requires Valid() && Loops.Lawful(Value(), a)
      modifies Parts()
      ensures Valid()
      ensures Loops.Lawful(Loops.NetworkStack(old(Value()), next, next.time).0, a)
      ensures forall l: Loops.Loop :: l.trace == trace ==>
                LoopAt(next.time, longer, l.iterations + 1, l.done + [next],
                       l.gates + [Loops.GateOf(At(old(Value()), next.client))])
                == Loops.Process(args, l, old(Value()), next, a)
    {
      hide Loops.NetworkStack, Loops.TriggerUpdate, Value, Loops.FitsMachines;
      Loops.NetworkKeepsMachines(Value(), next, next.time);
      var activity := SimNetworkStack(next, next.time);
      TriggerUpdate(next.client, next.time, if next.client then a.client else a.server);
      longer := trace;
      if (!args.onlyNetwork || activity) && (!args.onlyClient || next.client) {
        longer := longer + [Loops.Traced(next)];
      }
    }

    method NoNormalPacketsLeft() returns (none: bool)
      requires Valid()
      ensures none <==> Loops.NoNormal(Value())
    {
      none := NoNormalPackets(clientQueue.Value()) && NoNormalPackets(serverQueue.Value());
    }

    /** Is one of the stopping conditions met? */
    method Stops(args: Loops.Args, length: nat, iterations: nat, ghost l: Loops.Loop) returns (stops: bool)
      requires Valid() && l.sim == Value() && |l.trace| == length && l.iterations == iterations
      ensures Loops.Verdict(args, l) == if stops then Loops.Stopped(l) else Loops.Going(l)
    {
      hide Loops.NoNormal;
      if args.maxTraceLength > 0 && length >= args.maxTraceLength {
        return true;
      }
      if args.maxIterations > 0 && iterations >= args.maxIterations {
        return true;
      }
      var none := NoNormalPacketsLeft();
      return !args.continueAfter && none;
    }

    /** One iteration of the main loop; `l` is the loop state before it, `after` the one behind it. */
    method Turn(args: Loops.Args, start: int, shorter: seq<SimEvent>, count: nat, a: Loops.Answer, ghost l: Loops.Loop)
      returns (end: Ending, now: int, trace: seq<SimEvent>, iterations: nat, ghost after: Loops.Loop)
      requires Valid() && Loops.Lawful(Value(), a)
      requires l == LoopAt(start, shorter, count, l.done, l.gates)
      modifies Parts()
      ensures Valid()
      ensures var r := Loops.Iterate(args, l, a);
              && end == EndOf(r)
              && (end != Crash ==> after == r.loop == LoopAt(now, trace, iterations, after.done, after.gates))
    {
      hide Loops.Process, Loops.Fits, Value, Spec.PickNext, Loops.Traced, Loops.NoNormal, Loops.NetworkStack,
           Loops.Verdict;
      PickStaysLawful(l, a);
      now, trace, iterations, after := start, shorter, count, l;
      var o := PickNext(start);
      match o
      case Panicked => return Crash, now, trace, iterations, after;
      case Finished =>
        after := l.(sim := Value());
        return Stop, now, trace, iterations, after;
      case Event(next) =>
        if next.time < start {
          return Crash, now, trace, iterations, after;
        }
        after := Loops.Process(args, l, Value(), next, a);
        trace := ProcessEvent(args, next, a, shorter);
        now, iterations := next.time, count + 1;
        var stops := Stops(args, |trace|, iterations, after);
        end := if stops then Stop else Open;
    }

    /**
     The main loop and the final sort. The script holds the framework's answers; the loop may
     still be going when it ends.
     */
    method Simulate(args: Loops.Args, start: int, script: seq<Loops.Answer>)
      returns (end: Ending, sorted: seq<SimEvent>)
      requires Valid() && forall i :: 0 <= i < |script| ==> Loops.Lawful(Value(), script[i])
      modifies Parts()
      ensures Valid()
      ensures var r := Loops.Run(args, Loops.Loop(old(Value()), start, [], 0, [], []), script);
              && end == EndOf(r)
              && (end != Crash ==> r.loop.sim == Value() && sorted == SortByTime(r.loop.trace))
    {
      hide Loops.Iterate, Loops.Fits, Value, Spec.PickNext, SortByTime, Loops.NetworkStack;
      var now, iterations, trace := start, 0, [];
      ghost var l := LoopAt(start, [], 0, [], []);
      ghost var first := l;
      assert script[0..] == script;
      for k := 0 to |script|
        invariant Valid() && l == LoopAt(now, trace, iterations, l.done, l.gates)
        invariant forall i :: 0 <= i < |script| ==> Loops.Lawful(l.sim, script[i])
        invariant Loops.Run(args, first, script) == Loops.Run(args, l, script[k..])
      {
        RunOnce(args, l, script, k);
        end, now, trace, iterations, l := Turn(args, now, trace, iterations, script[k], l);
        if end != Open {
          return end, SortByTime(trace);
        }
      }
      return Open, SortByTime(trace);
    }
  }

  // ---------- From trace to trace ----------

  /** The lines of a trace become the base packets of both endpoints. */
  method ParseTrace(lines: seq<Line>, x: Setting) returns (p: Parsed)
    ensures p == Parse(lines, x)
  {
    hide Push, AddToWindow;
    var client, server := EmptyHeap(x), EmptyHeap(x);
    var sent := new WindowCount(PARSE_WINDOW);
    var received := new WindowCount(PARSE_WINDOW);
    var mostSent, mostReceived, drawn := 0, 0, 0;
    for i := 0 to |lines|
      invariant sent.Valid() && received.Valid() && sent != received
      invariant sent.window == received.window == PARSE_WINDOW && fresh(sent) && fresh(received)
      invariant Parsed(client, server, sent.times, received.times, mostSent, mostReceived, drawn)
             == Parse(lines[..i], x)
    {
      assert lines[..i + 1][..i] == lines[..i];
      var t := x.start + lines[i].time;
      match lines[i].direction
      case Sent =>
        var lag := x.lags(drawn);
        drawn := drawn + 1;
        client := Push(client, TracePacket(t, lag, true));
        var m := sent.Add(t);
        if m > mostSent {
          mostSent := m;
        }
      case Received =>
        var lag := x.lags(drawn);
        drawn := drawn + 1;
        server := Push(server, TracePacket(t - x.delay, lag, false));
        var m := received.Add(t);
        if m > mostReceived {
          mostReceived := m;
        }
      case Ignored =>
    }
    assert lines[..|lines|] == lines;
    return Parsed(client, server, sent.times, received.times, mostSent, mostReceived, drawn);
  }

  /**
   Simulate a parsed trace from the beginning. It panics at once on an empty trace or a rate of
   zero, and never otherwise: whatever was parsed gives a fresh start.
   */
  method SimAdvanced(p: Parsed, pps: Option<nat>, clientMachines: nat, serverMachines: nat, x: Setting,
                     args: Loops.Args, script: seq<Loops.Answer>)
    returns (end: Ending, sorted: seq<SimEvent>)
    requires forall i :: 0 <= i < |script| ==>
               OnePerMachine(script[i].client, clientMachines) && OnePerMachine(script[i].server, serverMachines)
    ensures var start := Start(p, pps, clientMachines, serverMachines, x);
            if start.None? then end == Crash
            else
              && (forall i :: 0 <= i < |script| ==> Loops.Lawful(start.value.sim, script[i]))
              && var r := Loops.Run(args, start.value, script);
                 && end == EndOf(r)
                 && (end != Crash ==> sorted == SortByTime(r.loop.trace))
                 && (Fresh(start.value) ==> end != Crash)
  {
    hide OnePerMachine, SoundLoop, FirstTime, PacketsPerSecond, Loops.Run, SortByTime;
    var start := Start(p, pps, clientMachines, serverMachines, x);
    if start.None? {
      return Crash, [];
    }
    var simulator := new Simulator(start.value.sim);
    end, sorted := simulator.Simulate(args, start.value.now, script);
    if Fresh(start.value) {
      RunSound(args, start.value, script);
    }
  }
}
