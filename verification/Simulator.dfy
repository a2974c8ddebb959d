/**
 The simulator's main loop: pick the next event, simulate the network, let the framework
 react. The framework is an arbitrary oracle that returns at most one action per machine.
 */
module Simulator {
  import opened Prelude
  import opened Machines
  import opened SimEvents
  import opened Queues
  import opened SimState
  import opened Selector
  import opened Scheduler

  // ---------- The network ----------

  function Packet(e: TriggerEvent, time: int, delay: nat, client: bool, padding: bool, bypass: bool,
                  replace: bool): SimEvent
  {
    SimEvent(e, time, delay, client, padding, bypass, replace)
  }

  /** Padding that was sent: it may be replaced by a packet held back by blocking. */
  function SendPaddingPacket(s: Sim, next: SimEvent, now: int): Sim {
    var ep := At(s, next.client);
    var (held, id) := PeekBlocking(ep.queue, ep.bypassable);
    if next.replace && held.Some? && held.value.client == next.client
       && held.value.event == TETunnelSent && !held.value.padding
    then (if next.bypass then ReplaceByHeld(s, next.client, now) else s)
    else PushEvent(s, Packet(TETunnelSent, next.time, next.delay, next.client, true, next.bypass, next.replace))
  }

  /** The held packet takes the place of bypassing padding: it moves to the bypassing packets. */
  function ReplaceByHeld(s: Sim, client: bool, now: int): Sim
    requires PeekBlocking(At(s, client).queue, At(s, client).bypassable).0.Some?
  {
    var ep := At(s, client);
    var (_, id) := PeekBlocking(ep.queue, ep.bypassable);
    var (queue, e) := Dequeue(ep.queue, id, ep.sum);
    var entry := e.(bypass := true, replace := false);
    var popped := ep.(queue := queue);
    var s1 := Put(s, client, popped);
    var delay := DelayOnReplace(popped, now, entry);
    var s2 := if delay.Some? then PushDelay(s1, delay.value, now, client) else s1;
    PushEvent(s2, entry)
  }

  /** A packet enters the tunnel: the network delays it and the recipient's side queues its arrival. */
  function EnterTunnel(s: Sim, next: SimEvent, now: int): Sim {
    var (lag, s1) := Lag(s);
    var ep := At(s1, next.client);
    var window := AddToWindow(ep.window, now, s.net.window);
    var s2 := Put(s1, next.client, ep.(window := window));
    var extra := Congestion(s.net, |window|);
    var s3 := if extra > 0 && PropagatesDelay(At(s2, next.client), next, s.client.sum)
              then PushDelay(s2, extra, now, next.client) else s2;
    var travel := extra + s.net.delay;
    var arrival := if next.padding then next.time + next.delay + travel + lag
                   else Max(next.time - next.delay + travel + lag, now);
    PushEvent(s3, Packet(TETunnelRecv, arrival, lag, !next.client, next.padding, false, false))
  }

  /** What the network does with the next event, and whether that is network activity. */
  function NetworkStack(s: Sim, next: SimEvent, now: int): (Sim, bool) {
    match next.event
    case TENormalSent =>
      (PushEvent(s, Packet(TETunnelSent, next.time, next.delay, next.client, false, false, false)), false)
    case TEPaddingSent(_) => (SendPaddingPacket(s, next, now), false)
    case TETunnelSent => (EnterTunnel(s, next, now), true)
    case TETunnelRecv =>
      (PushEvent(s, Packet(if next.padding then TEPaddingRecv else TENormalRecv,
                           next.time, next.delay, next.client, next.padding, false, false)), true)
    case _ => (s, false)
  }

  // ---------- The framework's answer ----------

  function SetAction(ep: Endpoint, machine: nat, a: Option<Scheduled>): Endpoint
    requires machine < |ep.actions|
  {
    ep.(actions := ep.actions[machine := a])
  }

  function SetTimer(ep: Endpoint, machine: nat, t: Option<int>): Endpoint
    requires machine < |ep.timers|
  {
    ep.(timers := ep.timers[machine := t])
  }

  /** Perform one returned action at time now, with the trigger lag of this call. */
  function Perform1(s: Sim, client: bool, a: TriggerAction, now: int, lag: nat): (r: Sim)
    requires a.machine < |At(s, client).actions| == |At(s, client).timers|
    ensures |At(r, client).actions| == |At(s, client).actions| && |At(r, client).timers| == |At(s, client).timers|
  {
    var ep := At(s, client);
    match a
    case TACancel(m, kind) =>
      var ep1 := if kind == InternalTimer then ep else SetAction(ep, m, None);
      var ep2 := if kind == ActionTimer then ep1 else SetTimer(ep1, m, None);
      Put(s, client, ep2)
    case TASendPadding(m, wait, _, _) => Put(s, client, SetAction(ep, m, Some(Scheduled(a, now + wait + lag))))
    case TABlockOutgoing(m, wait, _, _, _) => Put(s, client, SetAction(ep, m, Some(Scheduled(a, now + wait + lag))))
    case TAUpdateTimer(m, duration, replace) =>
      var current := if ep.timers[m].Some? then ep.timers[m].value else now;
      if replace || current < now + duration then
        PushEvent(Put(s, client, SetTimer(ep, m, Some(now + duration))),
                  Packet(TETimerBegin(m), now, 0, client, false, false, false))
      else s
  }

  predicate FitsMachines(machines: nat, timers: nat, actions: seq<TriggerAction>) {
    machines == timers && OnePerMachine(actions, machines)
  }

  predicate Fits(ep: Endpoint, actions: seq<TriggerAction>) {
    FitsMachines(|ep.actions|, |ep.timers|, actions)
  }

  function PerformFrom(s: Sim, client: bool, actions: seq<TriggerAction>, k: nat, now: int, lag: nat): (r: Sim)
    requires Fits(At(s, client), actions) && k <= |actions|
    decreases |actions| - k
  {
    if k == |actions| then s
    else PerformFrom(Perform1(s, client, actions[k], now, lag), client, actions, k + 1, now, lag)
  }

  function TriggerUpdate(s: Sim, client: bool, now: int, actions: seq<TriggerAction>): Sim
    requires Fits(At(s, client), actions)
  {
    var (lag, s1) := Lag(s);
    PerformFrom(s1, client, actions, 0, now, lag)
  }

  // ---------- The loop ----------

  datatype Args = Args(maxTraceLength: nat, maxIterations: nat, continueAfter: bool,
                       onlyClient: bool, onlyNetwork: bool)

  /** What the framework answers if the next event is the client's, and if it is the server's. */
  datatype Answer = Answer(client: seq<TriggerAction>, server: seq<TriggerAction>)

  function For(a: Answer, client: bool): seq<TriggerAction> {
    if client then a.client else a.server
  }

  /** Both sides could perform the answer. */
  predicate Lawful(s: Sim, a: Answer) {
    Fits(s.client, a.client) && Fits(s.server, a.server)
  }

  /** Whether an endpoint was blocking, and whether its blocking could be bypassed. */
  datatype Gate = Gate(blocking: bool, bypassable: bool)

  function GateOf(ep: Endpoint): Gate {
    Gate(ep.until.Some?, ep.bypassable)
  }

  /** The loop state. History: `done`, every event processed, and `gates`, the gate it found. */
  datatype Loop = Loop(sim: Sim, now: int, trace: seq<SimEvent>, iterations: nat,
                       done: seq<SimEvent>, gates: seq<Gate>)

  datatype Status = Going(loop: Loop) | Stopped(loop: Loop) | Crashed

  /** The time stamped on a traced packet: without the integration's lag, or with it for padding. */
  function Traced(e: SimEvent): SimEvent {
    match e.event
    case TENormalSent => e.(time := e.time - e.delay)
    case TEPaddingSent(_) => e.(time := e.time + e.delay)
    case TETunnelSent => e.(time := if e.padding then e.time + e.delay else e.time - e.delay)
    case TETunnelRecv => e.(time := e.time - e.delay)
    case TEPaddingRecv => e.(time := e.time - e.delay)
    case TENormalRecv => e.(time := e.time - e.delay)
    case _ => e
  }

  /**
   Between the times that the trace will show, a packet travels for the network delay and its
   congestion, whatever the lags on both sides; only a lag at the sender that is longer than
   the way makes a normal packet arrive now instead.
   */
  lemma TravelTime(s: Sim, next: SimEvent, now: int) returns (e: SimEvent)
    requires next.event == TETunnelSent
    ensures At(EnterTunnel(s, next, now), !next.client).queue.internal.items
         == At(s, !next.client).queue.internal.items + [e]
    ensures e.event == TETunnelRecv && e.client == !next.client && e.padding == next.padding
    ensures var count := |AddToWindow(At(s, next.client).window, now, s.net.window)|;
            var arrival := Traced(next).time + s.net.delay + Congestion(s.net, count);
            Traced(e).time == if next.padding then arrival else Max(arrival, now - e.delay)
  {
    hide AddToWindow, Congestion, PropagatesDelay;
    var items := At(EnterTunnel(s, next, now), !next.client).queue.internal.items;
    e := items[|items| - 1];
  }

  predicate NoNormal(s: Sim) {
    NoNormalPackets(s.client.queue) && NoNormalPackets(s.server.queue)
  }

  /** Process one event: network, framework, trace. */
  function Process(args: Args, l: Loop, s: Sim, e: SimEvent, a: Answer): Loop
    requires Lawful(NetworkStack(s, e, e.time).0, a)
  {
    var (s1, activity) := NetworkStack(s, e, e.time);
    var s2 := TriggerUpdate(s1, e.client, e.time, For(a, e.client));
    var kept := (!args.onlyNetwork || activity) && (!args.onlyClient || e.client);
    Loop(s2, e.time, if kept then l.trace + [Traced(e)] else l.trace, l.iterations + 1,
         l.done + [e], l.gates + [GateOf(At(s, e.client))])
  }

  function Verdict(args: Args, l: Loop): Status {
    if || (args.maxTraceLength > 0 && |l.trace| >= args.maxTraceLength)
       || (args.maxIterations > 0 && l.iterations >= args.maxIterations)
       || (!args.continueAfter && NoNormal(l.sim))
    then Stopped(l) else Going(l)
  }

  /** Endpoints keep their number of machines. */
  predicate SameMachines(s: Sim, r: Sim) {
    && |s.client.actions| == |r.client.actions| && |s.client.timers| == |r.client.timers|
    && |s.server.actions| == |r.server.actions| && |s.server.timers| == |r.server.timers|
  }

  /** One iteration of the loop. */
  function Iterate(args: Args, l: Loop, a: Answer): Status
    requires Lawful(l.sim, a)
  {
    PickKeepsMachines(l.sim, l.now);
    match PickNext(l.sim, l.now)
    case Bug => Crashed
    case Idle(s) => Stopped(l.(sim := s))
    case Next(s, e) =>
      if e.time < l.now then Crashed
      else
        NetworkKeepsMachines(s, e, e.time);
        Verdict(args, Process(args, l, s, e, a))
  }

  // ---------- Machines stay ----------

  lemma NetworkKeepsMachines(s: Sim, e: SimEvent, now: int)
    ensures SameMachines(s, NetworkStack(s, e, now).0)
  {
    hide PeekBlocking, PushEvent, SendPaddingPacket, EnterTunnel;
    PushKeeps(s);
    PaddingKeepsMachines(s, e, now);
    EnterKeepsMachines(s, e, now);
  }

  lemma PushKeeps(s: Sim)
    ensures forall e :: SameMachines(s, PushEvent(s, e))
  {
    hide Enqueue;
  }

  lemma PaddingKeepsMachines(s: Sim, e: SimEvent, now: int)
    ensures SameMachines(s, SendPaddingPacket(s, e, now))
  {
    hide PeekBlocking, Enqueue, Dequeue, DelayOnReplace;
  }

  lemma EnterKeepsMachines(s: Sim, e: SimEvent, now: int)
    ensures SameMachines(s, EnterTunnel(s, e, now))
  {
    hide Enqueue, AddToWindow, Congestion, PropagatesDelay;
  }

  lemma PopDelayKeepsMachines(s: Sim)
    requires s.pending.items != []
    ensures SameMachines(s, PopDelay(s))
  {
  }

  lemma EndKeepsMachines(s: Sim, expire: int, client: bool)
    ensures SameMachines(s, EndBlocking(s, expire, client).sim)
  {
    hide ExpiryDelay, Enqueue;
  }

  lemma FireKeepsMachines(s: Sim, target: int)
    ensures FireTimer(s, target).Panic? || (FireTimer(s, target).Again? && SameMachines(s, FireTimer(s, target).sim))
    ensures FireAction(s, target).Panic? || (FireAction(s, target).Again? && SameMachines(s, FireAction(s, target).sim))
  {
    hide Enqueue, Armed;
  }

  lemma TakeKeepsMachines(s: Sim, p: Pick, now: int)
    requires p.wait.In?
    ensures TakeQueued(s, p, now).Yield? ==> SameMachines(s, TakeQueued(s, p, now).sim)
  {
    hide Dequeue;
  }

  lemma AdvanceKeepsMachines(s: Sim, now: int)
    ensures var r := Advance(s, now);
            r.Again? || r.Yield? ==> SameMachines(s, r.sim)
  {
    hide WaitsAt, Choose, Chosen, EndBlocking, FireTimer, FireAction, SameMachines, PopDelay;
    var w := WaitsAt(s, now);
    ChosenIsLeast(w);
    match Choose(w)
    case NoChoice =>
    case TakeDelay => PopDelayKeepsMachines(s);
    case TakeExpiry => EndKeepsMachines(s, now + w.unblock.ns, w.unblockClient);
    case TakeEvent => TakeKeepsMachines(s, w.queue, now);
    case TakeTimer => FireKeepsMachines(s, now + w.timer.ns);
    case TakeAction => FireKeepsMachines(s, now + w.action.ns);
  }

  lemma {:induction false} PickKeepsMachines(s: Sim, now: int)
    ensures var r := PickNext(s, now);
            r.Next? || r.Idle? ==> SameMachines(s, r.sim)
    decreases Timers(s), Blockings(s), |s.pending.items|
  {
    hide Advance;
    AdvanceKeepsMachines(s, now);
    if Advance(s, now).Again? {
      RoundsShrink(s, now);
      PickKeepsMachines(Advance(s, now).sim, now);
    }
  }

  lemma {:induction false} PerformKeepsMachines(s: Sim, client: bool, actions: seq<TriggerAction>, k: nat, now: int,
                                                lag: nat)
    requires Fits(At(s, client), actions) && k <= |actions|
    ensures SameMachines(s, PerformFrom(s, client, actions, k, now, lag))
    decreases |actions| - k
  {
    hide Enqueue;
    if k < |actions| {
      PerformKeepsMachines(Perform1(s, client, actions[k], now, lag), client, actions, k + 1, now, lag);
    }
  }

  // ---------- Runs ----------

  /** The loop over a script of the framework's answers; it may still be going when the script ends. */
  function Run(args: Args, l: Loop, script: seq<Answer>): Status
    requires forall i :: 0 <= i < |script| ==> Lawful(l.sim, script[i])
    decreases |script|
  {
    if script == [] then Going(l)
    else
      var r := Iterate(args, l, script[0]);
      IterateKeepsMachines(args, l, script[0]);
      if r.Going? then
        LawfulStays(l.sim, r.loop.sim, script);
        Run(args, r.loop, script[1..])
      else r
  }

  lemma LawfulStays(s: Sim, r: Sim, script: seq<Answer>)
    requires SameMachines(s, r) && script != []
    requires forall i :: 0 <= i < |script| ==> Lawful(s, script[i])
    ensures forall i :: 0 <= i < |script[1..]| ==> Lawful(r, script[1..][i])
  {
    forall i | 0 <= i < |script[1..]|
      ensures Lawful(r, script[1..][i])
    {
      assert Lawful(s, script[i + 1]);
    }
  }

  lemma IterateKeepsMachines(args: Args, l: Loop, a: Answer)
    requires Lawful(l.sim, a)
    ensures var r := Iterate(args, l, a);
            !r.Crashed? ==> SameMachines(l.sim, r.loop.sim)
  {
    hide PickNext, NetworkStack, PerformFrom, Traced, NoNormal;
    PickKeepsMachines(l.sim, l.now);
    var p := PickNext(l.sim, l.now);
    if p.Next? && l.now <= p.event.time {
      NetworkKeepsMachines(p.sim, p.event, p.event.time);
      var s1 := NetworkStack(p.sim, p.event, p.event.time).0;
      var (lag, s2) := Lag(s1);
      PerformKeepsMachines(s2, p.event.client, For(a, p.event.client), 0, p.event.time, lag);
    }
  }
}
