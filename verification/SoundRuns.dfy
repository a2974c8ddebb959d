/** Soundness through the network, the framework's answers, and whole runs of the simulator. */
module SoundRuns {
  import opened Prelude
  import opened Machines
  import opened SimEvents
  import opened Queues
  import opened SimState
  import opened Selector
  import opened Scheduler
  import opened Timing
  import opened Simulator

  // ---------- The network ----------

  lemma PutQueueSound(s: Sim, t: int, client: bool, id: Queue)
    requires Sound(s, t) && Select(At(s, client).queue, id).items != []
    ensures var ep := At(s, client);
            Sound(Put(s, client, ep.(queue := Dequeue(ep.queue, id, ep.sum).0)), t)
  {
    hide *;
    var ep := At(s, client);
    SideOf(s, client, t);
    DequeueSound(ep, client, t, id);
    PutSound(s, t, client, ep.(queue := Dequeue(ep.queue, id, ep.sum).0));
  }

  /** The held packet is a packet of this endpoint that has been waiting. */
  lemma HeldPacket(ep: Endpoint, client: bool, t: int)
    requires SoundSide(ep, client, t) && PeekBlocking(ep.queue, ep.bypassable).0.Some?
    ensures var (held, id) := PeekBlocking(ep.queue, ep.bypassable);
            && Select(ep.queue, id).items != [] && Peek(Select(ep.queue, id)) == held
            && Dequeue(ep.queue, id, ep.sum).1 == held.value
            && held.value.event == TETunnelSent && held.value.client == client && held.value.time <= t
  {
    hide SoundSide, Peek, PeekBlocking, Pop, NotBefore;
    BlockingSoonest(ep);
    TopTimely(ep, client, t, PeekBlocking(ep.queue, ep.bypassable).1);
  }

  lemma DelayedSound(s: Sim, t: int, delay: Option<nat>, client: bool)
    requires Sound(s, t)
    ensures Sound(if delay.Some? then PushDelay(s, delay.value, t, client) else s, t)
  {
    hide Sound;
    if delay.Some? {
      PushDelaySound(s, t, delay.value, t, client);
    }
  }

  lemma PacketTimely(e: SimEvent, t: int)
    requires e.event == TETunnelSent && e.time <= t
    ensures Timely(e, t)
  {
  }

  lemma ReplaceSound(s: Sim, client: bool, t: int)
    requires Sound(s, t) && PeekBlocking(At(s, client).queue, At(s, client).bypassable).0.Some?
    ensures Sound(ReplaceByHeld(s, client, t), t)
  {
    hide Sound, SoundSide, At, Put, PeekBlocking, Dequeue, Select, DelayOnReplace, PushDelay, PushEvent, Timely;
    var ep := At(s, client);
    var (_, id) := PeekBlocking(ep.queue, ep.bypassable);
    SideOf(s, client, t);
    HeldPacket(ep, client, t);
    PutQueueSound(s, t, client, id);
    var (queue, e) := Dequeue(ep.queue, id, ep.sum);
    var entry := e.(bypass := true, replace := false);
    var popped := ep.(queue := queue);
    var delay := DelayOnReplace(popped, t, entry);
    DelayedSound(Put(s, client, popped), t, delay, client);
    PacketTimely(entry, t);
    var s1 := Put(s, client, popped);
    PushSound(if delay.Some? then PushDelay(s1, delay.value, t, client) else s1, t, entry);
  }

  lemma SendPaddingSound(s: Sim, next: SimEvent, t: int)
    requires Sound(s, t) && next.time <= t
    ensures Sound(SendPaddingPacket(s, next, t), t)
  {
    hide Sound, At, PeekBlocking, ReplaceByHeld, PushEvent, Timely;
    var ep := At(s, next.client);
    if PeekBlocking(ep.queue, ep.bypassable).0.Some? {
      ReplaceSound(s, next.client, t);
    }
    var e := Packet(TETunnelSent, next.time, next.delay, next.client, true, next.bypass, next.replace);
    PacketTimely(e, t);
    PushSound(s, t, e);
  }

  lemma WindowSound(s: Sim, t: int, client: bool, window: seq<int>)
    requires Sound(s, t)
    ensures Sound(Put(s, client, At(s, client).(window := window)), t)
  {
  }

  lemma EnterTunnelSound(s: Sim, next: SimEvent, t: int)
    requires Sound(s, t) && next.time == t
    ensures Sound(EnterTunnel(s, next, t), t)
  {
    hide Sound, At, Put, Lag, AddToWindow, Congestion, PropagatesDelay, PushDelay, PushEvent;
    LagSound(s, t);
    var (lag, s1) := Lag(s);
    var ep := At(s1, next.client);
    var window := AddToWindow(ep.window, t, s.net.window);
    WindowSound(s1, t, next.client, window);
    var s2 := Put(s1, next.client, ep.(window := window));
    var extra := Congestion(s.net, |window|);
    var delay := if extra > 0 && PropagatesDelay(At(s2, next.client), next, s.client.sum) then Some(extra) else None;
    DelayedSound(s2, t, delay, next.client);
    var s3 := if delay.Some? then PushDelay(s2, delay.value, t, next.client) else s2;
    var travel := extra + s.net.delay;
    var arrival := if next.padding then next.time + next.delay + travel + lag
                   else Max(next.time - next.delay + travel + lag, t);
    PushSound(s3, t, Packet(TETunnelRecv, arrival, lag, !next.client, next.padding, false, false));
  }

  lemma NetworkSound(s: Sim, next: SimEvent, t: int)
    requires Sound(s, t) && next.time == t
    ensures Sound(NetworkStack(s, next, t).0, t)
  {
    hide Sound, PushEvent, SendPaddingPacket, EnterTunnel;
    match next.event
    case TENormalSent =>
      PushSound(s, t, Packet(TETunnelSent, next.time, next.delay, next.client, false, false, false));
    case TEPaddingSent(_) => SendPaddingSound(s, next, t);
    case TETunnelSent => EnterTunnelSound(s, next, t);
    case TETunnelRecv =>
      PushSound(s, t, Packet(if next.padding then TEPaddingRecv else TENormalRecv,
                             next.time, next.delay, next.client, next.padding, false, false));
    case _ =>
  }

  // ---------- The framework's answer ----------

  lemma SetSound(ep: Endpoint, client: bool, t: int, m: nat, a: Option<Scheduled>, timer: Option<int>)
    requires SoundSide(ep, client, t) && m < |ep.actions| == |ep.timers|
    requires a.Some? ==> t <= a.value.time && Schedulable(a.value.action)
    requires timer.Some? ==> t <= timer.value
    ensures SoundSide(SetAction(ep, m, a), client, t)
    ensures SoundSide(SetTimer(ep, m, timer), client, t)
  {
  }

  lemma PerformSound1(s: Sim, client: bool, a: TriggerAction, t: int, lag: nat)
    requires Sound(s, t) && a.machine < |At(s, client).actions| == |At(s, client).timers|
    ensures Sound(Perform1(s, client, a, t, lag), t)
  {
    hide Sound, SoundSide, At, Put, PushEvent;
    var ep := At(s, client);
    var m := a.machine;
    SideOf(s, client, t);
    match a
    case TACancel(_, kind) =>
      SetSound(ep, client, t, m, None, None);
      var ep1 := if kind == InternalTimer then ep else SetAction(ep, m, None);
      SetSound(ep1, client, t, m, None, None);
      PutSound(s, t, client, if kind == ActionTimer then ep1 else SetTimer(ep1, m, None));
    case TASendPadding(_, wait, _, _) =>
      SetSound(ep, client, t, m, Some(Scheduled(a, t + wait + lag)), None);
      PutSound(s, t, client, SetAction(ep, m, Some(Scheduled(a, t + wait + lag))));
    case TABlockOutgoing(_, wait, _, _, _) =>
      SetSound(ep, client, t, m, Some(Scheduled(a, t + wait + lag)), None);
      PutSound(s, t, client, SetAction(ep, m, Some(Scheduled(a, t + wait + lag))));
    case TAUpdateTimer(_, duration, _) =>
      SetSound(ep, client, t, m, None, Some(t + duration));
      var s1 := Put(s, client, SetTimer(ep, m, Some(t + duration)));
      PutSound(s, t, client, SetTimer(ep, m, Some(t + duration)));
      PushSound(s1, t, Packet(TETimerBegin(m), t, 0, client, false, false, false));
  }

  lemma {:induction false} PerformFromSound(s: Sim, client: bool, actions: seq<TriggerAction>, k: nat, t: int, lag: nat)
    requires Sound(s, t) && Fits(At(s, client), actions) && k <= |actions|
    ensures Sound(PerformFrom(s, client, actions, k, t, lag), t)
    decreases |actions| - k
  {
    hide Sound, Perform1, At;
    if k < |actions| {
      PerformSound1(s, client, actions[k], t, lag);
      PerformFromSound(Perform1(s, client, actions[k], t, lag), client, actions, k + 1, t, lag);
    }
  }

  lemma TriggerSound(s: Sim, client: bool, t: int, actions: seq<TriggerAction>)
    requires Sound(s, t) && Fits(At(s, client), actions)
    ensures Sound(TriggerUpdate(s, client, t, actions), t)
  {
    hide Sound, PerformFrom;
    LagSound(s, t);
    var (lag, s1) := Lag(s);
    PerformFromSound(s1, client, actions, 0, t, lag);
  }

  // ---------- Runs ----------

  /** Every packet that met a blocking gate could bypass it. */
  ghost predicate AllClosed(done: seq<SimEvent>, gates: seq<Gate>) {
    && |gates| == |done|
    && forall i :: 0 <= i < |done| && done[i].event == TETunnelSent && gates[i].blocking ==>
         gates[i].bypassable && done[i].bypass
  }

  lemma OneMoreClosed(done: seq<SimEvent>, gates: seq<Gate>, s: Sim, e: SimEvent)
    requires AllClosed(done, gates) && FailsClosed(s, e)
    ensures AllClosed(done + [e], gates + [GateOf(At(s, e.client))])
  {
  }

  /** The loop is sound at its time, and the events processed so far went forward in time. */
  ghost predicate SoundLoop(l: Loop) {
    && Sound(l.sim, l.now)
    && AllClosed(l.done, l.gates)
    && (forall i, j :: 0 <= i < j < |l.done| ==> l.done[i].time <= l.done[j].time)
    && (forall i :: 0 <= i < |l.done| ==> l.done[i].time <= l.now)
  }

  lemma ProcessSound(args: Args, l: Loop, s: Sim, e: SimEvent, a: Answer)
    requires Lawful(NetworkStack(s, e, e.time).0, a)
    requires SoundLoop(l) && Sane(s, e, l.now)
    ensures SoundLoop(Process(args, l, s, e, a))
  {
    hide Sound, NetworkStack, TriggerUpdate, FailsClosed, AllClosed;
    OneMoreClosed(l.done, l.gates, s, e);
    NetworkSound(s, e, e.time);
    TriggerSound(NetworkStack(s, e, e.time).0, e.client, e.time, For(a, e.client));
  }

  /**
   An iteration from a sound loop never crashes: no event moves time backwards, no timer is
   missed, and no empty heap is popped. The loop that results is sound again.
   */
  lemma IterateSound(args: Args, l: Loop, a: Answer)
    requires SoundLoop(l) && Lawful(l.sim, a)
    ensures var r := Iterate(args, l, a);
            && !r.Crashed? && SoundLoop(r.loop) && l.now <= r.loop.now
            && (PickNext(l.sim, l.now).Idle? <==> Quiescent(l.sim))
  {
    hide PickNext, Process, NetworkStack, NoNormal, Sound, FailsClosed, Quiescent, AllClosed;
    PickNextSound(l.sim, l.now);
    PickKeepsMachines(l.sim, l.now);
    var p := PickNext(l.sim, l.now);
    if p.Next? {
      NetworkKeepsMachines(p.sim, p.event, p.event.time);
      ProcessSound(args, l, p.sim, p.event, a);
      ProcessTime(args, l, p.sim, p.event, a);
    }
  }

  lemma ProcessTime(args: Args, l: Loop, s: Sim, e: SimEvent, a: Answer)
    requires Lawful(NetworkStack(s, e, e.time).0, a)
    ensures Process(args, l, s, e, a).now == e.time
    ensures Process(args, l, s, e, a).done == l.done + [e]
  {
    hide NetworkStack, TriggerUpdate;
  }

  /** No run from a sound loop crashes, whatever the framework answers. */
  lemma {:induction false} RunSound(args: Args, l: Loop, script: seq<Answer>)
    requires SoundLoop(l) && forall i :: 0 <= i < |script| ==> Lawful(l.sim, script[i])
    ensures var r := Run(args, l, script);
            !r.Crashed? && SoundLoop(r.loop) && l.now <= r.loop.now
    decreases |script|
  {
    hide Iterate, SoundLoop;
    if script != [] {
      IterateSound(args, l, script[0]);
      IterateKeepsMachines(args, l, script[0]);
      var r := Iterate(args, l, script[0]);
      if r.Going? {
        LawfulStays(l.sim, r.loop.sim, script);
        RunSound(args, r.loop, script[1..]);
      }
    }
  }

  /**
   Blocking fails closed in every run: an endpoint that is blocking sends no packet into the
   tunnel unless its blocking can be bypassed and the packet is allowed to bypass.
   */
  lemma RunFailsClosed(args: Args, l: Loop, script: seq<Answer>)
    requires SoundLoop(l) && forall k :: 0 <= k < |script| ==> Lawful(l.sim, script[k])
    ensures var r := Run(args, l, script);
            !r.Crashed? && AllClosed(r.loop.done, r.loop.gates)
  {
    hide Run, Sound, Lawful, AllClosed;
    RunSound(args, l, script);
  }
}
